/** When a row may join a thread: the exact conditions for threads to stay exclusive. */
module InboundJoins {
  import opened Common
  import opened InboundModel
  import opened InboundHistory
  import opened InboundGuarantees
  import opened InboundFifo
  import opened InboundArrivals

  // ---------------------------------------------------------------- joining a thread late

  /** Nothing running or held in the thread sorts after the given place. */
  predicate NothingHeldAfter(s: State, key: ThreadKey, t: Time, id: JobId) {
    forall c | c in s.jobs && s.jobs[c].threadKey == Some(key) ::
      KeyBefore(t, id, s.jobs[c].createdAt, c) ==> s.jobs[c].status != Processing && s.jobs[c].status != ReviewRequired
  }

  /** A row that joins a thread as queued keeps the thread's shape exactly when no
      running or held row of the thread is younger. */
  lemma JoinKeepsShapeIff(s: State, k: Job, log: seq<Event>)
    requires Keyed(s) && ThreadShape(s) && k.status == Queued && k.threadKey.Some?
    requires k.id in s.jobs ==> s.jobs[k.id].threadKey.None?
    ensures ThreadShape(State(s.jobs[k.id := k], log))
      <==> NothingHeldAfter(s, k.threadKey.value, k.createdAt, k.id)
  {
    var t := State(s.jobs[k.id := k], log);
    if NothingHeldAfter(s, k.threadKey.value, k.createdAt, k.id) {
      forall a, b | a in t.jobs && b in t.jobs && SameThread(t.jobs[a], t.jobs[b])
        ensures Before(t.jobs[a], t.jobs[b]) && Open(t.jobs[a]) && Open(t.jobs[b]) ==> t.jobs[b].status == Queued
      {
        if a == k.id && b != k.id { assert s.jobs[b].threadKey == Some(k.threadKey.value); }
      }
    } else {
      var c :| c in s.jobs && s.jobs[c].threadKey == k.threadKey && KeyBefore(k.createdAt, k.id, s.jobs[c].createdAt, c)
               && (s.jobs[c].status == Processing || s.jobs[c].status == ReviewRequired);
      assert c != k.id && t.jobs[c] == s.jobs[c];
      assert SameThread(t.jobs[k.id], t.jobs[c]) && Before(t.jobs[k.id], t.jobs[c]);
    }
  }

  /** Requeueing a quarantined legacy row: the exact condition for the thread to keep its shape. */
  lemma LegacyRequeueKeepsShapeIff(s: State, c: Command, now: Time)
    requires Rows(s) && ThreadShape(s) && Judge(s, c) == Verdict.Apply && c.action == Requeue
    requires s.jobs[c.job].legacy.Some?
    ensures var j := s.jobs[c.job];
            ThreadShape(Next(s, Operate(c, now)))
            <==> NothingHeldAfter(s, ThreadKey(j.route, j.legacy.value.message.threadId), j.createdAt, c.job)
  {
    assert RowOk(s.jobs[c.job]);
    JoinKeepsShapeIff(s, CommandRow(s.jobs[c.job], Requeue, now), Next(s, Operate(c, now)).log);
  }

  /** One accepted row whose transaction clock ran behind: the same exact condition. */
  lemma ArrivalKeepsShapeIff(s: State, row: NewRow, route: Uuid, agent: Uuid, now: Time)
    requires Keyed(s) && ThreadShape(s) && row.id !in s.jobs && !KeyTaken(s, route, row.message.providerId)
    ensures ThreadShape(Admit(s, row, route, agent, now))
      <==> NothingHeldAfter(s, ThreadKey(route, row.message.threadId), now, row.id)
  {
    JoinKeepsShapeIff(s, FreshRow(row, route, agent, now), Admit(s, row, route, agent, now).log);
  }

  lemma AdmitOnlyAdds(s: State, row: NewRow, route: Uuid, agent: Uuid, now: Time)
    requires Keyed(s) && row.id !in s.jobs && ThreadShape(Admit(s, row, route, agent, now))
    ensures ThreadShape(s)
  {
    var t := Admit(s, row, route, agent, now);
    forall a, b | a in s.jobs && b in s.jobs && SameThread(s.jobs[a], s.jobs[b])
      ensures Before(s.jobs[a], s.jobs[b]) && Open(s.jobs[a]) && Open(s.jobs[b]) ==> s.jobs[b].status == Queued {
      assert t.jobs[a] == s.jobs[a] && t.jobs[b] == s.jobs[b];
    }
  }

  /** Newly admitted rows are queued, so they hold nothing up for the rest of their batch. */
  lemma AdmittedHoldNothing(s: State, rows: seq<NewRow>, route: Uuid, agent: Uuid, now: Time, key: ThreadKey, id: JobId)
    requires Keyed(s) && FreshIds(s, rows)
    ensures NothingHeldAfter(AdmitAll(s, rows, route, agent, now), key, now, id) <==> NothingHeldAfter(s, key, now, id)
  {
    var t := AdmitAll(s, rows, route, agent, now);
    forall c | c in s.jobs ensures c in t.jobs && t.jobs[c] == s.jobs[c] {
      AdmitAllFrame(s, rows, route, agent, now, c);
    }
    forall c | c in t.jobs && c !in s.jobs ensures t.jobs[c].status == Queued {
      AdmittedRowsAreQueued(s, rows, route, agent, now, c);
    }
  }

  lemma LastFirstSeen(s: State, rows: seq<NewRow>, route: Uuid, agent: Uuid, now: Time)
    requires Keyed(s) && FreshIds(s, rows) && rows != []
    ensures var init := rows[..|rows| - 1];
            && (FirstSeen(s, rows, route, |rows| - 1)
                <==> !KeyTaken(AdmitAll(s, init, route, agent, now), route, rows[|rows| - 1].message.providerId))
            && (forall i | 0 <= i < |init| :: FirstSeen(s, rows, route, i) <==> FirstSeen(s, init, route, i))
  {
    var init, last := rows[..|rows| - 1], rows[|rows| - 1];
    assert FreshIds(s, init);
    KeysAfter(s, init, route, agent, now, route, last.message.providerId);
    if j :| 0 <= j < |init| && rows[j].message.providerId == last.message.providerId { assert init[j] in init; }
  }

  /** Every row a batch brings in finds nothing running or held behind its place. */
  predicate BatchAtRest(s: State, rows: seq<NewRow>, route: Uuid, now: Time) {
    forall i | 0 <= i < |rows| && FirstSeen(s, rows, route, i) ::
      NothingHeldAfter(s, ThreadKey(route, rows[i].message.threadId), now, rows[i].id)
  }

  /** A whole batch keeps every thread's shape iff each row it brings in does. */
  lemma {:induction false} BatchKeepsShapeIff(s: State, rows: seq<NewRow>, route: Uuid, agent: Uuid, now: Time)
    requires Keyed(s) && ThreadShape(s) && FreshIds(s, rows)
    ensures ThreadShape(AdmitAll(s, rows, route, agent, now)) <==> BatchAtRest(s, rows, route, now)
  {
    if rows != [] {
      var init, last := rows[..|rows| - 1], rows[|rows| - 1];
      var mid := AdmitAll(s, init, route, agent, now);
      assert FreshIds(s, init);
      BatchKeepsShapeIff(s, init, route, agent, now);
      LastFirstSeen(s, rows, route, agent, now);
      AdmitAllKeyed(s, init, route, agent, now);
      AdmittedAreFromBatch(s, init, route, agent, now, last.id);
      AdmittedHoldNothing(s, init, route, agent, now, ThreadKey(route, last.message.threadId), last.id);
      assert BatchAtRest(s, rows, route, now) ==> BatchAtRest(s, init, route, now);
      if ThreadShape(mid) {
        if !KeyTaken(mid, route, last.message.providerId) { ArrivalKeepsShapeIff(mid, last, route, agent, now); }
      } else if ThreadShape(AdmitAll(s, rows, route, agent, now)) {
        AdmitOnlyAdds(mid, last, route, agent, now);
      }
    }
  }

  // ---------------------------------------------------------------- over whole runs

  /** The rows a step lets into a thread, if any, find nothing running or held behind them. */
  predicate JoinsAtRest(s: State, st: Step)
    requires Enabled(s, st)
  {
    match st
    case Enqueue(rows, route, _, now) => BatchAtRest(s, rows, route, now)
    case Operate(c, _) =>
      var j := s.jobs[c.job];
      c.action == Requeue && j.legacy.Some? ==>
        NothingHeldAfter(s, ThreadKey(j.route, j.legacy.value.message.threadId), j.createdAt, c.job)
    case _ => true
  }

  lemma ClaimKeepsShape(s: State, worker: WorkerId, job: JobId, expires: Time, log: seq<Event>)
    requires Keyed(s) && ThreadShape(s) && job in s.jobs && Claimable(s, s.jobs[job])
    ensures ThreadShape(State(s.jobs[job := ClaimRow(s.jobs[job], worker, expires)], log))
  {
  }

  /** A row that moves on from running or held, or becomes queued or terminal, disturbs nobody. */
  lemma RewriteKeepsShape(s: State, k: Job, log: seq<Event>)
    requires Keyed(s) && ThreadShape(s) && k.id in s.jobs
    requires var j := s.jobs[k.id];
             && k.threadKey == j.threadKey && k.createdAt == j.createdAt
             && (IsTerminal(j.status) ==> IsTerminal(k.status))
             && (j.status == Queued ==> k.status == Queued || IsTerminal(k.status))
    ensures ThreadShape(State(s.jobs[k.id := k], log))
  {
  }

  lemma CommandKeepsShapeIff(s: State, c: Command, now: Time)
    requires Rows(s) && ThreadShape(s) && Judge(s, c) == Verdict.Apply
    ensures ThreadShape(Next(s, Operate(c, now))) <==> JoinsAtRest(s, Operate(c, now))
  {
    var j := s.jobs[c.job];
    assert RowOk(j);
    if c.action == Requeue && j.legacy.Some? {
      LegacyRequeueKeepsShapeIff(s, c, now);
    } else {
      RewriteKeepsShape(s, CommandRow(j, c.action, now), Next(s, Operate(c, now)).log);
    }
  }

  /** Only a join can break a thread, and it does so iff something behind it runs or is held. */
  lemma StepKeepsShapeIff(s: State, st: Step)
    requires Rows(s) && ThreadShape(s) && Enabled(s, st)
    ensures ThreadShape(Next(s, st)) <==> JoinsAtRest(s, st)
  {
    match st
    case Enqueue(rows, route, agent, now) => BatchKeepsShapeIff(s, rows, route, agent, now);
    case Claim(worker, job, expires) => ClaimKeepsShape(s, worker, job, expires, Next(s, st).log);
    case Operate(c, now) => CommandKeepsShapeIff(s, c, now);
    case _ =>
      var (k, e) := Effect(s, st);
      RewriteKeepsShape(s, k, Next(s, st).log);
  }

  /** At every moment of a run each thread is one head followed by queued rows. */
  predicate AlwaysShaped(s: State, steps: seq<Step>)
    requires ValidRun(s, steps)
  {
    ThreadShape(Exec(s, steps)) && (steps != [] ==> AlwaysShaped(s, steps[..|steps| - 1]))
  }

  predicate AlwaysJoinsAtRest(s: State, steps: seq<Step>)
    requires ValidRun(s, steps)
  {
    steps != [] ==>
      && AlwaysJoinsAtRest(s, steps[..|steps| - 1])
      && JoinsAtRest(Exec(s, steps[..|steps| - 1]), steps[|steps| - 1])
  }

  lemma ShapeMeansOneRunner(s: State)
    requires Keyed(s) && ThreadShape(s)
    ensures OneRunner(s)
  {
    forall a, b | a in s.jobs && b in s.jobs && SameThread(s.jobs[a], s.jobs[b])
      && s.jobs[a].status == Processing && s.jobs[b].status == Processing ensures a == b {
      assert !Before(s.jobs[a], s.jobs[b]) && !Before(s.jobs[b], s.jobs[a]);
    }
  }

  /** Over any run with any number of workers: every thread is at every moment one head
      followed by queued rows iff every row that joined a thread found nothing running or held
      behind its place when it joined. Then no thread ever has two running rows. */
  lemma {:induction false} ThreadsStayExclusive(s: State, steps: seq<Step>)
    requires Initial(s) && ValidRun(s, steps)
    ensures AlwaysShaped(s, steps) <==> AlwaysJoinsAtRest(s, steps)
    ensures AlwaysJoinsAtRest(s, steps) ==> OneRunner(Exec(s, steps))
  {
    InitialInv(s);
    if steps != [] {
      var init := steps[..|steps| - 1];
      ThreadsStayExclusive(s, init);
      RunKeepsInv(s, init);
      InvRows(Exec(s, init));
      if ThreadShape(Exec(s, init)) { StepKeepsShapeIff(Exec(s, init), steps[|steps| - 1]); }
    }
    RunKeyed(s, steps);
    if ThreadShape(Exec(s, steps)) { ShapeMeansOneRunner(Exec(s, steps)); }
  }
}
