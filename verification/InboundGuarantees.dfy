/** Whole-run guarantees of the external ingress, read off the step invariant. */
module InboundGuarantees {
  import opened Common
  import opened InboundModel
  import opened InboundHistory

  lemma Reachable(s: State, steps: seq<Step>, id: JobId)
    requires Initial(s) && ValidRun(s, steps) && id in Exec(s, steps).jobs
    ensures JobOk(Exec(s, steps).jobs[id], History(Exec(s, steps).log, id))
  {
    InitialInv(s);
    RunKeepsInv(s, steps);
  }

  /** The log of a job is a gap-free chain, and replaying it gives back the row. */
  lemma LogDeterminesRow(s: State, steps: seq<Step>, id: JobId)
    requires Initial(s) && ValidRun(s, steps) && id in Exec(s, steps).jobs
    ensures var j, h := Exec(s, steps).jobs[id], History(Exec(s, steps).log, id);
            && |h| == j.version + 1
            && (forall i :: 0 <= i < |h| ==> h[i].version == i)
            && (forall i :: 0 < i < |h| ==> h[i].from == Some(h[i - 1].to))
            && h[|h| - 1].epoch == j.epoch
            && ReplayLog(h) == At(j.status, j.phase)
  {
    Reachable(s, steps, id);
  }

  /** Leases, terminal marks and payloads are exactly tied to the status. */
  lemma RowShape(s: State, steps: seq<Step>, id: JobId)
    requires Initial(s) && ValidRun(s, steps) && id in Exec(s, steps).jobs
    ensures var j := Exec(s, steps).jobs[id];
            && (j.status == Processing <==> j.leaseOwner.Some? && j.leaseExpires.Some?)
            && (j.leaseOwner.Some? <==> j.leaseExpires.Some?)
            && (IsTerminal(j.status) <==> j.phase == Terminal)
            && (IsTerminal(j.status) <==> j.terminalAt.Some?)
            && (IsTerminal(j.status) <==> j.payload.None? && j.legacy.None?)
            && (j.status == Queued || j.status == Processing ==> j.payload.Some? && j.threadKey.Some? && j.legacy.None?)
            && (j.payload.Some? ==> j.threadKey == Some(ThreadKey(j.route, j.payload.value.message.threadId)))
            && (j.epoch.Some? ==> !Requeueable(j.phase))
  {
    Reachable(s, steps, id);
  }

  /** Once a lifecycle fence is recorded the job is never claimed again,
      whatever leases expire and whatever operators requeue. */
  lemma NoClaimAfterFence(s: State, steps: seq<Step>, id: JobId, p: nat, q: nat)
    requires Initial(s) && ValidRun(s, steps) && id in Exec(s, steps).jobs
    requires p < q < |History(Exec(s, steps).log, id)|
    requires History(Exec(s, steps).log, id)[p].kind == EvPhaseAdvanced
    ensures History(Exec(s, steps).log, id)[q].kind != EvClaimed
  {
    Reachable(s, steps, id);
  }

  /** Until an external effect is fenced, nothing in the history is one. */
  predicate EffectFree(h: seq<Event>) {
    forall p :: 0 <= p < |h| ==> !ExternalEffect(h[p].phase)
  }

  /** The worker's "no effect yet" test on the phase says what the history says. */
  predicate Truthful(h: seq<Event>) {
    h != [] && h[|h| - 1].phase != Terminal ==> (ZeroEffect(h[|h| - 1].phase) <==> EffectFree(h))
  }

  /** The test is right at every point of the history. */
  predicate AlwaysTruthful(h: seq<Event>) { forall n | 0 <= n <= |h| :: Truthful(h[..n]) }

  /** The recorder never reports the inbound message after an effect has started. */
  predicate RecordsFirst(h: seq<Event>) {
    forall p :: 0 < p < |h| && h[p].phase == InboundRecorded && h[p].kind == EvPhaseAdvanced
        ==> ZeroEffect(h[p - 1].phase)
  }

  lemma {:induction false} RecordsFirstIsTruthful(h: seq<Event>)
    requires SingleAttempt(h) && PhasesOk(h) && RecordsFirst(h)
    ensures Truthful(h)
  {
    if |h| > 1 {
      var g, e := h[..|h| - 1], h[|h| - 1];
      RecordsFirstIsTruthful(g);
      assert PhaseArrow(e.kind, g[|g| - 1].phase, e.phase);
      assert EffectFree(h) <==> EffectFree(g) && !ExternalEffect(e.phase);
      if e.kind == EvClaimed || e.kind == EvRequeued {
        forall p | 0 <= p < |g| ensures !ExternalEffect(g[p].phase) { NoEffectWithoutAdvance(h, p); }
      }
    }
  }

  /** Before a claim or a requeue no event carries an effect phase. */
  lemma {:induction false} NoEffectWithoutAdvance(h: seq<Event>, p: nat)
    requires SingleAttempt(h) && PhasesOk(h) && p + 1 < |h|
    requires h[|h| - 1].kind == EvClaimed || h[|h| - 1].kind == EvRequeued
    ensures !ExternalEffect(h[p].phase)
    decreases p
  {
    assert h[p].kind != EvPhaseAdvanced;
    if p > 0 {
      assert PhaseArrow(h[p].kind, h[p - 1].phase, h[p].phase);
      NoEffectWithoutAdvance(h, p - 1);
    }
  }

  lemma LateRecordIsUntruthful(h: seq<Event>, p: nat)
    requires PhasesOk(h) && 0 < p < |h| && h[p].phase == InboundRecorded && h[p].kind == EvPhaseAdvanced
    requires !ZeroEffect(h[p - 1].phase)
    ensures !Truthful(h[..p + 1])
  {
    var g := h[..p + 1];
    assert g[p] == h[p] && g[p - 1] == h[p - 1];
    assert ExternalEffect(g[p - 1].phase);
  }

  /** Routing a job to a human on the strength of its phase is right at every point of
      every history exactly when the inbound message is always recorded first. */
  lemma ZeroEffectTestIsRightIff(s: State, steps: seq<Step>, id: JobId)
    requires Initial(s) && ValidRun(s, steps) && id in Exec(s, steps).jobs
    ensures var h := History(Exec(s, steps).log, id);
            AlwaysTruthful(h) <==> RecordsFirst(h)
  {
    Reachable(s, steps, id);
    TruthfulIff(History(Exec(s, steps).log, id));
  }

  lemma TruthfulIff(h: seq<Event>)
    requires SingleAttempt(h) && PhasesOk(h)
    ensures AlwaysTruthful(h) <==> RecordsFirst(h)
  {
    if RecordsFirst(h) {
      forall n | 0 <= n <= |h| ensures Truthful(h[..n]) { RecordsFirstIsTruthful(h[..n]); }
    } else {
      var p :| 0 < p < |h| && h[p].phase == InboundRecorded && h[p].kind == EvPhaseAdvanced
          && !ZeroEffect(h[p - 1].phase);
      LateRecordIsUntruthful(h, p);
    }
  }

  /** A worker reports the inbound message before it starts any effect of the job. */
  predicate RecordsOnTime(s: State, st: Step)
    requires Enabled(s, st)
  {
    st.Advance? && st.phase == InboundRecorded ==> ZeroEffect(s.jobs[st.job].phase)
  }

  predicate AlwaysOnTime(s: State, steps: seq<Step>)
    requires ValidRun(s, steps)
  {
    steps != [] ==>
      && AlwaysOnTime(s, steps[..|steps| - 1])
      && RecordsOnTime(Exec(s, steps[..|steps| - 1]), steps[|steps| - 1])
  }

  lemma RecordsFirstAppend(h: seq<Event>, e: Event)
    ensures RecordsFirst(h + [e]) <==>
            && RecordsFirst(h)
            && (h != [] && e.phase == InboundRecorded && e.kind == EvPhaseAdvanced ==> ZeroEffect(h[|h| - 1].phase))
  {
    var g := h + [e];
    assert forall p | 0 <= p < |h| :: g[p] == h[p];
    if RecordsFirst(g) && h != [] { assert g[|h|] == e; }
  }

  lemma {:induction false} ArrivalsRecordNothing(s: State, rows: seq<NewRow>, route: Uuid, agent: Uuid, now: Time,
                                                 id: JobId)
    ensures RecordsFirst(History(AdmitAll(s, rows, route, agent, now).log, id))
      <==> RecordsFirst(History(s.log, id))
  {
    if rows != [] {
      var init, last := rows[..|rows| - 1], rows[|rows| - 1];
      ArrivalsRecordNothing(s, init, route, agent, now, id);
      var mid := AdmitAll(s, init, route, agent, now);
      var e := EventOf(FreshRow(last, route, agent, now), EvAccepted, None, System, None);
      HistoryAppend(mid.log, e, id);
      RecordsFirstAppend(History(mid.log, id), e);
    }
  }

  /** A step spoils the order of a history iff it reports the inbound message too late. */
  lemma StepRecordsFirst(s: State, st: Step, id: JobId)
    requires Inv(s) && Enabled(s, st)
    ensures RecordsFirst(History(Next(s, st).log, id)) <==>
            RecordsFirst(History(s.log, id)) && (st.Advance? && st.job == id ==> RecordsOnTime(s, st))
  {
    if st.Enqueue? {
      ArrivalsRecordNothing(s, st.rows, st.route, st.agent, st.now, id);
    } else {
      var e := Next(s, st).log[|s.log|];
      assert Next(s, st).log == s.log + [e];
      HistoryAppend(s.log, e, id);
      RecordsFirstAppend(History(s.log, id), e);
      if st.Advance? { InvRow(s, st.job); }
    }
  }

  ghost predicate AllRecordFirst(log: seq<Event>) { forall id :: RecordsFirst(History(log, id)) }

  lemma StepAllRecordFirst(s: State, st: Step)
    requires Inv(s) && Enabled(s, st)
    ensures AllRecordFirst(Next(s, st).log) <==> AllRecordFirst(s.log) && RecordsOnTime(s, st)
  {
    forall id ensures RecordsFirst(History(Next(s, st).log, id)) <==>
        RecordsFirst(History(s.log, id)) && (st.Advance? && st.job == id ==> RecordsOnTime(s, st)) {
      StepRecordsFirst(s, st, id);
    }
    if st.Advance? && AllRecordFirst(Next(s, st).log) { assert RecordsFirst(History(Next(s, st).log, st.job)); }
  }

  lemma InitialRecordsFirst(s: State)
    requires Initial(s)
    ensures AllRecordFirst(s.log)
  {
    forall id ensures RecordsFirst(History(s.log, id)) { if id !in s.jobs { NoHistory(s.log, id); } }
  }

  lemma {:induction false} RecordsFirstIff(s: State, steps: seq<Step>)
    requires Initial(s) && ValidRun(s, steps)
    ensures AlwaysOnTime(s, steps) <==> AllRecordFirst(Exec(s, steps).log)
  {
    if steps == [] {
      InitialRecordsFirst(s);
    } else {
      var init := steps[..|steps| - 1];
      RecordsFirstIff(s, init);
      InitialInv(s);
      RunKeepsInv(s, init);
      StepAllRecordFirst(Exec(s, init), steps[|steps| - 1]);
    }
  }

  /** Over a whole run the phase test is right for every job at every point of its history iff
      every worker that reported an inbound message did so before any effect of that job. */
  lemma PhaseTestIsRightIff(s: State, steps: seq<Step>)
    requires Initial(s) && ValidRun(s, steps)
    ensures AlwaysOnTime(s, steps) <==>
            forall id <- Exec(s, steps).jobs :: AlwaysTruthful(History(Exec(s, steps).log, id))
  {
    RecordsFirstIff(s, steps);
    InitialInv(s);
    RunKeepsInv(s, steps);
    TruthfulRows(Exec(s, steps));
  }

  lemma TruthfulRows(t: State)
    requires Inv(t)
    ensures AllRecordFirst(t.log) <==> forall id <- t.jobs :: AlwaysTruthful(History(t.log, id))
  {
    forall id ensures id in t.jobs ==> (AlwaysTruthful(History(t.log, id)) <==> RecordsFirst(History(t.log, id)))
              ensures id !in t.jobs ==> RecordsFirst(History(t.log, id)) {
      if id in t.jobs {
        assert JobOk(t.jobs[id], History(t.log, id));
        TruthfulIff(History(t.log, id));
      } else {
        NoHistory(t.log, id);
      }
    }
  }

  /** Without a fence the phase is one a requeue may start from. */
  lemma {:induction false} UnfencedPhase(h: seq<Event>, p: nat)
    requires PhasesOk(h) && p < |h| && forall q :: 0 <= q < |h| ==> h[q].kind != EvPhaseAdvanced
    ensures h[p].phase == Terminal || Requeueable(h[p].phase)
    decreases p
  {
    if p > 0 {
      UnfencedPhase(h, p - 1);
      assert PhaseArrow(h[p].kind, h[p - 1].phase, h[p].phase);
    }
  }

  /** An unfinished job is at a phase a requeue may start from exactly while no fence was ever
      recorded for it. */
  lemma UnfencedIff(s: State, id: JobId)
    requires Inv(s) && id in s.jobs && !IsTerminal(s.jobs[id].status)
    ensures Requeueable(s.jobs[id].phase)
      <==> forall e :: e in s.log && e.job == id ==> e.kind != EvPhaseAdvanced
  {
    var h := History(s.log, id);
    assert JobOk(s.jobs[id], h);
    HistoryMembers(s.log, id);
    if forall e :: e in s.log && e.job == id ==> e.kind != EvPhaseAdvanced {
      assert forall p :: 0 <= p < |h| ==> h[p] in h;
      UnfencedPhase(h, |h| - 1);
    } else {
      var e :| e in s.log && e.job == id && e.kind == EvPhaseAdvanced;
      assert e in h;
      var p :| 0 <= p < |h| && h[p] == e;
    }
  }

  /** No automatic retry: every attempt beyond the first is paid for by a requeue. */
  lemma AttemptsNeedRequeues(s: State, steps: seq<Step>, id: JobId)
    requires Initial(s) && ValidRun(s, steps) && id in Exec(s, steps).jobs
    ensures var j, h := Exec(s, steps).jobs[id], History(Exec(s, steps).log, id);
            && j.attempts == Count(h, EvClaimed)
            && j.attempts <= Count(h, EvRequeued) + 1
            && (h != [] && h[0].kind == EvLegacyQuarantined ==> j.attempts <= Count(h, EvRequeued))
  {
    Reachable(s, steps, id);
  }

  // ---------------------------------------------------------------- frames

  /** What one step can do to one row that already exists. */
  lemma StepOnRow(s: State, st: Step, id: JobId)
    requires Keyed(s) && Enabled(s, st) && id in s.jobs
    ensures id in Next(s, st).jobs
    ensures var j, k := s.jobs[id], Next(s, st).jobs[id];
            && k.agent == j.agent && k.route == j.route && k.createdAt == j.createdAt
            && j.version <= k.version
            && (IsTerminal(j.status) ==> k == j)
            && (k.status == Processing ==>
                  if st.Claim? && st.job == id
                  then k.leaseOwner == Some(st.worker) && k.leaseExpires == Some(st.expires)
                  else j.status == Processing && k.leaseOwner == j.leaseOwner && k.leaseExpires == j.leaseExpires)
            && (st.Operate? && st.command.job == id ==> k.version == j.version + 1)
  {
    if st.Enqueue? { AdmitAllFrame(s, st.rows, st.route, st.agent, st.now, id); }
  }

  lemma {:induction false} AdmitAllFrame(s: State, rows: seq<NewRow>, route: Uuid, agent: Uuid, now: Time, id: JobId)
    requires Keyed(s) && FreshIds(s, rows) && id in s.jobs
    ensures var t := AdmitAll(s, rows, route, agent, now); id in t.jobs && t.jobs[id] == s.jobs[id]
  {
    if rows != [] {
      assert FreshIds(s, rows[..|rows| - 1]);
      AdmitAllFrame(s, rows[..|rows| - 1], route, agent, now, id);
    }
  }

  lemma {:induction false} AdmitAllLog(s: State, rows: seq<NewRow>, route: Uuid, agent: Uuid, now: Time)
    ensures s.log <= AdmitAll(s, rows, route, agent, now).log
  {
    if rows != [] { AdmitAllLog(s, rows[..|rows| - 1], route, agent, now); }
  }

  lemma {:induction false} AdmitAllKeyed(s: State, rows: seq<NewRow>, route: Uuid, agent: Uuid, now: Time)
    requires Keyed(s)
    ensures Keyed(AdmitAll(s, rows, route, agent, now))
  {
    if rows != [] { AdmitAllKeyed(s, rows[..|rows| - 1], route, agent, now); }
  }

  lemma StepKeyed(s: State, st: Step)
    requires Keyed(s) && Enabled(s, st)
    ensures Keyed(Next(s, st))
  {
    if st.Enqueue? { AdmitAllKeyed(s, st.rows, st.route, st.agent, st.now); }
  }

  lemma {:induction false} RunKeyed(s: State, steps: seq<Step>)
    requires Keyed(s) && ValidRun(s, steps)
    ensures Keyed(Exec(s, steps))
  {
    if steps != [] {
      RunKeyed(s, steps[..|steps| - 1]);
      StepKeyed(Exec(s, steps[..|steps| - 1]), steps[|steps| - 1]);
    }
  }

  lemma {:induction false} LogGrows(s: State, steps: seq<Step>)
    requires ValidRun(s, steps)
    ensures s.log <= Exec(s, steps).log
  {
    if steps != [] {
      var mid, st := Exec(s, steps[..|steps| - 1]), steps[|steps| - 1];
      LogGrows(s, steps[..|steps| - 1]);
      if st.Enqueue? { AdmitAllLog(mid, st.rows, st.route, st.agent, st.now); }
    }
  }

  /** Terminal rows are absorbing under workers, sweeps, webhooks and operators together. */
  lemma {:induction false} TerminalAbsorbing(s: State, steps: seq<Step>, id: JobId)
    requires Keyed(s) && ValidRun(s, steps) && id in s.jobs && IsTerminal(s.jobs[id].status)
    ensures id in Exec(s, steps).jobs && Exec(s, steps).jobs[id] == s.jobs[id]
  {
    if steps != [] {
      var init := steps[..|steps| - 1];
      TerminalAbsorbing(s, init, id);
      RunKeyed(s, init);
      StepOnRow(Exec(s, init), steps[|steps| - 1], id);
    }
  }

  lemma {:induction false} RowPersists(s: State, steps: seq<Step>, id: JobId)
    requires Keyed(s) && ValidRun(s, steps) && id in s.jobs
    ensures id in Exec(s, steps).jobs
    ensures var j, k := s.jobs[id], Exec(s, steps).jobs[id]; k.agent == j.agent && j.version <= k.version
  {
    if steps != [] {
      var init := steps[..|steps| - 1];
      RowPersists(s, init, id);
      RunKeyed(s, init);
      StepOnRow(Exec(s, init), steps[|steps| - 1], id);
    }
  }

  // ---------------------------------------------------------------- ownership

  /** A lease as a claim step grants it. */
  datatype Lease = Lease(worker: WorkerId, deadline: Time)

  /** The lease of the most recent claim of a job, read from the steps alone. */
  function LatestLease(steps: seq<Step>, id: JobId): Option<Lease> {
    if steps == [] then None
    else
      var last := steps[|steps| - 1];
      if last.Claim? && last.job == id then Some(Lease(last.worker, last.expires))
      else LatestLease(steps[..|steps| - 1], id)
  }

  lemma {:induction false} LeaseIsLatestClaims(s: State, steps: seq<Step>, id: JobId)
    requires Initial(s) && ValidRun(s, steps) && id in Exec(s, steps).jobs
    requires Exec(s, steps).jobs[id].status == Processing
    ensures LatestLease(steps, id).Some?
    ensures Exec(s, steps).jobs[id].leaseOwner == Some(LatestLease(steps, id).value.worker)
    ensures Exec(s, steps).jobs[id].leaseExpires == Some(LatestLease(steps, id).value.deadline)
  {
    if steps != [] {
      var init, st := steps[..|steps| - 1], steps[|steps| - 1];
      var mid := Exec(s, init);
      RunKeyed(s, init);
      if id in mid.jobs {
        StepOnRow(mid, st, id);
        if !(st.Claim? && st.job == id) { LeaseIsLatestClaims(s, init, id); }
      } else {
        NewRowsAreQueued(mid, st, id);
      }
    }
  }

  lemma {:induction false} AdmittedRowsAreQueued(s: State, rows: seq<NewRow>, route: Uuid, agent: Uuid, now: Time,
                                                 id: JobId)
    requires id !in s.jobs && id in AdmitAll(s, rows, route, agent, now).jobs && FreshIds(s, rows)
    ensures AdmitAll(s, rows, route, agent, now).jobs[id].status == Queued
    ensures AdmitAll(s, rows, route, agent, now).jobs[id].id == id
    ensures AdmitAll(s, rows, route, agent, now).jobs[id].attempts == 0
    ensures AdmitAll(s, rows, route, agent, now).jobs[id].createdAt == now
    ensures AdmitAll(s, rows, route, agent, now).jobs[id].route == route
    ensures exists r <- rows :: r.id == id
              && AdmitAll(s, rows, route, agent, now).jobs[id] == FreshRow(r, route, agent, now)
  {
    if rows != [] {
      var init, last := rows[..|rows| - 1], rows[|rows| - 1];
      assert FreshIds(s, init);
      if id in AdmitAll(s, init, route, agent, now).jobs {
        AdmittedRowsAreQueued(s, init, route, agent, now, id);
        var r :| r in init && r.id == id;
        assert r in rows && last.id != id;
      }
    }
  }

  lemma NewRowsAreQueued(s: State, st: Step, id: JobId)
    requires Keyed(s) && Enabled(s, st) && id !in s.jobs && id in Next(s, st).jobs
    ensures Next(s, st).jobs[id].status == Queued
  {
    if st.Enqueue? { AdmittedRowsAreQueued(s, st.rows, st.route, st.agent, st.now, id); }
  }

  /** Only the worker of the latest claim can write to a processing job. */
  lemma OnlyLatestClaimantWrites(s: State, steps: seq<Step>, st: Step)
    requires Initial(s) && ValidRun(s, steps) && Enabled(Exec(s, steps), st)
    requires st.Advance? || st.Finish?
    ensures LatestLease(steps, st.job).Some? && LatestLease(steps, st.job).value.worker == st.worker
  {
    LeaseIsLatestClaims(s, steps, st.job);
  }

  // ---------------------------------------------------------------- operator retries

  lemma ReceiptIsUnique(s: State, e: Event, f: Event)
    requires Inv(s) && e in s.log && f in s.log && e.job == f.job
    requires e.receipt.Some? && f.receipt.Some? && e.receipt.value.key == f.receipt.value.key
    ensures e == f
  {
    var h := History(s.log, e.job);
    assert ReceiptsOk(h) by { assert JobOk(s.jobs[e.job], h); }
    HistoryMembers(s.log, e.job);
    assert e in h && f in h;
    var p :| 0 <= p < |h| && h[p] == e;
    var q :| 0 <= q < |h| && h[q] == f;
  }

  /** The digest written with a successful command is the one a retry is checked against. */
  lemma StoredDigestIsCheckedDigest(s: State, c: Command, now: Time)
    requires Inv(s) && Judge(s, c) == Verdict.Apply
    ensures var t := Next(s, Operate(c, now));
            var e := t.log[|t.log| - 1];
            && e.job == c.job && e.receipt == Some(Receipt(c.key, DigestOf(c), c.correlation))
            && e.version == c.expected + 1
  {
    InvRow(s, c.job);
  }

  /** A retry under the same key is a no-op replay after any later steps;
      the same key with another action or version is refused. */
  lemma RetryIsRecognised(s: State, c: Command, now: Time, steps: seq<Step>, retry: Command)
    requires Inv(s) && Judge(s, c) == Verdict.Apply
    requires ValidRun(Next(s, Operate(c, now)), steps)
    requires retry.job == c.job && retry.agent == c.agent && retry.key == c.key && retry.correlation != ""
    ensures Judge(Exec(Next(s, Operate(c, now)), steps), retry)
            == if retry.action == c.action && retry.expected == c.expected then Replay else KeyCollision
  {
    var s1 := Next(s, Operate(c, now));
    var s2 := Exec(s1, steps);
    StepKeepsInv(s, Operate(c, now));
    RunKeepsInv(s1, steps);
    StoredDigestIsCheckedDigest(s, c, now);
    InvRow(s, c.job);
    RowPersists(s1, steps, c.job);
    LogGrows(s1, steps);
    var e := s1.log[|s1.log| - 1];
    assert e in s2.log;
    assert HasReceipt(s2.log, retry.job, retry.key);
    if HasMatchingReceipt(s2.log, retry) {
      var f :| f in s2.log && f.job == retry.job && f.receipt.Some?
               && f.receipt.value.key == retry.key && f.receipt.value.digest == DigestOf(retry);
      ReceiptIsUnique(s2, e, f);
    }
  }

  /** Two commands that both take effect on one job acted on different, increasing versions. */
  lemma OneCommandPerVersion(s: State, c: Command, now: Time, steps: seq<Step>, d: Command)
    requires Inv(s) && Judge(s, c) == Verdict.Apply
    requires ValidRun(Next(s, Operate(c, now)), steps)
    requires d.job == c.job && Judge(Exec(Next(s, Operate(c, now)), steps), d) == Verdict.Apply
    ensures c.expected < d.expected
  {
    StepKeepsInv(s, Operate(c, now));
    StepOnRow(s, Operate(c, now), c.job);
    RowPersists(Next(s, Operate(c, now)), steps, c.job);
  }
}
