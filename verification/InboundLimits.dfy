/** Draining, and the exact limits of the FIFO guarantee. */
module InboundLimits {
  import opened Common
  import opened InboundModel
  import opened InboundHistory
  import opened InboundGuarantees
  import opened InboundFifo
  import opened InboundQueues

  // ---------------------------------------------------------------- draining

  ghost function Having(s: State, status: Status): set<JobId> {
    set id | id in s.jobs && s.jobs[id].status == status
  }

  ghost function Work(s: State): nat {
    2 * |Having(s, Queued)| + |Having(s, Processing)|
  }

  predicate WorkerOnly(steps: seq<Step>) {
    forall st <- steps :: st.Claim? || st.Sweep? || st.Advance? || st.Finish?
  }

  /** Steps that move a job, as opposed to recording a fence on it. */
  function Moves(steps: seq<Step>): nat {
    if steps == [] then 0
    else Moves(steps[..|steps| - 1]) + if steps[|steps| - 1].Advance? then 0 else 1
  }

  lemma HavingAfter(s: State, n: Job, log: seq<Event>, status: Status)
    requires n.id in s.jobs
    ensures Having(State(s.jobs[n.id := n], log), status)
            == if n.status == status then Having(s, status) + {n.id} else Having(s, status) - {n.id}
  {
  }

  lemma StatusMove(s: State, st: Step)
    requires Keyed(s) && Enabled(s, st) && (st.Claim? || st.Sweep? || st.Advance? || st.Finish?)
    ensures var j, n := s.jobs[st.job], Effect(s, st).0;
            && n.id == st.job && Next(s, st).jobs == s.jobs[n.id := n]
            && (st.Claim? ==> j.status == Queued && n.status == Processing)
            && (!st.Claim? ==> j.status == Processing && n.status != Queued)
            && (!st.Claim? ==> (n.status == Processing <==> st.Advance?))
  {
  }

  lemma WorkAfter(s: State, n: Job, log: seq<Event>)
    requires n.id in s.jobs && n.status != Queued
    requires s.jobs[n.id].status == Queued || s.jobs[n.id].status == Processing
    requires s.jobs[n.id].status == Queued ==> n.status == Processing
    ensures Work(s) == Work(State(s.jobs[n.id := n], log))
                       + if s.jobs[n.id].status == Queued || n.status != Processing then 1 else 0
  {
    HavingAfter(s, n, log, Queued);
    HavingAfter(s, n, log, Processing);
    if s.jobs[n.id].status == Queued {
      assert n.id in Having(s, Queued) && n.id !in Having(s, Processing);
    } else {
      assert n.id in Having(s, Processing) && n.id !in Having(s, Queued);
      assert Having(s, Queued) - {n.id} == Having(s, Queued);
      assert Having(s, Processing) + {n.id} == Having(s, Processing);
    }
  }

  lemma MoveUsesWork(s: State, st: Step)
    requires Keyed(s) && Enabled(s, st) && (st.Claim? || st.Sweep? || st.Advance? || st.Finish?)
    ensures Work(Next(s, st)) + (if st.Advance? then 0 else 1) == Work(s)
  {
    StatusMove(s, st);
    WorkAfter(s, Effect(s, st).0, Next(s, st).log);
  }

  /** Without arrivals or operators the queue drains: every claim, finish and sweep
      is paid from a budget of two per queued and one per running row. */
  lemma {:induction false} WorkersDrain(s: State, steps: seq<Step>)
    requires Keyed(s) && ValidRun(s, steps) && WorkerOnly(steps)
    ensures Moves(steps) + Work(Exec(s, steps)) == Work(s)
    ensures Moves(steps) <= 2 * |Having(s, Queued)| + |Having(s, Processing)|
  {
    if steps != [] {
      var init := steps[..|steps| - 1];
      assert forall st <- init :: st in steps;
      WorkersDrain(s, init);
      RunKeyed(s, init);
      MoveUsesWork(Exec(s, init), steps[|steps| - 1]);
    }
  }

  /** The claim query comes back empty exactly when every queued row waits behind
      a running or held head of its own thread. */
  lemma EmptyClaimIff(s: State)
    requires Rows(s)
    ensures (forall id :: id in s.jobs ==> !Claimable(s, s.jobs[id]))
      <==> (forall id :: id in s.jobs && s.jobs[id].status == Queued ==>
              var q := Queue(s.jobs, s.jobs[id].threadKey.value);
              q != [] && (s.jobs[q[0]].status == Processing || s.jobs[q[0]].status == ReviewRequired))
  {
    forall id | id in s.jobs && s.jobs[id].status == Queued
      ensures s.jobs[id].threadKey.Some?
      ensures var q := Queue(s.jobs, s.jobs[id].threadKey.value); q != [] && q[0] in s.jobs
      ensures var q := Queue(s.jobs, s.jobs[id].threadKey.value);
              && (!Claimable(s, s.jobs[q[0]])
                  <==> s.jobs[q[0]].status == Processing || s.jobs[q[0]].status == ReviewRequired)
              && (Claimable(s, s.jobs[id]) ==> q[0] == id)
    {
      assert RowOk(s.jobs[id]);
      var k := s.jobs[id].threadKey.value;
      var q := Queue(s.jobs, k);
      assert id in q;
      assert q[0] in q;
      ClaimQueryPicksHeads(s, id, k);
      ClaimQueryPicksHeads(s, q[0], k);
    }
  }

  // ---------------------------------------------------------------- the limit is real

  lemma Extend(s: State, steps: seq<Step>, st: Step)
    requires ValidRun(s, steps) && Enabled(Exec(s, steps), st)
    ensures ValidRun(s, steps + [st]) && Exec(s, steps + [st]) == Next(Exec(s, steps), st)
  {
    assert (steps + [st])[..|steps|] == steps;
  }

  function OldRow(): Job {
    Job(1, 7, "old", 5, 0, None, None, Some(Readable(Message("old", "t", "hi"))),
        ReviewRequired, LegacyQuarantined, 0, 0, None, None, Some("legacy_payload_quarantined"), None, None)
  }

  function NewArrival(): Job { FreshRow(NewRow(2, Message("new", "t", "yo")), 7, 5, 10) }

  function OldTable(): State {
    State(map[1 := OldRow()], [EventOf(OldRow(), EvLegacyQuarantined, None, System, None)])
  }

  lemma OldTableIsInitial()
    ensures Initial(OldTable())
  {
    var e := EventOf(OldRow(), EvLegacyQuarantined, None, System, None);
    assert [e][..0] == [];
    assert History([e], 1) == [e];
  }

  lemma AdmitOne(s: State, row: NewRow, route: Uuid, agent: Uuid, now: Time)
    ensures AdmitAll(s, [row], route, agent, now) == Admit(s, row, route, agent, now)
  {
    assert [row][..0] == [];
  }

  lemma OldKeyIsOther()
    ensures !KeyTaken(OldTable(), 7, "new")
  {
    assert "old"[0] != "new"[0];
  }

  /** The table after the arrival. */
  lemma Arrived()
    ensures var row := NewRow(2, Message("new", "t", "yo"));
            var t := AdmitAll(OldTable(), [row], 7, 5, 10);
            && t.jobs == map[1 := OldRow(), 2 := NewArrival()]
            && forall e <- t.log :: e.receipt.None?
  {
    OldKeyIsOther();
    AdmitOne(OldTable(), NewRow(2, Message("new", "t", "yo")), 7, 5, 10);
    assert FreshRow(NewRow(2, Message("new", "t", "yo")), 7, 5, 10) == NewArrival();
  }

  lemma Arrive() returns (steps: seq<Step>)
    ensures ValidRun(OldTable(), steps)
    ensures Exec(OldTable(), steps).jobs == map[1 := OldRow(), 2 := NewArrival()]
    ensures forall e <- Exec(OldTable(), steps).log :: e.receipt.None?
  {
    var st := Enqueue([NewRow(2, Message("new", "t", "yo"))], 7, 5, 10);
    Arrived();
    Extend(OldTable(), [], st);
    steps := [] + [st];
  }

  predicate ClaimedAt(s: State, p: nat, id: JobId) { p < |s.log| && s.log[p].kind == EvClaimed && s.log[p].job == id }

  lemma ClaimStays(s: State, st: Step, p: nat, id: JobId)
    requires Enabled(s, st) && st.Operate? && ClaimedAt(s, p, id)
    ensures ClaimedAt(Next(s, st), p, id)
  {
  }

  lemma ClaimArrival() returns (steps: seq<Step>)
    ensures ValidRun(OldTable(), steps)
    ensures Exec(OldTable(), steps).jobs == map[1 := OldRow(), 2 := ClaimRow(NewArrival(), "w1", 100)]
    ensures forall e <- Exec(OldTable(), steps).log :: e.receipt.None?
    ensures exists p :: ClaimedAt(Exec(OldTable(), steps), p, 2)
  {
    steps := Arrive();
    var s := Exec(OldTable(), steps);
    assert Claimable(s, s.jobs[2]);
    Extend(OldTable(), steps, Claim("w1", 2, 100));
    assert ClaimedAt(Next(s, Claim("w1", 2, 100)), |s.log|, 2);
    steps := steps + [Claim("w1", 2, 100)];
  }

  /** The old row may be requeued while the arrival runs. */
  lemma RequeueAllowed(s: State, c: Command)
    requires s.jobs == map[1 := OldRow(), 2 := ClaimRow(NewArrival(), "w1", 100)]
    requires forall e <- s.log :: e.receipt.None?
    requires c == Command(1, 5, 9, Requeue, 0, "case", "key")
    ensures Judge(s, c) == Verdict.Apply
    ensures Next(s, Operate(c, 20)).jobs
      == map[1 := CommandRow(OldRow(), Requeue, 20), 2 := ClaimRow(NewArrival(), "w1", 100)]
  {
    assert !HasReceipt(s.log, 1, "key");
    assert s.jobs[1] == OldRow() && Resolvable(OldRow(), Requeue);
  }

  lemma RequeueOld() returns (steps: seq<Step>)
    ensures ValidRun(OldTable(), steps)
    ensures Exec(OldTable(), steps).jobs
            == map[1 := CommandRow(OldRow(), Requeue, 20), 2 := ClaimRow(NewArrival(), "w1", 100)]
    ensures exists p :: ClaimedAt(Exec(OldTable(), steps), p, 2)
  {
    steps := ClaimArrival();
    var s := Exec(OldTable(), steps);
    var p :| ClaimedAt(s, p, 2);
    var c := Command(1, 5, 9, Requeue, 0, "case", "key");
    RequeueAllowed(s, c);
    Extend(OldTable(), steps, Operate(c, 20));
    ClaimStays(s, Operate(c, 20), p, 2);
    steps := steps + [Operate(c, 20)];
  }

  /** A legacy row requeued into a thread whose younger row is running: every step is one the
      code allows, two rows of one thread run at once, and the older one was claimed second. */
  lemma LegacyRequeueCanDoubleRun()
    ensures exists s, steps :: && Initial(s) && ValidRun(s, steps) && Keyed(Exec(s, steps))
                               && !OneRunner(Exec(s, steps)) && !ClaimsInOrder(Exec(s, steps))
  {
    OldTableIsInitial();
    var steps := RequeueOld();
    var s := Exec(OldTable(), steps);
    assert Claimable(s, s.jobs[1]);
    var st := Claim("w2", 1, 120);
    Extend(OldTable(), steps, st);
    RunKeyed(OldTable(), steps + [st]);
    BothRun(s, st);
  }

  lemma BothRun(s: State, st: Step)
    requires s.jobs == map[1 := CommandRow(OldRow(), Requeue, 20), 2 := ClaimRow(NewArrival(), "w1", 100)]
    requires (exists p :: ClaimedAt(s, p, 2)) && st == Claim("w2", 1, 120) && Enabled(s, st) && Keyed(Next(s, st))
    ensures !OneRunner(Next(s, st)) && !ClaimsInOrder(Next(s, st))
  {
    var t := Next(s, st);
    var p :| ClaimedAt(s, p, 2);
    assert t.jobs[1].status == Processing && t.jobs[2].status == Processing && SameThread(t.jobs[1], t.jobs[2]);
    assert ClaimedAt(t, p, 2) && ClaimedAt(t, |s.log|, 1) && Before(t.jobs[1], t.jobs[2]);
  }

  // ---------------------------------------------------------------- a batch with a lagging clock

  const NONE: State := State(map[], [])

  function Row(id: JobId, provider: string): NewRow { NewRow(id, Message(provider, "t", "hi")) }

  /** One message into a table without any of its provider ids. */
  lemma OneArrives(s: State, id: JobId, provider: string, now: Time)
    requires id !in s.jobs && !KeyTaken(s, 7, provider)
    ensures var st := Enqueue([Row(id, provider)], 7, 5, now);
            Enabled(s, st) && Next(s, st) == Admit(s, Row(id, provider), 7, 5, now)
  {
    AdmitOne(s, Row(id, provider), 7, 5, now);
  }

  lemma RunningArrival() returns (steps: seq<Step>)
    ensures ValidRun(NONE, steps)
    ensures Exec(NONE, steps).jobs == map[2 := Running()]
  {
    OneArrives(NONE, 2, "b", 10);
    Extend(NONE, [], Enqueue([Row(2, "b")], 7, 5, 10));
    steps := [] + [Enqueue([Row(2, "b")], 7, 5, 10)];
    var s := Exec(NONE, steps);
    assert Claimable(s, s.jobs[2]);
    Extend(NONE, steps, Claim("w1", 2, 100));
    steps := steps + [Claim("w1", 2, 100)];
  }

  function Running(): Job { ClaimRow(FreshRow(Row(2, "b"), 7, 5, 10), "w1", 100) }

  lemma LateArrival(s: State)
    requires s.jobs == map[2 := Running()]
    ensures var st := Enqueue([Row(1, "a")], 7, 5, 0);
            && Enabled(s, st) && Next(s, st).jobs == map[1 := FreshRow(Row(1, "a"), 7, 5, 0), 2 := Running()]
            && Claimable(Next(s, st), Next(s, st).jobs[1])
  {
    assert "b"[0] != "a"[0];
    assert !KeyTaken(s, 7, "a");
    OneArrives(s, 1, "a", 0);
  }

  lemma ClaimsBoth(s: State)
    requires s.jobs == map[1 := FreshRow(Row(1, "a"), 7, 5, 0), 2 := Running()] && Claimable(s, s.jobs[1])
    ensures Enabled(s, Claim("w2", 1, 120)) && !OneRunner(Next(s, Claim("w2", 1, 120)))
  {
    var t := Next(s, Claim("w2", 1, 120));
    assert t.jobs[1].status == Processing && t.jobs[2].status == Processing && SameThread(t.jobs[1], t.jobs[2]);
  }

  /** A batch stamped before a row that is already running joins ahead of it and runs beside it. */
  lemma LateBatchCanDoubleRun()
    ensures exists steps :: ValidRun(NONE, steps) && Initial(NONE) && !OneRunner(Exec(NONE, steps))
  {
    var steps := RunningArrival();
    LateArrival(Exec(NONE, steps));
    Extend(NONE, steps, Enqueue([Row(1, "a")], 7, 5, 0));
    steps := steps + [Enqueue([Row(1, "a")], 7, 5, 0)];
    ClaimsBoth(Exec(NONE, steps));
    Extend(NONE, steps, Claim("w2", 1, 120));
  }

  // ---------------------------------------------------------------- a late record

  lemma EffectThenRecord(s: State)
    requires s.jobs == map[2 := Running()]
    ensures var effect, record := Step.Advance("w1", 2, AgentEffectStarted, None),
                                  Step.Advance("w1", 2, InboundRecorded, Some(Epoch(3, 0, 5, 0)));
            && Enabled(s, effect) && Enabled(Next(s, effect), record)
            && var u := Next(Next(s, effect), record);
               && 2 in u.jobs && ZeroEffect(u.jobs[2].phase)
               && |s.log| < |u.log| && u.log[|s.log|].job == 2 && ExternalEffect(u.log[|s.log|].phase)
  {
  }

  /** A recorder that reports the inbound message after an agent effect: the phase then reads as
      free of effects, although the history holds one. */
  lemma LateRecordMisleads()
    ensures exists steps :: && ValidRun(NONE, steps) && Initial(NONE) && 2 in Exec(NONE, steps).jobs
                            && ZeroEffect(Exec(NONE, steps).jobs[2].phase)
                            && exists e <- Exec(NONE, steps).log :: e.job == 2 && ExternalEffect(e.phase)
  {
    var steps := RunningArrival();
    var s := Exec(NONE, steps);
    var effect := Step.Advance("w1", 2, AgentEffectStarted, None);
    var record := Step.Advance("w1", 2, InboundRecorded, Some(Epoch(3, 0, 5, 0)));
    EffectThenRecord(s);
    Extend(NONE, steps, effect);
    Extend(NONE, steps + [effect], record);
    var u := Exec(NONE, steps + [effect] + [record]);
    assert u.log[|s.log|] in u.log;
  }
}
