/** What the event log says about every job, in every reachable state. */
module InboundHistory {
  import opened Common
  import opened InboundModel

  // ---------------------------------------------------------------- histories

  /** The events of one job in commit order. */
  function History(log: seq<Event>, id: JobId): seq<Event> {
    if log == [] then []
    else
      var before := History(log[..|log| - 1], id);
      var last := log[|log| - 1];
      if last.job == id then before + [last] else before
  }

  function Count(h: seq<Event>, kind: EventKind): nat {
    if h == [] then 0
    else Count(h[..|h| - 1], kind) + if h[|h| - 1].kind == kind then 1 else 0
  }

  /** The published transition diagram: which status an event kind may join. */
  predicate Arrow(kind: EventKind, from: Option<Status>, to: Status) {
    match kind
    case EvAccepted => from == None && to == Queued
    case EvLegacyQuarantined => from == None && to == ReviewRequired
    case EvClaimed => from == Some(Queued) && to == Processing
    case EvPhaseAdvanced => from == Some(Processing) && to == Processing
    case EvCompleted => from == Some(Processing) && to == Completed
    case EvRoutedToHuman => from == Some(Processing) && to == RoutedToHuman
    case EvReviewRequired => from == Some(Processing) && to == ReviewRequired
    case EvRequeued => from == Some(ReviewRequired) && to == Queued
    case EvCancelled => (from == Some(Queued) || from == Some(ReviewRequired)) && to == Cancelled
    case EvAcknowledged => from == Some(ReviewRequired) && to == Ignored
  }

  datatype Replayed = Broken | Start | At(status: Status, phase: Phase)

  /** Replays a history through the diagram, starting from no row. */
  function ReplayLog(h: seq<Event>): Replayed {
    if h == [] then Start
    else
      var e := h[|h| - 1];
      match ReplayLog(h[..|h| - 1])
      case Broken => Broken
      case Start => if e.from == None && Arrow(e.kind, None, e.to) then At(e.to, e.phase) else Broken
      case At(s, _) => if e.from == Some(s) && Arrow(e.kind, Some(s), e.to) then At(e.to, e.phase) else Broken
  }

  // ---------------------------------------------------------------- invariants

  predicate RowOk(j: Job) {
    && (j.status == Processing <==> j.leaseOwner.Some?)
    && (j.status == Processing <==> j.leaseExpires.Some?)
    && (IsTerminal(j.status) <==> j.phase == Terminal)
    && (IsTerminal(j.status) <==> j.terminalAt.Some?)
    && (IsTerminal(j.status) <==> j.payload.None? && j.legacy.None?)
    && (j.payload.None? || j.legacy.None?)
    && (j.payload.Some? ==> j.threadKey == Some(ThreadKey(j.route, j.payload.value.message.threadId)))
    && (j.status == Queued ==> j.phase == Accepted)
    && (j.status != Queued ==> j.phase != Accepted)
    && (j.legacy.Some? <==> j.phase == LegacyQuarantined)
    && (j.legacy.Some? ==> j.status == ReviewRequired && j.threadKey.None?)
    && (j.attempts == 0 <== j.legacy.Some? || j.threadKey.None?)
    && (j.attempts > 0 <== j.status == Processing || (j.status == ReviewRequired && j.legacy.None?))
    && (j.epoch.Some? ==> !Requeueable(j.phase))
  }

  /** Event i carries version i, continues event i-1, and the last one is the row. */
  predicate ChainOk(j: Job, h: seq<Event>) {
    && |h| == j.version + 1
    && (forall i :: 0 <= i < |h| ==> h[i].version == i && h[i].job == j.id)
    && h[0].from == None
    && (forall i :: 0 < i < |h| ==> h[i].from == Some(h[i - 1].to))
    && h[|h| - 1].epoch == j.epoch
    && ReplayLog(h) == At(j.status, j.phase)
  }

  predicate SingleAttempt(h: seq<Event>) {
    forall p, q :: 0 <= p < q < |h| && h[p].kind == EvPhaseAdvanced
      ==> h[q].kind != EvClaimed && h[q].kind != EvRequeued
  }

  /** How an event kind moves the phase; a terminal phase never moves. */
  predicate PhaseArrow(kind: EventKind, from: Phase, to: Phase) {
    from != Terminal &&
    match kind
    case EvAccepted => to == Accepted
    case EvLegacyQuarantined => to == LegacyQuarantined
    case EvClaimed => to == Claimed
    case EvPhaseAdvanced => to == InboundRecorded || ExternalEffect(to)
    case EvReviewRequired => to == from
    case EvRequeued => to == Accepted
    case _ => to == Terminal
  }

  predicate PhasesOk(h: seq<Event>) {
    && (forall p :: 0 < p < |h| ==> PhaseArrow(h[p].kind, h[p - 1].phase, h[p].phase))
    && (forall p :: 0 < p < |h| ==> h[p].kind != EvAccepted && h[p].kind != EvLegacyQuarantined)
    && (h != [] ==> PhaseArrow(h[0].kind, h[0].phase, h[0].phase)
                    && (h[0].kind == EvAccepted || h[0].kind == EvLegacyQuarantined))
  }

  predicate EffectsOk(j: Job, h: seq<Event>) {
    && SingleAttempt(h)
    && PhasesOk(h)
    && (h != [] ==> h[|h| - 1].phase == j.phase)
    && ((exists p :: 0 <= p < |h| && h[p].kind == EvPhaseAdvanced) ==> !Requeueable(j.phase))
  }

  predicate AttemptsOk(j: Job, h: seq<Event>) {
    && j.attempts == Count(h, EvClaimed)
    && j.attempts + (if j.status == Queued then 1 else 0) <= Count(h, EvRequeued) + Count(h, EvAccepted)
    && Count(h, EvAccepted) <= 1
    && (Count(h, EvAccepted) == 1 ==> h != [] && h[0].kind == EvAccepted)
  }

  /** Receipts of one job use distinct keys and name the version they acted on. */
  predicate ReceiptsOk(h: seq<Event>) {
    && (forall p, q :: 0 <= p < q < |h| && h[p].receipt.Some? && h[q].receipt.Some?
          ==> h[p].receipt.value.key != h[q].receipt.value.key)
    && (forall p :: 0 <= p < |h| && h[p].receipt.Some? ==> h[p].receipt.value.digest.expected == p - 1)
    && (forall p :: 0 <= p < |h| && h[p].receipt.Some? ==> h[p].receipt.value.digest.job == h[p].job)
    && (forall p :: 0 <= p < |h| && h[p].receipt.Some? ==> CommandKind(h[p].receipt.value.digest.action) == h[p].kind)
  }

  predicate JobOk(j: Job, h: seq<Event>) {
    RowOk(j) && ChainOk(j, h) && EffectsOk(j, h) && AttemptsOk(j, h) && ReceiptsOk(h)
  }

  predicate UniqueKeys(s: State) {
    forall a, b :: a in s.jobs && b in s.jobs && a != b
      ==> s.jobs[a].route != s.jobs[b].route || s.jobs[a].providerId != s.jobs[b].providerId
  }

  predicate Keyed(s: State) {
    && (forall id :: id in s.jobs ==> s.jobs[id].id == id)
    && (forall e :: e in s.log ==> e.job in s.jobs)
  }

  predicate JobsOk(s: State) {
    forall id {:trigger History(s.log, id)} :: id in s.jobs ==> JobOk(s.jobs[id], History(s.log, id))
  }

  predicate Inv(s: State) {
    Keyed(s) && JobsOk(s) && UniqueKeys(s)
  }

  /** The table a deployment starts from: nothing but quarantined legacy rows. */
  predicate Quarantined(j: Job) {
    && j.status == ReviewRequired && j.phase == LegacyQuarantined
    && j.threadKey.None? && j.payload.None? && j.legacy.Some?
    && j.version == 0 && j.attempts == 0 && j.leaseOwner.None? && j.leaseExpires.None?
    && j.epoch.None? && j.terminalAt.None?
  }

  predicate Initial(s: State) {
    && Keyed(s)
    && (forall id :: id in s.jobs ==> Quarantined(s.jobs[id]))
    && (forall id :: id in s.jobs ==>
          History(s.log, id) == [EventOf(s.jobs[id], EvLegacyQuarantined, None, System, None)])
    && UniqueKeys(s)
  }

  // ---------------------------------------------------------------- preservation

  lemma HistoryAppend(log: seq<Event>, e: Event, id: JobId)
    ensures History(log + [e], id) == if e.job == id then History(log, id) + [e] else History(log, id)
  {
    assert (log + [e])[..|log|] == log;
  }

  lemma {:induction false} HistoryMembers(log: seq<Event>, id: JobId)
    ensures forall e :: e in History(log, id) <==> e in log && e.job == id
  {
    if log != [] {
      HistoryMembers(log[..|log| - 1], id);
      assert log == log[..|log| - 1] + [log[|log| - 1]];
    }
  }

  lemma CountAppend(h: seq<Event>, e: Event, kind: EventKind)
    ensures Count(h + [e], kind) == Count(h, kind) + if e.kind == kind then 1 else 0
  {
    assert (h + [e])[..|h|] == h;
  }

  predicate SameIdentity(j: Job, k: Job) {
    k.id == j.id && k.route == j.route && k.providerId == j.providerId
  }

  predicate KeyUnused(h: seq<Event>, key: string) {
    forall p :: 0 <= p < |h| && h[p].receipt.Some? ==> h[p].receipt.value.key != key
  }

  /** The link every single-row step has to supply: the event fits the row before and after. */
  predicate Fits(j: Job, k: Job, e: Event, h: seq<Event>) {
    && SameIdentity(j, k) && k.version == j.version + 1
    && e.job == j.id && e.from == Some(j.status) && e.to == k.status && e.phase == k.phase
    && e.version == k.version && e.epoch == k.epoch
    && Arrow(e.kind, Some(j.status), k.status) && PhaseArrow(e.kind, j.phase, k.phase)
    && RowOk(k)
    && k.attempts == j.attempts + (if e.kind == EvClaimed then 1 else 0)
    && (e.kind == EvClaimed || e.kind == EvRequeued ==> Requeueable(j.phase))
    && (e.kind == EvPhaseAdvanced ==> !Requeueable(k.phase))
    && (!Requeueable(j.phase) ==> !Requeueable(k.phase))
    && (e.receipt.Some? ==>
          && e.receipt.value.digest.expected == j.version && e.receipt.value.digest.job == j.id
          && CommandKind(e.receipt.value.digest.action) == e.kind
          && KeyUnused(h, e.receipt.value.key))
  }

  lemma ChainStep(j: Job, k: Job, e: Event, h: seq<Event>)
    requires ChainOk(j, h) && Fits(j, k, e, h)
    ensures ChainOk(k, h + [e])
  {
    var g := h + [e];
    assert g[..|h|] == h;
    assert ReplayLog(g) == At(k.status, k.phase);
    assert h[|h| - 1].to == j.status by { assert ReplayLog(h) == At(j.status, j.phase); }
  }

  lemma EffectsStep(j: Job, k: Job, e: Event, h: seq<Event>)
    requires h != [] && EffectsOk(j, h) && Fits(j, k, e, h)
    ensures EffectsOk(k, h + [e])
  {
    var g := h + [e];
    forall p, q | 0 <= p < q < |g| && g[p].kind == EvPhaseAdvanced
      ensures g[q].kind != EvClaimed && g[q].kind != EvRequeued
    {
      assert h[p].kind == EvPhaseAdvanced;
    }
    if p :| 0 <= p < |g| && g[p].kind == EvPhaseAdvanced {
      if p < |h| { assert h[p].kind == EvPhaseAdvanced; }
    }
  }

  lemma AttemptsStep(j: Job, k: Job, e: Event, h: seq<Event>)
    requires h != [] && AttemptsOk(j, h) && Fits(j, k, e, h)
    ensures AttemptsOk(k, h + [e])
  {
    CountAppend(h, e, EvClaimed);
    CountAppend(h, e, EvRequeued);
    CountAppend(h, e, EvAccepted);
  }

  lemma ReceiptsStep(j: Job, k: Job, e: Event, h: seq<Event>)
    requires |h| == j.version + 1 && ReceiptsOk(h) && Fits(j, k, e, h)
    ensures ReceiptsOk(h + [e])
  {
  }

  lemma RowStep(j: Job, k: Job, e: Event, h: seq<Event>)
    requires JobOk(j, h) && Fits(j, k, e, h)
    ensures JobOk(k, h + [e])
    ensures SameIdentity(j, k) && e.job == k.id
  {
    ChainStep(j, k, e, h);
    EffectsStep(j, k, e, h);
    AttemptsStep(j, k, e, h);
    ReceiptsStep(j, k, e, h);
  }

  lemma OtherJobKept(s: State, k: Job, e: Event, id: JobId)
    requires e.job == k.id && id in s.jobs && id != k.id && JobOk(s.jobs[id], History(s.log, id))
    ensures JobOk(s.jobs[k.id := k][id], History(s.log + [e], id))
  {
    HistoryAppend(s.log, e, id);
  }

  /** Appending one event and overwriting its row leaves every other job's history alone. */
  lemma WriteKeepsJobs(s: State, k: Job, e: Event)
    requires e.job == k.id && JobsOk(s)
    requires JobOk(k, History(s.log, k.id) + [e])
    ensures JobsOk(State(s.jobs[k.id := k], s.log + [e]))
  {
    var t := State(s.jobs[k.id := k], s.log + [e]);
    HistoryAppend(s.log, e, k.id);
    forall id | id in t.jobs ensures JobOk(t.jobs[id], History(t.log, id)) {
      if id != k.id { OtherJobKept(s, k, e, id); }
    }
  }

  lemma WriteKeepsUnique(s: State, k: Job, log: seq<Event>)
    requires UniqueKeys(s) && k.id in s.jobs && SameIdentity(s.jobs[k.id], k)
    ensures UniqueKeys(State(s.jobs[k.id := k], log))
  {
  }

  lemma WriteKeepsKeyed(s: State, k: Job, e: Event)
    requires Keyed(s) && e.job == k.id
    ensures Keyed(State(s.jobs[k.id := k], s.log + [e]))
  {
  }

  lemma WriteKeepsInv(s: State, k: Job, e: Event)
    requires Inv(s) && k.id in s.jobs && SameIdentity(s.jobs[k.id], k) && e.job == k.id
    requires JobOk(k, History(s.log, k.id) + [e])
    ensures Inv(State(s.jobs[k.id := k], s.log + [e]))
  {
    WriteKeepsKeyed(s, k, e);
    WriteKeepsUnique(s, k, s.log + [e]);
    WriteKeepsJobs(s, k, e);
  }

  lemma InvRow(s: State, id: JobId)
    requires Inv(s) && id in s.jobs
    ensures s.jobs[id].id == id && RowOk(s.jobs[id])
  {
    assert JobOk(s.jobs[id], History(s.log, id));
  }

  lemma {:induction false} NoHistory(log: seq<Event>, id: JobId)
    requires forall e :: e in log ==> e.job != id
    ensures History(log, id) == []
  {
    if log != [] { NoHistory(log[..|log| - 1], id); }
  }

  lemma FreshCounts(e: Event, kind: EventKind)
    ensures Count([e], kind) == if e.kind == kind then 1 else 0
  {
    CountAppend([], e, kind);
    assert [] + [e] == [e];
  }

  lemma FreshChainOk(k: Job, e: Event)
    requires k.version == 0 && k.epoch == None
    requires e == EventOf(k, e.kind, None, System, None) && Arrow(e.kind, None, k.status)
    ensures ChainOk(k, [e])
  {
    assert [e][..0] == [];
  }

  lemma FreshJobOk(k: Job, e: Event)
    requires RowOk(k) && k.version == 0 && k.attempts == 0 && k.epoch == None
    requires e == EventOf(k, e.kind, None, System, None) && Arrow(e.kind, None, k.status)
    requires PhaseArrow(e.kind, k.phase, k.phase)
    ensures JobOk(k, [e])
  {
    FreshChainOk(k, e);
    FreshCounts(e, EvClaimed);
    FreshCounts(e, EvRequeued);
    FreshCounts(e, EvAccepted);
  }

  lemma AdmitKeepsInv(s: State, row: NewRow, route: Uuid, agent: Uuid, now: Time)
    requires Inv(s) && row.id !in s.jobs
    ensures Inv(Admit(s, row, route, agent, now))
  {
    if !KeyTaken(s, route, row.message.providerId) {
      var k := FreshRow(row, route, agent, now);
      var e := EventOf(k, EvAccepted, None, System, None);
      assert JobsOk(State(s.jobs[k.id := k], s.log + [e])) by {
        NoHistory(s.log, row.id);
        FreshJobOk(k, e);
        assert [] + [e] == [e];
        WriteKeepsJobs(s, k, e);
      }
    }
  }

  lemma {:induction false} AdmitAllKeepsInv(s: State, rows: seq<NewRow>, route: Uuid, agent: Uuid, now: Time)
    requires Inv(s) && FreshIds(s, rows)
    ensures Inv(AdmitAll(s, rows, route, agent, now))
    ensures forall id :: id in AdmitAll(s, rows, route, agent, now).jobs
              ==> id in s.jobs || exists r <- rows :: r.id == id
  {
    if rows != [] {
      var init, last := rows[..|rows| - 1], rows[|rows| - 1];
      assert FreshIds(s, init);
      AdmitAllKeepsInv(s, init, route, agent, now);
      assert last.id !in AdmitAll(s, init, route, agent, now).jobs;
      AdmitKeepsInv(AdmitAll(s, init, route, agent, now), last, route, agent, now);
    }
  }

  lemma ClaimFits(j: Job, worker: WorkerId, expires: Time, h: seq<Event>)
    requires RowOk(j) && j.status == Queued
    ensures var k := ClaimRow(j, worker, expires); Fits(j, k, EventOf(k, EvClaimed, Some(Queued), Worker, None), h)
  {
  }

  lemma SweepFits(j: Job, now: Time, h: seq<Event>)
    requires RowOk(j) && j.status == Processing
    ensures var k := SweepRow(j, now); Fits(j, k, EventOf(k, EvReviewRequired, Some(j.status), System, None), h)
  {
  }

  lemma AdvanceFits(j: Job, phase: Phase, epoch: Option<Epoch>, h: seq<Event>)
    requires RowOk(j) && j.status == Processing && (phase == InboundRecorded || ExternalEffect(phase))
    ensures var k := AdvanceRow(j, phase, epoch);
            Fits(j, k, EventOf(k, EvPhaseAdvanced, Some(j.status), Worker, None), h)
  {
  }

  lemma FinishFits(j: Job, o: Outcome, code: Option<string>, now: Time, h: seq<Event>)
    requires RowOk(j) && j.status == Processing
    ensures var k := FinishRow(j, o, code, now); Fits(j, k, EventOf(k, OutcomeKind(o), Some(j.status), Worker, None), h)
  {
  }

  lemma WorkerStepFits(s: State, st: Step, h: seq<Event>)
    requires !st.Enqueue? && !st.Operate? && Enabled(s, st) && RowOk(s.jobs[st.job]) && s.jobs[st.job].id == st.job
    ensures var (k, e) := Effect(s, st);
            && Fits(s.jobs[st.job], k, e, h) && Next(s, st) == State(s.jobs[k.id := k], s.log + [e])
  {
    var j := s.jobs[st.job];
    match st
    case Claim(worker, _, expires) => ClaimFits(j, worker, expires, h);
    case Sweep(_, now) => SweepFits(j, now, h);
    case Advance(_, _, phase, epoch) => AdvanceFits(j, phase, epoch, h);
    case Finish(_, _, o, code, now) => FinishFits(j, o, code, now, h);
  }

  /** The row and the event a worker or sweep step writes. */
  function Effect(s: State, st: Step): (Job, Event)
    requires !st.Enqueue? && !st.Operate? && Enabled(s, st)
  {
    var j := s.jobs[st.job];
    match st
    case Claim(worker, _, expires) =>
      var k := ClaimRow(j, worker, expires); (k, EventOf(k, EvClaimed, Some(Queued), Worker, None))
    case Sweep(_, now) =>
      var k := SweepRow(j, now); (k, EventOf(k, EvReviewRequired, Some(j.status), System, None))
    case Advance(_, _, phase, epoch) =>
      var k := AdvanceRow(j, phase, epoch); (k, EventOf(k, EvPhaseAdvanced, Some(j.status), Worker, None))
    case Finish(_, _, o, code, now) =>
      var k := FinishRow(j, o, code, now); (k, EventOf(k, OutcomeKind(o), Some(j.status), Worker, None))
  }

  lemma CommandFits(j: Job, c: Command, now: Time, h: seq<Event>)
    requires RowOk(j) && j.id == c.job && Resolvable(j, c.action)
    requires KeyUnused(h, c.key)
    ensures var k := CommandRow(j, c.action, now);
            Fits(j, k, EventOf(k, CommandKind(c.action), Some(j.status), Operator(c.admin), Some(ReceiptOf(c, j))), h)
  {
  }

  lemma WorkerStepKeepsInv(s: State, st: Step)
    requires Inv(s) && Enabled(s, st) && !st.Enqueue? && !st.Operate?
    ensures Inv(Next(s, st))
  {
    InvRow(s, st.job);
    WorkerStepFits(s, st, History(s.log, st.job));
    var (k, e) := Effect(s, st);
    RowStep(s.jobs[k.id], k, e, History(s.log, k.id));
    WriteKeepsInv(s, k, e);
  }

  lemma NewKey(log: seq<Event>, job: JobId, key: string)
    requires !HasReceipt(log, job, key)
    ensures KeyUnused(History(log, job), key)
  {
    var h := History(log, job);
    HistoryMembers(log, job);
    forall p | 0 <= p < |h| && h[p].receipt.Some? ensures h[p].receipt.value.key != key {
      assert h[p] in h;
    }
  }

  lemma CommandWrite(s: State, c: Command, now: Time) returns (k: Job, e: Event)
    requires Judge(s, c) == Verdict.Apply && RowOk(s.jobs[c.job]) && s.jobs[c.job].id == c.job
    ensures Fits(s.jobs[c.job], k, e, History(s.log, c.job))
    ensures k.id == c.job && Next(s, Operate(c, now)) == State(s.jobs[k.id := k], s.log + [e])
  {
    var j := s.jobs[c.job];
    NewKey(s.log, c.job, c.key);
    CommandFits(j, c, now, History(s.log, c.job));
    k := CommandRow(j, c.action, now);
    e := EventOf(k, CommandKind(c.action), Some(j.status), Operator(c.admin), Some(ReceiptOf(c, j)));
  }

  lemma CommandKeepsInv(s: State, c: Command, now: Time)
    requires Inv(s) && Judge(s, c) == Verdict.Apply
    ensures Inv(Next(s, Operate(c, now)))
  {
    InvRow(s, c.job);
    var k, e := CommandWrite(s, c, now);
    RowStep(s.jobs[k.id], k, e, History(s.log, k.id));
    WriteKeepsInv(s, k, e);
  }

  /** Every atomic step of a worker, a sweep, a webhook or an operator keeps the invariant. */
  lemma StepKeepsInv(s: State, st: Step)
    requires Inv(s) && Enabled(s, st)
    ensures Inv(Next(s, st))
  {
    match st
    case Enqueue(rows, route, agent, now) => AdmitAllKeepsInv(s, rows, route, agent, now);
    case Operate(c, now) => CommandKeepsInv(s, c, now);
    case _ => WorkerStepKeepsInv(s, st);
  }

  lemma InitialInv(s: State)
    requires Initial(s)
    ensures Inv(s)
  {
    forall id | id in s.jobs ensures JobOk(s.jobs[id], History(s.log, id)) {
      FreshJobOk(s.jobs[id], EventOf(s.jobs[id], EvLegacyQuarantined, None, System, None));
    }
  }

  lemma {:induction false} RunKeepsInv(s: State, steps: seq<Step>)
    requires Inv(s) && ValidRun(s, steps)
    ensures Inv(Exec(s, steps))
  {
    if steps != [] {
      RunKeepsInv(s, steps[..|steps| - 1]);
      StepKeepsInv(Exec(s, steps[..|steps| - 1]), steps[|steps| - 1]);
    }
  }
}
