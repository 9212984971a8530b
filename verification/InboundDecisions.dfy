/** When each ingress operation takes effect, read off the earlier steps, the history and the
    columns of the row. */
module InboundDecisions {
  import opened Common
  import opened InboundModel
  import opened InboundHistory
  import opened InboundGuarantees
  import opened ChannelInbound

  lemma OneMore(s: State, steps: seq<Step>, st: Step)
    requires ValidRun(s, steps)
    ensures ValidRun(s, steps + [st]) <==> Enabled(Exec(s, steps), st)
    ensures ValidRun(s, steps + [st]) ==> Exec(s, steps + [st]) == Next(Exec(s, steps), st)
  {
    assert (steps + [st])[..|steps|] == steps;
  }

  lemma ReachableRow(s: State, steps: seq<Step>, id: JobId)
    requires Initial(s) && ValidRun(s, steps) && id in Exec(s, steps).jobs
    ensures RowOk(Exec(s, steps).jobs[id]) && Exec(s, steps).jobs[id].id == id
    ensures JobOk(Exec(s, steps).jobs[id], History(Exec(s, steps).log, id))
  {
    InitialInv(s);
    RunKeepsInv(s, steps);
    InvRow(Exec(s, steps), id);
  }

  // ---------------------------------------------------------------- leases

  /** The row is being processed, and the deadline its latest claim was given has passed. */
  predicate Overdue(s: State, steps: seq<Step>, id: JobId, now: Time)
    requires ValidRun(s, steps)
  {
    && id in Exec(s, steps).jobs && Exec(s, steps).jobs[id].status == Processing
    && LatestLease(steps, id).Some? && LatestLease(steps, id).value.deadline < now
  }

  /** A row can be swept exactly when the deadline of its latest claim has passed. */
  lemma SweptIffOverdue(s: State, steps: seq<Step>, id: JobId, now: Time)
    requires Initial(s) && ValidRun(s, steps)
    ensures ValidRun(s, steps + [Sweep(id, now)]) <==> Overdue(s, steps, id, now)
  {
    OneMore(s, steps, Sweep(id, now));
    if id in Exec(s, steps).jobs && Exec(s, steps).jobs[id].status == Processing { LeaseIsLatestClaims(s, steps, id); }
  }

  /** The row waits, and every older row of its thread is completed, handed over, ignored or
      cancelled. */
  predicate NextInLine(t: State, id: JobId) {
    && id in t.jobs && t.jobs[id].status == Queued && t.jobs[id].threadKey.Some?
    && forall x <- t.jobs ::
         t.jobs[x].threadKey == t.jobs[id].threadKey
         && (t.jobs[x].createdAt < t.jobs[id].createdAt || (t.jobs[x].createdAt == t.jobs[id].createdAt && x < id))
         ==> t.jobs[x].status in {Completed, RoutedToHuman, Ignored, Cancelled}
  }

  /** A row can be claimed exactly when it is next in line in its thread. */
  lemma ClaimedIffNextInLine(s: State, steps: seq<Step>, worker: WorkerId, id: JobId, expires: Time)
    requires Initial(s) && ValidRun(s, steps)
    ensures ValidRun(s, steps + [Step.Claim(worker, id, expires)]) <==> NextInLine(Exec(s, steps), id)
  {
    OneMore(s, steps, Step.Claim(worker, id, expires));
    RunKeysRows(s, steps);
    NextInLineIff(Exec(s, steps), id);
  }

  lemma RunKeysRows(s: State, steps: seq<Step>)
    requires Initial(s) && ValidRun(s, steps)
    ensures Keyed(Exec(s, steps))
  {
    InitialInv(s);
    RunKeepsInv(s, steps);
  }

  lemma NextInLineIff(t: State, id: JobId)
    requires Keyed(t)
    ensures NextInLine(t, id) <==> id in t.jobs && Claimable(t, t.jobs[id])
  {
    if id in t.jobs && !Claimable(t, t.jobs[id]) && t.jobs[id].status == Queued && t.jobs[id].threadKey.Some? {
      var x :| x in t.jobs && SameThread(t.jobs[x], t.jobs[id]) && Blocking(t.jobs[x].status)
               && Before(t.jobs[x], t.jobs[id]);
      assert t.jobs[x].id == x;
    }
    if id in t.jobs && Claimable(t, t.jobs[id]) {
      forall x | x in t.jobs && t.jobs[x].threadKey == t.jobs[id].threadKey
          && (t.jobs[x].createdAt < t.jobs[id].createdAt || (t.jobs[x].createdAt == t.jobs[id].createdAt && x < id))
        ensures t.jobs[x].status in {Completed, RoutedToHuman, Ignored, Cancelled} {
        assert SameThread(t.jobs[x], t.jobs[id]) && Before(t.jobs[x], t.jobs[id]);
      }
    }
  }

  /** What one claim transaction does on a reachable table, from its claims so far and the
      arguments: it sweeps iff some free row is overdue, then the one whose deadline passed
      first, and claims nothing; otherwise it claims iff some free row is next in line, then the
      oldest such, until the asked deadline. */
  lemma ClaimTransaction(s: State, steps: seq<Step>, worker: WorkerId, now: Time, leaseFor: Time, locked: set<JobId>,
                         job: Option<JobId>, swept: Option<JobId>, t: State)
    requires Initial(s) && ValidRun(s, steps)
    requires ClaimOutcome(Exec(s, steps), worker, now, leaseFor, locked, job, swept, t)
    ensures swept.Some? <==> exists id :: id !in locked && Overdue(s, steps, id, now)
    ensures swept.Some? ==>
              && job.None? && swept.value !in locked && Overdue(s, steps, swept.value, now)
              && (forall id | id !in locked && Overdue(s, steps, id, now) ::
                    LatestLease(steps, swept.value).value.deadline <= LatestLease(steps, id).value.deadline)
              && t == Exec(s, steps + [Sweep(swept.value, now)])
    ensures swept.None? ==> (job.Some? <==> exists id :: id !in locked && NextInLine(Exec(s, steps), id))
    ensures job.Some? ==>
              && job.value !in locked && NextInLine(Exec(s, steps), job.value)
              && (forall id | id !in locked && NextInLine(Exec(s, steps), id) ::
                    Exec(s, steps).jobs[job.value].createdAt <= Exec(s, steps).jobs[id].createdAt)
              && t == Exec(s, steps + [Step.Claim(worker, job.value, now + leaseFor)])
    ensures swept.None? && job.None? ==> t == Exec(s, steps)
  {
    var u := Exec(s, steps);
    RunKeysRows(s, steps);
    forall id ensures Overdue(s, steps, id, now) <==> id in u.jobs && Expired(u.jobs[id], now) {
      SweptIffOverdue(s, steps, id, now);
      OneMore(s, steps, Sweep(id, now));
    }
    forall id | Overdue(s, steps, id, now)
      ensures u.jobs[id].leaseExpires == Some(LatestLease(steps, id).value.deadline) {
      LeaseIsLatestClaims(s, steps, id);
    }
    forall id ensures NextInLine(u, id) <==> id in u.jobs && Claimable(u, u.jobs[id]) { NextInLineIff(u, id); }
    if swept.Some? { OneMore(s, steps, Sweep(swept.value, now)); }
    if job.Some? { OneMore(s, steps, Step.Claim(worker, job.value, now + leaseFor)); }
  }

  // ---------------------------------------------------------------- owned writes

  /** The worker holds the latest lease of a row that is still being processed. */
  predicate Holds(s: State, steps: seq<Step>, worker: WorkerId, id: JobId)
    requires ValidRun(s, steps)
  {
    && id in Exec(s, steps).jobs && Exec(s, steps).jobs[id].status == Processing
    && LatestLease(steps, id).Some? && LatestLease(steps, id).value.worker == worker
  }

  /** A fence is recorded exactly for the holder, and its snapshot comes exactly with the
      inbound message. */
  lemma FencedIffHeld(s: State, steps: seq<Step>, worker: WorkerId, id: JobId, phase: Phase, epoch: Option<Epoch>)
    requires Initial(s) && ValidRun(s, steps)
    ensures ValidRun(s, steps + [Step.Advance(worker, id, phase, epoch)]) <==>
            && Holds(s, steps, worker, id)
            && ((phase == InboundRecorded && epoch.Some?)
                || (phase in {ProviderEffectStarted, TranscriptionStarted, AgentEffectStarted, OutboxEffectStarted}
                    && epoch.None?))
  {
    OneMore(s, steps, Step.Advance(worker, id, phase, epoch));
    if id in Exec(s, steps).jobs && Exec(s, steps).jobs[id].status == Processing { LeaseIsLatestClaims(s, steps, id); }
  }

  /** Only the holder settles a job, and the holder always can. */
  lemma SettledIffHeld(s: State, steps: seq<Step>, worker: WorkerId, id: JobId, outcome: Outcome, code: Option<string>,
                       now: Time)
    requires Initial(s) && ValidRun(s, steps)
    ensures ValidRun(s, steps + [Finish(worker, id, outcome, code, now)]) <==> Holds(s, steps, worker, id)
  {
    OneMore(s, steps, Finish(worker, id, outcome, code, now));
    if id in Exec(s, steps).jobs && Exec(s, steps).jobs[id].status == Processing { LeaseIsLatestClaims(s, steps, id); }
  }

  // ---------------------------------------------------------------- operator commands

  /** The row is of this agent and at this version, and the command's key is new on it. */
  predicate Addressed(t: State, c: Command) {
    && c.key != "" && c.correlation != ""
    && c.job in t.jobs && t.jobs[c.job].agent == c.agent && t.jobs[c.job].version == c.expected
    && forall e <- t.log :: e.job == c.job && e.receipt.Some? ==> e.receipt.value.key != c.key
  }

  /** No lifecycle fence was ever recorded for the job. */
  predicate NeverFenced(t: State, id: JobId) { forall e <- t.log :: e.job == id ==> e.kind != EvPhaseAdvanced }

  /** What the state of the row has to be for each action. */
  predicate Ready(t: State, c: Command)
    requires c.job in t.jobs
  {
    var j := t.jobs[c.job];
    match c.action
    case Requeue =>
      j.status == ReviewRequired && NeverFenced(t, c.job) && (j.legacy.Some? ==> j.legacy.value.Readable?)
    case Cancel => j.status in {Queued, ReviewRequired}
    case Acknowledge => j.status == ReviewRequired
  }

  lemma HeldRowsRequeue(t: State, id: JobId)
    requires Inv(t) && id in t.jobs && t.jobs[id].status == ReviewRequired
    ensures Requeueable(t.jobs[id].phase) <==> NeverFenced(t, id)
    ensures t.jobs[id].legacy.None? ==> t.jobs[id].payload.Some? && t.jobs[id].threadKey.Some?
  {
    InvRow(t, id);
    UnfencedIff(t, id);
  }

  lemma ReadyIff(t: State, c: Command)
    requires Inv(t) && c.job in t.jobs
    ensures Ready(t, c) <==> Resolvable(t.jobs[c.job], c.action)
  {
    if c.action == Requeue && t.jobs[c.job].status == ReviewRequired { HeldRowsRequeue(t, c.job); }
  }

  lemma ReachableReady(s: State, steps: seq<Step>, c: Command)
    requires Initial(s) && ValidRun(s, steps) && c.job in Exec(s, steps).jobs
    ensures Ready(Exec(s, steps), c) <==> Resolvable(Exec(s, steps).jobs[c.job], c.action)
  {
    InitialInv(s);
    RunKeepsInv(s, steps);
    ReadyIff(Exec(s, steps), c);
  }

  lemma ApplyIff(t: State, c: Command)
    requires c.job in t.jobs ==> (Ready(t, c) <==> Resolvable(t.jobs[c.job], c.action))
    ensures Judge(t, c) == Verdict.Apply <==> Addressed(t, c) && Ready(t, c)
  {
  }

  /** A command takes effect exactly when it is addressed rightly and the row is ready: a requeue
      needs a held row without any fence in its history and, if quarantined, a readable payload;
      a cancel a waiting or held row; an acknowledgement a held one. */
  lemma CommandIff(s: State, steps: seq<Step>, c: Command, now: Time)
    requires Initial(s) && ValidRun(s, steps)
    ensures ValidRun(s, steps + [Operate(c, now)]) <==> Addressed(Exec(s, steps), c) && Ready(Exec(s, steps), c)
  {
    var t := Exec(s, steps);
    OneMore(s, steps, Operate(c, now));
    if c.job in t.jobs { ReachableReady(s, steps, c); }
    ApplyIff(t, c);
  }

  // ---------------------------------------------------------------- what the steps write

  /** The table differs in one row, and the log by one event of it that continues the history. */
  predicate OneWrite(s: State, t: State, id: JobId) {
    && id in s.jobs && t.jobs.Keys == s.jobs.Keys && (forall x <- s.jobs :: x != id ==> t.jobs[x] == s.jobs[x])
    && |t.log| == |s.log| + 1 && t.log[..|s.log|] == s.log
    && t.jobs[id].version == s.jobs[id].version + 1
    && var e, j, k := t.log[|s.log|], s.jobs[id], t.jobs[id];
       && e.job == id && e.from == Some(j.status) && e.to == k.status && e.version == k.version
       && e.phase == k.phase && e.code == k.code && e.epoch == k.epoch
  }

  /** Identity, provenance and creation time of a row never change. */
  predicate SameOrigin(j: Job, k: Job) {
    && k.id == j.id && k.route == j.route && k.providerId == j.providerId
    && k.agent == j.agent && k.createdAt == j.createdAt
  }

  /** Message, thread and snapshot stay. */
  predicate SameContent(j: Job, k: Job) {
    && SameOrigin(j, k) && k.payload == j.payload && k.legacy == j.legacy && k.threadKey == j.threadKey
    && k.epoch == j.epoch && k.terminalAt == j.terminalAt
  }

  /** A claim: the row is processed by the worker until the deadline, as one more attempt. */
  lemma ClaimWrites(s: State, worker: WorkerId, id: JobId, expires: Time)
    requires Keyed(s) && Enabled(s, Step.Claim(worker, id, expires))
    ensures var t := Next(s, Step.Claim(worker, id, expires));
            && OneWrite(s, t, id)
            && var j, k, e := s.jobs[id], t.jobs[id], t.log[|s.log|];
               && SameContent(j, k) && k.status == Processing && k.phase == Claimed && k.attempts == j.attempts + 1
               && k.leaseOwner == Some(worker) && k.leaseExpires == Some(expires) && k.code == None
               && e.kind == EvClaimed && e.actor == Worker && e.receipt == None
  {
  }

  /** A fence: only the phase moves, and the snapshot if one comes with it. */
  lemma FenceWrites(s: State, worker: WorkerId, id: JobId, phase: Phase, epoch: Option<Epoch>)
    requires Keyed(s) && Enabled(s, Step.Advance(worker, id, phase, epoch))
    ensures var t := Next(s, Step.Advance(worker, id, phase, epoch));
            && OneWrite(s, t, id)
            && var j, k, e := s.jobs[id], t.jobs[id], t.log[|s.log|];
               && SameContent(j, k.(epoch := j.epoch)) && k.status == j.status && k.attempts == j.attempts
               && k.phase == phase && k.epoch == (if epoch == None then j.epoch else epoch)
               && k.leaseOwner == j.leaseOwner && k.leaseExpires == j.leaseExpires && k.code == j.code
               && e.kind == EvPhaseAdvanced && e.actor == Worker && e.receipt == None
  {
  }

  /** An ending: done is completed, routed is handed over, and both erase the payload and stamp the
      time; review holds the row with its phase and payload.  The lease ends in every case. */
  lemma SettleWrites(s: State, worker: WorkerId, id: JobId, outcome: Outcome, code: Option<string>, now: Time)
    requires Keyed(s) && Enabled(s, Finish(worker, id, outcome, code, now))
    ensures var t := Next(s, Finish(worker, id, outcome, code, now));
            && OneWrite(s, t, id)
            && var j, k, e := s.jobs[id], t.jobs[id], t.log[|s.log|];
               && SameOrigin(j, k) && k.threadKey == j.threadKey && k.epoch == j.epoch && k.attempts == j.attempts
               && k.leaseOwner == None && k.leaseExpires == None && k.code == code
               && e.actor == Worker && e.receipt == None
               && match outcome
                  case Review =>
                    k.status == ReviewRequired && SameContent(j, k) && k.phase == j.phase && e.kind == EvReviewRequired
                  case Done =>
                    && k.status == Completed && k.phase == Terminal && k.payload == None && k.legacy == None
                    && k.terminalAt == Some(now) && e.kind == EvCompleted
                  case Routed =>
                    && k.status == RoutedToHuman && k.phase == Terminal && k.payload == None && k.legacy == None
                    && k.terminalAt == Some(now) && e.kind == EvRoutedToHuman
  {
  }

  /** A sweep holds the row for review with its phase and payload, and ends the lease. */
  lemma SweepWrites(s: State, id: JobId, now: Time)
    requires Keyed(s) && Enabled(s, Sweep(id, now))
    ensures var t := Next(s, Sweep(id, now));
            && OneWrite(s, t, id)
            && var j, k, e := s.jobs[id], t.jobs[id], t.log[|s.log|];
               && SameContent(j, k) && k.status == ReviewRequired && k.phase == j.phase && k.attempts == j.attempts
               && k.leaseOwner == None && k.leaseExpires == None && k.code == Some("lease_expired")
               && e.kind == EvReviewRequired && e.actor == System && e.receipt == None
  {
  }

  /** A command: a requeue lets the row wait again from the start, with a quarantined payload
      encrypted and keyed by its thread; a cancel or acknowledgement ends it and erases the payload.
      Each leaves a receipt of its key, action and expected version. */
  lemma CommandWrites(s: State, c: Command, now: Time)
    requires Keyed(s) && Enabled(s, Operate(c, now))
    ensures var t := Next(s, Operate(c, now));
            && OneWrite(s, t, c.job)
            && var j, k, e := s.jobs[c.job], t.jobs[c.job], t.log[|s.log|];
               && SameOrigin(j, k) && k.epoch == j.epoch && k.attempts == j.attempts
               && k.leaseOwner == None && k.leaseExpires == None
               && e.actor == Operator(c.admin)
               && e.receipt == Some(Receipt(c.key, Digest(c.action, c.expected, c.job), c.correlation))
               && match c.action
                  case Requeue =>
                    && k.status == Queued && k.phase == Accepted && k.code == None && k.legacy == None
                    && k.terminalAt == j.terminalAt && e.kind == EvRequeued
                    && (j.legacy.None? ==> k.payload == j.payload && k.threadKey == j.threadKey)
                    && (j.legacy.Some? ==>
                          && j.legacy.value.Readable? && k.payload == Some(Sealed(j.legacy.value.message))
                          && k.threadKey == Some(ThreadKey(j.route, j.legacy.value.message.threadId)))
                  case Cancel =>
                    && k.status == Cancelled && k.phase == Terminal && k.payload == None && k.legacy == None
                    && k.terminalAt == Some(now) && k.threadKey == j.threadKey && k.code == Some("cancel")
                    && e.kind == EvCancelled
                  case Acknowledge =>
                    && k.status == Ignored && k.phase == Terminal && k.payload == None && k.legacy == None
                    && k.terminalAt == Some(now) && k.threadKey == j.threadKey && k.code == Some("acknowledge")
                    && e.kind == EvAcknowledged
  {
  }

  /** A row that arrives waits, unclaimed, with its message under the thread of its route, stamped
      with the time of its batch. */
  lemma ArrivalWrites(s: State, rows: seq<NewRow>, route: Uuid, agent: Uuid, now: Time, id: JobId)
    requires Keyed(s) && FreshIds(s, rows)
    requires id !in s.jobs && id in Next(s, Enqueue(rows, route, agent, now)).jobs
    ensures var k := Next(s, Enqueue(rows, route, agent, now)).jobs[id];
            && (exists r <- rows :: r.id == id && k.providerId == r.message.providerId
                                    && k.payload == Some(Sealed(r.message))
                                    && k.threadKey == Some(ThreadKey(route, r.message.threadId)))
            && k.id == id && k.route == route && k.agent == agent && k.createdAt == now && k.legacy == None
            && k.status == Queued && k.phase == Accepted && k.version == 0 && k.attempts == 0
            && k.leaseOwner == None && k.leaseExpires == None && k.code == None
            && k.epoch == None && k.terminalAt == None
  {
    AdmittedRowsAreQueued(s, rows, route, agent, now, id);
  }

  // ---------------------------------------------------------------- batches and endings

  /** The message belongs to this route and connection and can be encrypted. */
  predicate Belongs(m: Envelope, r: Route, c: Connection) {
    m.channel == r.channel && m.routeKey == r.key && m.route == r.id && m.connection == c.id && m.sealable
  }

  lemma {:induction false} MessageFaultIff(messages: seq<Envelope>, r: Route, c: Connection)
    ensures MessageFault(messages, r, c) == None <==> forall m <- messages :: Belongs(m, r, c)
  {
    if messages != [] {
      var n := |messages| - 1;
      MessageFaultIff(messages[..n], r, c);
      assert messages[n] in messages && (forall m <- messages[..n] :: m in messages);
      forall m | m in messages ensures m in messages[..n] || m == messages[n] {
        var i :| 0 <= i < |messages| && messages[i] == m;
        if i < n { assert messages[..n][i] == m; }
      }
    }
  }

  /** A batch is taken exactly on an external channel with an implemented adapter of that channel,
      through a connection of the same channel and adapter that the route names, for a route with
      an agent, and with messages that all fit. */
  lemma BatchTakenIff(messages: seq<Envelope>, r: Route, c: Connection, a: Adapter)
    ensures BatchFault(messages, r, c, a) == None <==>
            && r.channel in {WhatsApp, Email, InstagramDm, FacebookMessenger}
            && a.implemented && a.channel == r.channel
            && r.connection == c.id && r.agent.Some? && c.channel == r.channel && c.adapterKey == a.key
            && forall m <- messages :: Belongs(m, r, c)
  {
    MessageFaultIff(messages, r, c);
  }

  /** How a run ends its job: completed exactly when the pipeline finished and the ownership check
      passed; handed over exactly when ownership blocked it before any effect phase; else held. */
  lemma EndingIff(s: State, job: JobId, worker: WorkerId, r: PipelineResult, epochCurrent: bool, now: Time, st: Step)
    requires Settles(s, job, worker, r, epochCurrent, now, st)
    ensures st.Finish? && st.job == job && st.worker == worker
    ensures st.outcome == Done <==> r == Finished && epochCurrent
    ensures st.outcome == Routed <==>
            r == OwnershipBlocked
            && (job in s.jobs ==> s.jobs[job].phase in {Accepted, LegacyQuarantined, Claimed, InboundRecorded})
    ensures st.outcome == Review <==> !(r == Finished && epochCurrent) && st.outcome != Routed
    ensures st.now == now
    ensures st.code == match r
                       case Finished => if epochCurrent then None else Some("conversation_epoch_changed")
                       case OwnershipBlocked =>
                         Some(if st.outcome == Routed then "automation_not_owner" else "ownership_changed_after_effect")
                       case Failed(code) => Some(code)
  {
  }
}
