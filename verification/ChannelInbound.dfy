/** The mutable job rows, the worker's transactions on them and batch acceptance. */
module ChannelInbound {
  import opened Common
  import opened InboundModel

  /** One persistent job row; its columns are overwritten in place. */
  class JobRow {
    const id: JobId
    const route: Uuid
    const providerId: string
    const agent: Uuid
    const createdAt: Time
    var threadKey: Option<ThreadKey>
    var payload: Option<Sealed>
    var legacy: Option<Legacy>
    var status: Status
    var phase: Phase
    var version: nat
    var attempts: nat
    var leaseOwner: Option<WorkerId>
    var leaseExpires: Option<Time>
    var code: Option<string>
    var epoch: Option<Epoch>
    var terminalAt: Option<Time>

    function View(): Job
      reads this
    {
      Job(id, route, providerId, agent, createdAt, threadKey, payload, legacy, status, phase, version,
          attempts, leaseOwner, leaseExpires, code, epoch, terminalAt)
    }

    constructor Insert(row: NewRow, route: Uuid, agent: Uuid, now: Time)
      ensures View() == FreshRow(row, route, agent, now)
    {
      id, this.route, providerId, this.agent, createdAt := row.id, route, row.message.providerId, agent, now;
      threadKey, payload, legacy := Some(ThreadKey(route, row.message.threadId)), Some(Sealed(row.message)), None;
      status, phase, version, attempts := Queued, Accepted, 0, 0;
      leaseOwner, leaseExpires, code, epoch, terminalAt := None, None, None, None, None;
    }

    method Claim(worker: WorkerId, expires: Time)
      modifies this
      ensures View() == ClaimRow(old(View()), worker, expires)
    {
      status := Processing;
      phase := Claimed;
      version := version + 1;
      attempts := attempts + 1;
      leaseOwner := Some(worker);
      leaseExpires := Some(expires);
      code := None;
    }

    method Advance(newPhase: Phase, snapshot: Option<Epoch>)
      modifies this
      ensures View() == AdvanceRow(old(View()), newPhase, snapshot)
    {
      if snapshot.Some? { epoch := snapshot; }
      phase := newPhase;
      version := version + 1;
    }

    method Move(newStatus: Status, newPhase: Phase, newCode: Option<string>)
      modifies this
      ensures View() == old(View()).(status := newStatus, phase := newPhase, version := old(version) + 1,
        code := newCode,
                                     leaseOwner := None, leaseExpires := None)
    {
      status := newStatus;
      phase := newPhase;
      version := version + 1;
      code := newCode;
      leaseOwner := None;
      leaseExpires := None;
    }

    method Close(now: Time)
      modifies this
      ensures View() == old(View()).(payload := None, legacy := None, terminalAt := Some(now))
    {
      payload := None;
      legacy := None;
      terminalAt := Some(now);
    }

    method Transition(newStatus: Status, newPhase: Phase, newCode: Option<string>, now: Time)
      modifies this
      ensures View() == TransitionRow(old(View()), newStatus, newPhase, newCode, now)
    {
      Move(newStatus, newPhase, newCode);
      if IsTerminal(newStatus) { Close(now); }
    }

    /** Encrypts a readable quarantined payload and keys its thread. */
    method Convert() returns (ok: bool)
      modifies this
      ensures ok <==> old(legacy).Some? ==> old(legacy).value.Readable?
      ensures View() == ConvertRow(old(View()))
    {
      ok := true;
      if legacy.Some? {
        match legacy.value
        case Unreadable => ok := false;
        case Readable(message) =>
          payload := Some(Sealed(message));
          threadKey := Some(ThreadKey(route, message.threadId));
          legacy := None;
      }
    }

    method ApplyCommand(newStatus: Status, newPhase: Phase, newCode: Option<string>, now: Time)
      modifies this
      ensures View() == old(View()).(status := newStatus, phase := newPhase, code := newCode,
                                     version := old(version) + 1, leaseOwner := None, leaseExpires := None,
                                     terminalAt := if newStatus == Cancelled || newStatus == Ignored
                                                   then Some(now) else old(terminalAt))
    {
      status := newStatus;
      phase := newPhase;
      code := newCode;
      version := version + 1;
      leaseOwner := None;
      leaseExpires := None;
      if newStatus == Cancelled || newStatus == Ignored { terminalAt := Some(now); }
    }

    method ErasePayload()
      modifies this
      ensures View() == old(View()).(payload := None, legacy := None)
    {
      payload := None;
      legacy := None;
    }
  }

  // ---------------------------------------------------------------- batch snapshots

  datatype Channel = Web | WhatsApp | Email | InstagramDm | FacebookMessenger | OtherChannel

  datatype Route = Route(id: Uuid, channel: Channel, key: string, connection: Uuid, agent: Option<Uuid>)
  datatype Connection = Connection(id: Uuid, channel: Channel, adapterKey: string)
  datatype Adapter = Adapter(channel: Channel, key: string, implemented: bool)

  /** A message with its own route; `sealable` is whether its payload can be encrypted. */
  datatype Envelope = Envelope(channel: Channel, routeKey: string, route: Uuid, connection: Uuid, message: Message,
                               sealable: bool)

  datatype BatchError = WebChat | AdapterNotExecutable | SnapshotInconsistent | MessageMismatch | Unavailable

  datatype BatchResult = Rejected(error: BatchError) | Stored(accepted: seq<JobId>, duplicates: nat)

  predicate Matches(m: Envelope, r: Route, c: Connection) {
    m.channel == r.channel && m.routeKey == r.key && m.route == r.id && m.connection == c.id
  }

  /** Which snapshot check of a non-empty batch fails first. */
  function BatchFault(messages: seq<Envelope>, r: Route, c: Connection, a: Adapter): Option<BatchError> {
    if r.channel == Web || r.channel == OtherChannel then Some(WebChat)
    else if !a.implemented || a.channel != r.channel then Some(AdapterNotExecutable)
    else if r.connection != c.id || r.agent == None || c.channel != r.channel || c.adapterKey != a.key
    then Some(SnapshotInconsistent)
    else MessageFault(messages, r, c)
  }

  /** The first message that does not match its route or cannot be encrypted. */
  function MessageFault(messages: seq<Envelope>, r: Route, c: Connection): Option<BatchError> {
    if messages == [] then None
    else
      var n := |messages| - 1;
      var before := MessageFault(messages[..n], r, c);
      if before.Some? then before
      else if !Matches(messages[n], r, c) then Some(MessageMismatch)
      else if !messages[n].sealable then Some(Unavailable)
      else None
  }

  function NewRows(messages: seq<Envelope>, ids: seq<JobId>): (rows: seq<NewRow>)
    requires |messages| == |ids|
    ensures |rows| == |ids|
    ensures forall i :: 0 <= i < |ids| ==> rows[i] == NewRow(ids[i], messages[i].message)
  {
    seq(|ids|, i requires 0 <= i < |ids| => NewRow(ids[i], messages[i].message))
  }

  /** The ids of a batch that made it into the table, in batch order. */
  function AcceptedIds(s: State, rows: seq<NewRow>, route: Uuid, agent: Uuid, now: Time): seq<JobId> {
    if rows == [] then []
    else
      var init, last := rows[..|rows| - 1], rows[|rows| - 1];
      AcceptedIds(s, init, route, agent, now)
      + if KeyTaken(AdmitAll(s, init, route, agent, now), route, last.message.providerId) then [] else [last.id]
  }

  lemma PrefixStep(s: State, rows: seq<NewRow>, i: nat, route: Uuid, agent: Uuid, now: Time)
    requires i < |rows|
    ensures var t := AdmitAll(s, rows[..i], route, agent, now);
            && AdmitAll(s, rows[..i + 1], route, agent, now) == Admit(t, rows[i], route, agent, now)
            && AcceptedIds(s, rows[..i + 1], route, agent, now)
               == AcceptedIds(s, rows[..i], route, agent, now)
                  + if KeyTaken(t, route, rows[i].message.providerId) then [] else [rows[i].id]
  {
    assert rows[..i + 1][..i] == rows[..i];
  }

  // ---------------------------------------------------------------- what a settled run means

  /** How the pipeline call ended, as `run_once` sorts its exceptions. */
  datatype PipelineResult = Finished | OwnershipBlocked | Failed(code: string)

  /** The phase a separate read finds; a missing row reads as accepted. */
  function CurrentPhase(s: State, job: JobId): Phase {
    if job in s.jobs then s.jobs[job].phase else Accepted
  }

  /** The step a settled run takes: completion only when the pipeline finished and the epoch
      check passed, handing over only while no effect phase is recorded, else review. */
  predicate Settles(s: State, job: JobId, worker: WorkerId, r: PipelineResult, epochCurrent: bool, now: Time,
                    st: Step) {
    && st.Finish? && st.worker == worker && st.job == job && st.now == now
    && (st.outcome == Done <==> r.Finished? && epochCurrent)
    && (st.outcome == Routed <==> r.OwnershipBlocked? && ZeroEffect(CurrentPhase(s, job)))
    && st.code == match r
                  case Finished => if epochCurrent then None else Some("conversation_epoch_changed")
                  case OwnershipBlocked =>
                    Some(if st.outcome == Routed then "automation_not_owner" else "ownership_changed_after_effect")
                  case Failed(code) => Some(code)
  }

  /** What one claim transaction may do to the table: sweep the earliest expired free lease
      and claim nothing; else claim the oldest free head; else leave everything alone. */
  ghost predicate ClaimOutcome(s: State, worker: WorkerId, now: Time, leaseFor: Time, locked: set<JobId>,
                               job: Option<JobId>, swept: Option<JobId>, t: State)
  {
    match (job, swept)
    case (None, Some(x)) =>
      && x !in locked && Enabled(s, Sweep(x, now)) && t == Next(s, Sweep(x, now))
      && forall id :: id in s.jobs && id !in locked && Expired(s.jobs[id], now)
           ==> s.jobs[x].leaseExpires.value <= s.jobs[id].leaseExpires.value
    case (Some(x), None) =>
      && (forall id :: id in s.jobs && id !in locked ==> !Expired(s.jobs[id], now))
      && x !in locked && Enabled(s, Step.Claim(worker, x, now + leaseFor))
      && t == Next(s, Step.Claim(worker, x, now + leaseFor))
      && forall id :: id in s.jobs && id !in locked && id != x && Claimable(s, s.jobs[id])
           ==> Before(s.jobs[x], s.jobs[id])
    case (None, None) =>
      && t == s
      && (forall id :: id in s.jobs && id !in locked ==> !Expired(s.jobs[id], now))
      && (forall id :: id in s.jobs && id !in locked ==> !Claimable(s, s.jobs[id]))
    case (Some(_), Some(_)) => false
  }

  /** The oldest claimable row outside the locked ones, if there is any. */
  ghost predicate OldestClaimable(s: State, locked: set<JobId>, job: Option<JobId>) {
    match job
    case Some(x) =>
      && x in s.jobs && x !in locked && Claimable(s, s.jobs[x])
      && forall id :: id in s.jobs && id !in locked && id != x && Claimable(s, s.jobs[id])
             ==> Before(s.jobs[x], s.jobs[id])
    case None => forall id :: id in s.jobs && id !in locked ==> !Claimable(s, s.jobs[id])
  }

  lemma ClaimedAsAsked(s: State, worker: WorkerId, now: Time, leaseFor: Time, locked: set<JobId>, job: Option<JobId>)
    requires OldestClaimable(s, locked, job)
    requires forall id :: id in s.jobs && id !in locked ==> !Expired(s.jobs[id], now)
    ensures ClaimOutcome(s, worker, now, leaseFor, locked, job, None,
                         if job.Some? then Next(s, Step.Claim(worker, job.value, now + leaseFor)) else s)
  {
  }

  class InboundStore {
    var rows: map<JobId, JobRow>
    var log: seq<Event>

    ghost predicate Valid()
      reads this, rows.Values
    {
      forall id :: id in rows ==> rows[id].id == id
    }

    /** The table and log as values. */
    ghost function Table(): State
      reads this, rows.Values
    {
      State(map id | id in rows :: rows[id].View(), log)
    }

    constructor ()
      ensures Valid() && Table() == State(map[], [])
    {
      rows, log := map[], [];
    }

    method Record(row: JobRow, kind: EventKind, from: Option<Status>, actor: Actor, receipt: Option<Receipt>)
      modifies this`log
      ensures log == old(log) + [EventOf(row.View(), kind, from, actor, receipt)]
    {
      log := log + [EventOf(row.View(), kind, from, actor, receipt)];
    }

    method IsKeyTaken(route: Uuid, providerId: string) returns (taken: bool)
      ensures taken == KeyTaken(Table(), route, providerId)
    {
      taken := false;
      var todo := rows.Keys;
      while todo != {}
        invariant todo <= rows.Keys
        invariant taken ==> KeyTaken(Table(), route, providerId)
        invariant !taken ==> forall id :: id in rows && id !in todo ==>
                    rows[id].route != route || rows[id].providerId != providerId
        decreases |todo|
      {
        var id :| id in todo;
        if rows[id].route == route && rows[id].providerId == providerId {
          assert Table().jobs[id] == rows[id].View();
          taken := true;
        }
        todo := todo - {id};
      }
      assert forall id :: id in Table().jobs ==> Table().jobs[id] == rows[id].View();
    }

    /** `ON CONFLICT DO NOTHING` for one row, with its accepted event. */
    method InsertRow(row: NewRow, route: Uuid, agent: Uuid, now: Time) returns (inserted: bool)
      requires Valid() && row.id !in rows
      modifies this
      ensures Valid() && fresh(rows.Values - old(rows.Values))
      ensures rows.Keys == old(rows.Keys) + if inserted then {row.id} else {}
      ensures inserted == !KeyTaken(old(Table()), route, row.message.providerId)
      ensures Table() == Admit(old(Table()), row, route, agent, now)
    {
      var taken := IsKeyTaken(route, row.message.providerId);
      inserted := !taken;
      if inserted {
        ghost var before := Table();
        var r := new JobRow.Insert(row, route, agent, now);
        rows := rows[r.id := r];
        Record(r, EvAccepted, None, System, None);
        assert Table().jobs == before.jobs[r.id := r.View()];
      }
    }

    /** Matches and encrypts the messages in order, up to the first that fails. */
    method SealMessages(messages: seq<Envelope>, r: Route, c: Connection) returns (fault: Option<BatchError>)
      ensures fault == MessageFault(messages, r, c)
    {
      fault := None;
      for i := 0 to |messages|
        invariant fault == MessageFault(messages[..i], r, c)
      {
        assert messages[..i + 1][..i] == messages[..i];
        if fault.None? {
          if !Matches(messages[i], r, c) {
            fault := Some(MessageMismatch);
          } else if !messages[i].sealable {
            fault := Some(Unavailable);
          }
        }
      }
      assert messages[..|messages|] == messages;
    }

    method InsertAll(batch: seq<NewRow>, route: Uuid, agent: Uuid, now: Time) returns (accepted: seq<JobId>)
      requires Valid() && FreshIds(Table(), batch)
      modifies this
      ensures Valid() && Table() == AdmitAll(old(Table()), batch, route, agent, now)
      ensures accepted == AcceptedIds(old(Table()), batch, route, agent, now)
      ensures |accepted| <= |batch|
    {
      accepted := [];
      for i := 0 to |batch|
        invariant Valid() && fresh(rows.Values - old(rows.Values))
        invariant forall k :: i <= k < |batch| ==> batch[k].id !in rows
        invariant Table() == AdmitAll(old(Table()), batch[..i], route, agent, now)
        invariant accepted == AcceptedIds(old(Table()), batch[..i], route, agent, now)
        invariant |accepted| <= i
      {
        PrefixStep(old(Table()), batch, i, route, agent, now);
        var inserted := InsertRow(batch[i], route, agent, now);
        if inserted { accepted := accepted + [batch[i].id]; }
      }
      assert batch[..|batch|] == batch;
    }

    /** Accepts one authenticated provider batch in one transaction; `persists` is whether the
        database lets it commit. */
    method EnqueueBatch(messages: seq<Envelope>, ids: seq<JobId>, r: Route, c: Connection, a: Adapter, now: Time,
                        persists: bool)
      returns (result: BatchResult)
      requires Valid() && |ids| == |messages|
      requires FreshIds(Table(), NewRows(messages, ids))
      modifies this
      ensures Valid()
      ensures messages == [] ==> result == Stored([], 0)
      ensures messages != [] && BatchFault(messages, r, c, a).Some?
        ==> result == Rejected(BatchFault(messages, r, c, a).value)
      ensures messages == [] || result.Rejected? ==> Table() == old(Table())
      ensures messages != [] && BatchFault(messages, r, c, a).None? && !persists ==> result == Rejected(Unavailable)
      ensures messages != [] && BatchFault(messages, r, c, a).None? && persists ==>
                && Table() == AdmitAll(old(Table()), NewRows(messages, ids), r.id, r.agent.value, now)
                && result.Stored?
                && result.accepted == AcceptedIds(old(Table()), NewRows(messages, ids), r.id, r.agent.value, now)
      ensures result.Stored? ==> |result.accepted| + result.duplicates == |messages|
    {
      if messages == [] { return Stored([], 0); }
      if r.channel == Web || r.channel == OtherChannel { return Rejected(WebChat); }
      if !a.implemented || a.channel != r.channel { return Rejected(AdapterNotExecutable); }
      if r.connection != c.id || r.agent == None || c.channel != r.channel || c.adapterKey != a.key {
        return Rejected(SnapshotInconsistent);
      }
      var fault := SealMessages(messages, r, c);
      if fault.Some? { return Rejected(fault.value); }
      if !persists { return Rejected(Unavailable); }
      var batch := NewRows(messages, ids);
      var accepted := InsertAll(batch, r.id, r.agent.value, now);
      result := Stored(accepted, |batch| - |accepted|);
    }

    // -------------------------------------------------------------- claiming

    /** The earliest expired lease that no concurrent transaction has locked. */
    method FindExpired(now: Time, locked: set<JobId>) returns (found: Option<JobId>)
      requires Valid()
      ensures found.Some? ==>
                && found.value in rows && found.value !in locked && Expired(rows[found.value].View(), now)
                && forall id :: id in rows && id !in locked && Expired(rows[id].View(), now)
                     ==> rows[found.value].leaseExpires.value <= rows[id].leaseExpires.value
      ensures found.None? ==> forall id :: id in rows && id !in locked ==> !Expired(rows[id].View(), now)
    {
      found := None;
      var todo := rows.Keys;
      while todo != {}
        invariant todo <= rows.Keys
        invariant found.Some? ==>
                    && found.value in rows && found.value !in locked && Expired(rows[found.value].View(), now)
                    && forall id :: id in rows && id !in todo && id !in locked && Expired(rows[id].View(), now)
                         ==> rows[found.value].leaseExpires.value <= rows[id].leaseExpires.value
        invariant found.None? ==>
                    forall id :: id in rows && id !in todo && id !in locked ==> !Expired(rows[id].View(), now)
        decreases |todo|
      {
        var id :| id in todo;
        if id !in locked && Expired(rows[id].View(), now) {
          if found.None? || rows[id].leaseExpires.value < rows[found.value].leaseExpires.value {
            found := Some(id);
          }
        }
        todo := todo - {id};
      }
    }

    /** The correlated "no earlier blocker" subquery for one row. */
    method HasEarlierBlocker(job: JobId) returns (blocked: bool)
      requires Valid() && job in rows
      ensures blocked <==> EarlierBlocker(Table(), rows[job].View())
    {
      var row := rows[job];
      blocked := false;
      var todo := rows.Keys;
      assert forall id :: id in rows ==> Table().jobs[id] == rows[id].View();
      while todo != {}
        invariant todo <= rows.Keys
        invariant blocked ==> EarlierBlocker(Table(), row.View())
        invariant !blocked ==> forall id :: id in rows && id !in todo ==>
                    !(SameThread(rows[id].View(), row.View()) && Blocking(rows[id].status)
                        && Before(rows[id].View(), row.View()))
        decreases |todo|
      {
        var id :| id in todo;
        if SameThread(rows[id].View(), row.View()) && Blocking(rows[id].status) && Before(rows[id].View(), row.View()) {
          assert Table().jobs[id] == rows[id].View();
          blocked := true;
        }
        todo := todo - {id};
      }
    }

    /** The oldest claimable row that no concurrent transaction has locked. */
    method FindClaimable(locked: set<JobId>) returns (found: Option<JobId>)
      requires Valid()
      ensures found.Some? ==>
                && found.value in rows && found.value !in locked && Claimable(Table(), rows[found.value].View())
                && forall id :: id in rows && id !in locked && id != found.value && Claimable(Table(), rows[id].View())
                     ==> Before(rows[found.value].View(), rows[id].View())
      ensures found.None? ==> forall id :: id in rows && id !in locked ==> !Claimable(Table(), rows[id].View())
    {
      found := None;
      var todo := rows.Keys;
      while todo != {}
        invariant todo <= rows.Keys
        invariant found.Some? ==>
                    && found.value in rows && found.value !in locked && Claimable(Table(), rows[found.value].View())
                    && forall id | id in rows && id !in todo && id !in locked && id != found.value ::
                         Claimable(Table(), rows[id].View()) ==> Before(rows[found.value].View(), rows[id].View())
        invariant found.None? ==>
                    forall id :: id in rows && id !in todo && id !in locked ==> !Claimable(Table(), rows[id].View())
        decreases |todo|
      {
        var id :| id in todo;
        if id !in locked && rows[id].status == Queued && rows[id].threadKey.Some? {
          var blocked := HasEarlierBlocker(id);
          if !blocked && (found.None? || Before(rows[id].View(), rows[found.value].View())) {
            found := Some(id);
          }
        }
        todo := todo - {id};
      }
    }

    /** The table after one row object was overwritten and its event appended. */
    lemma RowWritten(before: State, job: JobId, kind: EventKind, from: Option<Status>, actor: Actor,
                     receipt: Option<Receipt>)
      requires Valid() && job in rows && before.jobs.Keys == rows.Keys
      requires forall id :: id in rows && id != job ==> before.jobs[id] == rows[id].View()
      requires log == before.log + [EventOf(rows[job].View(), kind, from, actor, receipt)]
      ensures Table() == Write(before, rows[job].View(), kind, from, actor, receipt)
    {
      assert Table().jobs == before.jobs[job := rows[job].View()];
    }

    method TransitionAt(job: JobId, status: Status, phase: Phase, newCode: Option<string>,
                        kind: EventKind, actor: Actor, now: Time)
      requires Valid() && job in rows
      modifies this`log, rows[job]
      ensures Valid() && rows == old(rows)
      ensures Table() == Write(old(Table()), TransitionRow(old(Table()).jobs[job], status, phase, newCode, now), kind,
                               Some(old(Table()).jobs[job].status), actor, None)
    {
      ghost var before := Table();
      var row := rows[job];
      var from := row.status;
      row.Transition(status, phase, newCode, now);
      Record(row, kind, Some(from), actor, None);
      RowWritten(before, job, kind, Some(from), actor, None);
    }

    method ClaimAt(job: JobId, worker: WorkerId, expires: Time)
      requires Valid() && job in rows
      modifies this`log, rows[job]
      ensures Valid() && rows == old(rows)
      ensures Table() == Write(old(Table()), ClaimRow(old(Table()).jobs[job], worker, expires),
                               EvClaimed, Some(Queued), Worker, None)
    {
      ghost var before := Table();
      var row := rows[job];
      row.Claim(worker, expires);
      Record(row, EvClaimed, Some(Queued), Worker, None);
      RowWritten(before, job, EvClaimed, Some(Queued), Worker, None);
    }

    method AdvanceAt(job: JobId, phase: Phase, epoch: Option<Epoch>)
      requires Valid() && job in rows
      modifies this`log, rows[job]
      ensures Valid() && rows == old(rows)
      ensures Table() == Write(old(Table()), AdvanceRow(old(Table()).jobs[job], phase, epoch), EvPhaseAdvanced,
                               Some(old(Table()).jobs[job].status), Worker, None)
    {
      ghost var before := Table();
      var row := rows[job];
      var from := row.status;
      row.Advance(phase, epoch);
      Record(row, EvPhaseAdvanced, Some(from), Worker, None);
      RowWritten(before, job, EvPhaseAdvanced, Some(from), Worker, None);
    }

    /** Sweeps the earliest expired lease that no other transaction has locked. */
    method SweepOldest(now: Time, locked: set<JobId>) returns (swept: Option<JobId>)
      requires Valid()
      modifies this`log, rows.Values
      ensures Valid() && rows == old(rows)
      ensures swept.None? ==> Table() == old(Table())
      ensures swept.None? ==> forall id :: id in old(Table()).jobs && id !in locked
                                ==> !Expired(old(Table()).jobs[id], now)
      ensures swept.Some? ==> ClaimOutcome(old(Table()), "", now, 0, locked, None, swept, Table())
    {
      swept := FindExpired(now, locked);
      if swept.Some? {
        assert Expired(Table().jobs[swept.value], now);
        TransitionAt(swept.value, ReviewRequired, rows[swept.value].phase, Some("lease_expired"), EvReviewRequired,
            System, now);
      }
    }

    /** Claims the oldest free head that no other transaction has locked. */
    method ClaimOldest(worker: WorkerId, now: Time, leaseFor: Time, locked: set<JobId>) returns (job: Option<JobId>)
      requires Valid()
      requires forall id :: id in Table().jobs && id !in locked ==> !Expired(Table().jobs[id], now)
      modifies this`log, rows.Values
      ensures Valid() && rows == old(rows)
      ensures ClaimOutcome(old(Table()), worker, now, leaseFor, locked, job, None, Table())
    {
      job := FindClaimable(locked);
      ghost var s := Table();
      assert forall id :: id in rows ==> s.jobs[id] == rows[id].View();
      assert OldestClaimable(s, locked, job);
      if job.Some? { ClaimAt(job.value, worker, now + leaseFor); }
      ClaimedAsAsked(s, worker, now, leaseFor, locked, job);
    }

    /** One claim transaction: sweep one expired lease and claim nothing, or claim the
        oldest free head.  `locked` are the rows other transactions hold (SKIP LOCKED). */
    method ClaimJob(worker: WorkerId, now: Time, leaseFor: Time, locked: set<JobId>)
      returns (job: Option<JobId>, ghost swept: Option<JobId>)
      requires Valid()
      modifies this`log, rows.Values
      ensures Valid() && rows == old(rows)
      ensures ClaimOutcome(old(Table()), worker, now, leaseFor, locked, job, swept, Table())
      ensures swept.Some? <==> exists id <- old(Table()).jobs ::
                && id !in locked && old(Table()).jobs[id].status == Processing
                && old(Table()).jobs[id].leaseExpires.Some? && old(Table()).jobs[id].leaseExpires.value < now
    {
      var expired := SweepOldest(now, locked);
      job, swept := None, expired;
      if expired.Some? { return; }
      job := ClaimOldest(worker, now, leaseFor, locked);
    }

    // -------------------------------------------------------------- owned writes

    /** Finds the row only for the worker that holds its lease. */
    method OwnedProcessingJob(job: JobId, worker: WorkerId) returns (row: JobRow?)
      requires Valid()
      ensures row != null <==> Owned(Table(), job, worker)
      ensures row != null ==> job in rows && row == rows[job]
    {
      if job in rows && rows[job].status == Processing && rows[job].leaseOwner == Some(worker) {
        row := rows[job];
      } else {
        row := null;
      }
    }

    method AdvanceOwned(job: JobId, worker: WorkerId, phase: Phase, epoch: Option<Epoch>) returns (ok: bool)
      requires Valid()
      requires phase == InboundRecorded || ExternalEffect(phase)
      requires epoch.Some? <==> phase == InboundRecorded
      modifies this`log, rows.Values
      ensures Valid() && rows == old(rows)
      ensures ok <==> Enabled(old(Table()), Step.Advance(worker, job, phase, epoch))
      ensures Table() == if ok then Next(old(Table()), Step.Advance(worker, job, phase, epoch)) else old(Table())
    {
      var row := OwnedProcessingJob(job, worker);
      ok := row != null;
      if ok { AdvanceAt(job, phase, epoch); }
    }

    method RecordInbound(job: JobId, worker: WorkerId, epoch: Epoch) returns (ok: bool)
      requires Valid()
      modifies this`log, rows.Values
      ensures Valid() && rows == old(rows)
      ensures ok <==> Owned(old(Table()), job, worker)
      ensures Table() ==
                if ok then Next(old(Table()), Step.Advance(worker, job, InboundRecorded, Some(epoch))) else old(Table())
    {
      ok := AdvanceOwned(job, worker, InboundRecorded, Some(epoch));
    }

    method BeforeExternalEffect(job: JobId, worker: WorkerId, phase: Phase) returns (ok: bool)
      requires Valid()
      modifies this`log, rows.Values
      ensures Valid() && rows == old(rows)
      ensures ok <==> ExternalEffect(phase) && Owned(old(Table()), job, worker)
      ensures Table() == if ok then Next(old(Table()), Step.Advance(worker, job, phase, None)) else old(Table())
    {
      if !ExternalEffect(phase) { return false; }
      ok := AdvanceOwned(job, worker, phase, None);
    }

    method TransitionOwned(job: JobId, worker: WorkerId, outcome: Outcome, code: Option<string>, now: Time)
      returns (ok: bool)
      requires Valid()
      modifies this`log, rows.Values
      ensures Valid() && rows == old(rows)
      ensures ok <==> Owned(old(Table()), job, worker)
      ensures Table() == if ok then Next(old(Table()), Finish(worker, job, outcome, code, now)) else old(Table())
    {
      var row := OwnedProcessingJob(job, worker);
      ok := row != null;
      if ok {
        var status := OutcomeStatus(outcome);
        TransitionAt(job, status, if IsTerminal(status) then Terminal else row.phase, code, OutcomeKind(outcome),
            Worker, now);
      }
    }

    /** What `run_once` does after the pipeline ended. A run that lost its lease writes nothing. */
    method Settle(job: JobId, worker: WorkerId, r: PipelineResult, epochCurrent: bool, now: Time)
      returns (ok: bool, ghost st: Step)
      requires Valid()
      modifies this`log, rows.Values
      ensures Valid() && rows == old(rows)
      ensures ok <==> Owned(old(Table()), job, worker)
      ensures Settles(old(Table()), job, worker, r, epochCurrent, now, st)
      ensures Table() == if ok then Next(old(Table()), st) else old(Table())
    {
      var outcome, code := Review, None;
      match r {
        case Finished =>
          if epochCurrent { outcome := Done; } else { code := Some("conversation_epoch_changed"); }
        case OwnershipBlocked =>
          var phase := if job in rows then rows[job].phase else Accepted;
          if ZeroEffect(phase) {
            outcome, code := Routed, Some("automation_not_owner");
          } else {
            code := Some("ownership_changed_after_effect");
          }
        case Failed(reason) => code := Some(reason);
      }
      st := Finish(worker, job, outcome, code, now);
      ok := TransitionOwned(job, worker, outcome, code, now);
    }
  }
}
