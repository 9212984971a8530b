/** The rows of the durable external ingress and the atomic steps on them.

    A table is a map from job id to row plus the append-only event log.  Every
    `db.begin()` block of the worker and every row-locked operator command is one
    `Step`; `Enabled` is the guard the code checks and `Apply` its effect. */
module InboundModel {
  import opened Common

  type JobId = Uuid
  type WorkerId = string

  datatype Status =
    | Queued | Processing | Completed | RoutedToHuman | Ignored | ReviewRequired | Cancelled

  datatype Phase =
    | Accepted | LegacyQuarantined | Claimed | InboundRecorded
    | ProviderEffectStarted | TranscriptionStarted | AgentEffectStarted | OutboxEffectStarted
    | Terminal

  datatype EventKind =
    | EvAccepted | EvLegacyQuarantined | EvClaimed | EvPhaseAdvanced | EvCompleted
    | EvRoutedToHuman | EvReviewRequired | EvRequeued | EvCancelled | EvAcknowledged

  datatype Actor = System | Worker | Operator(admin: Uuid)

  datatype Action = Requeue | Cancel | Acknowledge

  /** SHA-256 over the canonical command, taken as injective. */
  datatype Digest = Digest(action: Action, expected: int, job: JobId)

  /** The keyed hash naming a conversation thread, taken as injective. */
  datatype ThreadKey = ThreadKey(route: Uuid, thread: string)

  datatype Message = Message(providerId: string, threadId: string, body: string)

  /** Ciphertext together with its integrity hash. */
  datatype Sealed = Sealed(message: Message)

  /** A quarantined pre-encryption payload; some of them no longer parse. */
  datatype Legacy = Readable(message: Message) | Unreadable

  /** The ownership snapshot a lifecycle recorder attaches to a job. */
  datatype Epoch = Epoch(conversation: Uuid, controlVersion: nat, agent: Uuid, automationVersion: nat)

  datatype Job = Job(
    id: JobId, route: Uuid, providerId: string, agent: Uuid, createdAt: Time,
    threadKey: Option<ThreadKey>, payload: Option<Sealed>, legacy: Option<Legacy>,
    status: Status, phase: Phase, version: nat, attempts: nat,
    leaseOwner: Option<WorkerId>, leaseExpires: Option<Time>,
    code: Option<string>, epoch: Option<Epoch>, terminalAt: Option<Time>)

  datatype Receipt = Receipt(key: string, digest: Digest, correlation: string)

  datatype Event = Event(
    job: JobId, kind: EventKind, from: Option<Status>, to: Status, version: nat, phase: Phase,
    actor: Actor, code: Option<string>, receipt: Option<Receipt>, epoch: Option<Epoch>)

  datatype State = State(jobs: map<JobId, Job>, log: seq<Event>)

  // ---------------------------------------------------------------- vocabulary

  predicate IsTerminal(s: Status) {
    s == Completed || s == RoutedToHuman || s == Ignored || s == Cancelled
  }

  /** The statuses that hold up later rows of a thread. */
  predicate Blocking(s: Status) {
    s == Queued || s == Processing || s == ReviewRequired
  }

  predicate ZeroEffect(p: Phase) {
    p == Accepted || p == LegacyQuarantined || p == Claimed || p == InboundRecorded
  }

  predicate Requeueable(p: Phase) {
    p == Accepted || p == LegacyQuarantined || p == Claimed
  }

  predicate ExternalEffect(p: Phase) {
    || p == ProviderEffectStarted || p == TranscriptionStarted
    || p == AgentEffectStarted || p == OutboxEffectStarted
  }

  predicate KeyBefore(t1: Time, id1: JobId, t2: Time, id2: JobId) {
    t1 < t2 || (t1 == t2 && id1 < id2)
  }

  /** Claim order: creation time, ties broken by id. */
  predicate Before(a: Job, b: Job) {
    KeyBefore(a.createdAt, a.id, b.createdAt, b.id)
  }

  predicate SameThread(a: Job, b: Job) {
    a.threadKey.Some? && a.threadKey == b.threadKey
  }

  // ---------------------------------------------------------------- row updates

  function ClaimRow(j: Job, worker: WorkerId, expires: Time): Job {
    j.(status := Processing, phase := Claimed, version := j.version + 1, attempts := j.attempts + 1,
       leaseOwner := Some(worker), leaseExpires := Some(expires), code := None)
  }

  function AdvanceRow(j: Job, phase: Phase, epoch: Option<Epoch>): Job {
    j.(epoch := if epoch.Some? then epoch else j.epoch, phase := phase, version := j.version + 1)
  }

  /** The worker and sweep transition; terminal statuses erase every payload. */
  function TransitionRow(j: Job, status: Status, phase: Phase, code: Option<string>, now: Time): Job {
    var moved := j.(status := status, phase := phase, version := j.version + 1, code := code,
                    leaseOwner := None, leaseExpires := None);
    if IsTerminal(status)
    then moved.(payload := None, legacy := None, terminalAt := Some(now))
    else moved
  }

  /** A quarantined legacy row becomes an encrypted, keyed row. */
  function ConvertRow(j: Job): Job {
    if j.legacy.Some? && j.legacy.value.Readable? then
      var message := j.legacy.value.message;
      j.(payload := Some(Sealed(message)), threadKey := Some(ThreadKey(j.route, message.threadId)),
         legacy := None)
    else j
  }

  function CommandStatus(a: Action): Status {
    match a case Requeue => Queued case Cancel => Cancelled case Acknowledge => Ignored
  }

  function CommandKind(a: Action): EventKind {
    match a case Requeue => EvRequeued case Cancel => EvCancelled case Acknowledge => EvAcknowledged
  }

  function ActionName(a: Action): string {
    match a case Requeue => "requeue" case Cancel => "cancel" case Acknowledge => "acknowledge"
  }

  function CommandRow(j: Job, action: Action, now: Time): Job {
    if action == Requeue then
      ConvertRow(j).(status := Queued, phase := Accepted, code := None, version := j.version + 1,
                     leaseOwner := None, leaseExpires := None)
    else
      j.(status := CommandStatus(action), phase := Terminal, code := Some(ActionName(action)),
         version := j.version + 1, leaseOwner := None, leaseExpires := None,
         terminalAt := Some(now), payload := None, legacy := None)
  }

  function EventOf(j: Job, kind: EventKind, from: Option<Status>, actor: Actor, receipt: Option<Receipt>): Event {
    Event(j.id, kind, from, j.status, j.version, j.phase, actor, j.code, receipt, j.epoch)
  }

  /** One row overwritten and one event appended. */
  function Write(s: State, j: Job, kind: EventKind, from: Option<Status>, actor: Actor,
                 receipt: Option<Receipt>): State {
    State(s.jobs[j.id := j], s.log + [EventOf(j, kind, from, actor, receipt)])
  }

  // ---------------------------------------------------------------- arrivals

  datatype NewRow = NewRow(id: JobId, message: Message)

  predicate KeyTaken(s: State, route: Uuid, providerId: string) {
    exists id :: id in s.jobs && s.jobs[id].route == route && s.jobs[id].providerId == providerId
  }

  function FreshRow(row: NewRow, route: Uuid, agent: Uuid, now: Time): Job {
    Job(row.id, route, row.message.providerId, agent, now,
        Some(ThreadKey(route, row.message.threadId)), Some(Sealed(row.message)), None,
        Queued, Accepted, 0, 0, None, None, None, None, None)
  }

  /** `ON CONFLICT (route, provider id) DO NOTHING` for one row. */
  function Admit(s: State, row: NewRow, route: Uuid, agent: Uuid, now: Time): State {
    if KeyTaken(s, route, row.message.providerId) then s
    else Write(s, FreshRow(row, route, agent, now), EvAccepted, None, System, None)
  }

  function AdmitAll(s: State, rows: seq<NewRow>, route: Uuid, agent: Uuid, now: Time): State {
    if rows == [] then s
    else Admit(AdmitAll(s, rows[..|rows| - 1], route, agent, now), rows[|rows| - 1], route, agent, now)
  }

  /** Generated uuids are new and pairwise distinct. */
  predicate FreshIds(s: State, rows: seq<NewRow>) {
    && (forall r <- rows :: r.id !in s.jobs)
    && (forall a, b :: 0 <= a < b < |rows| ==> rows[a].id != rows[b].id)
  }

  // ---------------------------------------------------------------- operator commands

  datatype Command = Command(
    job: JobId, agent: Uuid, admin: Uuid, action: Action,
    expected: int, correlation: string, key: string)

  datatype Verdict =
    | Apply | Replay | BadIdentifiers | NotFound | KeyCollision | VersionConflict | Refused

  function DigestOf(c: Command): Digest { Digest(c.action, c.expected, c.job) }

  predicate HasReceipt(log: seq<Event>, job: JobId, key: string) {
    exists e :: e in log && e.job == job && e.receipt.Some? && e.receipt.value.key == key
  }

  predicate HasMatchingReceipt(log: seq<Event>, c: Command) {
    exists e :: e in log && e.job == c.job && e.receipt.Some?
                && e.receipt.value.key == c.key && e.receipt.value.digest == DigestOf(c)
  }

  /** May the state machine take this command on this row? */
  predicate Resolvable(j: Job, a: Action) {
    match a
    case Requeue =>
      && j.status == ReviewRequired && Requeueable(j.phase)
      && (j.legacy.Some? ==> j.legacy.value.Readable?)
      && var k := ConvertRow(j); k.payload.Some? && k.threadKey.Some?
    case Cancel => j.status == Queued || j.status == ReviewRequired
    case Acknowledge => j.status == ReviewRequired
  }

  function Judge(s: State, c: Command): Verdict {
    if c.key == "" || c.correlation == "" then BadIdentifiers
    else if c.job !in s.jobs || s.jobs[c.job].agent != c.agent then NotFound
    else if HasReceipt(s.log, c.job, c.key) then
      if HasMatchingReceipt(s.log, c) then Replay else KeyCollision
    else if s.jobs[c.job].version != c.expected then VersionConflict
    else if !Resolvable(s.jobs[c.job], c.action) then Refused
    else Verdict.Apply
  }

  // ---------------------------------------------------------------- steps

  datatype Outcome = Done | Routed | Review

  datatype Step =
    | Enqueue(rows: seq<NewRow>, route: Uuid, agent: Uuid, now: Time)
    | Claim(worker: WorkerId, job: JobId, expires: Time)
    | Sweep(job: JobId, now: Time)
    | Advance(worker: WorkerId, job: JobId, phase: Phase, epoch: Option<Epoch>)
    | Finish(worker: WorkerId, job: JobId, outcome: Outcome, code: Option<string>, now: Time)
    | Operate(command: Command, now: Time)

  predicate Expired(j: Job, now: Time) {
    j.status == Processing && j.leaseExpires.Some? && j.leaseExpires.value < now
  }

  predicate EarlierBlocker(s: State, j: Job) {
    exists id :: id in s.jobs && SameThread(s.jobs[id], j) && Blocking(s.jobs[id].status)
                 && Before(s.jobs[id], j)
  }

  predicate Claimable(s: State, j: Job) {
    j.status == Queued && j.threadKey.Some? && !EarlierBlocker(s, j)
  }

  predicate Owned(s: State, job: JobId, worker: WorkerId) {
    job in s.jobs && s.jobs[job].status == Processing && s.jobs[job].leaseOwner == Some(worker)
  }

  function OutcomeStatus(o: Outcome): Status {
    match o case Done => Completed case Routed => RoutedToHuman case Review => ReviewRequired
  }

  function OutcomeKind(o: Outcome): EventKind {
    match o case Done => EvCompleted case Routed => EvRoutedToHuman case Review => EvReviewRequired
  }

  predicate Enabled(s: State, st: Step) {
    match st
    case Enqueue(rows, _, _, _) => FreshIds(s, rows)
    case Claim(_, job, _) => job in s.jobs && Claimable(s, s.jobs[job])
    case Sweep(job, now) => job in s.jobs && Expired(s.jobs[job], now)
    case Advance(worker, job, phase, epoch) =>
      && Owned(s, job, worker)
      && (phase == InboundRecorded || ExternalEffect(phase))
      && (epoch.Some? <==> phase == InboundRecorded)
    case Finish(worker, job, _, _, _) => Owned(s, job, worker)
    case Operate(c, _) => Judge(s, c) == Verdict.Apply
  }

  function SweepRow(j: Job, now: Time): Job {
    TransitionRow(j, ReviewRequired, j.phase, Some("lease_expired"), now)
  }

  function FinishRow(j: Job, o: Outcome, code: Option<string>, now: Time): Job {
    TransitionRow(j, OutcomeStatus(o), if o == Review then j.phase else Terminal, code, now)
  }

  function ReceiptOf(c: Command, j: Job): Receipt {
    Receipt(c.key, Digest(c.action, j.version, j.id), c.correlation)
  }

  function Next(s: State, st: Step): State
    requires Enabled(s, st)
  {
    match st
    case Enqueue(rows, route, agent, now) => AdmitAll(s, rows, route, agent, now)
    case Claim(worker, job, expires) =>
      Write(s, ClaimRow(s.jobs[job], worker, expires), EvClaimed, Some(Queued), Worker, None)
    case Sweep(job, now) =>
      Write(s, SweepRow(s.jobs[job], now), EvReviewRequired, Some(s.jobs[job].status), System, None)
    case Advance(_, job, phase, epoch) =>
      Write(s, AdvanceRow(s.jobs[job], phase, epoch), EvPhaseAdvanced, Some(s.jobs[job].status), Worker, None)
    case Finish(_, job, o, code, now) =>
      Write(s, FinishRow(s.jobs[job], o, code, now), OutcomeKind(o), Some(s.jobs[job].status), Worker, None)
    case Operate(c, now) =>
      Write(s, CommandRow(s.jobs[c.job], c.action, now), CommandKind(c.action),
            Some(s.jobs[c.job].status), Operator(c.admin), Some(ReceiptOf(c, s.jobs[c.job])))
  }

  // ---------------------------------------------------------------- runs

  function Exec(s: State, steps: seq<Step>): State
    requires ValidRun(s, steps)
    decreases |steps|, 1
  {
    if steps == [] then s
    else Next(Exec(s, steps[..|steps| - 1]), steps[|steps| - 1])
  }

  predicate ValidRun(s: State, steps: seq<Step>)
    decreases |steps|, 0
  {
    steps != [] ==>
      && ValidRun(s, steps[..|steps| - 1])
      && Enabled(Exec(s, steps[..|steps| - 1]), steps[|steps| - 1])
  }
}
