/** Handoff routes between agents: configured by commands that each leave one receipt. */
module HandoffModel {
  import opened Common

  datatype Trigger = QuoteRequested | ManualEscalation

  /** Route ids are derived from the source agent and the trigger; the derivation is injective. */
  datatype RouteId = RouteId(source: Uuid, trigger: Trigger)

  datatype Route = Route(target: Uuid, active: bool, version: nat, updatedBy: Uuid, updatedAt: Time)

  datatype Kind = Created | Updated | Deactivated

  /** Command digests, as injective constructors over what is hashed. */
  datatype Digest =
    | CreateDigest(actor: Uuid, source: Uuid, target: Uuid, trigger: Trigger, active: bool)
    | UpdateDigest(actor: Uuid, source: Uuid, route: RouteId, newTarget: Option<Uuid>, newActive: Option<bool>,
        expected: int)
    | DeactivateDigest(actor: Uuid, source: Uuid, route: RouteId, expected: int)

  datatype Receipt = Receipt(
    route: RouteId, actor: Uuid, kind: Kind, previousTarget: Option<Uuid>, target: Uuid,
    previousActive: Option<bool>, active: bool, version: nat, applied: bool,
    key: string, digest: Digest, at: Time)

  datatype State = State(routes: map<RouteId, Route>, receipts: seq<Receipt>)

  /** A trigger that is not supported reads as none. */
  datatype Command =
    | Create(target: Uuid, trigger: Option<Trigger>, active: bool)
    | Update(route: RouteId, newTarget: Option<Uuid>, newActive: Option<bool>, expected: int)
    | Deactivate(route: RouteId, expected: int)

  /** A command of a source agent; `agents` are the active agents when it arrives. */
  datatype Request = Request(source: Uuid, key: string, actor: Uuid, at: Time, agents: set<Uuid>, command: Command)

  datatype Verdict = Done(applied: bool) | Duplicate | Invalid | NotFound | VersionConflict | Conflict | KeyReused

  const MAX_KEY := 220

  predicate WellFormed(q: Request) {
    && 0 < |q.key| <= MAX_KEY
    && (q.command.Create? ==> q.command.trigger.Some?)
    && (q.command.Update? ==> q.command.newTarget.Some? || q.command.newActive.Some?)
  }

  function DigestOf(q: Request): Digest
    requires WellFormed(q)
  {
    match q.command
    case Create(target, trigger, active) => CreateDigest(q.actor, q.source, target, trigger.value, active)
    case Update(route, target, active, expected) => UpdateDigest(q.actor, q.source, route, target, active, expected)
    case Deactivate(route, expected) => DeactivateDigest(q.actor, q.source, route, expected)
  }

  /** The route a command is about. */
  function Subject(q: Request): RouteId
    requires WellFormed(q)
  {
    if q.command.Create? then RouteId(q.source, q.command.trigger.value) else q.command.route
  }

  /** The receipt of a key in a source agent's scope. */
  function ReceiptOf(receipts: seq<Receipt>, source: Uuid, key: string): Option<Receipt> {
    if receipts == [] then None
    else
      var e := receipts[|receipts| - 1];
      if e.route.source == source && e.key == key then Some(e) else ReceiptOf(receipts[..|receipts| - 1], source, key)
  }

  function OrElse<T>(o: Option<T>, fallback: T): T { if o.Some? then o.value else fallback }

  predicate TargetOk(source: Uuid, target: Uuid, agents: set<Uuid>) { source != target && target in agents }

  /** The route as a command would leave it. */
  function Outcome(row: Route, q: Request): Route
    requires !q.command.Create?
  {
    var target := if q.command.Update? then OrElse(q.command.newTarget, row.target) else row.target;
    var active := if q.command.Update? then OrElse(q.command.newActive, row.active) else false;
    if target == row.target && active == row.active then row
    else Route(target, active, row.version + 1, q.actor, q.at)
  }

  function JudgeNew(s: State, q: Request): Verdict
    requires WellFormed(q)
  {
    if q.command.Create? then
      if !TargetOk(q.source, q.command.target, q.agents) then Invalid
      else if Subject(q) in s.routes then Conflict
      else Done(true)
    else if q.command.route !in s.routes || q.command.route.source != q.source then NotFound
    else
      var row := s.routes[q.command.route];
      if row.version != q.command.expected then VersionConflict
      else if q.command.Update? && !TargetOk(q.source, OrElse(q.command.newTarget, row.target), q.agents) then Invalid
      else Done(Outcome(row, q) != row)
  }

  function Judge(s: State, q: Request): Verdict {
    if !WellFormed(q) then Invalid
    else
      var receipt := ReceiptOf(s.receipts, q.source, q.key);
      if receipt.None? then JudgeNew(s, q)
      else if receipt.value.digest != DigestOf(q) then KeyReused
      else if receipt.value.route !in s.routes then NotFound
      else Duplicate
  }

  function NewReceipt(s: State, q: Request): Receipt
    requires Judge(s, q).Done?
  {
    match q.command
    case Create(target, trigger, active) =>
      Receipt(Subject(q), q.actor, Created, None, target, None, active, 0, true, q.key, DigestOf(q), q.at)
    case _ =>
      var row := s.routes[q.command.route];
      var next := Outcome(row, q);
      Receipt(q.command.route, q.actor, if q.command.Update? then Updated else Deactivated,
              Some(row.target), next.target, Some(row.active), next.active, next.version, next != row,
              q.key, DigestOf(q), q.at)
  }

  function NewRoute(s: State, q: Request): Route
    requires Judge(s, q).Done?
  {
    if q.command.Create? then Route(q.command.target, q.command.active, 0, q.actor, q.at)
    else Outcome(s.routes[q.command.route], q)
  }

  /** A command that is done writes its route and one receipt; any other changes nothing. */
  function Next(s: State, q: Request): State {
    if !Judge(s, q).Done? then s
    else State(s.routes[Subject(q) := NewRoute(s, q)], s.receipts + [NewReceipt(s, q)])
  }

  function Exec(s: State, run: seq<Request>): State {
    if run == [] then s else Next(Exec(s, run[..|run| - 1]), run[|run| - 1])
  }

  const EMPTY: State := State(map[], [])
}
