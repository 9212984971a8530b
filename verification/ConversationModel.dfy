/** One conversation: who controls it, which agent automates it, and what was said.

    The journal is the commit order of the three append-only tables (control events,
    assignment receipts, messages with their executions).  Every command either changes
    the conversation in one transaction or leaves it exactly as it was. */
module ConversationModel {
  import opened Common

  type Admin = Uuid
  type Agent = Uuid

  datatype Mode = Automated | Paused | Human | Closed

  datatype ControlKind = EvPaused | EvTakenOver | EvReassigned | EvResumed | EvClosed

  datatype ControlEvent = ControlEvent(
    kind: ControlKind, actor: Admin, fromMode: Mode, toMode: Mode,
    fromAdmin: Option<Admin>, toAdmin: Option<Admin>, version: nat)

  /** SHA-256 over the canonical assignment command, taken as injective. */
  datatype AssignDigest = AssignDigest(
    routing: Agent, target: Agent, expected: int, actorAgent: Option<Agent>, actorAdmin: Option<Admin>,
    opportunity: Option<Uuid>, trigger: string, reason: Option<string>)

  datatype AssignReceipt = AssignReceipt(
    routing: Agent, from: Agent, to: Agent, version: nat, applied: bool, key: string,
    digest: AssignDigest, correlation: string)

  /** Client message ids; the operator form is a uuid5 of actor and key. */
  datatype MessageId =
    | InboundId(request: string)
    | AssistantId(request: string)
    | FileId(request: string, index: nat)
    | NotificationId(request: string, purpose: string)
    | OperatorId(admin: Admin, key: string)

  datatype Author = User | Automation(agent: Agent) | Operator(admin: Admin)

  datatype Message = Message(author: Author, content: string)

  datatype Entry =
    | Controlled(event: ControlEvent)
    | Assigned(receipt: AssignReceipt)
    | Said(id: MessageId, author: Author, controlVersion: int, automationVersion: int)
    | Executed(request: string, controlVersion: int, agent: Agent, automationVersion: int)

  datatype Conversation = Conversation(
    id: Uuid, agent: Agent, active: bool, mode: Mode, controlVersion: nat, assignee: Option<Admin>,
    automationAgent: Agent, automationVersion: nat,
    messages: map<MessageId, Message>, journal: seq<Entry>)

  function Opened(id: Uuid, agent: Agent): Conversation {
    Conversation(id, agent, true, Automated, 0, None, agent, 0, map[], [])
  }

  datatype Response =
    | Done | Duplicate | NotFound | VersionConflict | ForbiddenTransition | ForbiddenTarget
    | AutomationBlocked | ActingAgentChanged | NotInControl | BadKey | KeyCollision
    | BadActor | BadText | ClosedConversation | InactiveAgent | UnlinkedOpportunity | Unready

  // ---------------------------------------------------------------- control transitions

  predicate Allowed(from: Mode, to: Mode) {
    match from
    case Automated => to != Automated
    case Paused => to != Paused
    case Human => true
    case Closed => false
  }

  function WantedAdmin(actor: Admin, requested: Option<Admin>): Admin {
    if requested.Some? then requested.value else actor
  }

  /** Why the target operator is refused, if it is.  `eligible` are the active
      administrators whose role may manage conversations. */
  predicate TargetRefused(c: Conversation, actor: Admin, to: Mode, requested: Option<Admin>, eligible: set<Admin>) {
    if to == Human then
      var want := WantedAdmin(actor, requested);
      (c.mode == Human && Some(want) == c.assignee) || (want != actor && want !in eligible)
    else requested.Some?
  }

  function TargetAdmin(c: Conversation, actor: Admin, to: Mode, requested: Option<Admin>): Option<Admin> {
    if to == Human then Some(WantedAdmin(actor, requested))
    else if to == Paused then c.assignee
    else None
  }

  function KindOf(from: Mode, to: Mode): ControlKind {
    match to
    case Paused => EvPaused
    case Automated => EvResumed
    case Closed => EvClosed
    case Human => if from == Human then EvReassigned else EvTakenOver
  }

  function Controlling(c: Conversation, actor: Admin, to: Mode, admin: Option<Admin>): Conversation {
    var event := ControlEvent(KindOf(c.mode, to), actor, c.mode, to, c.assignee, admin, c.controlVersion + 1);
    c.(mode := to, controlVersion := c.controlVersion + 1, assignee := admin,
       active := c.active && to != Closed, journal := c.journal + [Controlled(event)])
  }

  function Transition(c: Conversation, agent: Agent, actor: Admin, to: Mode, expected: int,
                      requested: Option<Admin>, eligible: set<Admin>): (Conversation, Response)
  {
    if agent != c.agent then (c, NotFound)
    else if c.controlVersion != expected then (c, VersionConflict)
    else if !Allowed(c.mode, to) then (c, ForbiddenTransition)
    else if TargetRefused(c, actor, to, requested, eligible) then (c, ForbiddenTarget)
    else (Controlling(c, actor, to, TargetAdmin(c, actor, to, requested)), Done)
  }

  // ---------------------------------------------------------------- acting-agent assignment

  datatype AssignCommand = AssignCommand(digest: AssignDigest, key: string, correlation: string)

  /** Facts the command reads from other tables inside its transaction. */
  datatype Directory = Directory(activeAgents: set<Agent>, linked: set<(Uuid, Agent)>)

  predicate HasReceipt(journal: seq<Entry>, key: string) {
    exists e :: e in journal && e.Assigned? && e.receipt.key == key
  }

  predicate HasReceiptFor(journal: seq<Entry>, a: AssignCommand) {
    exists e :: e in journal && e.Assigned? && e.receipt.key == a.key
                && e.receipt.routing == a.digest.routing && e.receipt.digest == a.digest
  }

  predicate HasForeignReceipt(journal: seq<Entry>, a: AssignCommand) {
    exists e :: e in journal && e.Assigned? && e.receipt.key == a.key && e.receipt.routing != a.digest.routing
  }

  function Assigning(c: Conversation, a: AssignCommand): Conversation {
    var applied := c.automationAgent != a.digest.target;
    var version := c.automationVersion + if applied then 1 else 0;
    var receipt := AssignReceipt(c.agent, c.automationAgent, a.digest.target, version, applied, a.key, a.digest,
        a.correlation);
    c.(automationAgent := a.digest.target, automationVersion := version, journal := c.journal + [Assigned(receipt)])
  }

  /** Required texts are non-blank and bounded; an optional reason is bounded. */
  predicate BadAssignText(a: AssignCommand) {
    || a.digest.trigger == "" || |a.digest.trigger| > 80
    || a.correlation == "" || |a.correlation| > 120
    || a.key == "" || |a.key| > 220
    || (a.digest.reason.Some? && |a.digest.reason.value| > 1000)
  }

  function Assign(c: Conversation, a: AssignCommand, d: Directory): (Conversation, Response) {
    if a.digest.actorAgent.None? == a.digest.actorAdmin.None? then (c, BadActor)
    else if a.digest.expected < 0 || BadAssignText(a) then (c, BadText)
    else if HasReceipt(c.journal, a.key) then
      if HasForeignReceipt(c.journal, a) then (c, NotFound)
      else if HasReceiptFor(c.journal, a) then (c, Duplicate)
      else (c, KeyCollision)
    else if a.digest.routing != c.agent then (c, NotFound)
    else if !c.active || c.mode == Closed then (c, ClosedConversation)
    else if a.digest.routing !in d.activeAgents || a.digest.target !in d.activeAgents then (c, InactiveAgent)
    else if a.digest.opportunity.Some? && (a.digest.opportunity.value, a.digest.target) !in d.linked
    then (c, UnlinkedOpportunity)
    else if c.automationVersion != a.digest.expected then (c, VersionConflict)
    else (Assigning(c, a), Done)
  }

  // ---------------------------------------------------------------- automated writes

  /** The ownership an automated execution was started under. */
  datatype Ticket = Ticket(routing: Agent, acting: Agent, controlVersion: int, automationVersion: int)

  /** The row-locked check every automated write makes. */
  function AutomationFault(c: Conversation, t: Ticket): Option<Response> {
    if t.routing != c.agent then Some(NotFound)
    else if c.controlVersion != t.controlVersion then Some(VersionConflict)
    else if c.mode != Automated then Some(AutomationBlocked)
    else if c.automationAgent != t.acting || c.automationVersion != t.automationVersion then Some(ActingAgentChanged)
    else None
  }

  /** Stores a message; automated and operator writes stamp the epoch they claim to act under. */
  function Say(c: Conversation, id: MessageId, author: Author, content: string,
               controlVersion: int, automationVersion: int): Conversation
  {
    c.(messages := c.messages[id := Message(author, content)],
       journal := c.journal + [Said(id, author, controlVersion, automationVersion)])
  }

  predicate HasExecution(journal: seq<Entry>, request: string) {
    exists e :: e in journal && e.Executed? && e.request == request
  }

  /** Persists a provider message once; a retry keeps the stored row. */
  function RecordInbound(c: Conversation, request: string, content: string): (Conversation, Response) {
    var id := InboundId(request);
    if id !in c.messages then (Say(c, id, User, content, c.controlVersion, c.automationVersion), Done)
    else if c.messages[id].author != User then (c, Unready)
    else (c, Duplicate)
  }

  datatype File = File(name: string, durable: bool)

  function SayFiles(c: Conversation, t: Ticket, request: string, files: seq<File>): Conversation {
    if files == [] then c
    else
      var n := |files| - 1;
      Say(SayFiles(c, t, request, files[..n]), FileId(request, n), Automation(t.acting), files[n].name,
          t.controlVersion, t.automationVersion)
  }

  /** User turn, reply, files and execution record of one exchange. */
  function Exchanging(c: Conversation, t: Ticket, request: string, user: string, reply: string,
                      files: seq<File>): Conversation {
    var inbound := RecordInbound(c, request, user).0;
    var updated := inbound.(messages := inbound.messages[InboundId(request) := Message(User, user)]);
    var replied := Say(updated, AssistantId(request), Automation(t.acting), reply, t.controlVersion,
        t.automationVersion);
    var filed := SayFiles(replied, t, request, files);
    filed.(journal := filed.journal + [Executed(request, t.controlVersion, t.acting, t.automationVersion)])
  }

  predicate ExchangeUnready(c: Conversation, request: string, files: seq<File>) {
    || (InboundId(request) in c.messages && c.messages[InboundId(request)].author != User)
    || AssistantId(request) in c.messages
    || (exists i :: 0 <= i < |files| && (!files[i].durable || FileId(request, i) in c.messages))
  }

  function Exchange(c: Conversation, t: Ticket, request: string, user: string, reply: string, files: seq<File>)
    : (Conversation, Response)
  {
    if HasExecution(c.journal, request) then (c, Duplicate)
    else if AutomationFault(c, t).Some? then (c, AutomationFault(c, t).value)
    else if ExchangeUnready(c, request, files) then (c, Unready)
    else (Exchanging(c, t, request, user, reply, files), Done)
  }

  function Notify(c: Conversation, t: Ticket, request: string, purpose: string, content: string)
    : (Conversation, Response)
  {
    var id := NotificationId(request, purpose);
    if AutomationFault(c, t).Some? then (c, AutomationFault(c, t).value)
    else if id !in c.messages
    then (Say(c, id, Automation(t.acting), content, t.controlVersion, t.automationVersion), Done)
    else if c.messages[id].content != content then (c, Unready)
    else (c, Duplicate)
  }

  // ---------------------------------------------------------------- operator writes

  function OperatorSay(c: Conversation, agent: Agent, actor: Admin, content: string, expected: int, key: string)
    : (Conversation, Response)
  {
    var id := OperatorId(actor, key);
    if agent != c.agent then (c, NotFound)
    else if c.controlVersion != expected then (c, VersionConflict)
    else if c.mode != Human || c.assignee != Some(actor) then (c, NotInControl)
    else if key == "" || |key| > 220 then (c, BadKey)
    else if id !in c.messages then (Say(c, id, Operator(actor), content, expected, c.automationVersion), Done)
    else if c.messages[id].content != content then (c, KeyCollision)
    else (c, Duplicate)
  }

  // ---------------------------------------------------------------- session reset

  /** A visitor's session reset closes an open row and moves its version.  It is not a control
      transition: no actor, no expected version, and no control event. */
  function Resetting(c: Conversation): Conversation {
    c.(active := false, mode := Closed, controlVersion := c.controlVersion + 1, assignee := None)
  }

  function Reset(c: Conversation, agent: Agent): (Conversation, Response) {
    if agent != c.agent then (c, NotFound)
    else if !c.active then (c, Duplicate)
    else (Resetting(c), Done)
  }

  // ---------------------------------------------------------------- commands and runs

  datatype Command =
    | DoTransition(agent: Agent, actor: Admin, to: Mode, expected: int, requested: Option<Admin>, eligible: set<Admin>)
    | DoAssign(command: AssignCommand, directory: Directory)
    | DoInbound(request: string, content: string)
    | DoExchange(ticket: Ticket, request: string, user: string, reply: string, files: seq<File>)
    | DoNotify(ticket: Ticket, request: string, purpose: string, content: string)
    | DoOperatorSay(agent: Agent, actor: Admin, content: string, expected: int, key: string)
    | DoReset(agent: Agent)

  function Do(c: Conversation, cmd: Command): (Conversation, Response) {
    match cmd
    case DoTransition(agent, actor, to, expected, requested, eligible) =>
      Transition(c, agent, actor, to, expected, requested, eligible)
    case DoAssign(command, directory) => Assign(c, command, directory)
    case DoInbound(request, content) => RecordInbound(c, request, content)
    case DoExchange(ticket, request, user, reply, files) => Exchange(c, ticket, request, user, reply, files)
    case DoNotify(ticket, request, purpose, content) => Notify(c, ticket, request, purpose, content)
    case DoOperatorSay(agent, actor, content, expected, key) => OperatorSay(c, agent, actor, content, expected, key)
    case DoReset(agent) => Reset(c, agent)
  }

  function Run(c: Conversation, cmds: seq<Command>): Conversation {
    if cmds == [] then c
    else Do(Run(c, cmds[..|cmds| - 1]), cmds[|cmds| - 1]).0
  }
}
