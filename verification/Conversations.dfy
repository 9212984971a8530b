/** The conversation row and the services that overwrite it in place. */
module Conversations {
  import opened Common
  import opened ConversationModel

  class ConversationRow {
    const id: Uuid
    const agent: Agent
    var active: bool
    var mode: Mode
    var controlVersion: nat
    var assignee: Option<Admin>
    var automationAgent: Agent
    var automationVersion: nat
    var messages: map<MessageId, Message>
    var journal: seq<Entry>

    ghost function View(): Conversation
      reads this
    {
      Conversation(id, agent, active, mode, controlVersion, assignee, automationAgent, automationVersion, messages,
          journal)
    }

    constructor (id: Uuid, agent: Agent)
      ensures View() == Opened(id, agent)
    {
      this.id, this.agent := id, agent;
      active, mode, controlVersion, assignee := true, Automated, 0, None;
      automationAgent, automationVersion := agent, 0;
      messages, journal := map[], [];
    }

    // -------------------------------------------------------------- control

    method ResolveTargetAdmin(actor: Admin, to: Mode, requested: Option<Admin>, eligible: set<Admin>)
      returns (ok: bool, admin: Option<Admin>)
      ensures ok <==> !TargetRefused(View(), actor, to, requested, eligible)
      ensures ok ==> admin == TargetAdmin(View(), actor, to, requested)
    {
      if to == Human {
        var want := if requested.Some? then requested.value else actor;
        if mode == Human && Some(want) == assignee { return false, None; }
        if want != actor && want !in eligible { return false, None; }
        return true, Some(want);
      }
      if requested.Some? { return false, None; }
      if to == Paused { return true, assignee; }
      return true, None;
    }

    method ApplyControlEpoch(actor: Admin, to: Mode, admin: Option<Admin>, kind: ControlKind)
      requires kind == KindOf(mode, to)
      modifies this
      ensures View() == Controlling(old(View()), actor, to, admin)
    {
      var event := ControlEvent(kind, actor, mode, to, assignee, admin, controlVersion + 1);
      mode := to;
      controlVersion := controlVersion + 1;
      assignee := admin;
      if to == Closed { active := false; }
      journal := journal + [Controlled(event)];
    }

    method Transition(scope: Agent, actor: Admin, to: Mode, expected: int, requested: Option<Admin>,
                      eligible: set<Admin>)
      returns (r: Response)
      modifies this
      ensures (View(), r) == Do(old(View()), DoTransition(scope, actor, to, expected, requested, eligible))
    {
      if scope != agent { return NotFound; }
      if controlVersion != expected { return VersionConflict; }
      if !Allowed(mode, to) { return ForbiddenTransition; }
      var ok, admin := ResolveTargetAdmin(actor, to, requested, eligible);
      if !ok { return ForbiddenTarget; }
      ApplyControlEpoch(actor, to, admin, KindOf(mode, to));
      return Done;
    }

    /** A web visitor starts over: the old row is closed without a control event. */
    method ResetSession(scope: Agent) returns (r: Response)
      modifies this
      ensures (View(), r) == Do(old(View()), DoReset(scope))
    {
      if scope != agent { return NotFound; }
      if !active { return Duplicate; }
      active := false;
      mode := Closed;
      controlVersion := controlVersion + 1;
      assignee := None;
      return Done;
    }

    /** Every automated write passes this row-locked check first. */
    method AssertExecutionCurrent(t: Ticket) returns (fault: Option<Response>)
      ensures fault == AutomationFault(View(), t)
    {
      if t.routing != agent { return Some(NotFound); }
      if controlVersion != t.controlVersion { return Some(VersionConflict); }
      if mode != Automated { return Some(AutomationBlocked); }
      if automationAgent != t.acting || automationVersion != t.automationVersion { return Some(ActingAgentChanged); }
      return None;
    }

    // -------------------------------------------------------------- assignment

    method ReceiptByKey(key: string) returns (found: Option<AssignReceipt>)
      ensures found.Some? <==> HasReceipt(journal, key)
      ensures found.Some? ==> found.value.key == key && Assigned(found.value) in journal
    {
      for i := 0 to |journal|
        invariant forall k :: 0 <= k < i ==> !(journal[k].Assigned? && journal[k].receipt.key == key)
      {
        if journal[i].Assigned? && journal[i].receipt.key == key {
          assert journal[i] in journal;
          return Some(journal[i].receipt);
        }
      }
      return None;
    }

    /** The unique constraint on (conversation, idempotency key). */
    predicate KeysUnique()
      reads this
    {
      forall e, f :: e in journal && f in journal && e.Assigned? && f.Assigned? && e.receipt.key == f.receipt.key
          ==> e == f
    }

    method Assign(a: AssignCommand, d: Directory) returns (r: Response)
      requires KeysUnique()
      modifies this
      ensures (View(), r) == Do(old(View()), DoAssign(a, d))
      ensures KeysUnique()
    {
      if a.digest.actorAgent.None? == a.digest.actorAdmin.None? { return BadActor; }
      if a.digest.expected < 0 || BadAssignText(a) { return BadText; }
      var receipt := ReceiptByKey(a.key);
      if receipt.Some? {
        assert HasForeignReceipt(journal, a) <==> receipt.value.routing != a.digest.routing;
        assert receipt.value.routing == a.digest.routing ==>
            (HasReceiptFor(journal, a) <==> receipt.value.digest == a.digest);
        if receipt.value.routing != a.digest.routing { return NotFound; }
        return if receipt.value.digest == a.digest then Duplicate else KeyCollision;
      }
      if a.digest.routing != agent { return NotFound; }
      if !active || mode == Closed { return ClosedConversation; }
      if a.digest.routing !in d.activeAgents || a.digest.target !in d.activeAgents { return InactiveAgent; }
      if a.digest.opportunity.Some? && (a.digest.opportunity.value, a.digest.target) !in d.linked {
        return UnlinkedOpportunity;
      }
      if automationVersion != a.digest.expected { return VersionConflict; }
      var from := automationAgent;
      var applied := from != a.digest.target;
      if applied {
        automationAgent := a.digest.target;
        automationVersion := automationVersion + 1;
      }
      journal := journal + [Assigned(AssignReceipt(agent, from, a.digest.target, automationVersion, applied,
                                                   a.key, a.digest, a.correlation))];
      return Done;
    }

    // -------------------------------------------------------------- messages

    method Store(mid: MessageId, author: Author, content: string, cv: int, av: int)
      modifies this`messages, this`journal
      ensures View() == Say(old(View()), mid, author, content, cv, av)
    {
      messages := messages[mid := Message(author, content)];
      journal := journal + [Said(mid, author, cv, av)];
    }

    method RecordInboundMessage(request: string, content: string) returns (r: Response)
      modifies this`messages, this`journal
      ensures (View(), r) == Do(old(View()), DoInbound(request, content))
    {
      if InboundId(request) in messages {
        return if messages[InboundId(request)].author == User then Duplicate else Unready;
      }
      Store(InboundId(request), User, content, controlVersion, automationVersion);
      return Done;
    }

    method FindExecution(request: string) returns (found: bool)
      ensures found <==> HasExecution(journal, request)
    {
      for i := 0 to |journal|
        invariant forall k :: 0 <= k < i ==> !(journal[k].Executed? && journal[k].request == request)
      {
        if journal[i].Executed? && journal[i].request == request { assert journal[i] in journal; return true; }
      }
      return false;
    }

    method FilesReady(request: string, files: seq<File>) returns (ok: bool)
      ensures ok <==> forall i :: 0 <= i < |files| ==> files[i].durable && FileId(request, i) !in messages
    {
      for i := 0 to |files|
        invariant forall k :: 0 <= k < i ==> files[k].durable && FileId(request, k) !in messages
      {
        if !files[i].durable || FileId(request, i) in messages { return false; }
      }
      return true;
    }

    method StoreFiles(t: Ticket, request: string, files: seq<File>)
      modifies this`messages, this`journal
      ensures View() == SayFiles(old(View()), t, request, files)
    {
      for i := 0 to |files|
        invariant View() == SayFiles(old(View()), t, request, files[..i])
      {
        assert files[..i + 1][..i] == files[..i];
        Store(FileId(request, i), Automation(t.acting), files[i].name, t.controlVersion, t.automationVersion);
      }
      assert files[..|files|] == files;
    }

    /** One exchange commits whole or not at all. */
    method RecordExchange(t: Ticket, request: string, user: string, reply: string, files: seq<File>)
      returns (r: Response)
      modifies this
      ensures (View(), r) == Do(old(View()), DoExchange(t, request, user, reply, files))
    {
      var known := FindExecution(request);
      if known { return Duplicate; }
      var fault := AssertExecutionCurrent(t);
      if fault.Some? { return fault.value; }
      var ready := FilesReady(request, files);
      if !ready || AssistantId(request) in messages
         || (InboundId(request) in messages && messages[InboundId(request)].author != User) {
        return Unready;
      }
      var inbound := RecordInboundMessage(request, user);
      messages := messages[InboundId(request) := Message(User, user)];
      Store(AssistantId(request), Automation(t.acting), reply, t.controlVersion, t.automationVersion);
      StoreFiles(t, request, files);
      journal := journal + [Executed(request, t.controlVersion, t.acting, t.automationVersion)];
      return Done;
    }

    method RecordNotification(t: Ticket, request: string, purpose: string, content: string) returns (r: Response)
      modifies this
      ensures (View(), r) == Do(old(View()), DoNotify(t, request, purpose, content))
    {
      var fault := AssertExecutionCurrent(t);
      if fault.Some? { return fault.value; }
      var mid := NotificationId(request, purpose);
      if mid in messages {
        return if messages[mid].content == content then Duplicate else Unready;
      }
      Store(mid, Automation(t.acting), content, t.controlVersion, t.automationVersion);
      return Done;
    }

    method RecordOperatorMessage(scope: Agent, actor: Admin, content: string, expected: int, key: string)
      returns (r: Response)
      modifies this
      ensures (View(), r) == Do(old(View()), DoOperatorSay(scope, actor, content, expected, key))
    {
      if scope != agent { return NotFound; }
      if controlVersion != expected { return VersionConflict; }
      if mode != Human || assignee != Some(actor) { return NotInControl; }
      if key == "" || |key| > 220 { return BadKey; }
      var mid := OperatorId(actor, key);
      if mid in messages {
        return if messages[mid].content == content then Duplicate else KeyCollision;
      }
      Store(mid, Operator(actor), content, expected, automationVersion);
      return Done;
    }
  }
}
