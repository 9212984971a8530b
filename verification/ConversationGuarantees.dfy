/** Ownership of a conversation over whole runs: replay, authorship and epochs. */
module ConversationGuarantees {
  import opened Common
  import opened ConversationModel

  // ---------------------------------------------------------------- replaying the journal

  datatype Holder = Holder(mode: Mode, assignee: Option<Admin>, version: nat)
  datatype Acting = Acting(agent: Agent, version: nat)

  /** Control as the control events alone tell it; the version counts them. */
  function ReplayControl(journal: seq<Entry>): Holder {
    if journal == [] then Holder(Automated, None, 0)
    else
      var before := ReplayControl(journal[..|journal| - 1]);
      match journal[|journal| - 1]
      case Controlled(e) => Holder(e.toMode, e.toAdmin, before.version + 1)
      case _ => before
  }

  /** The acting agent as the applied receipts alone tell it; the version counts them. */
  function ReplayActing(journal: seq<Entry>, first: Agent): Acting {
    if journal == [] then Acting(first, 0)
    else
      var before := ReplayActing(journal[..|journal| - 1], first);
      match journal[|journal| - 1]
      case Assigned(r) => if r.applied then Acting(r.to, before.version + 1) else before
      case _ => before
  }

  /** The control events tell who holds the conversation. */
  predicate ControlReplayed(c: Conversation) {
    ReplayControl(c.journal) == Holder(c.mode, c.assignee, c.controlVersion)
  }

  /** Closed by a reset: the control events still tell of an open conversation, one version back. */
  predicate ResetApart(c: Conversation) {
    && c.mode == Closed && c.assignee.None?
    && ReplayControl(c.journal).mode != Closed && c.controlVersion == ReplayControl(c.journal).version + 1
  }

  /** The state is the fold of its logs, but for a reset. */
  predicate Replayed(c: Conversation) {
    && (ControlReplayed(c) || ResetApart(c))
    && ReplayActing(c.journal, c.agent) == Acting(c.automationAgent, c.automationVersion)
    && (c.mode == Human ==> c.assignee.Some?)
    && (c.active <==> c.mode != Closed)
  }

  /** What an entry must say about the ownership in force just before it commits. */
  predicate Rightful(e: Entry, held: Holder, acting: Acting) {
    match e
    case Controlled(ev) =>
      && ev.fromMode == held.mode && ev.fromAdmin == held.assignee && ev.version == held.version + 1
      && Allowed(ev.fromMode, ev.toMode) && ev.kind == KindOf(ev.fromMode, ev.toMode)
      && (ev.toMode == Human ==> ev.toAdmin.Some? && (ev.fromMode == Human ==> ev.toAdmin != ev.fromAdmin))
      && (ev.toMode == Paused ==> ev.toAdmin == ev.fromAdmin)
      && (ev.toMode == Automated || ev.toMode == Closed ==> ev.toAdmin.None?)
    case Assigned(r) =>
      && r.from == acting.agent && (r.applied <==> r.from != r.to)
      && r.version == acting.version + (if r.applied then 1 else 0)
      && r.digest.expected == acting.version && held.mode != Closed
    case Said(_, author, cv, av) =>
      (match author
       case User => true
       case Automation(a) => held.mode == Automated && cv == held.version && acting.agent == a && acting.version == av
       case Operator(o) => held.mode == Human && held.assignee == Some(o) && cv == held.version)
    case Executed(_, cv, a, av) => held.mode == Automated && cv == held.version && acting.agent == a
                                     && acting.version == av
  }

  predicate Signed(journal: seq<Entry>, first: Agent) {
    forall p :: 0 <= p < |journal| ==>
      Rightful(journal[p], ReplayControl(journal[..p]), ReplayActing(journal[..p], first))
  }

  // ---------------------------------------------------------------- once-only entries

  predicate MessagesOnce(c: Conversation) {
    && (forall e :: e in c.journal && e.Said? ==> e.id in c.messages)
    && (forall p, q :: 0 <= p < q < |c.journal| && c.journal[p].Said? && c.journal[q].Said?
          ==> c.journal[p].id != c.journal[q].id)
  }

  predicate ReceiptsOnce(journal: seq<Entry>) {
    && (forall p, q :: 0 <= p < q < |journal| && journal[p].Assigned? && journal[q].Assigned?
          ==> journal[p].receipt.key != journal[q].receipt.key)
    && (forall e :: e in journal && e.Assigned?
          ==> e.receipt.routing == e.receipt.digest.routing && e.receipt.to == e.receipt.digest.target)
  }

  predicate ExecutionsOnce(journal: seq<Entry>) {
    forall p, q :: 0 <= p < q < |journal| && journal[p].Executed? && journal[q].Executed?
      ==> journal[p].request != journal[q].request
  }

  predicate Inv(c: Conversation) {
    Replayed(c) && Signed(c.journal, c.agent) && MessagesOnce(c) && ReceiptsOnce(c.journal) && ExecutionsOnce(c.journal)
  }

  // ---------------------------------------------------------------- preservation

  lemma SignedAppend(journal: seq<Entry>, e: Entry, first: Agent)
    requires Signed(journal, first) && Rightful(e, ReplayControl(journal), ReplayActing(journal, first))
    ensures Signed(journal + [e], first)
  {
    var j := journal + [e];
    forall p | 0 <= p < |j| ensures Rightful(j[p], ReplayControl(j[..p]), ReplayActing(j[..p], first)) {
      assert j[..p] == journal[..p];
      if p == |journal| { assert journal[..p] == journal; }
    }
  }

  lemma ReplayAppend(journal: seq<Entry>, e: Entry, first: Agent)
    ensures ReplayControl(journal + [e]) ==
            (if e.Controlled? then Holder(e.event.toMode, e.event.toAdmin, ReplayControl(journal).version + 1)
             else ReplayControl(journal))
    ensures ReplayActing(journal + [e], first) ==
            (if e.Assigned? && e.receipt.applied then Acting(e.receipt.to, ReplayActing(journal, first).version + 1)
             else ReplayActing(journal, first))
  {
    assert (journal + [e])[..|journal|] == journal;
  }

  lemma MessagesAppend(c: Conversation, d: Conversation, e: Entry)
    requires MessagesOnce(c) && d.journal == c.journal + [e]
    requires d.messages.Keys == c.messages.Keys + if e.Said? then {e.id} else {}
    requires e.Said? ==> e.id !in c.messages
    ensures MessagesOnce(d)
  {
    assert forall p :: 0 <= p < |c.journal| ==> c.journal[p] in c.journal;
    forall x | x in d.journal && x.Said? ensures x.id in d.messages {
      if x in c.journal { } else { assert x == e; }
    }
  }

  predicate NewReceipt(journal: seq<Entry>, r: AssignReceipt) {
    !HasReceipt(journal, r.key) && r.routing == r.digest.routing && r.to == r.digest.target
  }

  lemma ReceiptsAppend(journal: seq<Entry>, e: Entry)
    requires ReceiptsOnce(journal)
    requires e.Assigned? ==> NewReceipt(journal, e.receipt)
    ensures ReceiptsOnce(journal + [e])
  {
    assert forall p :: 0 <= p < |journal| ==> journal[p] in journal;
  }

  lemma ExecutionsAppend(journal: seq<Entry>, e: Entry)
    requires ExecutionsOnce(journal)
    requires e.Executed? ==> !HasExecution(journal, e.request)
    ensures ExecutionsOnce(journal + [e])
  {
    assert forall p :: 0 <= p < |journal| ==> journal[p] in journal;
  }

  /** One rightful entry appended, with the state moved as the entry says. */
  lemma AppendKeepsInv(c: Conversation, d: Conversation, e: Entry)
    requires Inv(c) && d.journal == c.journal + [e] && d.agent == c.agent
    requires Rightful(e, ReplayControl(c.journal), ReplayActing(c.journal, c.agent))
    requires d.messages.Keys == c.messages.Keys + if e.Said? then {e.id} else {}
    requires e.Said? ==> e.id !in c.messages
    requires e.Assigned? ==> NewReceipt(c.journal, e.receipt)
    requires e.Executed? ==> !HasExecution(c.journal, e.request)
    requires Replayed(d)
    ensures Inv(d)
  {
    SignedAppend(c.journal, e, c.agent);
    MessagesAppend(c, d, e);
    ReceiptsAppend(c.journal, e);
    ExecutionsAppend(c.journal, e);
  }

  lemma SayKeepsInv(c: Conversation, id: MessageId, author: Author, content: string, cv: int, av: int)
    requires Inv(c) && id !in c.messages
    requires Rightful(Said(id, author, cv, av), ReplayControl(c.journal), ReplayActing(c.journal, c.agent))
    ensures Inv(Say(c, id, author, content, cv, av))
  {
    ReplayAppend(c.journal, Said(id, author, cv, av), c.agent);
    AppendKeepsInv(c, Say(c, id, author, content, cv, av), Said(id, author, cv, av));
  }

  lemma TransitionKeepsInv(c: Conversation, agent: Agent, actor: Admin, to: Mode, expected: int,
                           requested: Option<Admin>, eligible: set<Admin>)
    requires Inv(c)
    ensures Inv(Transition(c, agent, actor, to, expected, requested, eligible).0)
  {
    var (d, r) := Transition(c, agent, actor, to, expected, requested, eligible);
    if r == Done {
      var e := d.journal[|c.journal|];
      ReplayAppend(c.journal, e, c.agent);
      AppendKeepsInv(c, d, e);
    }
  }

  lemma AssigningKeepsInv(c: Conversation, a: AssignCommand)
    requires Inv(c) && !HasReceipt(c.journal, a.key) && a.digest.routing == c.agent
    requires c.mode != Closed && c.automationVersion == a.digest.expected
    ensures Inv(Assigning(c, a))
  {
    var d := Assigning(c, a);
    var e := d.journal[|c.journal|];
    ReplayAppend(c.journal, e, c.agent);
    AppendKeepsInv(c, d, e);
  }

  /** An assignment changes the conversation only under a new key, a matching version and an open row. */
  lemma AssignIsGuarded(c: Conversation, a: AssignCommand, dir: Directory)
    ensures Assign(c, a, dir).1 != Done ==> Assign(c, a, dir).0 == c
    ensures Assign(c, a, dir).1 == Done ==>
      && Assign(c, a, dir).0 == Assigning(c, a)
      && !HasReceipt(c.journal, a.key) && a.digest.routing == c.agent
      && c.mode != Closed && c.automationVersion == a.digest.expected
  {
  }

  lemma AssignKeepsInv(c: Conversation, a: AssignCommand, dir: Directory)
    requires Inv(c)
    ensures Inv(Assign(c, a, dir).0)
  {
    AssignIsGuarded(c, a, dir);
    if Assign(c, a, dir).1 == Done { AssigningKeepsInv(c, a); }
  }

  /** Rewriting the text of a stored user message touches no log. */
  lemma RetextKeepsInv(c: Conversation, id: MessageId, m: Message)
    requires Inv(c) && id in c.messages
    ensures Inv(c.(messages := c.messages[id := m]))
  {
  }

  predicate Current(c: Conversation, t: Ticket) { AutomationFault(c, t).None? }

  /** A current ticket names exactly the ownership the logs replay to. */
  lemma CurrentIsRightful(c: Conversation, t: Ticket, id: MessageId, request: string)
    requires Inv(c) && Current(c, t)
    ensures Rightful(Said(id, Automation(t.acting), t.controlVersion, t.automationVersion),
                     ReplayControl(c.journal), ReplayActing(c.journal, c.agent))
    ensures Rightful(Executed(request, t.controlVersion, t.acting, t.automationVersion),
                     ReplayControl(c.journal), ReplayActing(c.journal, c.agent))
  {
  }

  lemma AutomatedSayKeepsInv(c: Conversation, t: Ticket, id: MessageId, content: string)
    requires Inv(c) && Current(c, t) && id !in c.messages
    ensures var d := Say(c, id, Automation(t.acting), content, t.controlVersion, t.automationVersion);
            Inv(d) && Current(d, t)
  {
    CurrentIsRightful(c, t, id, "");
    SayKeepsInv(c, id, Automation(t.acting), content, t.controlVersion, t.automationVersion);
  }

  lemma {:induction false} FilesKeepInv(c: Conversation, t: Ticket, request: string, files: seq<File>)
    requires Inv(c) && Current(c, t)
    requires forall i :: 0 <= i < |files| ==> FileId(request, i) !in c.messages
    ensures Inv(SayFiles(c, t, request, files)) && Current(SayFiles(c, t, request, files), t)
    ensures forall id :: id in SayFiles(c, t, request, files).messages ==>
              id in c.messages || (id.FileId? && id.request == request && id.index < |files|)
    ensures HasExecution(SayFiles(c, t, request, files).journal, request) ==> HasExecution(c.journal, request)
  {
    if files != [] {
      var n := |files| - 1;
      FilesKeepInv(c, t, request, files[..n]);
      var mid := SayFiles(c, t, request, files[..n]);
      assert FileId(request, n) !in mid.messages;
      AutomatedSayKeepsInv(mid, t, FileId(request, n), files[n].name);
    }
  }

  lemma ExecutedKeepsInv(c: Conversation, t: Ticket, request: string)
    requires Inv(c) && Current(c, t) && !HasExecution(c.journal, request)
    ensures Inv(c.(journal := c.journal + [Executed(request, t.controlVersion, t.acting, t.automationVersion)]))
  {
    var e := Executed(request, t.controlVersion, t.acting, t.automationVersion);
    CurrentIsRightful(c, t, InboundId(request), request);
    ReplayAppend(c.journal, e, c.agent);
    AppendKeepsInv(c, c.(journal := c.journal + [e]), e);
  }

  lemma InboundKeepsInv(c: Conversation, request: string, content: string)
    requires Inv(c)
    ensures Inv(RecordInbound(c, request, content).0)
  {
    if InboundId(request) !in c.messages {
      SayKeepsInv(c, InboundId(request), User, content, c.controlVersion, c.automationVersion);
    }
  }

  /** The user turn of an exchange, before the reply. */
  function Heard(c: Conversation, request: string, user: string): Conversation {
    var inbound := RecordInbound(c, request, user).0;
    inbound.(messages := inbound.messages[InboundId(request) := Message(User, user)])
  }

  lemma HeardFrame(c: Conversation, t: Ticket, request: string, user: string)
    requires Current(c, t)
    ensures Current(Heard(c, request, user), t)
    ensures Heard(c, request, user).messages.Keys == c.messages.Keys + {InboundId(request)}
    ensures HasExecution(Heard(c, request, user).journal, request) ==> HasExecution(c.journal, request)
  {
    var d := Heard(c, request, user);
    if HasExecution(d.journal, request) {
      var e :| e in d.journal && e.Executed? && e.request == request;
      assert e in c.journal;
    }
  }

  lemma HeardKeepsInv(c: Conversation, request: string, user: string)
    requires Inv(c)
    ensures Inv(Heard(c, request, user))
  {
    InboundKeepsInv(c, request, user);
    RetextKeepsInv(RecordInbound(c, request, user).0, InboundId(request), Message(User, user));
  }

  /** What an exchange that is done found beforehand. */
  lemma ExchangeIsGuarded(c: Conversation, t: Ticket, request: string, user: string, reply: string, files: seq<File>)
    ensures Exchange(c, t, request, user, reply, files).1 != Done ==> Exchange(c, t, request, user, reply, files).0 == c
    ensures Exchange(c, t, request, user, reply, files).1 == Done ==>
      && Exchange(c, t, request, user, reply, files).0 == Exchanging(c, t, request, user, reply, files)
      && Current(c, t) && !HasExecution(c.journal, request) && AssistantId(request) !in c.messages
      && forall i :: 0 <= i < |files| ==> FileId(request, i) !in c.messages
  {
  }

  /** The reply of an exchange, on top of its user turn. */
  function Replied(c: Conversation, t: Ticket, request: string, user: string, reply: string): Conversation {
    Say(Heard(c, request, user), AssistantId(request), Automation(t.acting), reply, t.controlVersion,
        t.automationVersion)
  }

  lemma RepliedFrame(c: Conversation, t: Ticket, request: string, user: string, reply: string)
    requires Current(c, t)
    ensures Replied(c, t, request, user, reply).messages.Keys
      == c.messages.Keys + {InboundId(request), AssistantId(request)}
    ensures HasExecution(Replied(c, t, request, user, reply).journal, request) ==> HasExecution(c.journal, request)
  {
    HeardFrame(c, t, request, user);
    var d := Replied(c, t, request, user, reply);
    if HasExecution(d.journal, request) {
      var e :| e in d.journal && e.Executed? && e.request == request;
      assert e in Heard(c, request, user).journal;
    }
  }

  lemma RepliedKeepsInv(c: Conversation, t: Ticket, request: string, user: string, reply: string)
    requires Inv(c) && Current(c, t) && AssistantId(request) !in c.messages
    ensures Inv(Replied(c, t, request, user, reply)) && Current(Replied(c, t, request, user, reply), t)
  {
    HeardFrame(c, t, request, user);
    HeardKeepsInv(c, request, user);
    AutomatedSayKeepsInv(Heard(c, request, user), t, AssistantId(request), reply);
  }

  lemma ExchangeKeepsInv(c: Conversation, t: Ticket, request: string, user: string, reply: string, files: seq<File>)
    requires Inv(c)
    ensures Inv(Exchange(c, t, request, user, reply, files).0)
  {
    ExchangeIsGuarded(c, t, request, user, reply, files);
    if Exchange(c, t, request, user, reply, files).1 == Done {
      RepliedKeepsInv(c, t, request, user, reply);
      RepliedFrame(c, t, request, user, reply);
      var replied := Replied(c, t, request, user, reply);
      FilesKeepInv(replied, t, request, files);
      ExecutedKeepsInv(SayFiles(replied, t, request, files), t, request);
    }
  }

  lemma NotifyKeepsInv(c: Conversation, t: Ticket, request: string, purpose: string, content: string)
    requires Inv(c)
    ensures Inv(Notify(c, t, request, purpose, content).0)
  {
    if Notify(c, t, request, purpose, content).1 == Done {
      AutomatedSayKeepsInv(c, t, NotificationId(request, purpose), content);
    }
  }

  lemma OperatorIsRightful(c: Conversation, actor: Admin, id: MessageId)
    requires Inv(c) && c.mode == Human && c.assignee == Some(actor)
    ensures Rightful(Said(id, Operator(actor), c.controlVersion, c.automationVersion),
                     ReplayControl(c.journal), ReplayActing(c.journal, c.agent))
  {
  }

  lemma OperatorSayKeepsInv(c: Conversation, agent: Agent, actor: Admin, content: string, expected: int, key: string)
    requires Inv(c)
    ensures Inv(OperatorSay(c, agent, actor, content, expected, key).0)
  {
    if OperatorSay(c, agent, actor, content, expected, key).1 == Done {
      OperatorIsRightful(c, actor, OperatorId(actor, key));
      SayKeepsInv(c, OperatorId(actor, key), Operator(actor), content, expected, c.automationVersion);
    }
  }

  lemma ResetKeepsInv(c: Conversation, agent: Agent)
    requires Inv(c)
    ensures Inv(Reset(c, agent).0)
  {
  }

  /** Every command keeps the logs faithful, signed and free of repeats. */
  lemma DoKeepsInv(c: Conversation, cmd: Command)
    requires Inv(c)
    ensures Inv(Do(c, cmd).0)
  {
    var d := Do(c, cmd).0;
    match cmd
    case DoTransition(agent, actor, to, expected, requested, eligible) =>
      assert d == Transition(c, agent, actor, to, expected, requested, eligible).0;
      TransitionKeepsInv(c, agent, actor, to, expected, requested, eligible);
    case DoAssign(command, directory) =>
      assert d == Assign(c, command, directory).0;
      AssignKeepsInv(c, command, directory);
    case DoInbound(request, content) =>
      assert d == RecordInbound(c, request, content).0;
      InboundKeepsInv(c, request, content);
    case DoExchange(ticket, request, user, reply, files) =>
      assert d == Exchange(c, ticket, request, user, reply, files).0;
      ExchangeKeepsInv(c, ticket, request, user, reply, files);
    case DoNotify(ticket, request, purpose, content) =>
      assert d == Notify(c, ticket, request, purpose, content).0;
      NotifyKeepsInv(c, ticket, request, purpose, content);
    case DoOperatorSay(agent, actor, content, expected, key) =>
      assert d == OperatorSay(c, agent, actor, content, expected, key).0;
      OperatorSayKeepsInv(c, agent, actor, content, expected, key);
    case DoReset(agent) =>
      assert d == Reset(c, agent).0;
      ResetKeepsInv(c, agent);
  }

  lemma {:induction false} RunKeepsInv(c: Conversation, cmds: seq<Command>)
    requires Inv(c)
    ensures Inv(Run(c, cmds))
  {
    if cmds != [] {
      RunKeepsInv(c, cmds[..|cmds| - 1]);
      DoKeepsInv(Run(c, cmds[..|cmds| - 1]), cmds[|cmds| - 1]);
    }
  }

  lemma OpenedInv(id: Uuid, agent: Agent)
    ensures Inv(Opened(id, agent))
  {
  }

  // ---------------------------------------------------------------- what the logs determine

  function Controls(journal: seq<Entry>): nat {
    if journal == [] then 0
    else Controls(journal[..|journal| - 1]) + if journal[|journal| - 1].Controlled? then 1 else 0
  }

  function Applied(journal: seq<Entry>): nat {
    if journal == [] then 0
    else
      var e := journal[|journal| - 1];
      Applied(journal[..|journal| - 1]) + if e.Assigned? && e.receipt.applied then 1 else 0
  }

  lemma {:induction false} VersionsCount(journal: seq<Entry>, first: Agent)
    ensures ReplayControl(journal).version == Controls(journal)
    ensures ReplayActing(journal, first).version == Applied(journal)
  {
    if journal != [] { VersionsCount(journal[..|journal| - 1], first); }
  }

  lemma {:induction false} SayFilesFrame(c: Conversation, t: Ticket, request: string, files: seq<File>)
    ensures var d := SayFiles(c, t, request, files);
            && d.agent == c.agent && d.id == c.id && d.mode == c.mode
            && d.controlVersion == c.controlVersion && d.assignee == c.assignee
            && d.automationAgent == c.automationAgent && d.automationVersion == c.automationVersion
            && c.journal <= d.journal
  {
    if files != [] { SayFilesFrame(c, t, request, files[..|files| - 1]); }
  }

  /** What one command may do to the epochs. */
  lemma StepEpochs(c: Conversation, cmd: Command)
    ensures var d := Do(c, cmd).0;
            && d.agent == c.agent && d.id == c.id
            && c.controlVersion <= d.controlVersion <= c.controlVersion + 1
            && c.automationVersion <= d.automationVersion <= c.automationVersion + 1
            && (d.controlVersion == c.controlVersion ==> d.mode == c.mode && d.assignee == c.assignee)
            && (d.automationVersion == c.automationVersion ==> d.automationAgent == c.automationAgent)
            && (c.mode == Automated && d.mode == Automated ==> d.controlVersion == c.controlVersion)
            && (d.automationAgent == c.automationAgent ==> d.automationVersion == c.automationVersion)
            && c.journal <= d.journal
  {
    if cmd.DoExchange? {
      var heard := Heard(c, cmd.request, cmd.user);
      SayFilesFrame(Say(heard, AssistantId(cmd.request), Automation(cmd.ticket.acting), cmd.reply,
                        cmd.ticket.controlVersion, cmd.ticket.automationVersion), cmd.ticket, cmd.request, cmd.files);
    }
  }

  lemma {:induction false} AgentNeverChanges(c: Conversation, cmds: seq<Command>)
    ensures Run(c, cmds).agent == c.agent && Run(c, cmds).id == c.id && c.journal <= Run(c, cmds).journal
  {
    if cmds != [] {
      AgentNeverChanges(c, cmds[..|cmds| - 1]);
      StepEpochs(Run(c, cmds[..|cmds| - 1]), cmds[|cmds| - 1]);
    }
  }

  /** A reset closed the session somewhere in the run. */
  predicate WasReset(c: Conversation, cmds: seq<Command>) {
    cmds != [] &&
    var init, last := cmds[..|cmds| - 1], cmds[|cmds| - 1];
    WasReset(c, init) || (last.DoReset? && Do(Run(c, init), last).1 == Done)
  }

  /** Only transitions and resets change the mode; in a closed row neither does anything. */
  lemma OthersKeepMode(c: Conversation, cmd: Command)
    requires Inv(c) && (c.mode == Closed || !(cmd.DoTransition? || cmd.DoReset?))
    ensures var d := Do(c, cmd).0;
            d.mode == c.mode && (c.mode == Closed && !cmd.DoInbound? ==> d == c)
  {
    StepEpochs(c, cmd);
    if cmd.DoExchange? && Current(c, cmd.ticket) {
      SayFilesFrame(Replied(c, cmd.ticket, cmd.request, cmd.user, cmd.reply), cmd.ticket, cmd.request, cmd.files);
    }
    if cmd.DoAssign? { AssignIsGuarded(c, cmd.command, cmd.directory); }
  }

  /** A closed row only listens, so its distance from the control events stays. */
  lemma ClosedReplays(c: Conversation, cmd: Command)
    requires Inv(c) && c.mode == Closed
    ensures ControlReplayed(Do(c, cmd).0) <==> ControlReplayed(c)
    ensures !(cmd.DoReset? && Do(c, cmd).1 == Done)
  {
    OthersKeepMode(c, cmd);
    if cmd.DoInbound? && InboundId(cmd.request) !in c.messages {
      ReplayAppend(c.journal, Said(InboundId(cmd.request), User, c.controlVersion, c.automationVersion), c.agent);
    }
  }

  /** A reset that took effect, and nothing else, parts the row from its control events. */
  lemma StepReplays(c: Conversation, cmd: Command)
    requires Inv(c)
    ensures Inv(Do(c, cmd).0)
    ensures ControlReplayed(Do(c, cmd).0) <==> ControlReplayed(c) && !(cmd.DoReset? && Do(c, cmd).1 == Done)
  {
    DoKeepsInv(c, cmd);
    if c.mode == Closed {
      ClosedReplays(c, cmd);
    } else if cmd.DoTransition? {
      if Do(c, cmd).1 == Done { ReplayAppend(c.journal, Do(c, cmd).0.journal[|c.journal|], c.agent); }
    } else if !cmd.DoReset? {
      OthersKeepMode(c, cmd);
    }
  }

  lemma {:induction false} ReplayedIffNotReset(c: Conversation, cmds: seq<Command>)
    requires Inv(c) && ControlReplayed(c)
    ensures Inv(Run(c, cmds)) && (ControlReplayed(Run(c, cmds)) <==> !WasReset(c, cmds))
  {
    if cmds != [] {
      ReplayedIffNotReset(c, cmds[..|cmds| - 1]);
      StepReplays(Run(c, cmds[..|cmds| - 1]), cmds[|cmds| - 1]);
    }
  }

  /** Folding the assignment log always gives the acting agent and its version.  Folding the
      control events gives mode, assignee and version iff no reset ever took effect; after one
      the row is closed, unassigned and exactly one version ahead of events that still tell of
      an open conversation. */
  lemma LogsDetermineState(id: Uuid, agent: Agent, cmds: seq<Command>)
    ensures var c := Run(Opened(id, agent), cmds);
            && (ReplayControl(c.journal) == Holder(c.mode, c.assignee, c.controlVersion)
                <==> !WasReset(Opened(id, agent), cmds))
            && ReplayActing(c.journal, c.agent) == Acting(c.automationAgent, c.automationVersion)
            && c.controlVersion == Controls(c.journal) + (if WasReset(Opened(id, agent), cmds) then 1 else 0)
            && c.automationVersion == Applied(c.journal)
            && c.agent == agent
    ensures WasReset(Opened(id, agent), cmds) ==>
              var c := Run(Opened(id, agent), cmds);
              c.mode == Closed && c.assignee.None? && ReplayControl(c.journal).mode != Closed
  {
    OpenedInv(id, agent);
    ReplayedIffNotReset(Opened(id, agent), cmds);
    VersionsCount(Run(Opened(id, agent), cmds).journal, Run(Opened(id, agent), cmds).agent);
    AgentNeverChanges(Opened(id, agent), cmds);
  }

  /** One reset of a new session: closed at version 1, with no event to tell of it. */
  lemma ResetLeavesNoEvent(id: Uuid, agent: Agent)
    ensures var c := Run(Opened(id, agent), [DoReset(agent)]);
            && c.mode == Closed && c.controlVersion == 1 && c.journal == []
            && ReplayControl(c.journal) == Holder(Automated, None, 0)
    ensures WasReset(Opened(id, agent), [DoReset(agent)])
  {
    assert [DoReset(agent)][..0] == [];
  }

  // ---------------------------------------------------------------- authorship

  function At(c: Conversation, cmds: seq<Command>, m: nat): Conversation
    requires m <= |cmds|
  {
    Run(c, cmds[..m])
  }

  lemma AtNext(c: Conversation, cmds: seq<Command>, m: nat)
    requires m < |cmds|
    ensures At(c, cmds, m + 1) == Do(At(c, cmds, m), cmds[m]).0
  {
    assert cmds[..m + 1][..m] == cmds[..m];
  }

  /** The author of a stored text owns the row it commits to, under the versions it names. */
  predicate SaidUnder(c: Conversation, e: Entry)
    requires e.Said?
  {
    match e.author
    case User => true
    case Automation(a) =>
      && c.mode == Automated && e.controlVersion == c.controlVersion
      && c.automationAgent == a && e.automationVersion == c.automationVersion
    case Operator(o) => c.mode == Human && c.assignee == Some(o) && e.controlVersion == c.controlVersion
  }

  predicate AllSaidUnder(c: Conversation, journal: seq<Entry>, from: nat) {
    forall p | from <= p < |journal| && journal[p].Said? :: SaidUnder(c, journal[p])
  }

  lemma {:induction false} FilesSaidUnder(row: Conversation, c: Conversation, t: Ticket, request: string,
                                          files: seq<File>, from: nat)
    requires Current(row, t) && AllSaidUnder(row, c.journal, from)
    ensures AllSaidUnder(row, SayFiles(c, t, request, files).journal, from)
  {
    if files != [] { FilesSaidUnder(row, c, t, request, files[..|files| - 1], from); }
  }

  /** Everything one command stores, it stores under the ownership of the row it found. */
  lemma CommitsUnderOwnership(c: Conversation, cmd: Command)
    ensures AllSaidUnder(c, Do(c, cmd).0.journal, |c.journal|)
  {
    if cmd.DoExchange? {
      ExchangeIsGuarded(c, cmd.ticket, cmd.request, cmd.user, cmd.reply, cmd.files);
      if Do(c, cmd).1 == Done {
        var replied := Replied(c, cmd.ticket, cmd.request, cmd.user, cmd.reply);
        FilesSaidUnder(c, replied, cmd.ticket, cmd.request, cmd.files, |c.journal|);
      }
    }
  }

  /** The command `k` of a run appends entry `p`. */
  predicate Appends(c: Conversation, cmds: seq<Command>, k: nat, p: nat) {
    k < |cmds| && |At(c, cmds, k).journal| <= p < |At(c, cmds, k + 1).journal|
  }

  lemma {:induction false} AppendedBy(c: Conversation, cmds: seq<Command>, n: nat, p: nat) returns (k: nat)
    requires n <= |cmds| && |c.journal| <= p < |At(c, cmds, n).journal|
    ensures Appends(c, cmds, k, p) && k < n
  {
    if |At(c, cmds, n - 1).journal| <= p { k := n - 1; } else { k := AppendedBy(c, cmds, n - 1, p); }
  }

  lemma {:induction false} JournalGrows(c: Conversation, cmds: seq<Command>, m: nat, n: nat)
    requires m <= n <= |cmds|
    ensures At(c, cmds, m).journal <= At(c, cmds, n).journal
    decreases n - m
  {
    if m < n {
      JournalGrows(c, cmds, m, n - 1);
      AtNext(c, cmds, n - 1);
      StepEpochs(At(c, cmds, n - 1), cmds[n - 1]);
    }
  }

  /** In commit order: automated text commits only while the conversation is automated, under
      the acting agent and both versions then in force; operator text commits only while its
      author holds human control.  Paused and closed stretches hold neither.  Both the row at
      the commit and the logs up to it say so. */
  lemma AuthorshipFollowsOwnership(id: Uuid, agent: Agent, cmds: seq<Command>, p: nat)
    requires p < |Run(Opened(id, agent), cmds).journal|
    requires Run(Opened(id, agent), cmds).journal[p].Said?
    ensures var j := Run(Opened(id, agent), cmds).journal;
            var held, acting := ReplayControl(j[..p]), ReplayActing(j[..p], agent);
            && (j[p].author.Automation? ==>
                  && held.mode == Automated && j[p].controlVersion == Controls(j[..p])
                  && acting.agent == j[p].author.agent && j[p].automationVersion == Applied(j[..p]))
            && (j[p].author.Operator? ==>
                  && held.mode == Human && held.assignee == Some(j[p].author.admin)
                  && j[p].controlVersion == Controls(j[..p]))
            && (held.mode == Paused || held.mode == Closed ==> j[p].author == User)
    ensures exists k :: Appends(Opened(id, agent), cmds, k, p)
                        && SaidUnder(At(Opened(id, agent), cmds, k), Run(Opened(id, agent), cmds).journal[p])
  {
    var c := Opened(id, agent);
    OpenedInv(id, agent);
    RunKeepsInv(c, cmds);
    AgentNeverChanges(c, cmds);
    var j := Run(c, cmds).journal;
    VersionsCount(j[..p], agent);
    assert Rightful(j[p], ReplayControl(j[..p]), ReplayActing(j[..p], agent));
    assert cmds[..|cmds|] == cmds;
    var k := AppendedBy(c, cmds, |cmds|, p);
    AtNext(c, cmds, k);
    JournalGrows(c, cmds, k + 1, |cmds|);
    CommitsUnderOwnership(At(c, cmds, k), cmds[k]);
    assert j[p] == At(c, cmds, k + 1).journal[p];
  }

  /** No message is stored twice, whatever is retried. */
  lemma EachMessageOnce(id: Uuid, agent: Agent, cmds: seq<Command>, p: nat, q: nat)
    requires p < q < |Run(Opened(id, agent), cmds).journal|
    ensures var j := Run(Opened(id, agent), cmds).journal;
            && (j[p].Said? && j[q].Said? ==> j[p].id != j[q].id)
            && (j[p].Executed? && j[q].Executed? ==> j[p].request != j[q].request)
  {
    OpenedInv(id, agent);
    RunKeepsInv(Opened(id, agent), cmds);
  }

  // ---------------------------------------------------------------- no ABA

  lemma {:induction false} EpochsGrow(c: Conversation, cmds: seq<Command>, p: nat, q: nat)
    requires p <= q <= |cmds|
    ensures At(c, cmds, p).controlVersion <= At(c, cmds, q).controlVersion
    ensures At(c, cmds, p).automationVersion <= At(c, cmds, q).automationVersion
    decreases q - p
  {
    if p < q {
      AtNext(c, cmds, q - 1);
      StepEpochs(At(c, cmds, q - 1), cmds[q - 1]);
      EpochsGrow(c, cmds, p, q - 1);
    }
  }

  /** What any number of commands may do to the epochs. */
  predicate Evolves(c: Conversation, d: Conversation) {
    && d.agent == c.agent && d.id == c.id
    && c.controlVersion <= d.controlVersion && c.automationVersion <= d.automationVersion
    && (d.controlVersion == c.controlVersion ==> d.mode == c.mode && d.assignee == c.assignee)
    && (d.automationVersion == c.automationVersion ==> d.automationAgent == c.automationAgent)
  }

  /** Automation owns the conversation, under this acting agent. */
  predicate HeldBy(c: Conversation, agent: Agent) { c.mode == Automated && c.automationAgent == agent }

  predicate SameEpochs(c: Conversation, d: Conversation) {
    d.controlVersion == c.controlVersion && d.automationVersion == c.automationVersion
  }

  /** Equal versions before and after: the row in between was held by the same agent. */
  lemma HeldInBetween(c: Conversation, m: Conversation, d: Conversation)
    requires Evolves(c, m) && Evolves(m, d) && SameEpochs(c, d) && d.mode == Automated
    ensures HeldBy(m, d.automationAgent)
  {
  }

  /** A closed row stays closed, whatever is asked of it. */
  lemma ClosedStays(c: Conversation, cmd: Command)
    requires c.mode == Closed
    ensures Do(c, cmd).0.mode == Closed
  {
  }

  /** Equal versions at two moments mean nothing changed hands in between. */
  lemma {:induction false} NoAba(c: Conversation, cmds: seq<Command>, p: nat, m: nat, q: nat)
    requires p <= m <= q <= |cmds|
    ensures At(c, cmds, p).controlVersion == At(c, cmds, q).controlVersion ==>
              At(c, cmds, m).mode == At(c, cmds, q).mode && At(c, cmds, m).assignee == At(c, cmds, q).assignee
    ensures At(c, cmds, p).automationVersion == At(c, cmds, q).automationVersion ==>
              At(c, cmds, m).automationAgent == At(c, cmds, q).automationAgent
    decreases q - m
  {
    if m < q {
      AtNext(c, cmds, m);
      StepEpochs(At(c, cmds, m), cmds[m]);
      EpochsGrow(c, cmds, p, m);
      EpochsGrow(c, cmds, m + 1, q);
      NoAba(c, cmds, p, m + 1, q);
    }
  }

  // ---------------------------------------------------------------- assignment retries

  lemma ReceiptWithKey(c: Conversation, e: Entry, f: Entry)
    requires ReceiptsOnce(c.journal) && e in c.journal && f in c.journal && e.Assigned? && f.Assigned?
    requires e.receipt.key == f.receipt.key
    ensures e == f
  {
    var p :| 0 <= p < |c.journal| && c.journal[p] == e;
    var q :| 0 <= q < |c.journal| && c.journal[q] == f;
  }

  /** After an assignment took effect, whatever happened since, its retry is a duplicate
      and its key refuses any other assignment. */
  lemma AssignRetry(c: Conversation, a: AssignCommand, dir: Directory, cmds: seq<Command>, again: AssignCommand,
                    later: Directory)
    requires Inv(c) && Assign(c, a, dir).1 == Done
    requires again.key == a.key && again.digest.routing == a.digest.routing
    requires again.digest.actorAgent.None? != again.digest.actorAdmin.None?
    requires again.digest.expected >= 0 && !BadAssignText(again)
    ensures var d := Run(Assign(c, a, dir).0, cmds);
            Assign(d, again, later) == (d, if again.digest == a.digest then Duplicate else KeyCollision)
  {
    var c1 := Assign(c, a, dir).0;
    var d := Run(c1, cmds);
    AssignWritesReceipt(c, a, dir);
    var e := c1.journal[|c.journal|];
    AgentNeverChanges(c1, cmds);
    assert d.journal[|c.journal|] == e;
    assert ReceiptsOnce(d.journal) by {
      AssignKeepsInv(c, a, dir);
      RunKeepsInv(c1, cmds);
    }
    ReceiptJudges(d, e, again);
  }

  lemma AssignWritesReceipt(c: Conversation, a: AssignCommand, dir: Directory)
    requires Assign(c, a, dir).1 == Done
    ensures var c1 := Assign(c, a, dir).0;
            && |c1.journal| == |c.journal| + 1 && c1.journal[|c.journal|].Assigned?
            && var r := c1.journal[|c.journal|].receipt;
               r.key == a.key && r.digest == a.digest && r.routing == a.digest.routing
  {
  }

  /** A stored receipt decides every later use of its key. */
  lemma ReceiptJudges(d: Conversation, e: Entry, again: AssignCommand)
    requires ReceiptsOnce(d.journal) && e in d.journal && e.Assigned?
    requires e.receipt.key == again.key && e.receipt.routing == again.digest.routing
    ensures HasReceipt(d.journal, again.key) && !HasForeignReceipt(d.journal, again)
    ensures HasReceiptFor(d.journal, again) <==> e.receipt.digest == again.digest
  {
    forall f | f in d.journal && f.Assigned? && f.receipt.key == again.key ensures f == e {
      ReceiptWithKey(d, e, f);
    }
  }

  /** Drops every assignment whose key already has a receipt when its turn comes. */
  function Pruned(c: Conversation, cmds: seq<Command>): seq<Command> {
    if cmds == [] then []
    else
      var init, last := cmds[..|cmds| - 1], cmds[|cmds| - 1];
      if last.DoAssign? && HasReceipt(Run(c, init).journal, last.command.key) then Pruned(c, init)
      else Pruned(c, init) + [last]
  }

  /** Deleting repeated assignment commands changes nothing at all. */
  lemma {:induction false} PrunedRunIsSame(c: Conversation, cmds: seq<Command>)
    ensures Run(c, Pruned(c, cmds)) == Run(c, cmds)
  {
    if cmds != [] {
      var init, last := cmds[..|cmds| - 1], cmds[|cmds| - 1];
      PrunedRunIsSame(c, init);
      var kept := Pruned(c, init);
      assert (kept + [last])[..|kept|] == kept;
    }
  }
}
