/** When each conversation command takes effect and what it leaves, read off the columns of the
    row, the arguments and the journal. */
module ConversationDecisions {
  import opened Common
  import opened ConversationModel
  import opened ConversationGuarantees

  // ---------------------------------------------------------------- control transitions

  /** The moves an operator may make, one by one. */
  const MOVES: set<(Mode, Mode)> := {
    (Automated, Paused), (Automated, Human), (Automated, Closed),
    (Paused, Automated), (Paused, Human), (Paused, Closed),
    (Human, Automated), (Human, Paused), (Human, Human), (Human, Closed)}

  /** Who is to hold the conversation: for a human takeover somebody else than its holder, who is
      the acting operator or an active administrator allowed to manage conversations; for any
      other move nobody may be named. */
  predicate MayBeGiven(c: Conversation, actor: Admin, to: Mode, requested: Option<Admin>, eligible: set<Admin>) {
    if to == Human then
      && (requested == None || requested == Some(actor) || requested.value in eligible)
      && !(c.mode == Human && c.assignee == if requested == None then Some(actor) else requested)
    else requested == None
  }

  /** A transition is done exactly on the right agent and version, for an allowed move, to
      somebody who may be given the conversation; and each refusal is the first of these that
      fails. */
  lemma TransitionIff(c: Conversation, agent: Agent, actor: Admin, to: Mode, expected: int,
                      requested: Option<Admin>, eligible: set<Admin>)
    ensures var r := Do(c, DoTransition(agent, actor, to, expected, requested, eligible)).1;
            && (r == Done <==>
                && agent == c.agent && c.controlVersion == expected && (c.mode, to) in MOVES
                && MayBeGiven(c, actor, to, requested, eligible))
            && (r == NotFound <==> agent != c.agent)
            && (r == VersionConflict <==> agent == c.agent && c.controlVersion != expected)
            && (r == ForbiddenTransition <==>
                agent == c.agent && c.controlVersion == expected && (c.mode, to) !in MOVES)
  {
  }

  /** What a done transition leaves: the mode asked for, its new holder, the next version, and one
      event that tells the whole move; a refused one leaves everything. */
  lemma TransitionWrites(c: Conversation, agent: Agent, actor: Admin, to: Mode, expected: int,
                         requested: Option<Admin>, eligible: set<Admin>)
    ensures var (d, r) := Do(c, DoTransition(agent, actor, to, expected, requested, eligible));
            && (r != Done ==> d == c)
            && (r == Done ==>
                  && d.mode == to && d.controlVersion == c.controlVersion + 1
                  && d.active == (c.active && to != Closed)
                  && d.assignee == (match to
                                    case Human => if requested == None then Some(actor) else requested
                                    case Paused => c.assignee
                                    case _ => None)
                  && |d.journal| == |c.journal| + 1 && d.journal[..|c.journal|] == c.journal
                  && d.journal[|c.journal|].Controlled?
                  && (var e := d.journal[|c.journal|].event;
                      && e.actor == actor && e.fromMode == c.mode && e.toMode == to
                      && e.fromAdmin == c.assignee && e.toAdmin == d.assignee && e.version == c.controlVersion + 1
                      && (e.kind == EvPaused <==> to == Paused) && (e.kind == EvResumed <==> to == Automated)
                      && (e.kind == EvClosed <==> to == Closed)
                      && (e.kind == EvReassigned <==> to == Human && c.mode == Human))
                  && d.messages == c.messages && d.automationAgent == c.automationAgent
                  && d.automationVersion == c.automationVersion && d.agent == c.agent && d.id == c.id)
  {
  }

  /** The step of a run that appended a control event, and that it was a transition command. */
  lemma ControlledBy(c: Conversation, cmd: Command, p: nat)
    requires |c.journal| <= p < |Do(c, cmd).0.journal| && Do(c, cmd).0.journal[p].Controlled?
    ensures cmd.DoTransition? && Do(c, cmd).1 == Done
  {
    if cmd.DoExchange? {
      ExchangeIsGuarded(c, cmd.ticket, cmd.request, cmd.user, cmd.reply, cmd.files);
      if Do(c, cmd).1 == Done {
        FilesAddNoControl(Replied(c, cmd.ticket, cmd.request, cmd.user, cmd.reply), cmd.ticket, cmd.request, cmd.files,
                          |c.journal|);
      }
    }
  }

  lemma {:induction false} FilesAddNoControl(c: Conversation, t: Ticket, request: string, files: seq<File>, from: nat)
    requires forall p | from <= p < |c.journal| :: !c.journal[p].Controlled?
    ensures forall p | from <= p < |SayFiles(c, t, request, files).journal| ::
              !SayFiles(c, t, request, files).journal[p].Controlled?
  {
    if files != [] { FilesAddNoControl(c, t, request, files[..|files| - 1], from); }
  }

  /** In any run, whoever a control event gives the conversation to is its own actor or was
      eligible when the command that appended it arrived. */
  lemma HoldersWereEligible(id: Uuid, agent: Agent, cmds: seq<Command>, p: nat)
    requires p < |Run(Opened(id, agent), cmds).journal|
    requires Run(Opened(id, agent), cmds).journal[p].Controlled?
    requires Run(Opened(id, agent), cmds).journal[p].event.toMode == Human
    ensures var e := Run(Opened(id, agent), cmds).journal[p].event;
            && e.toAdmin.Some?
            && exists k: nat :: && Appends(Opened(id, agent), cmds, k, p) && cmds[k].DoTransition?
                                && e.actor == cmds[k].actor
                                && (e.toAdmin == Some(e.actor) || e.toAdmin.value in cmds[k].eligible)
  {
    var c := Opened(id, agent);
    assert cmds[..|cmds|] == cmds;
    var k := AppendedBy(c, cmds, |cmds|, p);
    AtNext(c, cmds, k);
    JournalGrows(c, cmds, k + 1, |cmds|);
    var row := At(c, cmds, k);
    var cmd := cmds[k];
    assert At(c, cmds, k + 1).journal[p] == Run(c, cmds).journal[p];
    ControlledBy(row, cmd, p);
    TransitionIff(row, cmd.agent, cmd.actor, cmd.to, cmd.expected, cmd.requested, cmd.eligible);
    TransitionWrites(row, cmd.agent, cmd.actor, cmd.to, cmd.expected, cmd.requested, cmd.eligible);
  }

  // ---------------------------------------------------------------- assignments

  /** Trigger, correlation and key are given and short enough, and so is a reason, if any. */
  predicate Presentable(a: AssignCommand) {
    && 1 <= |a.digest.trigger| <= 80 && 1 <= |a.correlation| <= 120 && 1 <= |a.key| <= 220
    && (a.digest.reason.Some? ==> |a.digest.reason.value| <= 1000)
  }

  /** Exactly one of an agent and an administrator gives the command. */
  predicate WellGiven(a: AssignCommand) {
    && (a.digest.actorAgent.Some? <==> a.digest.actorAdmin.None?)
    && a.digest.expected >= 0 && Presentable(a)
  }

  /** An assignment under a new key is done exactly on an open conversation of the routing agent
      and the expected version, between active agents, for a linked opportunity if any. */
  lemma AssignIff(c: Conversation, a: AssignCommand, dir: Directory)
    ensures Do(c, DoAssign(a, dir)).1 == Done <==>
            && WellGiven(a) && (forall e <- c.journal :: e.Assigned? ==> e.receipt.key != a.key)
            && a.digest.routing == c.agent && c.active && c.mode != Closed
            && a.digest.routing in dir.activeAgents && a.digest.target in dir.activeAgents
            && (a.digest.opportunity.Some? ==> (a.digest.opportunity.value, a.digest.target) in dir.linked)
            && c.automationVersion == a.digest.expected
  {
    assert HasReceipt(c.journal, a.key) <==> !(forall e <- c.journal :: e.Assigned? ==> e.receipt.key != a.key);
  }

  /** Which answer an assignment gets when no receipt has its key: the first condition that fails. */
  lemma AssignRefusals(c: Conversation, a: AssignCommand, dir: Directory)
    requires forall e <- c.journal :: e.Assigned? ==> e.receipt.key != a.key
    ensures Do(c, DoAssign(a, dir)).1 ==
            if a.digest.actorAgent.Some? == a.digest.actorAdmin.Some? then BadActor
            else if a.digest.expected < 0 || !Presentable(a) then BadText
            else if a.digest.routing != c.agent then NotFound
            else if !c.active || c.mode == Closed then ClosedConversation
            else if !({a.digest.routing, a.digest.target} <= dir.activeAgents) then InactiveAgent
            else if a.digest.opportunity.Some? && (a.digest.opportunity.value, a.digest.target) !in dir.linked
            then UnlinkedOpportunity
            else if c.automationVersion != a.digest.expected then VersionConflict
            else Done
  {
    assert !HasReceipt(c.journal, a.key);
  }

  lemma OnlyReceiptAnswers(c: Conversation, a: AssignCommand, dir: Directory, e: Entry)
    requires WellGiven(a) && e in c.journal && e.Assigned? && e.receipt.key == a.key
    requires forall f :: f in c.journal && f.Assigned? && f.receipt.key == a.key ==> f == e
    ensures Do(c, DoAssign(a, dir)).1 ==
            if e.receipt.routing != a.digest.routing then NotFound
            else if e.receipt.digest == a.digest then Duplicate
            else KeyCollision
  {
  }

  /** And when one has: not found for another agent, a duplicate for the same command, and a
      collision for any other. */
  lemma ReceiptAnswers(c: Conversation, a: AssignCommand, dir: Directory, e: Entry)
    requires Inv(c) && WellGiven(a) && e in c.journal && e.Assigned? && e.receipt.key == a.key
    ensures Do(c, DoAssign(a, dir)).1 ==
            if e.receipt.routing != a.digest.routing then NotFound
            else if e.receipt.digest == a.digest then Duplicate
            else KeyCollision
  {
    forall f | f in c.journal && f.Assigned? && f.receipt.key == a.key ensures f == e { ReceiptWithKey(c, e, f); }
    OnlyReceiptAnswers(c, a, dir, e);
  }

  /** It leaves the target acting, moves the version iff that is another agent, and one receipt. */
  lemma AssignWrites(c: Conversation, a: AssignCommand, dir: Directory)
    ensures var (d, r) := Do(c, DoAssign(a, dir));
            && (r != Done ==> d == c)
            && (r == Done ==>
                  && d.automationAgent == a.digest.target
                  && d.automationVersion
                     == c.automationVersion + (if a.digest.target != c.automationAgent then 1 else 0)
                  && |d.journal| == |c.journal| + 1 && d.journal[..|c.journal|] == c.journal
                  && d.journal[|c.journal|].Assigned?
                  && (var e := d.journal[|c.journal|].receipt;
                      && e.routing == c.agent && e.from == c.automationAgent && e.to == a.digest.target
                      && e.version == d.automationVersion && e.applied == (a.digest.target != c.automationAgent)
                      && e.key == a.key && e.digest == a.digest && e.correlation == a.correlation)
                  && d.mode == c.mode && d.controlVersion == c.controlVersion && d.assignee == c.assignee
                  && d.active == c.active && d.messages == c.messages && d.agent == c.agent && d.id == c.id)
  {
  }

  // ---------------------------------------------------------------- writes of automation and operators

  /** The conversation is automated, under the agent and both versions the ticket names. */
  predicate OnTime(c: Conversation, t: Ticket) {
    && t.routing == c.agent && c.mode == Automated && t.controlVersion == c.controlVersion
    && t.acting == c.automationAgent && t.automationVersion == c.automationVersion
  }

  /** The same row with other messages and a longer journal. */
  predicate OnlySpoke(c: Conversation, d: Conversation) {
    d.(messages := c.messages, journal := c.journal) == c && c.journal <= d.journal
  }

  /** A notification is stored exactly on time and when it is new; a stored one is recognised by
      its text. */
  lemma NotifyIff(c: Conversation, t: Ticket, request: string, purpose: string, content: string)
    ensures var (d, r) := Do(c, DoNotify(t, request, purpose, content));
            var id := NotificationId(request, purpose);
            && (r == Done <==> OnTime(c, t) && id !in c.messages)
            && (r == Duplicate <==> OnTime(c, t) && id in c.messages && c.messages[id].content == content)
            && (r == Unready <==> OnTime(c, t) && id in c.messages && c.messages[id].content != content)
            && d == if r == Done
                    then c.(messages := c.messages[id := Message(Automation(t.acting), content)],
                            journal := c.journal
                                       + [Said(id, Automation(t.acting), t.controlVersion, t.automationVersion)])
                    else c
  {
  }

  /** Operator text is stored exactly on the right agent and version, under human control of its
      author, with a key of 1 to 220 characters, and when it is new. */
  lemma OperatorSayIff(c: Conversation, agent: Agent, actor: Admin, content: string, expected: int, key: string)
    ensures var (d, r) := Do(c, DoOperatorSay(agent, actor, content, expected, key));
            var id := OperatorId(actor, key);
            var may := && agent == c.agent && c.controlVersion == expected
                       && c.mode == Human && c.assignee == Some(actor) && 1 <= |key| <= 220;
            && (r == Done <==> may && id !in c.messages)
            && (r == Duplicate <==> may && id in c.messages && c.messages[id].content == content)
            && (r == KeyCollision <==> may && id in c.messages && c.messages[id].content != content)
            && d == if r == Done
                    then c.(messages := c.messages[id := Message(Operator(actor), content)],
                            journal := c.journal + [Said(id, Operator(actor), c.controlVersion, c.automationVersion)])
                    else c
  {
  }

  /** A provider message is stored once, in any state of the conversation. */
  lemma InboundIff(c: Conversation, request: string, content: string)
    ensures var (d, r) := Do(c, DoInbound(request, content));
            var id := InboundId(request);
            && (r == Done <==> id !in c.messages)
            && (r == Duplicate <==> id in c.messages && c.messages[id].author == User)
            && d == if r == Done
                    then c.(messages := c.messages[id := Message(User, content)],
                            journal := c.journal + [Said(id, User, c.controlVersion, c.automationVersion)])
                    else c
  {
  }

  /** An exchange is stored exactly on time, when its request was never answered, and its reply
      and files are new and durable. */
  lemma ExchangeIff(c: Conversation, t: Ticket, request: string, user: string, reply: string, files: seq<File>)
    ensures var (d, r) := Do(c, DoExchange(t, request, user, reply, files));
            && (r == Done <==>
                && (forall e <- c.journal :: e.Executed? ==> e.request != request) && OnTime(c, t)
                && AssistantId(request) !in c.messages
                && (InboundId(request) in c.messages ==> c.messages[InboundId(request)].author == User)
                && forall i | 0 <= i < |files| :: files[i].durable && FileId(request, i) !in c.messages)
            && (r == Duplicate <==> exists e <- c.journal :: e.Executed? && e.request == request)
            && (r != Done ==> d == c)
  {
  }

  lemma {:induction false} FilesStored(c: Conversation, t: Ticket, request: string, files: seq<File>, id: MessageId)
    ensures var d := SayFiles(c, t, request, files);
            && OnlySpoke(c, d)
            && (id.FileId? && id.request == request && id.index < |files| ==>
                  id in d.messages && d.messages[id] == Message(Automation(t.acting), files[id.index].name))
            && (!(id.FileId? && id.request == request && id.index < |files|) ==>
                  (id in d.messages <==> id in c.messages) && (id in c.messages ==> d.messages[id] == c.messages[id]))
  {
    if files != [] {
      var n := |files| - 1;
      FilesStored(c, t, request, files[..n], id);
    }
  }

  /** It leaves the user's text, the reply and every file by the acting agent, the execution as
      the last entry, and everything else as it was. */
  lemma ExchangeWrites(c: Conversation, t: Ticket, request: string, user: string, reply: string, files: seq<File>,
                       id: MessageId)
    requires Do(c, DoExchange(t, request, user, reply, files)).1 == Done
    ensures var d := Do(c, DoExchange(t, request, user, reply, files)).0;
            && OnlySpoke(c, d)
            && d.journal[|d.journal| - 1] == Executed(request, t.controlVersion, t.acting, t.automationVersion)
            && (id == InboundId(request) ==> id in d.messages && d.messages[id] == Message(User, user))
            && (id == AssistantId(request) ==>
                  id in d.messages && d.messages[id] == Message(Automation(t.acting), reply))
            && (id.FileId? && id.request == request && id.index < |files| ==>
                  id in d.messages && d.messages[id] == Message(Automation(t.acting), files[id.index].name))
            && (!(id == InboundId(request) || id == AssistantId(request)
                  || (id.FileId? && id.request == request && id.index < |files|)) ==>
                  (id in d.messages <==> id in c.messages) && (id in c.messages ==> d.messages[id] == c.messages[id]))
  {
    ExchangeIsGuarded(c, t, request, user, reply, files);
    var replied := Replied(c, t, request, user, reply);
    assert OnlySpoke(c, replied);
    FilesStored(replied, t, request, files, id);
  }

  /** A reset closes exactly an open conversation of the agent. */
  lemma ResetIff(c: Conversation, agent: Agent)
    ensures var (d, r) := Do(c, DoReset(agent));
            && (r == Done <==> agent == c.agent && c.active)
            && d == if r == Done
                    then c.(active := false, mode := Closed, assignee := None, controlVersion := c.controlVersion + 1)
                    else c
  {
  }

  // ---------------------------------------------------------------- stored texts

  /** The command carried this text by this author under this id. */
  predicate Carried(cmd: Command, id: MessageId, m: Message) {
    match id
    case InboundId(request) =>
      && m.author == User
      && ((cmd.DoInbound? && cmd.request == request && cmd.content == m.content)
          || (cmd.DoExchange? && cmd.request == request && cmd.user == m.content))
    case AssistantId(request) =>
      cmd.DoExchange? && cmd.request == request && m == Message(Automation(cmd.ticket.acting), cmd.reply)
    case FileId(request, index) =>
      && cmd.DoExchange? && cmd.request == request && index < |cmd.files|
      && m == Message(Automation(cmd.ticket.acting), cmd.files[index].name)
    case NotificationId(request, purpose) =>
      && cmd.DoNotify? && cmd.request == request && cmd.purpose == purpose
      && m == Message(Automation(cmd.ticket.acting), cmd.content)
    case OperatorId(admin, key) =>
      cmd.DoOperatorSay? && cmd.actor == admin && cmd.key == key && m == Message(Operator(admin), cmd.content)
  }

  lemma StepCarried(c: Conversation, cmd: Command, id: MessageId)
    requires id in Do(c, cmd).0.messages
    ensures (id in c.messages && Do(c, cmd).0.messages[id] == c.messages[id])
            || Carried(cmd, id, Do(c, cmd).0.messages[id])
  {
    match cmd
    case DoExchange(t, request, user, reply, files) =>
      if Do(c, cmd).1 == Done {
        ExchangeWrites(c, t, request, user, reply, files, id);
      } else {
        ExchangeIff(c, t, request, user, reply, files);
      }
    case DoNotify(t, request, purpose, content) => NotifyIff(c, t, request, purpose, content);
    case DoOperatorSay(agent, actor, content, expected, key) => OperatorSayIff(c, agent, actor, content, expected, key);
    case DoInbound(request, content) => InboundIff(c, request, content);
    case DoAssign(a, dir) => AssignWrites(c, a, dir);
    case DoTransition(agent, actor, to, expected, requested, eligible) =>
      TransitionWrites(c, agent, actor, to, expected, requested, eligible);
    case DoReset(agent) => ResetIff(c, agent);
  }

  /** In any run every stored text is, word for word, what some command of its author carried
      under its id. */
  lemma {:induction false} StoredTextsWereSent(id: Uuid, agent: Agent, cmds: seq<Command>, mid: MessageId)
    requires mid in Run(Opened(id, agent), cmds).messages
    ensures exists k | 0 <= k < |cmds| :: Carried(cmds[k], mid, Run(Opened(id, agent), cmds).messages[mid])
  {
    var n := |cmds| - 1;
    var c := Run(Opened(id, agent), cmds[..n]);
    StepCarried(c, cmds[n], mid);
    if mid in c.messages && Do(c, cmds[n]).0.messages[mid] == c.messages[mid] {
      StoredTextsWereSent(id, agent, cmds[..n], mid);
      var k :| 0 <= k < n && Carried(cmds[..n][k], mid, c.messages[mid]);
      assert Carried(cmds[k], mid, c.messages[mid]);
    }
  }
}
