/** Synchronous web executions: idempotent requests that run under an ownership snapshot. */
module WebExecutions {
  import opened Common
  import opened ConversationModel
  import opened ConversationGuarantees

  datatype ExecutionStatus = Running | Completed | Failed | Blocked

  /** One execution row, whether its inbound message is completed, and how many calls are
      still inside the agent loop for it. */
  datatype Execution = Execution(
    scope: string, input: string, status: ExecutionStatus, ticket: Ticket, heard: bool, output: Option<string>,
    inFlight: nat)

  datatype Answer = Answer(request: string, text: string)

  /** Conversations by route and session, executions by request id, and the assistant
      messages in commit order. */
  datatype Web = Web(convs: map<string, Conversation>, execs: map<string, Execution>, answers: seq<Answer>)

  /** A request, with what the route and runtime lookups found for it. */
  datatype Request = Request(
    id: string, scope: string, input: string, consent: bool, routeReady: bool, actingReady: bool,
    conversation: Uuid, agent: Agent)

  datatype Reply = ConsentRequired | NotReady | InProgress | Stored(output: string) | Started

  /** How the agent loop ended: a guard check failed, it raised, or it returned. */
  datatype LoopEnd = Tripped | Raised | Returned(success: bool, text: string)

  datatype Step = Begin(request: Request) | Settle(id: string, end: LoopEnd) | Talk(scope: string, cmd: Command)

  function TicketOf(c: Conversation): Ticket {
    Ticket(c.agent, c.automationAgent, c.controlVersion, c.automationVersion)
  }

  function ConversationFor(s: Web, q: Request): Conversation {
    if q.scope in s.convs then s.convs[q.scope] else Opened(q.conversation, q.agent)
  }

  function Judge(s: Web, q: Request): Reply {
    if !q.consent then ConsentRequired
    else if !q.routeReady then NotReady
    else if q.id in s.execs then
      var e := s.execs[q.id];
      if e.input != q.input || e.scope != q.scope then NotReady
      else if e.status == Completed then if e.output.Some? then Stored(e.output.value) else NotReady
      else if e.status == Running then InProgress
      else if !q.actingReady then NotReady
      else Started
    else if !q.actingReady then NotReady
    else Started
  }

  function InFlight(execs: map<string, Execution>, id: string): nat { if id in execs then execs[id].inFlight else 0 }

  /** A first run or a retry: running under a new snapshot, the inbound message not yet heard. */
  function Beginning(s: Web, q: Request): Web {
    var c := ConversationFor(s, q);
    s.(convs := s.convs[q.scope := c],
       execs := s.execs[q.id := Execution(q.scope, q.input, Running, TicketOf(c), false, None,
                                          InFlight(s.execs, q.id) + 1)])
  }

  predicate Current(s: Web, e: Execution) {
    e.scope in s.convs && AutomationFault(s.convs[e.scope], e.ticket).None?
  }

  function StatusAfter(s: Web, e: Execution, end: LoopEnd): ExecutionStatus {
    match end
    case Tripped => Blocked
    case Raised => Failed
    case Returned(success, text) =>
      if !Current(s, e) then Blocked else if !success || text == [] then Failed else Completed
  }

  /** Writes the outcome; a blocked or completed run completes the inbound message. */
  function Settling(s: Web, id: string, end: LoopEnd): Web
    requires id in s.execs && s.execs[id].inFlight > 0
  {
    var e := s.execs[id];
    var status := StatusAfter(s, e, end);
    var row := e.(status := status, heard := e.heard || status == Blocked || status == Completed,
                  inFlight := e.inFlight - 1);
    if status == Completed then
      s.(execs := s.execs[id := row.(output := Some(end.text))], answers := s.answers + [Answer(id, end.text)])
    else s.(execs := s.execs[id := row])
  }

  /** Only a call in flight settles, and a guard trips only when the snapshot is stale. */
  predicate Settleable(s: Web, id: string, end: LoopEnd) {
    id in s.execs && s.execs[id].inFlight > 0 && (end.Tripped? ==> !Current(s, s.execs[id]))
  }

  /** A reset blocks the running executions of its session, whose calls go on in the agent loop. */
  function Interrupted(execs: map<string, Execution>, scope: string): map<string, Execution> {
    map id | id in execs ::
      if execs[id].scope == scope && execs[id].status == Running then execs[id].(status := Blocked) else execs[id]
  }

  function Talking(s: Web, scope: string, cmd: Command): Web
    requires scope in s.convs
  {
    var (c, r) := Do(s.convs[scope], cmd);
    s.(convs := s.convs[scope := c],
       execs := if cmd.DoReset? && r == Done then Interrupted(s.execs, scope) else s.execs)
  }

  predicate Enabled(s: Web, st: Step) {
    match st
    case Begin(_) => true
    case Settle(id, end) => Settleable(s, id, end)
    case Talk(scope, _) => scope in s.convs
  }

  function Next(s: Web, st: Step): Web
    requires Enabled(s, st)
  {
    match st
    case Begin(q) => if Judge(s, q) == Started then Beginning(s, q) else s
    case Settle(id, end) => Settling(s, id, end)
    case Talk(scope, cmd) => Talking(s, scope, cmd)
  }

  const NOTHING: Web := Web(map[], map[], [])

  predicate ValidRun(steps: seq<Step>, n: nat)
    requires n <= |steps|
    decreases n, 0
  {
    n > 0 ==> ValidRun(steps, n - 1) && Enabled(After(steps, n - 1), steps[n - 1])
  }

  /** The state after the first `n` steps. */
  function After(steps: seq<Step>, n: nat): Web
    requires n <= |steps| && ValidRun(steps, n)
    decreases n, 1
  {
    if n == 0 then NOTHING else Next(After(steps, n - 1), steps[n - 1])
  }

  // ---------------------------------------------------------------- invariants

  predicate ExecutionOk(e: Execution, s: Web) {
    && e.scope in s.convs && e.ticket.routing == s.convs[e.scope].agent
    && (e.output.Some? <==> e.status == Completed)
    && (e.status == Completed ==> e.heard && e.inFlight == 0)
    && (e.status == Running ==> e.inFlight > 0)
    && (s.convs[e.scope].mode != Closed ==>
          && (e.heard <==> e.status == Completed || e.status == Blocked)
          && e.inFlight == if e.status == Running then 1 else 0)
  }

  /** Answers belong to completed executions, one each. */
  predicate Inv(s: Web) {
    && (forall id <- s.execs :: ExecutionOk(s.execs[id], s))
    && (forall a <- s.answers :: a.request in s.execs && s.execs[a.request].output == Some(a.text))
    && (forall id <- s.execs :: s.execs[id].output.Some? ==> Answer(id, s.execs[id].output.value) in s.answers)
    && (forall i, j | 0 <= i < j < |s.answers| :: s.answers[i].request != s.answers[j].request)
  }

  lemma BeginningKeepsInv(s: Web, q: Request)
    requires Inv(s) && Judge(s, q) == Started
    ensures Inv(Beginning(s, q))
  {
    var t := Beginning(s, q);
    forall id | id in t.execs ensures ExecutionOk(t.execs[id], t) {
      if id != q.id { assert ExecutionOk(s.execs[id], s); }
    }
  }

  lemma SettlingKeepsInv(s: Web, id: string, end: LoopEnd)
    requires Inv(s) && Settleable(s, id, end)
    ensures Inv(Settling(s, id, end))
  {
    var t := Settling(s, id, end);
    assert ExecutionOk(s.execs[id], s);
    forall k | k in t.execs ensures ExecutionOk(t.execs[k], t) { assert ExecutionOk(s.execs[k], s); }
    if StatusAfter(s, s.execs[id], end) == Completed {
      assert t.answers[|s.answers|] == Answer(id, end.text);
      forall k | k in t.execs && t.execs[k].output.Some? ensures Answer(k, t.execs[k].output.value) in t.answers {
        if k != id { assert Answer(k, s.execs[k].output.value) in s.answers; }
      }
    }
  }

  lemma TalkKeepsInv(s: Web, scope: string, cmd: Command)
    requires Inv(s) && scope in s.convs
    ensures Inv(Next(s, Talk(scope, cmd)))
  {
    var t := Next(s, Talk(scope, cmd));
    StepEpochs(s.convs[scope], cmd);
    if s.convs[scope].mode == Closed { ClosedStays(s.convs[scope], cmd); }
    forall k | k in t.execs ensures ExecutionOk(t.execs[k], t) { assert ExecutionOk(s.execs[k], s); }
  }

  lemma {:induction false} RunKeepsInv(steps: seq<Step>, n: nat)
    requires n <= |steps| && ValidRun(steps, n)
    ensures Inv(After(steps, n))
  {
    if n > 0 {
      RunKeepsInv(steps, n - 1);
      var s, st := After(steps, n - 1), steps[n - 1];
      match st
      case Begin(q) => if Judge(s, q) == Started { BeginningKeepsInv(s, q); }
      case Settle(id, end) => SettlingKeepsInv(s, id, end);
      case Talk(scope, cmd) => TalkKeepsInv(s, scope, cmd);
    }
  }

  // ---------------------------------------------------------------- ownership

  /** One step moves the epochs of a conversation as its command does. */
  lemma StepConv(s: Web, st: Step, scope: string)
    requires Enabled(s, st) && scope in s.convs
    ensures scope in Next(s, st).convs && Evolves(s.convs[scope], Next(s, st).convs[scope])
  {
    if st.Talk? && st.scope == scope { StepEpochs(s.convs[scope], st.cmd); }
  }

  /** A stale snapshot stays stale, so a guard that tripped could only be followed by a block. */
  lemma StaleStaysStale(s: Web, st: Step, e: Execution)
    requires Enabled(s, st) && e.scope in s.convs && !Current(s, e)
    requires e.ticket.controlVersion <= s.convs[e.scope].controlVersion
    requires e.ticket.automationVersion <= s.convs[e.scope].automationVersion
    ensures !Current(Next(s, st), e)
  {
    StepConv(s, st, e.scope);
  }

  predicate BeginsAt(steps: seq<Step>, k: nat, id: string)
    requires k < |steps| && ValidRun(steps, k)
  {
    steps[k].Begin? && steps[k].request.id == id && Judge(After(steps, k), steps[k].request) == Started
  }

  lemma {:induction false} Shorter(steps: seq<Step>, m: nat, n: nat)
    requires m <= n <= |steps| && ValidRun(steps, n)
    ensures ValidRun(steps, m)
    decreases n - m
  {
    if m < n { Shorter(steps, m, n - 1); }
  }

  /** While an execution is not begun again, its scope and snapshot stay. */
  lemma {:induction false} TicketKept(steps: seq<Step>, b: nat, n: nat, id: string)
    requires b < n <= |steps| && ValidRun(steps, n) && ValidRun(steps, b) && BeginsAt(steps, b, id)
    requires forall k | b < k < n :: ValidRun(steps, k) && !BeginsAt(steps, k, id)
    ensures id in After(steps, n).execs
    ensures var e, q := After(steps, n).execs[id], steps[b].request;
            e.scope == q.scope && e.ticket == TicketOf(ConversationFor(After(steps, b), q))
    decreases n - b
  {
    if n - 1 > b { TicketKept(steps, b, n - 1, id); }
  }

  lemma {:induction false} RowEvolves(steps: seq<Step>, p: nat, n: nat, scope: string)
    requires p <= n <= |steps| && ValidRun(steps, n) && ValidRun(steps, p) && scope in After(steps, p).convs
    ensures scope in After(steps, n).convs && Evolves(After(steps, p).convs[scope], After(steps, n).convs[scope])
    decreases n - p
  {
    if p < n {
      RowEvolves(steps, p, n - 1, scope);
      StepConv(After(steps, n - 1), steps[n - 1], scope);
    }
  }

  /** Automated under one agent at every moment from `p` to `n`. */
  predicate OwnedThroughout(steps: seq<Step>, p: nat, n: nat, scope: string, agent: Agent)
    requires p <= n <= |steps|
  {
    forall m | p <= m <= n ::
      ValidRun(steps, m) && scope in After(steps, m).convs && HeldBy(After(steps, m).convs[scope], agent)
  }

  lemma SameEpochsOwned(steps: seq<Step>, p: nat, n: nat, scope: string)
    requires p <= n <= |steps| && ValidRun(steps, n) && ValidRun(steps, p)
    requires scope in After(steps, p).convs && scope in After(steps, n).convs
    requires After(steps, n).convs[scope].mode == Automated
    requires SameEpochs(After(steps, p).convs[scope], After(steps, n).convs[scope])
    ensures OwnedThroughout(steps, p, n, scope, After(steps, n).convs[scope].automationAgent)
  {
    var d := After(steps, n).convs[scope];
    forall m | p <= m <= n
      ensures ValidRun(steps, m) && scope in After(steps, m).convs
              && HeldBy(After(steps, m).convs[scope], d.automationAgent) {
      Shorter(steps, m, n);
      RowEvolves(steps, p, m, scope);
      RowEvolves(steps, m, n, scope);
      HeldInBetween(After(steps, p).convs[scope], After(steps, m).convs[scope], d);
    }
  }

  // ---------------------------------------------------------------- guarantees

  /** An execution that completes was owned by automation, under its acting agent, at every
      moment since its latest start: no takeover and no reassignment in between. */
  lemma CompletionWasOwnedThroughout(steps: seq<Step>, b: nat, n: nat, id: string, end: LoopEnd)
    requires b < n < |steps| && ValidRun(steps, n + 1) && ValidRun(steps, n) && ValidRun(steps, b)
      && BeginsAt(steps, b, id)
    requires forall k | b < k < n :: ValidRun(steps, k) && !BeginsAt(steps, k, id)
    requires steps[n] == Settle(id, end) && After(steps, n + 1).execs[id].status == Completed
    ensures var e := After(steps, n).execs[id];
            OwnedThroughout(steps, b + 1, n, e.scope, e.ticket.acting)
  {
    TicketKept(steps, b, n, id);
    Shorter(steps, b + 1, n);
    var q, e := steps[b].request, After(steps, n).execs[id];
    assert q.scope in After(steps, b + 1).convs;
    RowEvolves(steps, b + 1, n, q.scope);
    SameEpochsOwned(steps, b + 1, n, q.scope);
  }

  /** A request id is answered at most once, ever; the answer is its completed execution's. */
  lemma OneAnswerPerRequest(steps: seq<Step>, n: nat, i: nat, j: nat)
    requires n <= |steps| && ValidRun(steps, n)
    requires i < |After(steps, n).answers| && j < |After(steps, n).answers|
    requires After(steps, n).answers[i].request == After(steps, n).answers[j].request
    ensures var s := After(steps, n);
            i == j && s.answers[i].request in s.execs && s.execs[s.answers[i].request].status == Completed
  {
    RunKeepsInv(steps, n);
    var s := After(steps, n);
    assert s.answers[i] in s.answers;
    assert ExecutionOk(s.execs[s.answers[i].request], s);
  }

  /** A completed execution has no call in flight, is not begun again, and is not interrupted. */
  lemma CompletedStep(s: Web, st: Step, id: string)
    requires Inv(s) && Enabled(s, st) && id in s.execs && s.execs[id].status == Completed
    ensures id in Next(s, st).execs && Next(s, st).execs[id] == s.execs[id]
  {
    assert ExecutionOk(s.execs[id], s);
  }

  /** Completed executions never change. */
  lemma {:induction false} CompletedStays(steps: seq<Step>, m: nat, n: nat, id: string)
    requires m <= n <= |steps| && ValidRun(steps, n) && ValidRun(steps, m)
    requires id in After(steps, m).execs && After(steps, m).execs[id].status == Completed
    ensures id in After(steps, n).execs && After(steps, n).execs[id] == After(steps, m).execs[id]
    decreases n - m
  {
    if m < n {
      CompletedStays(steps, m, n - 1, id);
      RunKeepsInv(steps, n - 1);
      CompletedStep(After(steps, n - 1), steps[n - 1], id);
    }
  }

  lemma {:induction false} ClosedForever(steps: seq<Step>, m: nat, n: nat, scope: string)
    requires m <= n <= |steps| && ValidRun(steps, n) && ValidRun(steps, m)
    requires scope in After(steps, m).convs && After(steps, m).convs[scope].mode == Closed
    ensures scope in After(steps, n).convs && After(steps, n).convs[scope].mode == Closed
    decreases n - m
  {
    if m < n {
      ClosedForever(steps, m, n - 1, scope);
      var s, st := After(steps, n - 1), steps[n - 1];
      if st.Talk? && st.scope == scope { ClosedStays(s.convs[scope], st.cmd); }
    }
  }

  /** Once a session is closed, by a reset or a control transition, no call still in flight and
      no retry completes: what is completed later was completed then. */
  lemma {:induction false} NothingCompletesAfterClosing(steps: seq<Step>, m: nat, n: nat, id: string)
    requires m <= n <= |steps| && ValidRun(steps, n) && ValidRun(steps, m)
    requires id in After(steps, n).execs && After(steps, n).execs[id].status == Completed
    requires var scope := After(steps, n).execs[id].scope;
             scope in After(steps, m).convs && After(steps, m).convs[scope].mode == Closed
    ensures id in After(steps, m).execs && After(steps, m).execs[id] == After(steps, n).execs[id]
    decreases n - m
  {
    if m < n {
      ClosedForever(steps, m, n - 1, After(steps, n).execs[id].scope);
      CompletedBefore(After(steps, n - 1), steps[n - 1], id);
      NothingCompletesAfterClosing(steps, m, n - 1, id);
    }
  }

  lemma CompletedBefore(s: Web, st: Step, id: string)
    requires Enabled(s, st) && id in Next(s, st).execs && Next(s, st).execs[id].status == Completed
    requires var scope := Next(s, st).execs[id].scope; scope in s.convs && s.convs[scope].mode == Closed
    ensures id in s.execs && s.execs[id] == Next(s, st).execs[id]
  {
  }

  /** After completion, the same request is answered from the stored row, whatever happened since. */
  lemma RepeatsAreReplayed(steps: seq<Step>, m: nat, n: nat, q: Request)
    requires m <= n <= |steps| && ValidRun(steps, n) && ValidRun(steps, m)
    requires q.id in After(steps, m).execs && After(steps, m).execs[q.id].status == Completed
    requires q.consent && q.routeReady
    ensures var e := After(steps, m).execs[q.id];
            && Judge(After(steps, n), q) ==
               (if q.input == e.input && q.scope == e.scope && e.output.Some? then Stored(e.output.value) else NotReady)
            && e.output.Some? && Answer(q.id, e.output.value) in After(steps, n).answers
  {
    CompletedStays(steps, m, n, q.id);
    RunKeepsInv(steps, n);
    assert ExecutionOk(After(steps, n).execs[q.id], After(steps, n));
  }

  // ---------------------------------------------------------------- the service itself

  class WebService {
    var convs: map<string, Conversation>
    var execs: map<string, Execution>
    var answers: seq<Answer>

    ghost function View(): Web
      reads this
    {
      Web(convs, execs, answers)
    }

    constructor ()
      ensures View() == NOTHING
    {
      convs, execs, answers := map[], map[], [];
    }

    /** Up to the first commit: replays, refuses, or leaves the execution running. */
    method Start(q: Request) returns (r: Reply)
      modifies this
      ensures r == Judge(old(View()), q)
      ensures View() == Next(old(View()), Begin(q))
    {
      if !q.consent { return ConsentRequired; }
      if !q.routeReady { return NotReady; }
      if q.id in execs {
        var e := execs[q.id];
        if e.input != q.input { return NotReady; }
        if e.scope != q.scope { return NotReady; }
        if e.status == Completed {
          return if e.output.Some? then Stored(e.output.value) else NotReady;
        }
        if e.status == Running { return InProgress; }
        if !q.actingReady { return NotReady; }
      } else if !q.actingReady {
        return NotReady;
      }
      var c := if q.scope in convs then convs[q.scope] else Opened(q.conversation, q.agent);
      convs := convs[q.scope := c];
      execs := execs[q.id := Execution(q.scope, q.input, Running, TicketOf(c), false, None,
                                       InFlight(execs, q.id) + 1)];
      return Started;
    }

    /** After the agent loop: the row-locked check, then the outcome. */
    method Finish(id: string, end: LoopEnd)
      requires Settleable(View(), id, end)
      modifies this
      ensures View() == Next(old(View()), Settle(id, end))
    {
      var e := execs[id];
      e := e.(inFlight := e.inFlight - 1);
      if end.Tripped? {
        e := e.(heard := true);
        e := e.(status := Blocked);
      } else if end.Raised? {
        e := e.(status := Failed);
      } else if e.scope !in convs || AutomationFault(convs[e.scope], e.ticket).Some? {
        e := e.(heard := true);
        e := e.(status := Blocked);
      } else if !end.success || end.text == [] {
        e := e.(status := Failed);
      } else {
        e := e.(heard := true);
        e := e.(status := Completed);
        e := e.(output := Some(end.text));
        answers := answers + [Answer(id, end.text)];
      }
      execs := execs[id := e];
    }

    method BlockRunning(scope: string)
      modifies this`execs
      ensures execs == Interrupted(old(execs), scope)
    {
      ghost var was := execs;
      var todo := execs.Keys;
      while todo != {}
        invariant todo <= was.Keys == execs.Keys
        invariant forall id <- was :: execs[id] == if id in todo then was[id] else Interrupted(was, scope)[id]
        decreases |todo|
      {
        var id :| id in todo;
        todo := todo - {id};
        if execs[id].scope == scope && execs[id].status == Running {
          execs := execs[id := execs[id].(status := Blocked)];
        }
      }
      assert execs == Interrupted(was, scope);
    }

    /** The visitor starts over: the conversation is closed and its running executions blocked. */
    method ResetSession(scope: string, agent: Agent) returns (r: Response)
      requires scope in convs
      modifies this
      ensures r == Do(old(View()).convs[scope], DoReset(agent)).1
      ensures View() == Next(old(View()), Talk(scope, DoReset(agent)))
    {
      var c := convs[scope];
      convs := convs[scope := Do(c, DoReset(agent)).0];
      if agent != c.agent { return NotFound; }
      if !c.active { return Duplicate; }
      BlockRunning(scope);
      return Done;
    }
  }
}
