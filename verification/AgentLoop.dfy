/** The guardrail loop between the language model and its tools. */
module AgentLoop {
  import opened Common

  /** Arguments as sent by the model: text that is no JSON, or the parsed value. A parsed
      value that is not a mapping may not be sortable, which stops the loop. */
  datatype Args = Malformed | Parsed(value: nat, sortable: bool)

  datatype Call = Call(id: string, name: string, args: Args)

  /** A model turn: an error, or a message with text and perhaps tool calls. */
  datatype Reply = ModelError | Message(text: string, calls: seq<Call>)

  datatype ToolOutcome = TimedOut | Raised(error: string) | Returned(success: bool, text: string)

  /** What the loop cannot decide: failing checks by number, late and answered iterations,
      and the outcome of each executed call by number. */
  datatype World = World(
    failing: set<nat>, late: set<int>, replies: map<int, Reply>, outcomes: map<nat, ToolOutcome>)

  datatype Config = Config(
    hasKey: bool, maxIterations: int, maxToolCalls: int, allowed: set<string>, registered: set<string>)

  datatype Note =
    | LimitReached
    | AlreadyTried(name: string)
    | Unavailable(name: string)
    | Cancelled(name: string)
    | Crashed(name: string, error: string)
    | Failure(error: string)
    | Output(text: string)

  datatype Line = Prompt(text: string) | Assistant(calls: seq<Call>) | Tool(id: string, note: Note)

  datatype Status = Success | Error | Timeout | MaxIterations

  /** The reply text: the model's own, or one of the fixed apologies. */
  datatype Response = Said(text: string) | NoService | TooLate | ModelFailed | NoAnswer | NotCompleted

  datatype Record = Record(name: string, status: Status)

  /** Observable actions, in order. */
  datatype Act = Checked | Denied | Asked | Ran(call: Call)

  datatype Ending = Reported(status: Status, response: Response, iterations: int) | GuardRaised | ArgumentsRaised

  datatype Report = Report(ending: Ending, lines: seq<Line>, used: seq<string>, records: seq<Record>, total: nat)

  const EMPTY: Args := Parsed(0, true)

  function Effective(args: Args): Args { if args.Malformed? then EMPTY else args }

  /** What the loop detector hashes. */
  function Key(c: Call): (string, Args) { (c.name, Effective(c.args)) }

  predicate Available(cfg: Config, name: string) { name in cfg.allowed && name in cfg.registered }

  function ResponseTo(text: string): Response { if text == [] then NoAnswer else Said(text) }

  function ReplyAt(w: World, iteration: int): Reply {
    if iteration in w.replies then w.replies[iteration] else ModelError
  }

  function OutcomeAt(w: World, run: nat): ToolOutcome {
    if run in w.outcomes then w.outcomes[run] else TimedOut
  }

  // ------------------------------------------------ what a history of calls determines

  predicate WasAsked(before: seq<Call>, c: Call) {
    exists j | 0 <= j < |before| :: Key(before[j]) == Key(c)
  }

  /** A call is executed iff it is within the limit, new, and available. */
  predicate Executes(cfg: Config, before: seq<Call>, c: Call) {
    |before| < cfg.maxToolCalls && !WasAsked(before, c) && Available(cfg, c.name)
  }

  /** The executed calls among all calls of a conversation. */
  function Runs(cfg: Config, calls: seq<Call>): seq<Call> {
    if calls == [] then []
    else
      var before, c := calls[..|calls| - 1], calls[|calls| - 1];
      if Executes(cfg, before, c) then Runs(cfg, before) + [c] else Runs(cfg, before)
  }

  function OutcomeNote(name: string, o: ToolOutcome): Note {
    match o
    case TimedOut => Cancelled(name)
    case Raised(error) => Crashed(name, error)
    case Returned(success, text) => if success then Output(text) else Failure(text)
  }

  /** The answer to a call, from the calls before it. */
  function NoteFor(cfg: Config, w: World, before: seq<Call>, c: Call): Note {
    if |before| >= cfg.maxToolCalls then LimitReached
    else if WasAsked(before, c) then AlreadyTried(c.name)
    else if !Available(cfg, c.name) then Unavailable(c.name)
    else OutcomeNote(c.name, OutcomeAt(w, |Runs(cfg, before)|))
  }

  function OutcomeStatus(o: ToolOutcome): Status {
    match o
    case TimedOut => Timeout
    case Raised(_) => Error
    case Returned(success, _) => if success then Success else Error
  }

  /** One record per executed call, with its outcome. */
  function Records(w: World, runs: seq<Call>): seq<Record> {
    if runs == [] then []
    else
      var n := |runs| - 1;
      Records(w, runs[..n]) + [Record(runs[n].name, OutcomeStatus(OutcomeAt(w, n)))]
  }

  /** Names of tools that returned, in order of first return. */
  function Used(w: World, runs: seq<Call>): seq<string> {
    if runs == [] then []
    else
      var n := |runs| - 1;
      var rest := Used(w, runs[..n]);
      if OutcomeAt(w, n).Returned? && runs[n].name !in rest then rest + [runs[n].name] else rest
  }

  function Answers(cfg: Config, w: World, before: seq<Call>, batch: seq<Call>): seq<Line> {
    if batch == [] then []
    else
      var n := |batch| - 1;
      Answers(cfg, w, before, batch[..n]) + [Tool(batch[n].id, NoteFor(cfg, w, before + batch[..n], batch[n]))]
  }

  /** The actions of one call: a check and the execution, or nothing. */
  function CallActs(cfg: Config, before: seq<Call>, c: Call): seq<Act> {
    if Executes(cfg, before, c) then [Checked, Ran(c)] else []
  }

  function RunActs(cfg: Config, before: seq<Call>, batch: seq<Call>): seq<Act> {
    if batch == [] then []
    else
      var n := |batch| - 1;
      RunActs(cfg, before, batch[..n]) + CallActs(cfg, before + batch[..n], batch[n])
  }

  function Flat(turns: seq<seq<Call>>): seq<Call> {
    if turns == [] then [] else Flat(turns[..|turns| - 1]) + turns[|turns| - 1]
  }

  /** The lines appended by complete turns. */
  function Transcript(cfg: Config, w: World, turns: seq<seq<Call>>): seq<Line> {
    if turns == [] then []
    else
      var n := |turns| - 1;
      Transcript(cfg, w, turns[..n]) + [Assistant(turns[n])] + Answers(cfg, w, Flat(turns[..n]), turns[n])
  }

  /** The actions of complete turns. */
  function Trace(cfg: Config, turns: seq<seq<Call>>): seq<Act> {
    if turns == [] then []
    else
      var n := |turns| - 1;
      Trace(cfg, turns[..n]) + [Checked, Asked] + RunActs(cfg, Flat(turns[..n]), turns[n])
  }

  // ---------------------------------------------------------------- contract of the loop

  /** Passed and failed checks together. */
  function Checks(acts: seq<Act>): nat {
    if acts == [] then 0
    else Checks(acts[..|acts| - 1]) + if acts[|acts| - 1].Checked? || acts[|acts| - 1].Denied? then 1 else 0
  }

  /** Each check passed or failed as the world has it, and nothing follows a failed one. */
  predicate ChecksHonest(w: World, acts: seq<Act>)
    decreases |acts|, 0
  {
    acts != [] ==>
      var rest, a := acts[..|acts| - 1], acts[|acts| - 1];
      && Passing(w, rest)
      && (a.Checked? ==> Checks(rest) !in w.failing)
      && (a.Denied? ==> Checks(rest) in w.failing)
  }

  /** Honest, and every check passed. */
  predicate Passing(w: World, acts: seq<Act>)
    decreases |acts|, 1
  {
    ChecksHonest(w, acts) && (acts != [] ==> !acts[|acts| - 1].Denied?)
  }

  /** The complete turns are the model's replies up to now. */
  predicate TurnsFollow(w: World, turns: seq<seq<Call>>) {
    forall i | 0 <= i < |turns| ::
      i + 1 !in w.late && turns[i] != [] && ReplyAt(w, i + 1).Message? && ReplyAt(w, i + 1).calls == turns[i]
  }

  /** Why a loop that returned did so, and what it did after its complete turns. */
  predicate Concluded(cfg: Config, w: World, turns: seq<seq<Call>>, e: Ending, tail: seq<Act>)
    requires e.Reported?
  {
    var it := |turns| + 1;
    if !cfg.hasKey then turns == [] && e == Reported(Error, NoService, 0) && tail == [Checked]
    else if |turns| >= cfg.maxIterations then
      e == Reported(MaxIterations, NotCompleted, cfg.maxIterations) && tail == [Checked]
    else if it in w.late then e == Reported(Timeout, TooLate, it) && tail == [Checked]
    else
      && tail == [Checked, Asked, Checked]
      && match ReplyAt(w, it)
         case ModelError => e == Reported(Error, ModelFailed, it)
         case Message(text, calls) => calls == [] && e == Reported(Success, ResponseTo(text), it)
  }

  /** Arguments the loop can list; text that is no JSON counts as the empty mapping. */
  predicate Listable(c: Call) { c.args.Parsed? ==> c.args.sortable }

  predicate AllListable(calls: seq<Call>) { forall c <- calls :: Listable(c) }

  /** The model asked for tools in the turn after `turns`, and `partial` of its calls precede the next one. */
  predicate InTurn(cfg: Config, w: World, turns: seq<seq<Call>>, partial: seq<Call>) {
    && cfg.hasKey && |turns| < cfg.maxIterations && |turns| + 1 !in w.late
    && ReplyAt(w, |turns| + 1).Message? && partial < ReplyAt(w, |turns| + 1).calls
  }

  /** The call after `partial`. */
  function NextCall(cfg: Config, w: World, turns: seq<seq<Call>>, partial: seq<Call>): Call
    requires InTurn(cfg, w, turns, partial)
  {
    ReplyAt(w, |turns| + 1).calls[|partial|]
  }

  predicate AtExecutableCall(cfg: Config, w: World, turns: seq<seq<Call>>, partial: seq<Call>) {
    InTurn(cfg, w, turns, partial) && Executes(cfg, Flat(turns) + partial, NextCall(cfg, w, turns, partial))
  }

  /** What an incomplete turn did before its next call. */
  function TurnActs(cfg: Config, turns: seq<seq<Call>>, partial: seq<Call>): seq<Act> {
    [Checked, Asked] + RunActs(cfg, Flat(turns), partial)
  }

  /** Where and why a loop that raised was stopped: at the head of an iteration or the last
      check, after a reply without calls, or at an executable call of the model's reply. */
  predicate Stopped(cfg: Config, w: World, turns: seq<seq<Call>>, partial: seq<Call>, e: Ending, tail: seq<Act>) {
    match e
    case Reported(_, _, _) => false
    case GuardRaised =>
      || (partial == [] && tail == [Denied])
      || (partial == [] && tail == [Checked, Asked, Denied]
          && cfg.hasKey && |turns| < cfg.maxIterations && |turns| + 1 !in w.late
          && (ReplyAt(w, |turns| + 1).Message? ==> ReplyAt(w, |turns| + 1).calls == []))
      || (AtExecutableCall(cfg, w, turns, partial) && tail == TurnActs(cfg, turns, partial) + [Denied])
    case ArgumentsRaised =>
      && AtExecutableCall(cfg, w, turns, partial) && !Listable(NextCall(cfg, w, turns, partial))
      && tail == TurnActs(cfg, turns, partial) + [Checked]
  }

  /** The full account of one loop: its complete turns are the model's replies, its checks
      went as the world has it, what it executed could be listed, and it ended for a reason. */
  predicate Account(cfg: Config, w: World, turns: seq<seq<Call>>, partial: seq<Call>, e: Ending, tail: seq<Act>) {
    && TurnsFollow(w, turns) && (turns != [] ==> cfg.hasKey && |turns| <= cfg.maxIterations)
    && ChecksHonest(w, Trace(cfg, turns) + tail)
    && AllListable(Runs(cfg, Flat(turns) + partial))
    && if e.Reported? then partial == [] && Concluded(cfg, w, turns, e, tail)
       else Stopped(cfg, w, turns, partial, e, tail)
  }

  lemma Regroup<T>(a: seq<T>, b: seq<T>, c: seq<T>, d: seq<T>)
    ensures a + b + c + d == a + (b + c + d) && a + b + c == a + (b + c)
  {
  }

  lemma ExtendCalls(cfg: Config, calls: seq<Call>, c: Call)
    ensures Runs(cfg, calls + [c]) == if Executes(cfg, calls, c) then Runs(cfg, calls) + [c] else Runs(cfg, calls)
  {
    assert (calls + [c])[..|calls|] == calls;
  }

  lemma ExtendBatch(cfg: Config, w: World, before: seq<Call>, batch: seq<Call>, c: Call)
    ensures Answers(cfg, w, before, batch + [c])
            == Answers(cfg, w, before, batch) + [Tool(c.id, NoteFor(cfg, w, before + batch, c))]
    ensures RunActs(cfg, before, batch + [c])
            == RunActs(cfg, before, batch) + CallActs(cfg, before + batch, c)
  {
    assert (batch + [c])[..|batch|] == batch;
  }

  lemma ExtendTurns(cfg: Config, w: World, turns: seq<seq<Call>>, t: seq<Call>)
    ensures Flat(turns + [t]) == Flat(turns) + t
    ensures Transcript(cfg, w, turns + [t])
            == Transcript(cfg, w, turns) + [Assistant(t)] + Answers(cfg, w, Flat(turns), t)
    ensures Trace(cfg, turns + [t]) == Trace(cfg, turns) + [Checked, Asked] + RunActs(cfg, Flat(turns), t)
  {
    assert (turns + [t])[..|turns|] == turns;
  }

  lemma ExtendRuns(w: World, runs: seq<Call>, c: Call)
    ensures var o := OutcomeAt(w, |runs|);
            && Records(w, runs + [c]) == Records(w, runs) + [Record(c.name, OutcomeStatus(o))]
            && Used(w, runs + [c]) ==
               if o.Returned? && c.name !in Used(w, runs) then Used(w, runs) + [c.name] else Used(w, runs)
  {
    assert (runs + [c])[..|runs|] == runs;
  }

  /** One more action keeps the account of checks honest. */
  lemma ExtendActs(w: World, acts: seq<Act>, a: Act)
    requires Passing(w, acts)
    requires a.Checked? ==> Checks(acts) !in w.failing
    requires a.Denied? ==> Checks(acts) in w.failing
    ensures ChecksHonest(w, acts + [a]) && (!a.Denied? ==> Passing(w, acts + [a]))
    ensures Checks(acts + [a]) == Checks(acts) + if a.Checked? || a.Denied? then 1 else 0
  {
    assert (acts + [a])[..|acts|] == acts;
  }

  /** The keys the loop has remembered after some calls. */
  function Seen(cfg: Config, calls: seq<Call>): set<(string, Args)> {
    set j | 0 <= j < |calls| && j < cfg.maxToolCalls :: Key(calls[j])
  }

  /** Below the limit, looking a call up in the remembered keys asks whether it came before. */
  lemma SeenIffAsked(cfg: Config, calls: seq<Call>, c: Call)
    requires |calls| < cfg.maxToolCalls
    ensures Key(c) in Seen(cfg, calls) <==> WasAsked(calls, c)
    ensures Seen(cfg, calls + [c]) == Seen(cfg, calls) + {Key(c)}
  {
    assert (calls + [c])[|calls|] == c;
    forall k | k in Seen(cfg, calls) + {Key(c)} ensures k in Seen(cfg, calls + [c]) {
      if k in Seen(cfg, calls) {
        var j :| 0 <= j < |calls| && Key(calls[j]) == k;
        assert (calls + [c])[j] == calls[j];
      }
    }
  }

  lemma SeenPastLimit(cfg: Config, calls: seq<Call>, c: Call)
    requires |calls| >= cfg.maxToolCalls
    ensures Seen(cfg, calls + [c]) == Seen(cfg, calls)
  {
    forall k | k in Seen(cfg, calls) ensures k in Seen(cfg, calls + [c]) {
      var j :| 0 <= j < |calls| && j < cfg.maxToolCalls && Key(calls[j]) == k;
      assert (calls + [c])[j] == calls[j];
    }
  }

  // ---------------------------------------------------------------- the loop

  /** The loop's local variables. */
  datatype Locals = Locals(
    lines: seq<Line>, used: seq<string>, records: seq<Record>, total: nat, seen: set<(string, Args)>,
    acts: seq<Act>, checks: nat)

  /** Every check so far was counted and passed. */
  predicate Guard(w: World, v: Locals) { v.checks == Checks(v.acts) && Passing(w, v.acts) }

  /** The incremental variables agree with the history of calls. */
  predicate Agrees(cfg: Config, w: World, v: Locals, calls: seq<Call>) {
    && v.total == |calls| && Guard(w, v)
    && v.seen == Seen(cfg, calls)
    && v.records == Records(w, Runs(cfg, calls))
    && v.used == Used(w, Runs(cfg, calls))
  }

  /** One guard check. */
  method Check(w: World, v: Locals) returns (n: Locals, ok: bool)
    requires Guard(w, v)
    ensures ok <==> v.checks !in w.failing
    ensures n == v.(acts := v.acts + [if ok then Checked else Denied], checks := v.checks + 1)
    ensures ChecksHonest(w, n.acts) && (ok ==> Guard(w, n))
  {
    ok := v.checks !in w.failing;
    n := v.(acts := v.acts + [if ok then Checked else Denied], checks := v.checks + 1);
    ExtendActs(w, v.acts, if ok then Checked else Denied);
  }

  /** The call is counted and remembered; nothing else has happened for it yet. */
  predicate Counted(cfg: Config, w: World, v: Locals, calls: seq<Call>, c: Call) {
    && v.total == |calls| + 1
    && v.seen == Seen(cfg, calls + [c])
    && Guard(w, v)
    && v.records == Records(w, Runs(cfg, calls))
    && v.used == Used(w, Runs(cfg, calls))
  }

  /** An answer without execution completes the call. */
  lemma Unexecuted(cfg: Config, w: World, v: Locals, calls: seq<Call>, c: Call)
    requires Counted(cfg, w, v, calls, c) && !Executes(cfg, calls, c)
    ensures Agrees(cfg, w, v, calls + [c]) && CallActs(cfg, calls, c) == []
  {
    ExtendCalls(cfg, calls, c);
  }

  /** What stops the loop at a call: only an executable call can, by its check or its arguments. */
  function StopOf(cfg: Config, w: World, calls: seq<Call>, c: Call, checks: nat): Option<Ending> {
    if !Executes(cfg, calls, c) then None
    else if checks in w.failing then Some(GuardRaised)
    else if !Listable(c) then Some(ArgumentsRaised)
    else None
  }

  /** Checks and executes one call. */
  method ExecuteCall(cfg: Config, w: World, v: Locals, c: Call, ghost calls: seq<Call>)
    returns (n: Locals, raised: Option<Ending>)
    requires Counted(cfg, w, v, calls, c) && Executes(cfg, calls, c)
    ensures raised.None? ==> Agrees(cfg, w, n, calls + [c])
    ensures raised.None? ==> n.lines == v.lines + [Tool(c.id, NoteFor(cfg, w, calls, c))]
    ensures raised.None? ==> n.acts == v.acts + [Checked, Ran(c)]
    ensures raised == StopOf(cfg, w, calls, c, v.checks)
    ensures raised.Some? ==> ChecksHonest(w, n.acts)
    ensures raised.Some? ==> n.acts == v.acts + [if raised.value == GuardRaised then Denied else Checked]
  {
    ExtendCalls(cfg, calls, c);
    ExtendRuns(w, Runs(cfg, calls), c);
    RecordPerRun(w, Runs(cfg, calls));
    var ok;
    n, ok := Check(w, v);
    if !ok { return n, Some(GuardRaised); }
    if !Listable(c) { return n, Some(ArgumentsRaised); }
    raised := None;
    var outcome := OutcomeAt(w, |n.records|);
    ExtendActs(w, n.acts, Ran(c));
    n := n.(acts := n.acts + [Ran(c)]);
    if outcome.Returned? && c.name !in n.used { n := n.(used := n.used + [c.name]); }
    n := n.(records := n.records + [Record(c.name, OutcomeStatus(outcome))]);
    n := n.(lines := n.lines + [Tool(c.id, OutcomeNote(c.name, outcome))]);
    assert v.acts + [Checked] + [Ran(c)] == v.acts + [Checked, Ran(c)];
  }

  /** Answers one tool call; a raised ending stops the loop. */
  method AnswerCall(cfg: Config, w: World, v: Locals, c: Call, ghost calls: seq<Call>)
    returns (n: Locals, raised: Option<Ending>)
    requires Agrees(cfg, w, v, calls)
    ensures raised.None? ==> Agrees(cfg, w, n, calls + [c])
    ensures raised.None? ==> n.lines == v.lines + [Tool(c.id, NoteFor(cfg, w, calls, c))]
    ensures raised.None? ==> n.acts == v.acts + CallActs(cfg, calls, c)
    ensures raised == StopOf(cfg, w, calls, c, v.checks)
    ensures raised.Some? ==> ChecksHonest(w, n.acts)
    ensures raised.Some? ==> n.acts == v.acts + [if raised.value == GuardRaised then Denied else Checked]
    ensures n.acts != v.acts <==>
            |calls| < cfg.maxToolCalls && !WasAsked(calls, c) && c.name in cfg.allowed && c.name in cfg.registered
  {
    n, raised := v.(total := v.total + 1), None;
    if n.total > cfg.maxToolCalls {
      SeenPastLimit(cfg, calls, c);
      Unexecuted(cfg, w, n, calls, c);
      n := n.(lines := n.lines + [Tool(c.id, LimitReached)]);
      return;
    }
    SeenIffAsked(cfg, calls, c);
    if Key(c) in n.seen {
      assert n.seen == n.seen + {Key(c)};
      Unexecuted(cfg, w, n, calls, c);
      n := n.(lines := n.lines + [Tool(c.id, AlreadyTried(c.name))]);
      return;
    }
    n := n.(seen := n.seen + {Key(c)});
    if c.name !in cfg.allowed || c.name !in cfg.registered {
      Unexecuted(cfg, w, n, calls, c);
      n := n.(lines := n.lines + [Tool(c.id, Unavailable(c.name))]);
      return;
    }
    n, raised := ExecuteCall(cfg, w, n, c, calls);
  }

  lemma {:induction false} RecordPerRun(w: World, runs: seq<Call>)
    ensures |Records(w, runs)| == |runs|
  {
    if runs != [] { RecordPerRun(w, runs[..|runs| - 1]); }
  }

  /** What handling part of a turn has added to the lines and actions. */
  predicate Added(cfg: Config, w: World, start: Locals, before: seq<Call>, part: seq<Call>, v: Locals) {
    v.lines == start.lines + Answers(cfg, w, before, part) && v.acts == start.acts + RunActs(cfg, before, part)
  }

  lemma AddedNothing(cfg: Config, w: World, start: Locals, before: seq<Call>)
    ensures Added(cfg, w, start, before, [], start)
  {
  }

  lemma AddedOne(cfg: Config, w: World, start: Locals, before: seq<Call>, part: seq<Call>, v: Locals, c: Call,
                 n: Locals)
    requires Added(cfg, w, start, before, part, v)
    requires n.lines == v.lines + [Tool(c.id, NoteFor(cfg, w, before + part, c))]
    requires n.acts == v.acts + CallActs(cfg, before + part, c)
    ensures Added(cfg, w, start, before, part + [c], n)
  {
    ExtendBatch(cfg, w, before, part, c);
    Regroup(start.lines, Answers(cfg, w, before, part), [Tool(c.id, NoteFor(cfg, w, before + part, c))], []);
    Regroup(start.acts, RunActs(cfg, before, part), CallActs(cfg, before + part, c), []);
  }

  lemma OneMore<T>(before: seq<T>, batch: seq<T>, k: nat)
    requires k < |batch|
    ensures batch[..k + 1] == batch[..k] + [batch[k]]
    ensures before + batch[..k + 1] == before + batch[..k] + [batch[k]]
  {
  }

  lemma StaysListable(cfg: Config, calls: seq<Call>, c: Call)
    requires AllListable(Runs(cfg, calls)) && (Executes(cfg, calls, c) ==> Listable(c))
    ensures AllListable(Runs(cfg, calls + [c]))
  {
    ExtendCalls(cfg, calls, c);
  }

  /** Answers the tool calls of one assistant turn in order. */
  method AnswerTurn(cfg: Config, w: World, start: Locals, batch: seq<Call>, ghost before: seq<Call>)
    returns (v: Locals, raised: Option<Ending>, ghost partial: seq<Call>)
    requires Agrees(cfg, w, start, before) && AllListable(Runs(cfg, before))
    ensures AllListable(Runs(cfg, before + partial))
    ensures raised.None? ==>
      && partial == batch && Agrees(cfg, w, v, before + batch) && Added(cfg, w, start, before, batch, v)
    ensures raised.Some? ==>
      && partial < batch && ChecksHonest(w, v.acts)
      && Executes(cfg, before + partial, batch[|partial|])
      && raised.value in {GuardRaised, ArgumentsRaised}
      && (raised.value == ArgumentsRaised ==> !Listable(batch[|partial|]))
      && v.acts == start.acts + RunActs(cfg, before, partial)
             + [if raised.value == GuardRaised then Denied else Checked]
  {
    v, raised, partial := start, None, [];
    assert before + [] == before;
    AddedNothing(cfg, w, start, before);
    for k := 0 to |batch|
      invariant raised.None? && partial == batch[..k]
      invariant Agrees(cfg, w, v, before + partial)
      invariant Added(cfg, w, start, before, partial, v) && AllListable(Runs(cfg, before + partial))
    {
      ghost var last := v;
      v, raised := AnswerCall(cfg, w, v, batch[k], before + partial);
      if raised.Some? { return; }
      StaysListable(cfg, before + partial, batch[k]);
      AddedOne(cfg, w, start, before, partial, last, batch[k], v);
      OneMore(before, batch, k);
      partial := partial + [batch[k]];
    }
    assert partial == batch;
  }

  lemma ExtendTurnsFollow(w: World, turns: seq<seq<Call>>, t: seq<Call>)
    requires TurnsFollow(w, turns) && |turns| + 1 !in w.late && t != []
    requires ReplyAt(w, |turns| + 1).Message? && ReplyAt(w, |turns| + 1).calls == t
    ensures TurnsFollow(w, turns + [t])
  {
    forall i | 0 <= i < |turns + [t]| ensures i + 1 !in w.late && (turns + [t])[i] != []
      && ReplyAt(w, i + 1).Message? && ReplyAt(w, i + 1).calls == (turns + [t])[i] {
      if i < |turns| { assert (turns + [t])[i] == turns[i]; }
    }
  }

  lemma ShortTail(cfg: Config, before: seq<Call>, last: Act)
    ensures [Checked, Asked] + RunActs(cfg, before, []) + [last] == [Checked, Asked, last]
  {
  }

  /** The tool calls of a turn, after its check and model call. */
  method FinishTurn(cfg: Config, w: World, ghost start: Locals, asked: Locals, batch: seq<Call>,
                    ghost before: seq<Call>)
    returns (v: Locals, stop: Option<Ending>, ghost calls: seq<Call>, ghost tail: seq<Act>)
    requires Agrees(cfg, w, asked, before) && asked.acts == start.acts + [Checked, Asked]
      && AllListable(Runs(cfg, before))
    ensures v.acts == start.acts + tail && ChecksHonest(w, v.acts) && AllListable(Runs(cfg, before + calls))
    ensures stop.None? ==>
      && calls == batch && Agrees(cfg, w, v, before + batch)
      && v.lines == asked.lines + Answers(cfg, w, before, batch)
      && tail == [Checked, Asked] + RunActs(cfg, before, batch)
    ensures stop.Some? ==>
      && calls < batch && Executes(cfg, before + calls, batch[|calls|])
      && stop.value in {GuardRaised, ArgumentsRaised}
      && (stop.value == ArgumentsRaised ==> !Listable(batch[|calls|]))
      && tail == [Checked, Asked] + RunActs(cfg, before, calls)
             + [if stop.value == GuardRaised then Denied else Checked]
  {
    v, stop, calls := AnswerTurn(cfg, w, asked, batch, before);
    if stop.Some? {
      ghost var last: Act := if stop.value == GuardRaised then Denied else Checked;
      tail := [Checked, Asked] + RunActs(cfg, before, calls) + [last];
      Regroup(start.acts, [Checked, Asked], RunActs(cfg, before, calls), [last]);
    } else {
      tail := [Checked, Asked] + RunActs(cfg, before, calls);
      Regroup(start.acts, [Checked, Asked], RunActs(cfg, before, calls), []);
    }
  }

  /** The head of an iteration: check, deadline, model call, and the ending if there is one. */
  method AskModel(cfg: Config, w: World, start: Locals, iteration: int, ghost turns: seq<seq<Call>>)
    returns (v: Locals, stop: Option<Ending>, ghost tail: seq<Act>)
    requires cfg.hasKey && iteration == |turns| + 1 <= cfg.maxIterations && Guard(w, start)
    ensures v == start.(acts := start.acts + tail, checks := v.checks) && ChecksHonest(w, v.acts)
    ensures stop.None? ==>
      && iteration !in w.late && ReplyAt(w, iteration).Message? && ReplyAt(w, iteration).calls != []
      && tail == [Checked, Asked] && Guard(w, v)
    ensures stop.Some? && stop.value.Reported? ==> Concluded(cfg, w, turns, stop.value, tail)
    ensures stop.Some? && !stop.value.Reported? ==> Stopped(cfg, w, turns, [], stop.value, tail)
  {
    var ok;
    v, ok := Check(w, start);
    if !ok { return v, Some(GuardRaised), [Denied]; }
    if iteration in w.late { return v, Some(Reported(Timeout, TooLate, iteration)), [Checked]; }
    ExtendActs(w, v.acts, Asked);
    v := v.(acts := v.acts + [Asked]);
    assert v.acts == start.acts + [Checked, Asked];
    var reply := ReplyAt(w, iteration);
    if reply.Message? && reply.calls != [] { return v, None, [Checked, Asked]; }
    v, ok := Check(w, v);
    ghost var last: Act := if ok then Checked else Denied;
    tail := [Checked, Asked, last];
    assert v.acts == start.acts + tail;
    stop := Some(if !ok then GuardRaised
                 else if reply.ModelError? then Reported(Error, ModelFailed, iteration)
                 else Reported(Success, ResponseTo(reply.text), iteration));
  }

  /** One iteration: an ending, or one more complete turn. The ghost tail is what was done. */
  method Iterate(cfg: Config, w: World, start: Locals, iteration: int, ghost turns: seq<seq<Call>>)
    returns (v: Locals, stop: Option<Ending>, ghost calls: seq<Call>, ghost tail: seq<Act>)
    requires cfg.hasKey && iteration == |turns| + 1 <= cfg.maxIterations
    requires Agrees(cfg, w, start, Flat(turns)) && AllListable(Runs(cfg, Flat(turns)))
    ensures v.acts == start.acts + tail && ChecksHonest(w, v.acts) && AllListable(Runs(cfg, Flat(turns) + calls))
    ensures stop.None? ==>
      && iteration !in w.late && calls != []
      && ReplyAt(w, iteration).Message? && ReplyAt(w, iteration).calls == calls
      && Agrees(cfg, w, v, Flat(turns) + calls)
      && v.lines == start.lines + [Assistant(calls)] + Answers(cfg, w, Flat(turns), calls)
      && tail == [Checked, Asked] + RunActs(cfg, Flat(turns), calls)
    ensures stop.Some? && stop.value.Reported? ==>
      && calls == [] && Concluded(cfg, w, turns, stop.value, tail)
      && v == start.(acts := v.acts, checks := v.checks)
    ensures stop.Some? && !stop.value.Reported? ==> Stopped(cfg, w, turns, calls, stop.value, tail)
  {
    calls := [];
    assert Flat(turns) + calls == Flat(turns);
    v, stop, tail := AskModel(cfg, w, start, iteration, turns);
    if stop.Some? { return; }
    var batch := ReplyAt(w, iteration).calls;
    v := v.(lines := v.lines + [Assistant(batch)]);
    v, stop, calls, tail := FinishTurn(cfg, w, start, v, batch, Flat(turns));
  }

  /** What a report holds besides its ending, when the loop returned. */
  predicate ReportsAll(cfg: Config, w: World, base: seq<Line>, turns: seq<seq<Call>>, r: Report) {
    && r.lines == base + Transcript(cfg, w, turns)
    && r.total == |Flat(turns)|
    && r.records == Records(w, Runs(cfg, Flat(turns)))
    && r.used == Used(w, Runs(cfg, Flat(turns)))
  }

  lemma CompleteTurn(cfg: Config, w: World, base: seq<Line>, turns: seq<seq<Call>>, t: seq<Call>, v: Locals)
    requires v.lines == base + Transcript(cfg, w, turns) + [Assistant(t)] + Answers(cfg, w, Flat(turns), t)
    requires v.acts == Trace(cfg, turns) + ([Checked, Asked] + RunActs(cfg, Flat(turns), t))
    ensures v.lines == base + Transcript(cfg, w, turns + [t]) && v.acts == Trace(cfg, turns + [t])
    ensures Flat(turns + [t]) == Flat(turns) + t
  {
    ExtendTurns(cfg, w, turns, t);
    Regroup(base, Transcript(cfg, w, turns), [Assistant(t)], Answers(cfg, w, Flat(turns), t));
    Regroup(Trace(cfg, turns), [Checked, Asked], RunActs(cfg, Flat(turns), t), []);
  }

  lemma StopAccount(cfg: Config, w: World, turns: seq<seq<Call>>, partial: seq<Call>, e: Ending, tail: seq<Act>)
    requires cfg.hasKey && |turns| < cfg.maxIterations && TurnsFollow(w, turns)
    requires ChecksHonest(w, Trace(cfg, turns) + tail) && AllListable(Runs(cfg, Flat(turns) + partial))
    requires e.Reported? ==> partial == [] && Concluded(cfg, w, turns, e, tail)
    requires !e.Reported? ==> Stopped(cfg, w, turns, partial, e, tail)
    ensures Account(cfg, w, turns, partial, e, tail)
  {
  }

  /** The account of a loop that ends on one check: without a key, or after the last iteration. */
  lemma CheckAccount(cfg: Config, w: World, turns: seq<seq<Call>>, e: Ending, last: Act)
    requires TurnsFollow(w, turns) && AllListable(Runs(cfg, Flat(turns))) && ChecksHonest(w, Trace(cfg, turns) + [last])
    requires if cfg.hasKey then cfg.maxIterations <= |turns| && (turns != [] ==> |turns| <= cfg.maxIterations)
             else turns == []
    requires (last == Checked && e == (if cfg.hasKey then Reported(MaxIterations, NotCompleted, cfg.maxIterations)
                                       else Reported(Error, NoService, 0)))
             || (last == Denied && e == GuardRaised)
    ensures Account(cfg, w, turns, [], e, [last])
  {
    assert Flat(turns) + [] == Flat(turns);
  }

  /** The iterations, once there is a key. */
  method RunIterations(cfg: Config, w: World, base: seq<Line>)
    returns (r: Report, acts: seq<Act>, ghost turns: seq<seq<Call>>, ghost partial: seq<Call>, ghost tail: seq<Act>)
    requires cfg.hasKey
    ensures Account(cfg, w, turns, partial, r.ending, tail)
    ensures acts == Trace(cfg, turns) + tail
    ensures r.ending.Reported? ==> ReportsAll(cfg, w, base, turns, r)
  {
    turns, partial := [], [];
    var v := Locals(base, [], [], 0, {}, [], 0);
    var ok;
    var i := 0;
    while i < cfg.maxIterations
      invariant i == |turns| && (i <= cfg.maxIterations || i == 0)
      invariant TurnsFollow(w, turns) && partial == []
      invariant Agrees(cfg, w, v, Flat(turns)) && AllListable(Runs(cfg, Flat(turns)))
      invariant v.acts == Trace(cfg, turns) && v.lines == base + Transcript(cfg, w, turns)
      decreases cfg.maxIterations - i
    {
      var stop;
      v, stop, partial, tail := Iterate(cfg, w, v, i + 1, turns);
      if stop.Some? {
        StopAccount(cfg, w, turns, partial, stop.value, tail);
        return Report(stop.value, v.lines, v.used, v.records, v.total), v.acts, turns, partial, tail;
      }
      CompleteTurn(cfg, w, base, turns, partial, v);
      ExtendTurnsFollow(w, turns, partial);
      turns, partial := turns + [partial], [];
      i := i + 1;
    }
    v, ok := Check(w, v);
    var e := if ok then Reported(MaxIterations, NotCompleted, cfg.maxIterations) else GuardRaised;
    CheckAccount(cfg, w, turns, e, if ok then Checked else Denied);
    tail := [if ok then Checked else Denied];
    return Report(e, v.lines, v.used, v.records, v.total), v.acts, turns, partial, tail;
  }

  /** The whole loop. The ghost results are the complete turns, the calls handled in an
      incomplete one, and what was done after the complete turns. */
  method Run(cfg: Config, w: World, base: seq<Line>)
    returns (r: Report, acts: seq<Act>, ghost turns: seq<seq<Call>>, ghost partial: seq<Call>, ghost tail: seq<Act>)
    ensures Account(cfg, w, turns, partial, r.ending, tail)
    ensures acts == Trace(cfg, turns) + tail
    ensures r.ending.Reported? ==> ReportsAll(cfg, w, base, turns, r)
    ensures r.ending == ArgumentsRaised <==> MeetsUnlistable(cfg, w)
    ensures forall a <- acts :: a.Ran? ==> a.call.name in cfg.allowed && a.call.name in cfg.registered
  {
    if cfg.hasKey {
      r, acts, turns, partial, tail := RunIterations(cfg, w, base);
    } else {
      turns, partial := [], [];
      var v, ok := Check(w, Locals(base, [], [], 0, {}, [], 0));
      var last: Act := if ok then Checked else Denied;
      r := Report(if ok then Reported(Error, NoService, 0) else GuardRaised, base, [], [], 0);
      acts, tail := v.acts, [last];
      assert Trace(cfg, []) + [last] == acts;
      CheckAccount(cfg, w, [], r.ending, last);
    }
    ArgumentsRaisedIff(cfg, w, turns, partial, r.ending, tail);
    ExecutedAreAuthorised(cfg, w, turns, partial, r.ending, tail);
  }

  // ---------------------------------------------------------------- guarantees

  /** The same tool with the same arguments; text that is no JSON is the empty mapping. */
  predicate SameRequest(a: Call, b: Call) {
    a.name == b.name && (a.args == b.args || {a.args, b.args} <= {Malformed, Parsed(0, true)})
  }

  /** The server lets this agent use the tool, and it exists. */
  predicate Authorised(cfg: Config, c: Call) { c.name in cfg.allowed && c.name in cfg.registered }

  lemma SameRequestIsSameKey(a: Call, b: Call)
    ensures SameRequest(a, b) <==> Key(a) == Key(b)
  {
  }

  /** Executed calls are calls of the model, few, authorised and pairwise different. */
  lemma {:induction false} RunsAreLimited(cfg: Config, calls: seq<Call>)
    ensures |Runs(cfg, calls)| <= |calls| && (|Runs(cfg, calls)| <= cfg.maxToolCalls || Runs(cfg, calls) == [])
    ensures forall r <- Runs(cfg, calls) :: r in calls && r.name in cfg.allowed && r.name in cfg.registered
    ensures forall a, b | 0 <= a < b < |Runs(cfg, calls)| :: !SameRequest(Runs(cfg, calls)[a], Runs(cfg, calls)[b])
  {
    if calls != [] {
      var before, c := calls[..|calls| - 1], calls[|calls| - 1];
      RunsAreLimited(cfg, before);
      assert forall r <- Runs(cfg, before) :: r in calls;
      if Executes(cfg, before, c) {
        forall r | r in Runs(cfg, before) ensures !SameRequest(r, c) {
          var j :| 0 <= j < |before| && before[j] == r;
          SameRequestIsSameKey(r, c);
          assert Key(before[j]) != Key(c);
        }
      }
    }
  }

  /** A request is executed iff it is authorised and made within the limit. */
  lemma {:induction false} EveryAdmissibleRequestRuns(cfg: Config, calls: seq<Call>, c: Call)
    ensures (exists r <- Runs(cfg, calls) :: SameRequest(r, c))
            <==> c.name in cfg.allowed && c.name in cfg.registered
                 && exists j | 0 <= j < |calls| && j < cfg.maxToolCalls :: SameRequest(calls[j], c)
  {
    if calls != [] {
      var before, last := calls[..|calls| - 1], calls[|calls| - 1];
      EveryAdmissibleRequestRuns(cfg, before, c);
      ExtendCalls(cfg, before, last);
      assert calls == before + [last];
      SameRequestIsSameKey(last, c);
      if |before| < cfg.maxToolCalls && SameRequest(last, c) {
        assert SameRequest(calls[|before|], c);
        LastRequestRuns(cfg, before, last, c);
      }
      if j :| 0 <= j < |before| && j < cfg.maxToolCalls && SameRequest(before[j], c) {
        assert SameRequest(calls[j], c);
      }
      forall r | r in Runs(cfg, before) ensures r in Runs(cfg, calls) {}
    }
  }

  /** A request within the limit is executed now, was executed before, or is not authorised. */
  lemma LastRequestRuns(cfg: Config, before: seq<Call>, last: Call, c: Call)
    requires |before| < cfg.maxToolCalls && SameRequest(last, c)
    requires (exists r <- Runs(cfg, before) :: SameRequest(r, c))
             <==> c.name in cfg.allowed && c.name in cfg.registered
                  && exists j | 0 <= j < |before| && j < cfg.maxToolCalls :: SameRequest(before[j], c)
    ensures Executes(cfg, before, last) || (exists r <- Runs(cfg, before) :: SameRequest(r, c)) || !Authorised(cfg, c)
    ensures Executes(cfg, before, last) ==> Authorised(cfg, c)
  {
    if j :| 0 <= j < |before| && Key(before[j]) == Key(last) {
      SameRequestIsSameKey(before[j], last);
      assert SameRequest(before[j], c);
    }
  }

  /** What the model is told about a call: the limit, a repetition, a tool it may not use, or
      how the execution went, which is the next one of the loop. */
  lemma AnswerSays(cfg: Config, w: World, before: seq<Call>, c: Call)
    ensures var note, tried := NoteFor(cfg, w, before, c), exists d <- before :: SameRequest(d, c);
            && (note == LimitReached <==> |before| >= cfg.maxToolCalls)
            && (note == AlreadyTried(c.name) <==> |before| < cfg.maxToolCalls && tried)
            && (note == Unavailable(c.name) <==>
                |before| < cfg.maxToolCalls && !tried && (c.name !in cfg.allowed || c.name !in cfg.registered))
            && (|before| < cfg.maxToolCalls && !tried && c.name in cfg.allowed && c.name in cfg.registered ==>
                  match OutcomeAt(w, |Runs(cfg, before)|)
                  case TimedOut => note == Cancelled(c.name)
                  case Raised(error) => note == Crashed(c.name, error)
                  case Returned(success, text) => note == if success then Output(text) else Failure(text))
  {
    forall d | d in before ensures SameRequest(d, c) <==> Key(d) == Key(c) { SameRequestIsSameKey(d, c); }
    if WasAsked(before, c) {
      var j :| 0 <= j < |before| && Key(before[j]) == Key(c);
      assert before[j] in before;
    }
  }

  /** One record per execution, in order, with its status; and the tools used are those that
      returned at least once, each named once. */
  lemma {:induction false} RecordsTell(w: World, runs: seq<Call>)
    ensures |Records(w, runs)| == |runs|
    ensures forall i | 0 <= i < |runs| ::
              && Records(w, runs)[i].name == runs[i].name
              && (Records(w, runs)[i].status == Timeout <==> OutcomeAt(w, i).TimedOut?)
              && (Records(w, runs)[i].status == Success <==> OutcomeAt(w, i).Returned? && OutcomeAt(w, i).success)
              && Records(w, runs)[i].status in {Timeout, Success, Error}
    ensures forall name :: name in Used(w, runs)
              <==> exists i | 0 <= i < |runs| :: OutcomeAt(w, i).Returned? && runs[i].name == name
    ensures forall i, j | 0 <= i < j < |Used(w, runs)| :: Used(w, runs)[i] != Used(w, runs)[j]
  {
    if runs != [] {
      var n := |runs| - 1;
      RecordsTell(w, runs[..n]);
      assert forall i | 0 <= i < n :: runs[..n][i] == runs[i];
      forall name ensures name in Used(w, runs)
          <==> exists i | 0 <= i < |runs| :: OutcomeAt(w, i).Returned? && runs[i].name == name {
        if i :| 0 <= i < |runs| && OutcomeAt(w, i).Returned? && runs[i].name == name {
          if i < n { assert runs[..n][i].name == name; }
        }
      }
    }
  }

  lemma {:induction false} AnswersMatch(cfg: Config, w: World, before: seq<Call>, batch: seq<Call>)
    ensures |Answers(cfg, w, before, batch)| == |batch|
    ensures forall j | 0 <= j < |batch| ::
              Answers(cfg, w, before, batch)[j].Tool? && Answers(cfg, w, before, batch)[j].id == batch[j].id
  {
    if batch != [] { AnswersMatch(cfg, w, before, batch[..|batch| - 1]); }
  }

  /** At a position: the assistant's turn, then one answer per call with its id, in order. */
  predicate AnsweredAt(lines: seq<Line>, p: nat, turn: seq<Call>) {
    && p + 1 + |turn| <= |lines| && lines[p] == Assistant(turn)
    && forall q | p < q <= p + |turn| :: lines[q].Tool? && lines[q].id == turn[q - p - 1].id
  }

  lemma LastTurnIsAnswered(cfg: Config, w: World, lines: seq<Line>, before: seq<Call>, turn: seq<Call>)
    ensures AnsweredAt(lines + [Assistant(turn)] + Answers(cfg, w, before, turn), |lines|, turn)
  {
    AnswersMatch(cfg, w, before, turn);
  }

  lemma StaysAnswered(lines: seq<Line>, more: seq<Line>, p: nat, turn: seq<Call>)
    requires AnsweredAt(lines, p, turn)
    ensures AnsweredAt(lines + more, p, turn)
  {
  }

  /** Every assistant turn is followed by exactly one answer per call, with the same ids in
      order, and then by the next turn. */
  lemma {:induction false} EveryTurnIsAnswered(cfg: Config, w: World, turns: seq<seq<Call>>, i: nat)
    requires i < |turns|
    ensures AnsweredAt(Transcript(cfg, w, turns), |Transcript(cfg, w, turns[..i])|, turns[i])
    ensures |Transcript(cfg, w, turns[..i + 1])| == |Transcript(cfg, w, turns[..i])| + 1 + |turns[i]|
  {
    var n := |turns| - 1;
    var lines, answers := Transcript(cfg, w, turns[..n]), Answers(cfg, w, Flat(turns[..n]), turns[n]);
    if i == n {
      assert turns[..i + 1] == turns;
      AnswersMatch(cfg, w, Flat(turns[..n]), turns[n]);
      LastTurnIsAnswered(cfg, w, lines, Flat(turns[..n]), turns[n]);
    } else {
      EveryTurnIsAnswered(cfg, w, turns[..n], i);
      assert turns[..n][..i] == turns[..i] && turns[..n][..i + 1] == turns[..i + 1];
      StaysAnswered(lines, [Assistant(turns[n])], |Transcript(cfg, w, turns[..i])|, turns[i]);
      StaysAnswered(lines + [Assistant(turns[n])], answers, |Transcript(cfg, w, turns[..i])|, turns[i]);
    }
  }

  /** The calls among some actions. */
  function Executed(acts: seq<Act>): seq<Call> {
    if acts == [] then []
    else Executed(acts[..|acts| - 1]) + if acts[|acts| - 1].Ran? then [acts[|acts| - 1].call] else []
  }

  function Asks(acts: seq<Act>): nat {
    if acts == [] then 0 else Asks(acts[..|acts| - 1]) + if acts[|acts| - 1].Asked? then 1 else 0
  }

  /** Every execution and every model call comes right after a passed check. */
  predicate Guarded(acts: seq<Act>) {
    forall p | 0 <= p < |acts| :: acts[p].Ran? || acts[p].Asked? ==> p > 0 && acts[p - 1].Checked?
  }

  lemma GuardedJoin(a: seq<Act>, b: seq<Act>)
    requires Guarded(a) && Guarded(b)
    ensures Guarded(a + b)
  {
  }

  lemma {:induction false} ActsJoin(a: seq<Act>, b: seq<Act>)
    ensures Executed(a + b) == Executed(a) + Executed(b) && Asks(a + b) == Asks(a) + Asks(b)
  {
    if b == [] {
      assert a + b == a;
    } else {
      var m := |b| - 1;
      ActsJoin(a, b[..m]);
      SplitLast(a, b);
      assert (a + b)[..|a| + m] == a + b[..m];
    }
  }

  lemma PairActs(a: Act)
    requires a.Ran? || a.Asked?
    ensures Guarded([Checked, a])
    ensures Executed([Checked, a]) == (if a.Ran? then [a.call] else [])
      && Asks([Checked, a]) == if a.Asked? then 1 else 0
  {
    assert [Checked, a][..1] == [Checked];
    assert Executed([Checked]) == [] && Asks([Checked]) == 0;
  }

  /** A batch asks the model nothing and runs only behind checks. */
  lemma {:induction false} BatchIsGuarded(cfg: Config, before: seq<Call>, batch: seq<Call>)
    ensures Guarded(RunActs(cfg, before, batch)) && Asks(RunActs(cfg, before, batch)) == 0
  {
    if batch != [] {
      var n := |batch| - 1;
      BatchIsGuarded(cfg, before, batch[..n]);
      PairActs(Ran(batch[n]));
      ActsJoin(RunActs(cfg, before, batch[..n]), CallActs(cfg, before + batch[..n], batch[n]));
      GuardedJoin(RunActs(cfg, before, batch[..n]), CallActs(cfg, before + batch[..n], batch[n]));
    }
  }

  lemma SplitLast<T>(a: seq<T>, b: seq<T>)
    requires b != []
    ensures a + b == a + b[..|b| - 1] + [b[|b| - 1]]
  {
  }

  lemma {:induction false} BatchRuns(cfg: Config, before: seq<Call>, batch: seq<Call>)
    ensures Runs(cfg, before + batch) == Runs(cfg, before) + Executed(RunActs(cfg, before, batch))
  {
    if batch == [] {
      assert before + batch == before;
    } else {
      var n := |batch| - 1;
      var front, c := before + batch[..n], batch[n];
      SplitLast(before, batch);
      ExtendCalls(cfg, front, c);
      BatchRuns(cfg, before, batch[..n]);
      var acts := RunActs(cfg, before, batch[..n]);
      if Executes(cfg, front, c) {
        PairActs(Ran(c));
        ActsJoin(acts, [Checked, Ran(c)]);
        Regroup(Runs(cfg, before), Executed(acts), [c], []);
      } else {
        assert acts + [] == acts;
      }
    }
  }

  lemma OneTurn(t: seq<Act>, b: seq<Act>)
    requires Guarded(t) && Guarded(b)
    ensures var acts := t + [Checked, Asked] + b;
            Guarded(acts) && Executed(acts) == Executed(t) + Executed(b) && Asks(acts) == Asks(t) + 1 + Asks(b)
  {
    PairActs(Asked);
    ActsJoin(t, [Checked, Asked]);
    ActsJoin(t + [Checked, Asked], b);
    GuardedJoin(t, [Checked, Asked]);
    GuardedJoin(t + [Checked, Asked], b);
    assert Executed(t) + [] == Executed(t);
  }

  /** The actions of complete turns execute the calls that should run, in order, each after
      its own check, with one model call per turn. */
  lemma {:induction false} TraceRunsTheCalls(cfg: Config, turns: seq<seq<Call>>)
    ensures var acts := Trace(cfg, turns);
            Guarded(acts) && Asks(acts) == |turns| && Executed(acts) == Runs(cfg, Flat(turns))
  {
    if turns != [] {
      var n := |turns| - 1;
      TraceRunsTheCalls(cfg, turns[..n]);
      BatchIsGuarded(cfg, Flat(turns[..n]), turns[n]);
      BatchRuns(cfg, Flat(turns[..n]), turns[n]);
      OneTurn(Trace(cfg, turns[..n]), RunActs(cfg, Flat(turns[..n]), turns[n]));
    }
  }

  lemma LastAct(acts: seq<Act>, a: Act)
    requires a.Checked? || a.Denied?
    ensures Executed(acts + [a]) == Executed(acts) && Asks(acts + [a]) == Asks(acts)
    ensures Guarded(acts) ==> Guarded(acts + [a])
  {
    assert (acts + [a])[..|acts|] == acts;
  }

  lemma LongTail(cfg: Config, turns: seq<seq<Call>>, partial: seq<Call>, last: Act)
    requires last.Checked? || last.Denied?
    ensures var acts := Trace(cfg, turns) + ([Checked, Asked] + RunActs(cfg, Flat(turns), partial) + [last]);
            Guarded(acts) && Executed(acts) == Runs(cfg, Flat(turns) + partial) && Asks(acts) == |turns| + 1
  {
    var t, b := Trace(cfg, turns), RunActs(cfg, Flat(turns), partial);
    TraceRunsTheCalls(cfg, turns);
    BatchIsGuarded(cfg, Flat(turns), partial);
    BatchRuns(cfg, Flat(turns), partial);
    OneTurn(t, b);
    LastAct(t + [Checked, Asked] + b, last);
    Regroup(t, [Checked, Asked], b, [last]);
  }

  /** A tail of more than one act is the head of a turn, part of its calls, and a last check. */
  lemma TailIsTurn(cfg: Config, w: World, turns: seq<seq<Call>>, partial: seq<Call>, e: Ending, tail: seq<Act>)
    requires if e.Reported? then partial == [] && Concluded(cfg, w, turns, e, tail)
             else Stopped(cfg, w, turns, partial, e, tail)
    requires |tail| != 1
    ensures |turns| < cfg.maxIterations && tail != []
    ensures var last := tail[|tail| - 1];
            (last.Checked? || last.Denied?) && tail == TurnActs(cfg, turns, partial) + [last]
  {
    var last := tail[|tail| - 1];
    if partial == [] { ShortTail(cfg, Flat(turns), last); }
  }

  /** However this loop ends, also by a failing check or by arguments it cannot list: it has
      executed exactly the calls that should run, each right after a passed check, and asked
      the model at most once per allowed iteration. */
  lemma WholeTrace(cfg: Config, w: World, turns: seq<seq<Call>>, partial: seq<Call>, e: Ending, tail: seq<Act>)
    requires Account(cfg, w, turns, partial, e, tail)
    ensures var acts := Trace(cfg, turns) + tail;
            && Guarded(acts) && Executed(acts) == Runs(cfg, Flat(turns) + partial)
            && (Asks(acts) <= cfg.maxIterations || Asks(acts) == 0)
  {
    if |tail| == 1 {
      TraceRunsTheCalls(cfg, turns);
      assert Flat(turns) + partial == Flat(turns);
      LastAct(Trace(cfg, turns), tail[0]);
    } else {
      TailIsTurn(cfg, w, turns, partial, e, tail);
      LongTail(cfg, turns, partial, tail[|tail| - 1]);
    }
  }

  lemma {:induction false} RanIsExecuted(acts: seq<Act>)
    ensures forall a <- acts :: a.Ran? ==> a.call in Executed(acts)
  {
    if acts != [] {
      RanIsExecuted(acts[..|acts| - 1]);
      assert acts == acts[..|acts| - 1] + [acts[|acts| - 1]];
    }
  }

  /** Whatever the model asks for and however the loop ends, it executes only tools that this
      agent is allowed to use and that exist. */
  lemma ExecutedAreAuthorised(cfg: Config, w: World, turns: seq<seq<Call>>, partial: seq<Call>, e: Ending,
                              tail: seq<Act>)
    requires Account(cfg, w, turns, partial, e, tail)
    ensures forall a <- Trace(cfg, turns) + tail ::
              a.Ran? ==> a.call.name in cfg.allowed && a.call.name in cfg.registered
  {
    WholeTrace(cfg, w, turns, partial, e, tail);
    RunsAreLimited(cfg, Flat(turns) + partial);
    RanIsExecuted(Trace(cfg, turns) + tail);
  }

  /** What a report says: without a key the service is unavailable; a late iteration is a timeout;
      a model error is an error; a reply without calls is a success with its text, or the fixed
      answer iff it is empty; and only a loop that used up its iterations reports that. */
  lemma ReportsSay(cfg: Config, w: World, turns: seq<seq<Call>>, partial: seq<Call>, e: Ending, tail: seq<Act>)
    requires Account(cfg, w, turns, partial, e, tail) && e.Reported?
    ensures e.iterations == 0 <==> !cfg.hasKey || (cfg.maxIterations == 0 && turns == [])
    ensures !cfg.hasKey ==> e == Reported(Error, NoService, 0)
    ensures cfg.hasKey && e.status == Error ==>
              e.response == ModelFailed && e.iterations == |turns| + 1 && ReplyAt(w, e.iterations).ModelError?
    ensures e.status == Timeout ==>
              e.response == TooLate && e.iterations == |turns| + 1 && e.iterations in w.late
    ensures e.status == MaxIterations ==>
              e.response == NotCompleted && e.iterations == cfg.maxIterations && |turns| >= cfg.maxIterations
    ensures e.status == Success ==>
              && e.iterations == |turns| + 1 && e.iterations !in w.late && ReplyAt(w, e.iterations).Message?
              && ReplyAt(w, e.iterations).calls == []
              && e.response == (if ReplyAt(w, e.iterations).text == "" then NoAnswer
                                else Said(ReplyAt(w, e.iterations).text))
  {
  }

  predicate NoneDenied(acts: seq<Act>) { forall a <- acts :: !a.Denied? }

  lemma {:induction false} BatchNoneDenied(cfg: Config, before: seq<Call>, batch: seq<Call>)
    ensures NoneDenied(RunActs(cfg, before, batch))
  {
    if batch != [] { BatchNoneDenied(cfg, before, batch[..|batch| - 1]); }
  }

  lemma {:induction false} TraceNoneDenied(cfg: Config, turns: seq<seq<Call>>)
    ensures NoneDenied(Trace(cfg, turns))
  {
    if turns != [] {
      var n := |turns| - 1;
      TraceNoneDenied(cfg, turns[..n]);
      BatchNoneDenied(cfg, Flat(turns[..n]), turns[n]);
    }
  }

  /** A failed check is the last thing the loop does. */
  lemma NothingAfterDenied(cfg: Config, w: World, turns: seq<seq<Call>>, partial: seq<Call>, e: Ending, tail: seq<Act>)
    requires Account(cfg, w, turns, partial, e, tail)
    ensures var acts := Trace(cfg, turns) + tail; acts != [] && NoneDenied(acts[..|acts| - 1])
    ensures var acts := Trace(cfg, turns) + tail; acts[|acts| - 1].Denied? <==> e == GuardRaised
  {
    TraceNoneDenied(cfg, turns);
    BatchNoneDenied(cfg, Flat(turns), partial);
    assert tail != [] && NoneDenied(tail[..|tail| - 1]);
    assert (Trace(cfg, turns) + tail)[..|Trace(cfg, turns) + tail| - 1] == Trace(cfg, turns) + tail[..|tail| - 1];
  }

  // ---------------------------------------------------------------- one account per world

  lemma {:induction false} PassingPrefix(w: World, a: seq<Act>, b: seq<Act>)
    requires ChecksHonest(w, a + b) && b != []
    ensures Passing(w, a)
  {
    var m := |b| - 1;
    SplitLast(a, b);
    assert (a + b)[..|a| + m] == a + b[..m];
    if m == 0 { assert a + b[..m] == a; } else { PassingPrefix(w, a, b[..m]); }
  }

  /** What one act inside an honest trace says about its check. */
  lemma HonestAt(w: World, a: seq<Act>, x: Act, b: seq<Act>)
    requires ChecksHonest(w, a + [x] + b)
    ensures Passing(w, a)
    ensures x.Checked? ==> Checks(a) !in w.failing
    ensures x.Denied? ==> Checks(a) in w.failing
  {
    assert (a + [x])[..|a|] == a;
    if b == [] { assert a + [x] + b == a + [x]; } else { PassingPrefix(w, a + [x], b); }
  }

  lemma {:induction false} RunActsJoin(cfg: Config, before: seq<Call>, part: seq<Call>, rest: seq<Call>)
    ensures RunActs(cfg, before, part + rest) == RunActs(cfg, before, part) + RunActs(cfg, before + part, rest)
  {
    if rest == [] {
      assert part + rest == part;
    } else {
      var n := |rest| - 1;
      RunActsJoin(cfg, before, part, rest[..n]);
      SplitLast(part, rest);
      assert before + (part + rest[..n]) == before + part + rest[..n];
      assert (part + rest)[..|part| + n] == part + rest[..n];
      Regroup(RunActs(cfg, before, part), RunActs(cfg, before + part, rest[..n]),
              CallActs(cfg, before + part + rest[..n], rest[n]), []);
    }
  }

  lemma {:induction false} FewerStayListable(cfg: Config, a: seq<Call>, b: seq<Call>)
    requires AllListable(Runs(cfg, a + b))
    ensures AllListable(Runs(cfg, a))
  {
    if b == [] {
      assert a + b == a;
    } else {
      var n := |b| - 1;
      SplitLast(a, b);
      ExtendCalls(cfg, a + b[..n], b[n]);
      FewerStayListable(cfg, a, b[..n]);
    }
  }

  /** The loop got past `part` in the turn after `turns`. */
  predicate Did(cfg: Config, w: World, turns: seq<seq<Call>>, part: seq<Call>) {
    Passing(w, Trace(cfg, turns) + TurnActs(cfg, turns, part)) && AllListable(Runs(cfg, Flat(turns) + part))
  }

  /** An executing call inside a batch splits its actions around its check. */
  lemma BatchSplit(cfg: Config, before: seq<Call>, front: seq<Call>, c: Call, rest: seq<Call>)
    requires Executes(cfg, before + front, c)
    ensures RunActs(cfg, before, front + [c] + rest)
            == RunActs(cfg, before, front) + [Checked] + ([Ran(c)] + RunActs(cfg, before + (front + [c]), rest))
  {
    RunActsJoin(cfg, before, front + [c], rest);
    assert (front + [c])[..|front|] == front;
    Regroup(RunActs(cfg, before, front), [Checked], [Ran(c)], RunActs(cfg, before + (front + [c]), rest));
    Regroup(RunActs(cfg, before, front) + [Checked], [Ran(c)], RunActs(cfg, before + (front + [c]), rest), []);
    assert [Checked] + [Ran(c)] == [Checked, Ran(c)];
  }

  lemma ExecutedIsListable(cfg: Config, before: seq<Call>, c: Call, rest: seq<Call>)
    requires Executes(cfg, before, c) && AllListable(Runs(cfg, before + [c] + rest))
    ensures Listable(c)
  {
    FewerStayListable(cfg, before + [c], rest);
    ExtendCalls(cfg, before, c);
    assert c in Runs(cfg, before) + [c];
  }

  lemma DidCheck(cfg: Config, w: World, turns: seq<seq<Call>>, front: seq<Call>, c: Call, rest: seq<Call>)
    requires Passing(w, Trace(cfg, turns) + TurnActs(cfg, turns, front + [c] + rest))
    requires Executes(cfg, Flat(turns) + front, c)
    ensures Checks(Trace(cfg, turns) + TurnActs(cfg, turns, front)) !in w.failing
  {
    var t, acts := Trace(cfg, turns), RunActs(cfg, Flat(turns), front);
    var more := [Ran(c)] + RunActs(cfg, Flat(turns) + (front + [c]), rest);
    BatchSplit(cfg, Flat(turns), front, c, rest);
    Regroup([Checked, Asked], acts, [Checked], more);
    Regroup(t, [Checked, Asked] + acts, [Checked], more);
    HonestAt(w, t + ([Checked, Asked] + acts), Checked, more);
  }

  /** Whoever got past a call that executes passed its check and could list its arguments. */
  lemma DidExecute(cfg: Config, w: World, turns: seq<seq<Call>>, part: seq<Call>, k: nat)
    requires Did(cfg, w, turns, part) && k < |part| && Executes(cfg, Flat(turns) + part[..k], part[k])
    ensures Checks(Trace(cfg, turns) + TurnActs(cfg, turns, part[..k])) !in w.failing && Listable(part[k])
  {
    var front, c, rest := part[..k], part[k], part[k + 1..];
    assert part == front + [c] + rest;
    DidCheck(cfg, w, turns, front, c, rest);
    Regroup(Flat(turns), front, [c], rest);
    ExecutedIsListable(cfg, Flat(turns) + front, c, rest);
  }

  lemma DidBegin(cfg: Config, w: World, turns: seq<seq<Call>>, part: seq<Call>)
    requires Did(cfg, w, turns, part)
    ensures Checks(Trace(cfg, turns)) !in w.failing
  {
    var t, rest := Trace(cfg, turns), [Asked] + RunActs(cfg, Flat(turns), part);
    assert t + TurnActs(cfg, turns, part) == t + [Checked] + rest;
    HonestAt(w, t, Checked, rest);
  }

  lemma {:induction false} TurnsSplit(cfg: Config, turns: seq<seq<Call>>, i: nat)
    returns (acts: seq<Act>, calls: seq<Call>)
    requires i < |turns|
    ensures Trace(cfg, turns) == Trace(cfg, turns[..i]) + TurnActs(cfg, turns[..i], turns[i]) + acts
    ensures Flat(turns) == Flat(turns[..i]) + turns[i] + calls
  {
    var n := |turns| - 1;
    if i == n {
      Regroup(Trace(cfg, turns[..n]), [Checked, Asked], RunActs(cfg, Flat(turns[..n]), turns[n]), []);
      acts, calls := [], [];
    } else {
      assert turns[..n][..i] == turns[..i];
      acts, calls := TurnsSplit(cfg, turns[..n], i);
      var more := TurnActs(cfg, turns[..n], turns[n]);
      Regroup(Trace(cfg, turns[..n]), [Checked, Asked], RunActs(cfg, Flat(turns[..n]), turns[n]), []);
      Regroup(Trace(cfg, turns[..i]) + TurnActs(cfg, turns[..i], turns[i]), acts, more, []);
      Regroup(Flat(turns[..i]) + turns[i], calls, turns[n], []);
      acts, calls := acts + more, calls + turns[n];
    }
  }

  /** Every complete turn of an account was done. */
  lemma TurnWasDone(cfg: Config, w: World, turns: seq<seq<Call>>, partial: seq<Call>, e: Ending, tail: seq<Act>, i: nat)
    requires Account(cfg, w, turns, partial, e, tail) && i < |turns|
    ensures Did(cfg, w, turns[..i], turns[i])
  {
    var acts, calls := TurnsSplit(cfg, turns, i);
    var done := Trace(cfg, turns[..i]) + TurnActs(cfg, turns[..i], turns[i]);
    Regroup(done, acts, tail, []);
    PassingPrefix(w, done, acts + tail);
    Regroup(Flat(turns[..i]) + turns[i], calls, partial, []);
    FewerStayListable(cfg, Flat(turns[..i]) + turns[i], calls + partial);
  }

  /** So were the calls before the one an account stopped at. */
  lemma PartialWasDone(cfg: Config, w: World, turns: seq<seq<Call>>, partial: seq<Call>, e: Ending, tail: seq<Act>)
    requires Account(cfg, w, turns, partial, e, tail) && tail != []
      && tail == TurnActs(cfg, turns, partial) + [tail[|tail| - 1]]
    ensures Did(cfg, w, turns, partial)
    ensures var x, k := tail[|tail| - 1], Checks(Trace(cfg, turns) + TurnActs(cfg, turns, partial));
            (x.Checked? ==> k !in w.failing) && (x.Denied? ==> k in w.failing)
  {
    var done, last := Trace(cfg, turns) + TurnActs(cfg, turns, partial), tail[|tail| - 1];
    assert Trace(cfg, turns) + tail == done + [last] + [];
    HonestAt(w, done, last, []);
  }

  /** The model asked for these tools in this turn, in this world. */
  predicate Requested(cfg: Config, w: World, turns: seq<seq<Call>>, calls: seq<Call>) {
    && cfg.hasKey && |turns| < cfg.maxIterations && |turns| + 1 !in w.late
    && ReplyAt(w, |turns| + 1).Message? && ReplyAt(w, |turns| + 1).calls == calls != []
  }

  /** The first act after the complete turns, and the one after a model call, are as the world has it. */
  lemma OutsideChecks(w: World, t: seq<Act>, tail: seq<Act>)
    requires ChecksHonest(w, t + tail)
    ensures tail == [Denied] ==> Checks(t) in w.failing
    ensures |tail| > 0 && tail[0].Checked? ==> Checks(t) !in w.failing
    ensures tail == [Checked, Asked, Denied] ==> Checks(t + [Checked, Asked]) in w.failing
    ensures tail == [Checked, Asked, Checked] ==> Checks(t + [Checked, Asked]) !in w.failing
  {
    if tail != [] {
      assert t + tail == t + [tail[0]] + tail[1..];
      HonestAt(w, t, tail[0], tail[1..]);
    }
    if |tail| == 3 && tail[..2] == [Checked, Asked] {
      assert t + tail == t + [Checked, Asked] + [tail[2]] + [];
      HonestAt(w, t + [Checked, Asked], tail[2], []);
    }
  }

  /** An account with the same complete turns stops no earlier than where the loop got. */
  lemma GoesAsFar(cfg: Config, w: World, turns: seq<seq<Call>>, calls: seq<Call>, part: seq<Call>,
                  partial: seq<Call>, e: Ending, tail: seq<Act>)
    requires Requested(cfg, w, turns, calls) && Did(cfg, w, turns, part) && part <= calls
    requires Account(cfg, w, turns, partial, e, tail)
    ensures AtExecutableCall(cfg, w, turns, partial) && |part| <= |partial| < |calls|
    ensures tail != [] && tail == TurnActs(cfg, turns, partial) + [tail[|tail| - 1]]
  {
    DidBegin(cfg, w, turns, part);
    OutsideChecks(w, Trace(cfg, turns), tail);
    if AtExecutableCall(cfg, w, turns, partial) {
      PartialWasDone(cfg, w, turns, partial, e, tail);
      if |partial| < |part| {
        assert part[..|partial|] == partial;
        DidExecute(cfg, w, turns, part, |partial|);
      }
    }
  }

  /** No account has fewer complete turns than another. */
  lemma NoFewerTurns(cfg: Config, w: World, ts: seq<seq<Call>>, ps: seq<Call>, e: Ending, tail: seq<Act>,
                     us: seq<seq<Call>>, qs: seq<Call>, f: Ending, rest: seq<Act>)
    requires Account(cfg, w, ts, ps, e, tail) && Account(cfg, w, us, qs, f, rest)
    ensures |us| <= |ts|
  {
    if |ts| < |us| {
      var n := |ts|;
      assert us[..n] == ts by {
        forall i | 0 <= i < n ensures us[i] == ts[i] {}
      }
      TurnWasDone(cfg, w, us, qs, f, rest, n);
      GoesAsFar(cfg, w, ts, us[n], us[n], ps, e, tail);
    }
  }

  predicate StoppedInside(cfg: Config, w: World, turns: seq<seq<Call>>, partial: seq<Call>, tail: seq<Act>) {
    AtExecutableCall(cfg, w, turns, partial) && tail != [] && tail == TurnActs(cfg, turns, partial) + [tail[|tail| - 1]]
  }

  lemma InsideSameEnd(cfg: Config, w: World, turns: seq<seq<Call>>, ps: seq<Call>, e: Ending, tail: seq<Act>,
                      qs: seq<Call>, f: Ending, rest: seq<Act>)
    requires Account(cfg, w, turns, ps, e, tail) && Account(cfg, w, turns, qs, f, rest)
    requires StoppedInside(cfg, w, turns, ps, tail)
    ensures ps == qs && e == f && tail == rest
  {
    var calls := ReplyAt(w, |turns| + 1).calls;
    PartialWasDone(cfg, w, turns, ps, e, tail);
    GoesAsFar(cfg, w, turns, calls, ps, qs, f, rest);
    PartialWasDone(cfg, w, turns, qs, f, rest);
    GoesAsFar(cfg, w, turns, calls, qs, ps, e, tail);
    assert ps == calls[..|ps|] && qs == calls[..|qs|];
  }

  lemma OutsideSameEnd(cfg: Config, w: World, turns: seq<seq<Call>>, ps: seq<Call>, e: Ending, tail: seq<Act>,
                       qs: seq<Call>, f: Ending, rest: seq<Act>)
    requires Account(cfg, w, turns, ps, e, tail) && Account(cfg, w, turns, qs, f, rest)
    requires !StoppedInside(cfg, w, turns, ps, tail) && !StoppedInside(cfg, w, turns, qs, rest)
    ensures ps == qs && e == f && tail == rest
  {
    OutsideChecks(w, Trace(cfg, turns), tail);
    OutsideChecks(w, Trace(cfg, turns), rest);
  }

  /** A world has one account: turns, handled calls, ending and last acts are all determined. */
  lemma AccountIsUnique(cfg: Config, w: World, ts: seq<seq<Call>>, ps: seq<Call>, e: Ending, tail: seq<Act>,
                        us: seq<seq<Call>>, qs: seq<Call>, f: Ending, rest: seq<Act>)
    requires Account(cfg, w, ts, ps, e, tail) && Account(cfg, w, us, qs, f, rest)
    ensures ts == us && ps == qs && e == f && tail == rest
  {
    NoFewerTurns(cfg, w, ts, ps, e, tail, us, qs, f, rest);
    NoFewerTurns(cfg, w, us, qs, f, rest, ts, ps, e, tail);
    forall i | 0 <= i < |ts| ensures us[i] == ts[i] {}
    assert ts == us;
    if StoppedInside(cfg, w, ts, ps, tail) {
      InsideSameEnd(cfg, w, ts, ps, e, tail, qs, f, rest);
    } else if StoppedInside(cfg, w, ts, qs, rest) {
      InsideSameEnd(cfg, w, ts, qs, f, rest, ps, e, tail);
    } else {
      OutsideSameEnd(cfg, w, ts, ps, e, tail, qs, f, rest);
    }
  }

  // ---------------------------------------------------------------- arguments that cannot be listed

  /** The loop gets to this executable call, its check passes, and its arguments cannot be listed. */
  predicate UnlistableAt(cfg: Config, w: World, turns: seq<seq<Call>>, partial: seq<Call>) {
    && TurnsFollow(w, turns) && Did(cfg, w, turns, partial) && AtExecutableCall(cfg, w, turns, partial)
    && Checks(Trace(cfg, turns) + TurnActs(cfg, turns, partial)) !in w.failing
    && !Listable(NextCall(cfg, w, turns, partial))
  }

  ghost predicate MeetsUnlistable(cfg: Config, w: World) {
    exists turns, partial :: UnlistableAt(cfg, w, turns, partial)
  }

  lemma UnlistableAccount(cfg: Config, w: World, turns: seq<seq<Call>>, partial: seq<Call>)
    requires UnlistableAt(cfg, w, turns, partial)
    ensures Account(cfg, w, turns, partial, ArgumentsRaised, TurnActs(cfg, turns, partial) + [Checked])
  {
    ExtendActs(w, Trace(cfg, turns) + TurnActs(cfg, turns, partial), Checked);
    Regroup(Trace(cfg, turns), TurnActs(cfg, turns, partial), [Checked], []);
  }

  /** The loop raises over arguments iff it gets to an executable call whose check passes and
      whose arguments cannot be listed. */
  lemma ArgumentsRaisedIff(cfg: Config, w: World, turns: seq<seq<Call>>, partial: seq<Call>, e: Ending, tail: seq<Act>)
    requires Account(cfg, w, turns, partial, e, tail)
    ensures e == ArgumentsRaised <==> MeetsUnlistable(cfg, w)
  {
    if e == ArgumentsRaised {
      PartialWasDone(cfg, w, turns, partial, e, tail);
      assert UnlistableAt(cfg, w, turns, partial);
    }
    if MeetsUnlistable(cfg, w) {
      var ts, ps :| UnlistableAt(cfg, w, ts, ps);
      UnlistableAccount(cfg, w, ts, ps);
      AccountIsUnique(cfg, w, turns, partial, e, tail, ts, ps, ArgumentsRaised, TurnActs(cfg, ts, ps) + [Checked]);
    }
  }

  /** One iteration, one available tool, and a model that calls it with a bare number. */
  function NumberConfig(): Config { Config(true, 1, 1, {"t"}, {"t"}) }

  function NumberWorld(): World { World({}, {}, map[1 := Message("", [Call("1", "t", Parsed(5, false))])], map[]) }

  lemma NumberIsMet()
    ensures UnlistableAt(NumberConfig(), NumberWorld(), [], [])
    ensures TurnActs(NumberConfig(), [], []) == [Checked, Asked]
  {
    var none: seq<Act>, head := [], [Checked, Asked];
    assert Flat([]) + [] == [];
    ExtendActs(NumberWorld(), none, Checked);
    ExtendActs(NumberWorld(), none + [Checked], Asked);
    assert none + [Checked] + [Asked] == head;
    assert TurnActs(NumberConfig(), [], []) == head && Trace(NumberConfig(), []) + head == head;
  }

  /** That world makes the loop raise, after a passed check and before the execution. */
  lemma BareNumberRaises(turns: seq<seq<Call>>, partial: seq<Call>, e: Ending, tail: seq<Act>)
    requires Account(NumberConfig(), NumberWorld(), turns, partial, e, tail)
    ensures e == ArgumentsRaised && turns == [] && partial == [] && tail == [Checked, Asked, Checked]
  {
    var cfg, w := NumberConfig(), NumberWorld();
    NumberIsMet();
    UnlistableAccount(cfg, w, [], []);
    AccountIsUnique(cfg, w, turns, partial, e, tail, [], [], ArgumentsRaised, TurnActs(cfg, [], []) + [Checked]);
  }
}
