/** Folding old messages into a conversation's summary, up to a timestamp watermark. */
module ConversationMemory {
  import opened Common

  /** A completed message; creation times may tie. */
  datatype Message = Message(id: nat, at: Time)

  datatype Config = Config(enabled: bool, historyLimit: int, trigger: int)

  /** The completed messages in the order the query lists them, the stored summary and
      watermark, and everything ever handed to the provider in a fold that succeeded. */
  datatype Memory = Memory(rows: seq<Message>, summary: string, watermark: Option<Time>, folded: seq<Message>)

  /** A message completes and is listed at a position; a blocked request is retried, so its
      message is no longer completed; or a refresh asks the provider, whose failure reads as no
      reply. */
  datatype Step =
    | Complete(message: Message, position: nat)
    | Withdraw(message: Message)
    | Refresh(cfg: Config, reply: string)

  const MAX_BATCH: nat := 100

  predicate Sorted(rows: seq<Message>) { forall i, j | 0 <= i < j < |rows| :: rows[i].at <= rows[j].at }

  predicate Distinct(rows: seq<Message>) { forall i, j | 0 <= i < j < |rows| :: rows[i] != rows[j] }

  /** How many listed messages lie at or before the watermark. */
  function Cut(rows: seq<Message>, w: Option<Time>): (n: nat)
    ensures n <= |rows|
    ensures Sorted(rows) ==> forall i | 0 <= i < |rows| :: i < n <==> (w.Some? && rows[i].at <= w.value)
  {
    if rows == [] || w.None? then 0
    else if rows[|rows| - 1].at <= w.value then |rows|
    else Cut(rows[..|rows| - 1], w)
  }

  function Kept(cfg: Config): nat { if cfg.historyLimit > 0 then cfg.historyLimit else 0 }

  /** The size of the next batch; zero when no fold is due. */
  function BatchSize(cfg: Config, pending: nat): nat {
    var foldable := pending - Kept(cfg);
    if !cfg.enabled || foldable < (if cfg.trigger > 1 then cfg.trigger else 1) then 0
    else if foldable <= MAX_BATCH then foldable else MAX_BATCH
  }

  /** The batch a refresh would hand over: the oldest messages after the watermark. */
  function Batch(m: Memory, cfg: Config): seq<Message> {
    var cut := Cut(m.rows, m.watermark);
    m.rows[cut..cut + BatchSize(cfg, |m.rows| - cut)]
  }

  /** A refresh folds iff a batch is due and the provider gives text. */
  predicate Folds(m: Memory, cfg: Config, reply: string) { Batch(m, cfg) != [] && reply != [] }

  predicate Enabled(m: Memory, st: Step) {
    match st
    case Complete(x, p) =>
      && x !in m.rows && p <= |m.rows|
      && (p > 0 ==> m.rows[p - 1].at <= x.at) && (p < |m.rows| ==> x.at <= m.rows[p].at)
    case Withdraw(x) => x in m.rows
    case Refresh(_, _) => true
  }

  function Next(m: Memory, st: Step): Memory
    requires Enabled(m, st)
  {
    match st
    case Complete(x, p) => m.(rows := Inserted(m.rows, x, p))
    case Withdraw(x) => m.(rows := Without(m.rows, x))
    case Refresh(cfg, reply) =>
      if !Folds(m, cfg, reply) then m
      else
        var batch := Batch(m, cfg);
        m.(summary := reply, watermark := Some(batch[|batch| - 1].at), folded := m.folded + batch)
  }

  const BLANK: Memory := Memory([], [], None, [])

  predicate ValidRun(run: seq<Step>)
    decreases |run|, 0
  {
    run != [] ==> ValidRun(run[..|run| - 1]) && Enabled(Exec(run[..|run| - 1]), run[|run| - 1])
  }

  function Exec(run: seq<Step>): Memory
    requires ValidRun(run)
    decreases |run|, 1
  {
    if run == [] then BLANK else Next(Exec(run[..|run| - 1]), run[|run| - 1])
  }

  // ---------------------------------------------------------------- invariants

  /** Whatever the timestamps and retries: folded messages lie within the watermark, in order,
      none was folded twice, and the watermark is the time of the last one. */
  predicate Inv(m: Memory) {
    && Sorted(m.rows) && Distinct(m.rows)
    && Sorted(m.folded) && Distinct(m.folded)
    && m.watermark == if m.folded == [] then None else Some(m.folded[|m.folded| - 1].at)
  }

  /** The folded messages are a prefix of the transcript, without gap or repeat. */
  predicate Lossless(m: Memory) { m.folded == m.rows[..Cut(m.rows, m.watermark)] }

  /** The watermark went past this message without its being folded. */
  predicate Passed(m: Memory, x: Message) { m.watermark.Some? && x.at <= m.watermark.value && x !in m.folded }

  /** The completed messages that neither the summary nor any later batch covers. */
  ghost function LostIn(m: Memory): set<Message> { set x | x in m.rows && Passed(m, x) }

  /** The messages right behind a batch that share the timestamp of its last one. */
  ghost function SplitOff(m: Memory, cfg: Config): set<Message> {
    var next := Cut(m.rows, m.watermark) + |Batch(m, cfg)|;
    set i | next <= i < |m.rows| && 0 < next && m.rows[i].at == m.rows[next - 1].at :: m.rows[i]
  }

  /** What a caller could check before a step: a message completes after the watermark, or was
      folded before; the batch does not end inside a group of equal timestamps. */
  predicate Safe(m: Memory, st: Step) {
    match st
    case Complete(x, _) => !Passed(m, x)
    case Withdraw(_) => true
    case Refresh(cfg, reply) =>
      var next := Cut(m.rows, m.watermark) + |Batch(m, cfg)|;
      Folds(m, cfg, reply) && next < |m.rows| ==> m.rows[next].at != m.rows[next - 1].at
  }

  function Without(rows: seq<Message>, x: Message): seq<Message> {
    if rows == [] then []
    else if rows[|rows| - 1] == x then rows[..|rows| - 1]
    else Without(rows[..|rows| - 1], x) + [rows[|rows| - 1]]
  }

  lemma {:induction false} WithoutFacts(rows: seq<Message>, x: Message)
    requires Sorted(rows) && Distinct(rows)
    ensures Sorted(Without(rows, x)) && Distinct(Without(rows, x))
    ensures forall y :: y in Without(rows, x) <==> y in rows && y != x
  {
    if rows != [] {
      var init, last := rows[..|rows| - 1], rows[|rows| - 1];
      assert rows == init + [last];
      WithoutFacts(init, x);
      var w := Without(init, x);
      forall i | 0 <= i < |w| ensures w[i].at <= last.at && w[i] != last { assert w[i] in init; }
    }
  }

  function Inserted(rows: seq<Message>, x: Message, p: nat): seq<Message>
    requires p <= |rows|
  {
    rows[..p] + [x] + rows[p..]
  }

  lemma InsertedMembers(rows: seq<Message>, x: Message, p: nat)
    requires p <= |rows|
    ensures forall y :: y in Inserted(rows, x, p) <==> y in rows || y == x
  {
    assert Inserted(rows, x, p)[p] == x;
    forall y | y in rows ensures y in Inserted(rows, x, p) {
      var i :| 0 <= i < |rows| && rows[i] == y;
      assert Inserted(rows, x, p)[if i < p then i else i + 1] == y;
    }
  }

  lemma InsertedSorted(rows: seq<Message>, x: Message, p: nat)
    requires Sorted(rows) && p <= |rows|
    requires (p > 0 ==> rows[p - 1].at <= x.at) && (p < |rows| ==> x.at <= rows[p].at)
    ensures Sorted(Inserted(rows, x, p))
  {
    assert forall i | 0 <= i < p :: rows[i].at <= x.at;
    assert forall i | p <= i < |rows| :: x.at <= rows[i].at;
  }

  lemma InsertedDistinct(rows: seq<Message>, x: Message, p: nat)
    requires Distinct(rows) && x !in rows && p <= |rows|
    ensures Distinct(Inserted(rows, x, p))
  {
  }

  /** A message can complete exactly when it is not listed, at exactly the places that keep the
      list in order; only a listed one can be withdrawn; and a refresh can always be asked for. */
  lemma EnabledIff(m: Memory, st: Step)
    requires Sorted(m.rows)
    ensures Enabled(m, st) <==>
            match st
            case Complete(x, p) => x !in m.rows && p <= |m.rows| && Sorted(m.rows[..p] + [x] + m.rows[p..])
            case Withdraw(x) => x in m.rows
            case Refresh(_, _) => true
  {
    if st.Complete? && st.position <= |m.rows| {
      var rows, x, p := m.rows, st.message, st.position;
      var more := rows[..p] + [x] + rows[p..];
      if Enabled(m, st) { InsertedSorted(rows, x, p); }
      if Sorted(more) {
        if p > 0 { assert more[p - 1] == rows[p - 1] && more[p] == x; }
        if p < |rows| { assert more[p + 1] == rows[p] && more[p] == x; }
      }
    }
  }

  lemma JoinFacts(folded: seq<Message>, batch: seq<Message>, w: Option<Time>)
    requires Sorted(folded) && Distinct(folded) && Sorted(batch) && Distinct(batch)
    requires forall x <- folded :: w.Some? && x.at <= w.value
    requires forall i | 0 <= i < |batch| :: w.Some? ==> batch[i].at > w.value
    ensures Sorted(folded + batch) && Distinct(folded + batch)
  {
  }

  lemma SliceFacts(rows: seq<Message>, lo: nat, hi: nat)
    requires Sorted(rows) && Distinct(rows) && lo <= hi <= |rows|
    ensures Sorted(rows[lo..hi]) && Distinct(rows[lo..hi])
  {
  }

  lemma SliceIsLate(rows: seq<Message>, lo: nat, hi: nat, w: Option<Time>)
    requires Sorted(rows) && lo <= hi <= |rows| && (lo < hi && w.Some? ==> rows[lo].at > w.value)
    ensures var b := rows[lo..hi];
            forall i | 0 <= i < |b| :: b[i] in rows && b[i].at <= b[|b| - 1].at && (w.Some? ==> b[i].at > w.value)
  {
    forall i | lo <= i < hi ensures rows[i].at <= rows[hi - 1].at && rows[lo].at <= rows[i].at {}
  }

  lemma BatchSlice(m: Memory, cfg: Config)
    ensures var cut, n := Cut(m.rows, m.watermark), |Batch(m, cfg)|;
            cut + n <= |m.rows| && Batch(m, cfg) == m.rows[cut..cut + n]
  {
  }

  lemma BatchIsLate(m: Memory, cfg: Config)
    requires Sorted(m.rows)
    ensures var b := Batch(m, cfg);
            forall i | 0 <= i < |b| ::
              b[i] in m.rows && b[i].at <= b[|b| - 1].at && (m.watermark.Some? ==> b[i].at > m.watermark.value)
  {
    BatchSlice(m, cfg);
    var cut := Cut(m.rows, m.watermark);
    SliceIsLate(m.rows, cut, cut + |Batch(m, cfg)|, m.watermark);
  }

  lemma FoldOrders(m: Memory, cfg: Config)
    requires Inv(m)
    ensures Sorted(m.folded + Batch(m, cfg)) && Distinct(m.folded + Batch(m, cfg))
  {
    var cut := Cut(m.rows, m.watermark);
    BatchSlice(m, cfg);
    BatchIsLate(m, cfg);
    FoldedWithin(m);
    SliceFacts(m.rows, cut, cut + |Batch(m, cfg)|);
    JoinFacts(m.folded, Batch(m, cfg), m.watermark);
  }

  /** No folded message lies after the watermark. */
  lemma FoldedWithin(m: Memory)
    requires Inv(m)
    ensures forall x <- m.folded :: m.watermark.Some? && x.at <= m.watermark.value
  {
    var n := |m.folded|;
    forall i | 0 <= i < n ensures m.folded[i].at <= m.folded[n - 1].at {}
  }

  lemma FoldKeepsInv(m: Memory, cfg: Config, reply: string)
    requires Inv(m) && Folds(m, cfg, reply)
    ensures Inv(Next(m, Refresh(cfg, reply)))
  {
    FoldOrders(m, cfg);
  }

  lemma StepKeepsInv(m: Memory, st: Step)
    requires Inv(m) && Enabled(m, st)
    ensures Inv(Next(m, st))
  {
    match st
    case Complete(x, p) =>
      InsertedMembers(m.rows, x, p);
      InsertedSorted(m.rows, x, p);
      InsertedDistinct(m.rows, x, p);
    case Withdraw(x) => WithoutFacts(m.rows, x);
    case Refresh(cfg, reply) => if Folds(m, cfg, reply) { FoldKeepsInv(m, cfg, reply); }
  }

  lemma {:induction false} RunKeepsInv(run: seq<Step>)
    requires ValidRun(run)
    ensures Inv(Exec(run))
  {
    if run != [] {
      RunKeepsInv(run[..|run| - 1]);
      StepKeepsInv(Exec(run[..|run| - 1]), run[|run| - 1]);
    }
  }

  // ---------------------------------------------------------------- what is lost

  lemma CompletionLoses(m: Memory, x: Message, p: nat)
    requires Enabled(m, Complete(x, p))
    ensures LostIn(Next(m, Complete(x, p))) == LostIn(m) + if Passed(m, x) then {x} else {}
  {
    InsertedMembers(m.rows, x, p);
  }

  lemma WithdrawalLoses(m: Memory, x: Message)
    requires Inv(m) && Enabled(m, Withdraw(x))
    ensures LostIn(Next(m, Withdraw(x))) == LostIn(m) - {x}
  {
    WithoutFacts(m.rows, x);
  }

  /** What a fold does to one listed message: the batch is folded, a tie behind it is passed. */
  lemma FoldOnRow(m: Memory, cfg: Config, reply: string, i: nat)
    requires Inv(m) && Folds(m, cfg, reply) && i < |m.rows|
    ensures var t, cut, n := Next(m, Refresh(cfg, reply)), Cut(m.rows, m.watermark), |Batch(m, cfg)|;
            && cut + n <= |m.rows| && 0 < n
            && (Passed(t, m.rows[i]) <==> Passed(m, m.rows[i])
                                          || (cut + n <= i && m.rows[i].at == m.rows[cut + n - 1].at))
  {
    var t, cut, n := Next(m, Refresh(cfg, reply)), Cut(m.rows, m.watermark), |Batch(m, cfg)|;
    var x, batch := m.rows[i], Batch(m, cfg);
    BatchSlice(m, cfg);
    FoldedWithin(m);
    assert batch[n - 1] == m.rows[cut + n - 1];
    assert x in batch <==> cut <= i < cut + n by {
      if cut <= i < cut + n { assert batch[i - cut] == x; }
      if x in batch { var k :| 0 <= k < n && batch[k] == x; assert m.rows[cut + k] == x; }
    }
    assert i < cut ==> x.at <= m.rows[cut + n - 1].at;
    assert cut + n <= i ==> m.rows[cut + n - 1].at <= x.at;
    assert cut <= i ==> x !in m.folded;
  }

  lemma FoldLoses(m: Memory, cfg: Config, reply: string)
    requires Inv(m) && Folds(m, cfg, reply)
    ensures LostIn(Next(m, Refresh(cfg, reply))) == LostIn(m) + SplitOff(m, cfg)
  {
    var t, next := Next(m, Refresh(cfg, reply)), Cut(m.rows, m.watermark) + |Batch(m, cfg)|;
    forall x ensures x in LostIn(t) <==> x in LostIn(m) || x in SplitOff(m, cfg) {
      if x in m.rows {
        var i :| 0 <= i < |m.rows| && m.rows[i] == x;
        FoldOnRow(m, cfg, reply, i);
      }
    }
  }

  lemma SafeFoldIff(m: Memory, cfg: Config, reply: string)
    requires Inv(m) && Folds(m, cfg, reply)
    ensures Safe(m, Refresh(cfg, reply)) <==> SplitOff(m, cfg) == {}
  {
    var next := Cut(m.rows, m.watermark) + |Batch(m, cfg)|;
    BatchSlice(m, cfg);
    if next < |m.rows| {
      assert forall i | next <= i < |m.rows| :: m.rows[next - 1].at <= m.rows[next].at <= m.rows[i].at;
      if m.rows[next].at == m.rows[next - 1].at { assert m.rows[next] in SplitOff(m, cfg); }
    }
  }

  /** What one step adds to and takes from the lost messages. */
  ghost function LostAfter(m: Memory, st: Step, lost: set<Message>): set<Message> {
    match st
    case Complete(x, _) => lost + if Passed(m, x) then {x} else {}
    case Withdraw(x) => lost - {x}
    case Refresh(cfg, reply) => lost + if Folds(m, cfg, reply) then SplitOff(m, cfg) else {}
  }

  lemma StepLoses(m: Memory, st: Step)
    requires Inv(m) && Enabled(m, st)
    ensures LostIn(Next(m, st)) == LostAfter(m, st, LostIn(m))
    ensures Safe(m, st) ==> LostAfter(m, st, {}) == {}
    ensures !Safe(m, st) ==> LostAfter(m, st, {}) != {} && !st.Withdraw?
  {
    match st
    case Complete(x, p) =>
      CompletionLoses(m, x, p);
      if Passed(m, x) { assert x in LostAfter(m, st, {}); }
    case Withdraw(x) => WithdrawalLoses(m, x);
    case Refresh(cfg, reply) =>
      if Folds(m, cfg, reply) {
        FoldLoses(m, cfg, reply);
        SafeFoldIff(m, cfg, reply);
      }
  }

  /** The cut is the only split of a sorted list at the watermark. */
  lemma CutIs(rows: seq<Message>, w: Option<Time>, n: nat)
    requires Sorted(rows) && n <= |rows|
    requires n > 0 ==> w.Some? && rows[n - 1].at <= w.value
    requires n < |rows| ==> w.None? || rows[n].at > w.value
    ensures Cut(rows, w) == n
  {
  }

  lemma InsertedAfterCut(rows: seq<Message>, w: Option<Time>, x: Message, p: nat)
    requires Sorted(rows) && p <= |rows| && Sorted(Inserted(rows, x, p))
    requires p < |rows| ==> x.at <= rows[p].at
    requires w.None? || x.at > w.value
    ensures Cut(Inserted(rows, x, p), w) == Cut(rows, w) && Inserted(rows, x, p)[..Cut(rows, w)] == rows[..Cut(rows, w)]
  {
    var cut := Cut(rows, w);
    assert cut <= p;
    CutIs(Inserted(rows, x, p), w, cut);
  }

  lemma SafeCompletionLosesNothing(m: Memory, x: Message, p: nat)
    requires Inv(m) && Lossless(m) && Enabled(m, Complete(x, p)) && Safe(m, Complete(x, p))
    ensures Lossless(Next(m, Complete(x, p)))
  {
    InsertedSorted(m.rows, x, p);
    InsertedAfterCut(m.rows, m.watermark, x, p);
  }

  lemma SlicesJoin(rows: seq<Message>, cut: nat, n: nat)
    requires 0 < n && cut + n <= |rows|
    ensures rows[..cut] + rows[cut..cut + n] == rows[..cut + n]
    ensures rows[cut..cut + n][n - 1] == rows[cut + n - 1]
  {
  }

  lemma FoldedPrefix(m: Memory, cfg: Config, reply: string)
    requires Lossless(m) && Folds(m, cfg, reply)
    ensures var t, next := Next(m, Refresh(cfg, reply)), Cut(m.rows, m.watermark) + |Batch(m, cfg)|;
            t.rows == m.rows && 0 < next <= |m.rows| && t.folded == m.rows[..next]
                && t.watermark == Some(m.rows[next - 1].at)
  {
    BatchSlice(m, cfg);
    SlicesJoin(m.rows, Cut(m.rows, m.watermark), |Batch(m, cfg)|);
  }

  lemma SafeFoldLosesNothing(m: Memory, cfg: Config, reply: string)
    requires Inv(m) && Lossless(m) && Folds(m, cfg, reply) && Safe(m, Refresh(cfg, reply))
    ensures Lossless(Next(m, Refresh(cfg, reply)))
  {
    FoldedPrefix(m, cfg, reply);
    var next := Cut(m.rows, m.watermark) + |Batch(m, cfg)|;
    if next < |m.rows| { assert m.rows[next - 1].at <= m.rows[next].at; }
    CutIs(m.rows, Some(m.rows[next - 1].at), next);
  }

  // ---------------------------------------------------------------- guarantees

  /** Every message that was ever completed. */
  ghost function Completed(run: seq<Step>): set<Message> {
    if run == [] then {}
    else Completed(run[..|run| - 1]) + if run[|run| - 1].Complete? then {run[|run| - 1].message} else {}
  }

  predicate NoWithdrawals(run: seq<Step>) { forall st <- run :: !st.Withdraw? }

  lemma StepMembers(m: Memory, st: Step)
    requires Inv(m) && Enabled(m, st)
    ensures forall x :: x in Next(m, st).rows ==> x in m.rows || (st.Complete? && x == st.message)
    ensures forall x :: x in m.rows && !st.Withdraw? ==> x in Next(m, st).rows
    ensures forall x :: x in Next(m, st).folded ==> x in m.folded || x in m.rows
    ensures m.folded <= Next(m, st).folded
  {
    match st
    case Complete(x, p) => InsertedMembers(m.rows, x, p);
    case Withdraw(x) => WithoutFacts(m.rows, x);
    case Refresh(cfg, reply) => BatchSlice(m, cfg);
  }

  lemma {:induction false} RunMembers(run: seq<Step>)
    requires ValidRun(run)
    ensures Inv(Exec(run))
    ensures forall x :: x in Exec(run).rows || x in Exec(run).folded ==> x in Completed(run)
    ensures NoWithdrawals(run) ==> forall x <- Exec(run).folded :: x in Exec(run).rows
  {
    RunKeepsInv(run);
    if run != [] {
      var front, st := run[..|run| - 1], run[|run| - 1];
      RunMembers(front);
      StepMembers(Exec(front), st);
      if NoWithdrawals(run) {
        assert st in run;
        assert NoWithdrawals(front);
      }
    }
  }

  /** On every run, whatever is retried and whatever timestamps tie: no message is folded twice,
      and folds go forward in time. */
  lemma FoldsOnceInOrder(run: seq<Step>)
    requires ValidRun(run)
    ensures Sorted(Exec(run).folded) && Distinct(Exec(run).folded)
    ensures forall x <- Exec(run).folded :: x in Completed(run)
    ensures NoWithdrawals(run) ==> forall x <- Exec(run).folded :: x in Exec(run).rows
  {
    RunMembers(run);
  }

  ghost predicate AllSafe(run: seq<Step>)
    requires ValidRun(run)
  {
    run != [] ==> AllSafe(run[..|run| - 1]) && Safe(Exec(run[..|run| - 1]), run[|run| - 1])
  }

  /** The messages that completed behind the watermark or were split off by a batch, and have
      not been withdrawn since. */
  ghost function Missed(run: seq<Step>): set<Message>
    requires ValidRun(run)
  {
    if run == [] then {} else LostAfter(Exec(run[..|run| - 1]), run[|run| - 1], Missed(run[..|run| - 1]))
  }

  lemma {:induction false} LostIsMissed(run: seq<Step>)
    requires ValidRun(run)
    ensures LostIn(Exec(run)) == Missed(run)
    ensures AllSafe(run) ==> Missed(run) == {}
    ensures NoWithdrawals(run) && !AllSafe(run) ==> Missed(run) != {}
  {
    if run != [] {
      var front, st := run[..|run| - 1], run[|run| - 1];
      LostIsMissed(front);
      RunKeepsInv(front);
      StepLoses(Exec(front), st);
      if NoWithdrawals(run) {
        assert st in run;
        assert NoWithdrawals(front);
        MissedGrows(Exec(front), st, Missed(front));
      }
    }
  }

  lemma MissedGrows(m: Memory, st: Step, lost: set<Message>)
    requires !st.Withdraw?
    ensures LostAfter(m, st, lost) == lost + LostAfter(m, st, {})
  {
  }

  lemma {:induction false} SafeRunIsPrefix(run: seq<Step>)
    requires ValidRun(run) && NoWithdrawals(run) && AllSafe(run)
    ensures Lossless(Exec(run))
  {
    if run != [] {
      var front, st := run[..|run| - 1], run[|run| - 1];
      assert st in run;
      assert NoWithdrawals(front);
      SafeRunIsPrefix(front);
      RunMembers(front);
      match st
      case Complete(x, p) => SafeCompletionLosesNothing(Exec(front), x, p);
      case Withdraw(_) => assert false;
      case Refresh(cfg, reply) => if Folds(Exec(front), cfg, reply) { SafeFoldLosesNothing(Exec(front), cfg, reply); }
    }
  }

  lemma PrefixLosesNothing(m: Memory)
    requires Inv(m) && Lossless(m)
    ensures LostIn(m) == {}
  {
    forall x | x in m.rows && m.watermark.Some? && x.at <= m.watermark.value ensures x in m.folded {
      var i :| 0 <= i < |m.rows| && m.rows[i] == x;
      assert m.rows[..Cut(m.rows, m.watermark)][i] == x;
    }
  }

  /** Which messages a run loses, exactly: those that completed at or before the watermark
      unfolded, or stood behind a batch with the timestamp of its last message, and were not
      withdrawn since.  A run whose every step was safe loses nothing; without retries the
      converse holds too, and then the folded batches join to a prefix of the transcript. */
  lemma RunIsLosslessIff(run: seq<Step>)
    requires ValidRun(run)
    ensures LostIn(Exec(run)) == Missed(run)
    ensures AllSafe(run) ==> LostIn(Exec(run)) == {}
    ensures NoWithdrawals(run) ==>
              && (AllSafe(run) <==> LostIn(Exec(run)) == {})
              && (AllSafe(run) <==> Lossless(Exec(run)))
  {
    LostIsMissed(run);
    RunKeepsInv(run);
    if NoWithdrawals(run) && AllSafe(run) { SafeRunIsPrefix(run); }
    if Lossless(Exec(run)) { PrefixLosesNothing(Exec(run)); }
  }

  lemma StepKeepsPassed(m: Memory, st: Step, x: Message)
    requires Inv(m) && Enabled(m, st) && Passed(m, x)
    ensures Passed(Next(m, st), x)
  {
    if st.Refresh? && Folds(m, st.cfg, st.reply) {
      var batch := Batch(m, st.cfg);
      BatchIsLate(m, st.cfg);
      assert batch[|batch| - 1] in batch;
    }
  }

  /** A message the watermark went past is never folded, even if it is withdrawn and completes
      again: whenever it is listed it is lost. */
  lemma {:induction false} LossIsPermanent(run: seq<Step>, n: nat, x: Message)
    requires ValidRun(run) && n <= |run| && ValidRun(run[..n]) && Passed(Exec(run[..n]), x)
    ensures x !in Exec(run).folded && Passed(Exec(run), x)
    ensures x in Exec(run).rows ==> x in LostIn(Exec(run))
    decreases |run|
  {
    if n == |run| {
      assert run[..n] == run;
    } else {
      var front := run[..|run| - 1];
      assert front[..n] == run[..n];
      LossIsPermanent(front, n, x);
      RunKeepsInv(front);
      StepKeepsPassed(Exec(front), run[|run| - 1], x);
    }
  }

  /** Every message completes later than all messages ever completed before it, or had been
      folded already. */
  ghost predicate Increasing(run: seq<Step>)
    requires ValidRun(run)
  {
    run != [] ==>
      var front, st := run[..|run| - 1], run[|run| - 1];
      && Increasing(front)
      && (st.Complete? ==> st.message in Exec(front).folded || forall y <- Completed(front) :: y.at < st.message.at)
  }

  lemma {:induction false} IncreasingIsStrict(run: seq<Step>)
    requires ValidRun(run) && Increasing(run)
    ensures forall x, y :: x in Completed(run) && y in Completed(run) && x != y ==> x.at != y.at
  {
    if run != [] {
      var front, st := run[..|run| - 1], run[|run| - 1];
      IncreasingIsStrict(front);
      RunMembers(front);
    }
  }

  lemma StrictStepIsSafe(m: Memory, st: Step, all: set<Message>)
    requires Inv(m) && Enabled(m, st)
    requires forall x :: x in m.rows || x in m.folded ==> x in all
    requires forall x, y :: x in all && y in all && x != y ==> x.at != y.at
    requires st.Complete? ==> st.message in m.folded || forall y <- all :: y.at < st.message.at
    ensures Safe(m, st)
  {
    match st
    case Complete(x, _) => if m.folded != [] { assert m.folded[|m.folded| - 1] in m.folded; }
    case Withdraw(_) =>
    case Refresh(cfg, reply) =>
      BatchSlice(m, cfg);
      var next := Cut(m.rows, m.watermark) + |Batch(m, cfg)|;
      if 0 < next < |m.rows| { assert m.rows[next - 1] in m.rows && m.rows[next] in m.rows; }
  }

  /** With strictly increasing timestamps nothing is ever lost. */
  lemma {:induction false} IncreasingTimesLoseNothing(run: seq<Step>)
    requires ValidRun(run) && Increasing(run)
    ensures AllSafe(run) && LostIn(Exec(run)) == {} && (NoWithdrawals(run) ==> Lossless(Exec(run)))
  {
    if run != [] {
      var front := run[..|run| - 1];
      IncreasingTimesLoseNothing(front);
      IncreasingIsStrict(front);
      RunMembers(front);
      StrictStepIsSafe(Exec(front), run[|run| - 1], Completed(front));
    }
    RunIsLosslessIff(run);
  }

  lemma BatchLeavesKept(cfg: Config, pending: nat)
    ensures BatchSize(cfg, pending) > 0
      ==> BatchSize(cfg, pending) + Kept(cfg) <= pending && BatchSize(cfg, pending) <= MAX_BATCH
  {
  }

  /** How many listed messages are newer than the watermark. */
  function Newer(rows: seq<Message>, w: Option<Time>): nat {
    if rows == [] then 0
    else
      Newer(rows[..|rows| - 1], w) + if w == None || rows[|rows| - 1].at > w.value then 1 else 0
  }

  lemma {:induction false} NewerIsRest(rows: seq<Message>, w: Option<Time>)
    requires Sorted(rows)
    ensures Newer(rows, w) == |rows| - Cut(rows, w)
  {
    if rows != [] {
      var n := |rows| - 1;
      NewerIsRest(rows[..n], w);
      if w.Some? && rows[n].at <= w.value {
        assert forall i | 0 <= i < n :: rows[..n][i].at <= w.value;
        CutIs(rows[..n], w, n);
      }
    }
  }

  /** How many of the newer messages exceed the history limit. */
  function Excess(m: Memory, cfg: Config): int {
    Newer(m.rows, m.watermark) - if cfg.historyLimit < 0 then 0 else cfg.historyLimit
  }

  /** Summaries are on and the excess reaches the trigger, which counts as at least one. */
  predicate Due(m: Memory, cfg: Config) { cfg.enabled && Excess(m, cfg) >= 1 && Excess(m, cfg) >= cfg.trigger }

  lemma BatchIsExcess(m: Memory, cfg: Config)
    requires Sorted(m.rows)
    ensures |Batch(m, cfg)| == if !Due(m, cfg) then 0 else if Excess(m, cfg) < 100 then Excess(m, cfg) else 100
  {
    NewerIsRest(m.rows, m.watermark);
  }

  lemma FoldEffect(m: Memory, cfg: Config, reply: string)
    ensures var t := Next(m, Refresh(cfg, reply));
            && (t != m <==> |Batch(m, cfg)| > 0 && reply != "")
            && (t != m ==>
                  && |t.folded| - |m.folded| == |Batch(m, cfg)| && t.watermark == Some(t.folded[|t.folded| - 1].at)
                  && t.summary == reply && t.rows == m.rows)
  {
    var t := Next(m, Refresh(cfg, reply));
    if Folds(m, cfg, reply) { assert |t.folded| == |m.folded| + |Batch(m, cfg)|; }
  }

  /** On every run a refresh folds exactly when summaries are on, the messages newer than the
      watermark exceed the history limit by the trigger, both counted as at least zero and one,
      and the provider gives text; it then folds those in excess, up to a hundred, and moves the
      watermark to the last of them. */
  lemma FoldIff(run: seq<Step>, cfg: Config, reply: string)
    requires ValidRun(run)
    ensures var m, t := Exec(run), Next(Exec(run), Refresh(cfg, reply));
            && (t != m <==> Due(m, cfg) && reply != "")
            && (t != m ==>
                  && |t.folded| - |m.folded| == (if Excess(m, cfg) < 100 then Excess(m, cfg) else 100)
                  && t.watermark == Some(t.folded[|t.folded| - 1].at) && t.summary == reply && t.rows == m.rows)
  {
    RunKeepsInv(run);
    BatchIsExcess(Exec(run), cfg);
    FoldEffect(Exec(run), cfg, reply);
  }

  /** What a refresh hands over: the oldest messages after the watermark, not too many. */
  ghost predicate Bounded(m: Memory, t: Memory, cfg: Config) {
    var cut, n := Cut(m.rows, m.watermark), |t.folded| - |m.folded|;
    && 1 <= n <= MAX_BATCH && cut + n + Kept(cfg) <= |m.rows|
    && t.rows == m.rows && t.folded == m.folded + m.rows[cut..cut + n]
    && forall i | 0 <= i < |m.rows| :: i < cut <==> m.watermark.Some? && m.rows[i].at <= m.watermark.value
  }

  lemma FoldBounds(m: Memory, cfg: Config, reply: string)
    requires Inv(m) && Folds(m, cfg, reply)
    ensures Bounded(m, Next(m, Refresh(cfg, reply)), cfg)
  {
    var cut, t := Cut(m.rows, m.watermark), Next(m, Refresh(cfg, reply));
    BatchSlice(m, cfg);
    BatchLeavesKept(cfg, |m.rows| - cut);
    assert t.rows == m.rows && t.folded == m.folded + Batch(m, cfg);
  }

  /** On every run a fold hands over 1 to 100 messages, exactly the oldest after the watermark,
      and leaves at least the history limit behind; a refresh that does not fold changes
      nothing.  With increasing timestamps and no retries the folded messages stay a prefix. */
  lemma FoldIsBounded(run: seq<Step>, cfg: Config, reply: string)
    requires ValidRun(run)
    ensures var m, t := Exec(run), Next(Exec(run), Refresh(cfg, reply));
            && (!Folds(m, cfg, reply) ==> t == m)
            && (Folds(m, cfg, reply) ==>
                  Bounded(m, t, cfg) && (Increasing(run) && NoWithdrawals(run) ==> t.folded <= m.rows))
  {
    RunKeepsInv(run);
    if Increasing(run) { IncreasingTimesLoseNothing(run); }
    if Folds(Exec(run), cfg, reply) {
      FoldBounds(Exec(run), cfg, reply);
      if Lossless(Exec(run)) { FoldedPrefix(Exec(run), cfg, reply); }
    }
  }

  lemma RunStep(run: seq<Step>, st: Step)
    requires ValidRun(run) && Enabled(Exec(run), st)
    ensures ValidRun(run + [st]) && Exec(run + [st]) == Next(Exec(run), st)
  {
    assert (run + [st])[..|run|] == run;
  }

  lemma ThreeSteps(a: Step, b: Step, c: Step, x: Memory, y: Memory)
    requires Enabled(BLANK, a) && x == Next(BLANK, a)
    requires Enabled(x, b) && y == Next(x, b)
    requires Enabled(y, c)
    ensures ValidRun([a, b, c]) && Exec([a, b, c]) == Next(y, c)
  {
    var none: seq<Step> := [];
    assert ValidRun(none) && Exec(none) == BLANK;
    RunStep(none, a);
    RunStep(none + [a], b);
    RunStep(none + [a] + [b], c);
    assert none + [a] + [b] + [c] == [a, b, c];
  }

  /** What a fold of the only message does, and of the first of two. */
  lemma FirstFolds(rows: seq<Message>, cfg: Config)
    requires 1 <= |rows| <= 2 && cfg == Config(true, |rows| - 1, 1)
    ensures var m := Memory(rows, [], None, []);
            Next(m, Refresh(cfg, "s")) == Memory(rows, "s", Some(rows[0].at), [rows[0]])
  {
    var m := Memory(rows, [], None, []);
    assert Cut(m.rows, m.watermark) == 0 && BatchSize(cfg, |rows|) == 1;
    assert Batch(m, cfg) == rows[0..1];
    assert rows[0..1] == [rows[0]];
  }

  lemma Placed(x: Message, y: Message)
    ensures Inserted([], x, 0) == [x] && Inserted([x], y, 1) == [x, y] && Inserted([x], y, 0) == [y, x]
  {
  }

  lemma LeftOut(m: Memory, x: Message)
    requires x in m.rows && Passed(m, x)
    ensures x in LostIn(m)
  {
  }

  /** Two messages of one transaction share their timestamp; a batch that ends between them
      loses the second for good. */
  lemma TieLosesMessage(a: Message, b: Message)
    requires a != b && a.at == b.at
    ensures var run := [Complete(a, 0), Complete(b, 1), Refresh(Config(true, 1, 1), "s")];
            ValidRun(run) && b in LostIn(Exec(run)) && Exec(run).folded == [a] && Exec(run).rows == [a, b]
  {
    var x, y, z := Memory([a], [], None, []), Memory([a, b], [], None, []), Memory([a, b], "s", Some(a.at), [a]);
    Placed(a, b);
    FirstFolds([a, b], Config(true, 1, 1));
    ThreeSteps(Complete(a, 0), Complete(b, 1), Refresh(Config(true, 1, 1), "s"), x, y);
    LeftOut(z, b);
  }

  /** A message that completes after a younger one was folded is left behind the watermark. */
  lemma LateCompletionIsLost(early: Message, late: Message)
    requires early.at < late.at
    ensures var run := [Complete(late, 0), Refresh(Config(true, 0, 1), "s"), Complete(early, 0)];
            ValidRun(run) && early in LostIn(Exec(run)) && Exec(run).folded == [late] && Exec(run).rows == [early, late]
  {
    var x, y := Memory([late], [], None, []), Memory([late], "s", Some(late.at), [late]);
    Placed(late, early);
    FirstFolds([late], Config(true, 0, 1));
    ThreeSteps(Complete(late, 0), Refresh(Config(true, 0, 1), "s"), Complete(early, 0), x, y);
    LeftOut(Memory([early, late], "s", Some(late.at), [late]), early);
  }

  lemma RetryBegins(early: Message, late: Message) returns (run: seq<Step>)
    ensures run == [Complete(early, 0), Withdraw(early), Complete(late, 0)]
    ensures ValidRun(run) && Exec(run) == Memory([late], [], None, [])
  {
    var x, y := Memory([early], [], None, []), Memory([], [], None, []);
    Placed(early, late);
    Placed(late, early);
    assert Without([early], early) == [];
    ThreeSteps(Complete(early, 0), Withdraw(early), Complete(late, 0), x, y);
    run := [Complete(early, 0), Withdraw(early), Complete(late, 0)];
  }

  /** A blocked request is retried, a younger message is folded meanwhile, and the retried one
      completes behind the watermark. */
  lemma RetriedMessageIsLost(early: Message, late: Message)
    requires early.at < late.at
    ensures var run := [Complete(early, 0), Withdraw(early), Complete(late, 0)]
                       + [Refresh(Config(true, 0, 1), "s")] + [Complete(early, 0)];
            ValidRun(run) && early in LostIn(Exec(run)) && Exec(run).folded == [late]
  {
    var run := RetryBegins(early, late);
    FirstFolds([late], Config(true, 0, 1));
    Placed(late, early);
    RunStep(run, Refresh(Config(true, 0, 1), "s"));
    RunStep(run + [Refresh(Config(true, 0, 1), "s")], Complete(early, 0));
    LeftOut(Memory([early, late], "s", Some(late.at), [late]), early);
  }

  // ---------------------------------------------------------------- the service itself

  class MemoryRow {
    var rows: seq<Message>
    var summary: string
    var watermark: Option<Time>
    ghost var folded: seq<Message>

    ghost function View(): Memory
      reads this
    {
      Memory(rows, summary, watermark, folded)
    }

    constructor ()
      ensures View() == BLANK
    {
      rows, summary, watermark, folded := [], [], None, [];
    }

    /** One refresh; the provider's reply is empty when it failed. */
    method RefreshSummary(cfg: Config, reply: string) returns (refreshed: bool)
      modifies this
      ensures refreshed <==> Folds(old(View()), cfg, reply)
      ensures View() == Next(old(View()), Refresh(cfg, reply))
    {
      if !cfg.enabled { return false; }
      var historyLimit := if cfg.historyLimit > 0 then cfg.historyLimit else 0;
      var trigger := if cfg.trigger > 1 then cfg.trigger else 1;
      var first := Cut(rows, watermark);
      var foldable := |rows| - first - historyLimit;
      if foldable < trigger { return false; }
      var size := if foldable < MAX_BATCH then foldable else MAX_BATCH;
      var messages := rows[first..first + size];
      if reply == [] { return false; }
      summary := reply;
      watermark := Some(messages[|messages| - 1].at);
      folded := folded + messages;
      return true;
    }
  }
}
