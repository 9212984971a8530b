/** The per-conversation event stream: numbered under the row lock, read by cursor. */
module ConversationEvents {
  import opened Common
  import opened EventTypes

  datatype Visibility = Public | Internal

  datatype Event = Event(sequence: nat, kind: string, visibility: Visibility)

  /** What other transactions see of a conversation: its counter and its events. */
  datatype Row = Row(next: nat, events: seq<Event>)

  /** The transaction that holds the row lock, with its uncommitted changes. */
  datatype Holder = Holder(tx: Uuid, row: Row)

  /** A client paging through the stream: everything received so far and its cursor. */
  datatype Reader = Reader(filter: Option<Visibility>, cursor: nat, received: seq<Event>)

  datatype Stream = Stream(row: Row, lock: Option<Holder>, readers: map<Uuid, Reader>)

  datatype Step =
    | Publish(tx: Uuid, kind: string, visibility: Visibility)
    | Commit(tx: Uuid)
    | Rollback(tx: Uuid)
    | Join(reader: Uuid, filter: Option<Visibility>)
    | Page(reader: Uuid, limit: nat)

  const MAX_PAGE: nat := 500

  predicate Shows(filter: Option<Visibility>, e: Event) { filter.None? || e.visibility == filter.value }

  /** The events of a table a reader may still receive, oldest first. */
  function Pending(events: seq<Event>, after: nat, filter: Option<Visibility>): seq<Event> {
    if events == [] then []
    else
      var e := events[|events| - 1];
      Pending(events[..|events| - 1], after, filter)
      + if e.sequence > after && Shows(filter, e) then [e] else []
  }

  function Take(events: seq<Event>, limit: nat): seq<Event> {
    if |events| <= limit then events else events[..limit]
  }

  function Appended(r: Row, kind: string, visibility: Visibility): Row {
    Row(r.next + 1, r.events + [Event(r.next, kind, visibility)])
  }

  /** Only the lock holder may publish, commit or roll back; readers need no lock. */
  predicate Enabled(s: Stream, st: Step) {
    match st
    case Publish(tx, _, _) => s.lock.None? || s.lock.value.tx == tx
    case Commit(tx) => s.lock.Some? && s.lock.value.tx == tx
    case Rollback(tx) => s.lock.Some? && s.lock.value.tx == tx
    case Join(reader, _) => reader !in s.readers
    case Page(reader, limit) => reader in s.readers && 1 <= limit <= MAX_PAGE
  }

  function Received(r: Reader, page: seq<Event>): Reader {
    if page == [] then r
    else r.(cursor := page[|page| - 1].sequence, received := r.received + page)
  }

  function Next(s: Stream, st: Step): Stream
    requires Enabled(s, st)
  {
    match st
    case Publish(tx, kind, visibility) =>
      var mine := if s.lock.Some? then s.lock.value.row else s.row;
      s.(lock := Some(Holder(tx, Appended(mine, kind, visibility))))
    case Commit(_) => s.(row := s.lock.value.row, lock := None)
    case Rollback(_) => s.(lock := None)
    case Join(reader, filter) => s.(readers := s.readers[reader := Reader(filter, 0, [])])
    case Page(reader, limit) =>
      var r := s.readers[reader];
      s.(readers := s.readers[reader := Received(r, Take(Pending(s.row.events, r.cursor, r.filter), limit))])
  }

  function Fresh(): Stream { Stream(Row(1, []), None, map[]) }

  predicate ValidRun(s: Stream, steps: seq<Step>)
    decreases |steps|, 0
  {
    steps != [] ==> ValidRun(s, steps[..|steps| - 1]) && Enabled(Exec(s, steps[..|steps| - 1]), steps[|steps| - 1])
  }

  function Exec(s: Stream, steps: seq<Step>): Stream
    requires ValidRun(s, steps)
    decreases |steps|, 1
  {
    if steps == [] then s else Next(Exec(s, steps[..|steps| - 1]), steps[|steps| - 1])
  }

  // ---------------------------------------------------------------- invariants

  /** Sequences are exactly 1, 2, ..., next - 1. */
  predicate GapFree(r: Row) {
    && r.next == |r.events| + 1
    && forall i :: 0 <= i < |r.events| ==> r.events[i].sequence == i + 1
  }

  /** The reader has exactly the events it may see up to its cursor. */
  predicate CaughtUp(r: Reader, row: Row) {
    r.cursor <= |row.events| && r.received == Pending(row.events[..r.cursor], 0, r.filter)
  }

  predicate Inv(s: Stream) {
    && GapFree(s.row)
    && (s.lock.Some? ==> GapFree(s.lock.value.row) && s.row.events <= s.lock.value.row.events)
    && (forall r :: r in s.readers ==> CaughtUp(s.readers[r], s.row))
  }

  lemma PrefixCaughtUp(r: Reader, a: Row, b: Row)
    requires CaughtUp(r, a) && a.events <= b.events
    ensures CaughtUp(r, b)
  {
    assert a.events[..r.cursor] == b.events[..r.cursor];
  }

  /** Filtering after a cursor is filtering the suffix behind it. */
  lemma {:induction false} PendingSplits(events: seq<Event>, n: nat, filter: Option<Visibility>)
    requires n <= |events| && forall i :: 0 <= i < |events| ==> events[i].sequence == i + 1
    ensures Pending(events, 0, filter) == Pending(events[..n], 0, filter) + Pending(events, n, filter)
    decreases |events|
  {
    var m := |events|;
    if n == m {
      assert events[..n] == events;
      NothingPending(events, n, filter);
    } else {
      assert events[..m - 1][..n] == events[..n];
      PendingSplits(events[..m - 1], n, filter);
    }
  }

  lemma {:induction false} NothingPending(events: seq<Event>, n: nat, filter: Option<Visibility>)
    requires forall i :: 0 <= i < |events| ==> events[i].sequence <= n
    ensures Pending(events, n, filter) == []
  {
    if events != [] { NothingPending(events[..|events| - 1], n, filter); }
  }

  lemma PageTakesLast(events: seq<Event>, n: nat, filter: Option<Visibility>, limit: nat)
    requires n < |events| && forall i :: 0 <= i < |events| ==> events[i].sequence == i + 1
    requires var before := Pending(events[..|events| - 1], n, filter);
             Shows(filter, events[|events| - 1]) && |before| < limit
    ensures var page := Take(Pending(events, n, filter), limit);
            page == Pending(events, n, filter) && page != [] && page[|page| - 1].sequence == |events|
  {
  }

  lemma PageStopsBefore(events: seq<Event>, n: nat, filter: Option<Visibility>, limit: nat)
    requires n < |events|
    requires var before := Pending(events[..|events| - 1], n, filter);
             !Shows(filter, events[|events| - 1]) || |before| >= limit
    ensures Take(Pending(events, n, filter), limit) == Take(Pending(events[..|events| - 1], n, filter), limit)
  {
  }

  /** A page of the pending events ends at its last event: nothing visible is skipped. */
  lemma {:induction false} PageEnds(events: seq<Event>, n: nat, filter: Option<Visibility>, limit: nat)
    requires n <= |events| && limit >= 1 && forall i :: 0 <= i < |events| ==> events[i].sequence == i + 1
    requires Pending(events, n, filter) != []
    ensures var page := Take(Pending(events, n, filter), limit);
            && page != [] && n < page[|page| - 1].sequence <= |events|
            && page == Pending(events[..page[|page| - 1].sequence], n, filter)
    decreases |events|
  {
    var m := |events|;
    var init := events[..m - 1];
    if n == m {
      NothingPending(events, n, filter);
    } else {
      var before := Pending(init, n, filter);
      if Shows(filter, events[m - 1]) && |before| < limit {
        assert events[..m] == events;
        PageTakesLast(events, n, filter, limit);
      } else {
        PageStopsBefore(events, n, filter, limit);
        PageEnds(init, n, filter, limit);
        var page := Take(before, limit);
        assert init[..page[|page| - 1].sequence] == events[..page[|page| - 1].sequence];
      }
    }
  }

  /** What was received up to a cursor and the pending events up to a later one join. */
  lemma ReceivedJoins(events: seq<Event>, c: nat, d: nat, filter: Option<Visibility>)
    requires c <= d <= |events| && forall i :: 0 <= i < |events| ==> events[i].sequence == i + 1
    ensures Pending(events[..d], 0, filter) == Pending(events[..c], 0, filter) + Pending(events[..d], c, filter)
  {
    assert events[..d][..c] == events[..c];
    PendingSplits(events[..d], c, filter);
  }

  lemma PageKeepsCaughtUp(r: Reader, row: Row, limit: nat)
    requires GapFree(row) && CaughtUp(r, row) && limit >= 1
    ensures CaughtUp(Received(r, Take(Pending(row.events, r.cursor, r.filter), limit)), row)
  {
    if Pending(row.events, r.cursor, r.filter) != [] {
      PageEnds(row.events, r.cursor, r.filter, limit);
      var page := Take(Pending(row.events, r.cursor, r.filter), limit);
      ReceivedJoins(row.events, r.cursor, page[|page| - 1].sequence, r.filter);
    }
  }

  lemma StepKeepsInv(s: Stream, st: Step)
    requires Inv(s) && Enabled(s, st)
    ensures Inv(Next(s, st))
  {
    match st
    case Publish(_, _, _) =>
    case Commit(_) =>
      forall r | r in s.readers ensures CaughtUp(s.readers[r], Next(s, st).row) {
        PrefixCaughtUp(s.readers[r], s.row, s.lock.value.row);
      }
    case Rollback(_) =>
    case Join(_, _) => assert s.row.events[..0] == [];
    case Page(reader, limit) => PageKeepsCaughtUp(s.readers[reader], s.row, limit);
  }

  lemma {:induction false} RunKeepsInv(steps: seq<Step>)
    requires ValidRun(Fresh(), steps)
    ensures Inv(Exec(Fresh(), steps))
  {
    if steps != [] {
      RunKeepsInv(steps[..|steps| - 1]);
      StepKeepsInv(Exec(Fresh(), steps[..|steps| - 1]), steps[|steps| - 1]);
    }
  }

  // ---------------------------------------------------------------- guarantees

  /** Committed sequence numbers are gap-free from one, whatever transactions rolled back. */
  lemma SequencesAreGapFree(steps: seq<Step>, i: nat)
    requires ValidRun(Fresh(), steps) && i < |Exec(Fresh(), steps).row.events|
    ensures var r := Exec(Fresh(), steps).row; r.events[i].sequence == i + 1 && r.next == |r.events| + 1
  {
    RunKeepsInv(steps);
  }

  /** However its pages interleave with commits and rollbacks, a reader holds every event it
      may see up to its cursor, once and in order. */
  lemma ReadersMissNothing(steps: seq<Step>, reader: Uuid)
    requires ValidRun(Fresh(), steps) && reader in Exec(Fresh(), steps).readers
    ensures var s := Exec(Fresh(), steps);
            var r := s.readers[reader];
            r.cursor <= |s.row.events| && r.received == Pending(s.row.events[..r.cursor], 0, r.filter)
  {
    RunKeepsInv(steps);
  }

  /** A page shorter than its limit means the reader is level with the stream; a full page
      means progress of exactly the limit. */
  lemma ShortPageMeansLevel(steps: seq<Step>, reader: Uuid, limit: nat)
    requires ValidRun(Fresh(), steps) && Enabled(Exec(Fresh(), steps), Page(reader, limit))
    ensures var s := Exec(Fresh(), steps);
            var r, t := s.readers[reader], Next(s, Page(reader, limit)).readers[reader];
            && |r.received| <= |t.received| <= |r.received| + limit
            && (|t.received| < |r.received| + limit ==> t.received == Pending(s.row.events, 0, r.filter))
  {
    RunKeepsInv(steps);
    var s := Exec(Fresh(), steps);
    PendingSplits(s.row.events, s.readers[reader].cursor, s.readers[reader].filter);
  }

  // ---------------------------------------------------------------- who gets which event

  predicate Ordered(events: seq<Event>) {
    forall i, j | 0 <= i < j < |events| :: events[i].sequence < events[j].sequence
  }

  /** No visibility was asked for, or this event has it. */
  predicate Wanted(filter: Option<Visibility>, e: Event) { filter == None || filter == Some(e.visibility) }

  /** Exactly the events after the cursor of the visibility asked for. */
  lemma {:induction false} PendingMembers(events: seq<Event>, after: nat, filter: Option<Visibility>, e: Event)
    ensures e in Pending(events, after, filter) <==> e in events && e.sequence > after && Wanted(filter, e)
  {
    if events != [] {
      var n := |events| - 1;
      PendingMembers(events[..n], after, filter, e);
      assert events == events[..n] + [events[n]];
    }
  }

  lemma {:induction false} PendingOrdered(events: seq<Event>, after: nat, filter: Option<Visibility>)
    requires Ordered(events)
    ensures Ordered(Pending(events, after, filter))
  {
    if events != [] {
      var n := |events| - 1;
      var before := Pending(events[..n], after, filter);
      PendingOrdered(events[..n], after, filter);
      forall i | 0 <= i < |before| ensures before[i].sequence < events[n].sequence {
        PendingMembers(events[..n], after, filter, before[i]);
        var k :| 0 <= k < n && events[..n][k] == before[i];
      }
    }
  }

  /** The filter a reader joined with, from the steps alone. */
  function FilterOf(steps: seq<Step>, reader: Uuid): Option<Visibility> {
    if steps == [] then None
    else
      var last := steps[|steps| - 1];
      if last.Join? && last.reader == reader then last.filter else FilterOf(steps[..|steps| - 1], reader)
  }

  lemma {:induction false} FiltersStay(steps: seq<Step>, reader: Uuid)
    requires ValidRun(Fresh(), steps) && reader in Exec(Fresh(), steps).readers
    ensures Exec(Fresh(), steps).readers[reader].filter == FilterOf(steps, reader)
  {
    if steps != [] {
      var init, st := steps[..|steps| - 1], steps[|steps| - 1];
      if reader in Exec(Fresh(), init).readers { FiltersStay(init, reader); }
    }
  }

  lemma CaughtUpMembers(r: Reader, row: Row, e: Event)
    requires GapFree(row) && CaughtUp(r, row)
    ensures e in r.received <==> e in row.events && e.sequence <= r.cursor && Wanted(r.filter, e)
    ensures Ordered(r.received)
  {
    var part := row.events[..r.cursor];
    PendingMembers(part, 0, r.filter, e);
    PendingOrdered(part, 0, r.filter);
    if e in row.events && e.sequence <= r.cursor {
      var i :| 0 <= i < |row.events| && row.events[i] == e;
      assert part[i] == e;
    }
  }

  /** In any run a reader has received an event iff it is committed, lies within its cursor, and
      has the visibility the reader joined for, if it joined for one; and what it has received
      is in order, each event once.  So an internal event never reaches a public reader. */
  lemma ReceivedIff(steps: seq<Step>, reader: Uuid, e: Event)
    requires ValidRun(Fresh(), steps) && reader in Exec(Fresh(), steps).readers
    ensures var s := Exec(Fresh(), steps);
            e in s.readers[reader].received <==>
              && e in s.row.events && e.sequence <= s.readers[reader].cursor
              && (FilterOf(steps, reader) == None || FilterOf(steps, reader) == Some(e.visibility))
    ensures Ordered(Exec(Fresh(), steps).readers[reader].received)
  {
    RunKeepsInv(steps);
    FiltersStay(steps, reader);
    CaughtUpMembers(Exec(Fresh(), steps).readers[reader], Exec(Fresh(), steps).row, e);
  }

  /** What the committed transactions published, and what the open one has, from the steps alone. */
  datatype Ledger = Ledger(committed: seq<(string, Visibility)>, open: seq<(string, Visibility)>)

  function LedgerOf(steps: seq<Step>): Ledger {
    if steps == [] then Ledger([], [])
    else
      var l := LedgerOf(steps[..|steps| - 1]);
      match steps[|steps| - 1]
      case Publish(_, kind, visibility) => l.(open := l.open + [(kind, visibility)])
      case Commit(_) => Ledger(l.committed + l.open, [])
      case Rollback(_) => l.(open := [])
      case _ => l
  }

  function Contents(events: seq<Event>): seq<(string, Visibility)> {
    seq(|events|, i requires 0 <= i < |events| => (events[i].kind, events[i].visibility))
  }

  lemma {:induction false} LedgerInRun(steps: seq<Step>)
    requires ValidRun(Fresh(), steps)
    ensures var s, l := Exec(Fresh(), steps), LedgerOf(steps);
            && Contents(s.row.events) == l.committed
            && (s.lock.None? ==> l.open == [])
            && (s.lock.Some? ==> Contents(s.lock.value.row.events) == l.committed + l.open)
  {
    if steps != [] {
      var init := steps[..|steps| - 1];
      LedgerInRun(init);
      var s, l := Exec(Fresh(), init), LedgerOf(init);
      if steps[|steps| - 1].Publish? {
        var mine := if s.lock.Some? then s.lock.value.row else s.row;
        var st := steps[|steps| - 1];
        assert Contents(Appended(mine, st.kind, st.visibility).events)
            == Contents(mine.events) + [(st.kind, st.visibility)];
        assert l.committed + l.open + [(st.kind, st.visibility)] == l.committed + (l.open + [(st.kind, st.visibility)]);
      }
    }
  }

  /** The committed stream is what the committed transactions published, in commit order, with
      the kinds and visibilities they gave; what was rolled back left no trace. */
  lemma StreamIsWhatCommitted(steps: seq<Step>)
    requires ValidRun(Fresh(), steps)
    ensures Contents(Exec(Fresh(), steps).row.events) == LedgerOf(steps).committed
  {
    LedgerInRun(steps);
  }

  // ---------------------------------------------------------------- paging to the end

  /** Everything of a table a reader with this filter may see. */
  function Visible(row: Row, filter: Option<Visibility>): seq<Event> { Pending(row.events, 0, filter) }

  function Min(a: nat, b: nat): nat { if a < b then a else b }

  /** One page brings what it asks for, or all there is. */
  lemma PageLength(s: Stream, reader: Uuid, limit: nat)
    requires Inv(s) && Enabled(s, Page(reader, limit))
    ensures var r, t := s.readers[reader], Next(s, Page(reader, limit)).readers[reader];
            && t.filter == r.filter && r.received <= Visible(s.row, r.filter)
            && |t.received| == Min(|Visible(s.row, r.filter)|, |r.received| + limit)
  {
    PendingSplits(s.row.events, s.readers[reader].cursor, s.readers[reader].filter);
  }

  lemma VisibleGrows(a: Row, b: Row, filter: Option<Visibility>)
    requires GapFree(a) && GapFree(b) && a.events <= b.events
    ensures Visible(a, filter) <= Visible(b, filter)
  {
    assert b.events[..|a.events|] == a.events;
    PendingSplits(b.events, |a.events|, filter);
  }

  /** How many events the pages of a reader ask for in total. */
  function Asked(steps: seq<Step>, reader: Uuid): nat {
    if steps == [] then 0
    else
      var last := steps[|steps| - 1];
      Asked(steps[..|steps| - 1], reader) + if last.Page? && last.reader == reader then last.limit else 0
  }

  predicate Uncommitted(steps: seq<Step>) { forall st <- steps :: !st.Commit? }

  /** How far a reader may be after a stretch of steps that asked for `asked` events. */
  predicate Progressed(s: Stream, t: Stream, reader: Uuid, asked: nat)
    requires reader in s.readers
  {
    && s.row.events <= t.row.events && reader in t.readers
    && var r, v := s.readers[reader], t.readers[reader];
       && v.filter == r.filter && v.received <= Visible(t.row, r.filter)
       && Min(|Visible(s.row, r.filter)|, |r.received| + asked) <= |v.received| <= |r.received| + asked
  }

  lemma StepProgresses(s: Stream, m: Stream, st: Step, reader: Uuid, asked: nat)
    requires reader in s.readers && Inv(s) && Inv(m) && Enabled(m, st) && Progressed(s, m, reader, asked)
    ensures Progressed(s, Next(m, st), reader, asked + if st.Page? && st.reader == reader then st.limit else 0)
  {
    var filter := s.readers[reader].filter;
    StepKeepsInv(m, st);
    VisibleGrows(s.row, m.row, filter);
    VisibleGrows(m.row, Next(m, st).row, filter);
    var t := Next(m, st);
    PendingSplits(t.row.events, t.readers[reader].cursor, filter);
    if st.Page? && st.reader == reader { PageLength(m, reader, st.limit); }
  }

  lemma StartsProgressed(s: Stream, reader: Uuid)
    requires Inv(s) && reader in s.readers
    ensures Progressed(s, s, reader, 0)
  {
    PendingSplits(s.row.events, s.readers[reader].cursor, s.readers[reader].filter);
  }

  lemma {:induction false} PagingProgresses(s: Stream, steps: seq<Step>, reader: Uuid)
    requires Inv(s) && reader in s.readers && ValidRun(s, steps)
    ensures Inv(Exec(s, steps)) && Progressed(s, Exec(s, steps), reader, Asked(steps, reader))
  {
    if steps == [] {
      StartsProgressed(s, reader);
    } else {
      var init, st := steps[..|steps| - 1], steps[|steps| - 1];
      PagingProgresses(s, init, reader);
      var m := Exec(s, init);
      StepKeepsInv(m, st);
      StepProgresses(s, m, st, reader, Asked(init, reader));
    }
  }

  lemma {:induction false} UncommittedRow(s: Stream, steps: seq<Step>)
    requires ValidRun(s, steps) && Uncommitted(steps)
    ensures Exec(s, steps).row == s.row
  {
    if steps != [] {
      assert steps[|steps| - 1] in steps;
      UncommittedRow(s, steps[..|steps| - 1]);
    }
  }

  lemma ProgressCatchesUp(s: Stream, t: Stream, reader: Uuid, asked: nat)
    requires Inv(s) && Inv(t) && reader in s.readers && Progressed(s, t, reader, asked)
    ensures var r, v := s.readers[reader], t.readers[reader];
            var all := Visible(s.row, r.filter);
            && |r.received| <= |all|
            && (asked >= |all| - |r.received| ==> all <= v.received)
            && (t.row == s.row ==> (v.received == all <==> asked >= |all| - |r.received|))
  {
    var filter := s.readers[reader].filter;
    PendingSplits(s.row.events, s.readers[reader].cursor, filter);
    VisibleGrows(s.row, t.row, filter);
    var all, got := Visible(s.row, filter), t.readers[reader].received;
    if |all| <= |got| { PrefixesByLength(all, got, Visible(t.row, filter)); }
  }

  /** Paging ends.  Once the pages of a reader have asked for as many events as it lacked, it
      holds everything that was committed when it started, whatever is published, committed or
      rolled back meanwhile.  While nothing is committed it is level exactly from then on, so
      pages of one size take the number of missing events divided by that size, rounded up. */
  lemma PagingCatchesUp(past: seq<Step>, steps: seq<Step>, reader: Uuid)
    requires ValidRun(Fresh(), past) && reader in Exec(Fresh(), past).readers && ValidRun(Exec(Fresh(), past), steps)
    ensures reader in Exec(Exec(Fresh(), past), steps).readers
    ensures var s := Exec(Fresh(), past);
            var r, v := s.readers[reader], Exec(s, steps).readers[reader];
            var all := Visible(s.row, r.filter);
            && |r.received| <= |all|
            && (Asked(steps, reader) >= |all| - |r.received| ==> all <= v.received)
            && (Uncommitted(steps) ==> (v.received == all <==> Asked(steps, reader) >= |all| - |r.received|))
  {
    RunKeepsInv(past);
    var s := Exec(Fresh(), past);
    PagingProgresses(s, steps, reader);
    ProgressCatchesUp(s, Exec(s, steps), reader, Asked(steps, reader));
    if Uncommitted(steps) { UncommittedRow(s, steps); }
  }

  lemma PrefixesByLength(a: seq<Event>, b: seq<Event>, whole: seq<Event>)
    requires a <= whole && b <= whole && |a| <= |b|
    ensures a <= b
  {
    assert forall i | 0 <= i < |a| :: a[i] == whole[i] == b[i];
  }

  // ---------------------------------------------------------------- the service itself

  const MAX_BYTES: nat := 32_768

  /** A mapping of bounded depth that encodes as JSON of bounded size. */
  predicate PayloadOk(payload: Value, bytes: Option<nat>) {
    payload.Mapping? && DepthOk(payload, 1) && bytes.Some? && bytes.value <= MAX_BYTES
  }

  // ---------------------------------------------------------------- payloads

  /** A payload is accepted iff it is an object whose keys are all text, nested at most eight
      levels deep, and encodes as JSON of at most 32768 bytes. */
  lemma PayloadIff(payload: Value, bytes: Option<nat>)
    ensures PayloadOk(payload, bytes) <==>
            && payload.Mapping? && TextKeys(payload) && !HasChain(payload, 9)
            && bytes.Some? && bytes.value <= 32_768
  {
    DepthGuardIsExact(payload, 1);
  }

  datatype Published = InvalidEvent | Missing | Stored(event: Event)

  datatype Listed = InvalidPage | NoConversation | InvalidFilter | Listing(events: seq<Event>)

  /** A page holds only events after the cursor of the visibility asked for, in order, and misses
      none of them up to its last one, or none at all when it is shorter than its limit. */
  predicate ExactPage(events: seq<Event>, after: int, wanted: Option<Visibility>, limit: int, page: seq<Event>) {
    && |page| <= limit && Ordered(page)
    && (forall e <- page :: e in events && e.sequence > after && (wanted == None || wanted == Some(e.visibility)))
    && (forall e <- events ::
          && e.sequence > after && (wanted == None || wanted == Some(e.visibility))
          && (|page| < limit || (page != [] && e.sequence <= page[|page| - 1].sequence))
          ==> e in page)
  }

  lemma PagePrefix(all: seq<Event>, limit: nat, e: Event)
    requires limit >= 1 && Ordered(all)
    ensures var page := Take(all, limit);
            && page <= all && Ordered(page) && |page| <= limit
            && (e in page ==> e in all)
            && (e in all && (|page| < limit || (page != [] && e.sequence <= page[|page| - 1].sequence)) ==> e in page)
  {
    var page := Take(all, limit);
    if e in all && (|page| < limit || (page != [] && e.sequence <= page[|page| - 1].sequence)) {
      var i :| 0 <= i < |all| && all[i] == e;
      assert page[i] == e;
    }
  }

  lemma PageIsExact(events: seq<Event>, after: nat, filter: Option<Visibility>, limit: nat)
    requires limit >= 1 && Ordered(events)
    ensures ExactPage(events, after, filter, limit, Take(Pending(events, after, filter), limit))
  {
    var all := Pending(events, after, filter);
    var page := Take(all, limit);
    PendingOrdered(events, after, filter);
    forall e ensures e in page ==> e in all
             ensures e in all && (|page| < limit || (page != [] && e.sequence <= page[|page| - 1].sequence))
                     ==> e in page {
      PagePrefix(all, limit, e);
    }
    forall e
      ensures e in all <==> e in events && e.sequence > after && (filter == None || filter == Some(e.visibility)) {
      PendingMembers(events, after, filter, e);
    }
    assert Ordered(page) && |page| <= limit;
  }

  class EventService {
    const conversation: Uuid
    const agent: Uuid
    var next: nat
    var events: seq<Event>

    ghost function View(): Row
      reads this
    {
      Row(next, events)
    }

    /** Events are numbered from one. */
    ghost predicate Valid()
      reads this
    {
      GapFree(View())
    }

    constructor (conversation: Uuid, agent: Uuid)
      ensures Valid() && View() == Row(1, []) && this.conversation == conversation && this.agent == agent
    {
      this.conversation, this.agent := conversation, agent;
      next, events := 1, [];
    }

    /** Checks, numbers and appends one event inside the caller's transaction; `bytes` is the
        size of the encoded payload, if it encodes. A visibility that is none reads as none. */
    method PublishEvent(id: Uuid, owner: Uuid, kind: string, visibility: Option<Visibility>, payload: Value,
                        bytes: Option<nat>)
      returns (r: Published)
      requires Valid()
      modifies this
      ensures Valid()
      ensures r == InvalidEvent <==> !TypeOk(kind) || visibility.None? || !PayloadOk(payload, bytes)
      ensures r.Stored? ==>
                r.event.kind == kind && Some(r.event.visibility) == visibility && events == old(events) + [r.event]
      ensures r == Missing <==> r != InvalidEvent && (id != conversation || owner != agent)
      ensures r.Stored? ==> View() == Appended(old(View()), kind, visibility.value) && r.event == events[|events| - 1]
      ensures !r.Stored? ==> View() == old(View())
    {
      if !TypeOk(kind) { return InvalidEvent; }
      if visibility.None? { return InvalidEvent; }
      if !PayloadOk(payload, bytes) { return InvalidEvent; }
      if id != conversation || owner != agent { return Missing; }
      var e := Event(next, kind, visibility.value);
      next := next + 1;
      events := events + [e];
      return Stored(e);
    }

    /** One page after a cursor.  Refused are a cursor or limit out of range, then an absent
        conversation, then a visibility asked for that is none. */
    method ListAfter(id: Uuid, owner: Uuid, after: int, limit: int, wanted: Option<Option<Visibility>>)
      returns (r: Listed)
      requires Valid()
      ensures r == InvalidPage <==> after < 0 || limit < 1 || limit > MAX_PAGE
      ensures r == NoConversation <==> r != InvalidPage && (id != conversation || owner != agent)
      ensures r == InvalidFilter <==> r != InvalidPage && r != NoConversation && wanted == Some(None)
      ensures r.Listing? ==>
                r == Listing(Take(Pending(events, after, if wanted.Some? then wanted.value else None), limit))
      ensures r.Listing? ==>
                limit <= 500 && ExactPage(events, after, if wanted.Some? then wanted.value else None, limit, r.events)
    {
      if after < 0 || limit < 1 || limit > MAX_PAGE { return InvalidPage; }
      if id != conversation || owner != agent { return NoConversation; }
      if wanted.Some? && wanted.value.None? { return InvalidFilter; }
      var filter := if wanted.Some? then wanted.value else None;
      var rows: seq<Event> := [];
      for i := 0 to |events|
        invariant rows == Take(Pending(events[..i], after, filter), limit)
      {
        assert events[..i + 1][..i] == events[..i];
        if events[i].sequence > after && Shows(filter, events[i]) && |rows| < limit {
          rows := rows + [events[i]];
        }
      }
      assert events[..|events|] == events;
      PageIsExact(events, after, filter, limit);
      return Listing(rows);
    }
  }

  // ---------------------------------------------------------------- payload depth

  /** A payload value; mappings may have keys that are not strings. */
  datatype Value = Scalar | Mapping(fields: seq<Field>) | List(items: seq<Value>)
  datatype Field = Field(textKey: bool, value: Value)

  const MAX_DEPTH: nat := 8

  /** The recursive guard: too deep or a non-text key is refused. */
  predicate DepthOk(v: Value, depth: int) {
    && depth <= MAX_DEPTH
    && match v
       case Scalar => true
       case Mapping(fields) => forall f <- fields :: f.textKey && DepthOk(f.value, depth + 1)
       case List(items) => forall x <- items :: DepthOk(x, depth + 1)
  }

  predicate TextKeys(v: Value) {
    match v
    case Scalar => true
    case Mapping(fields) => forall f <- fields :: f.textKey && TextKeys(f.value)
    case List(items) => forall x <- items :: TextKeys(x)
  }

  /** A chain of this many values, each nested in the one before, starting with the value itself. */
  predicate HasChain(v: Value, length: nat) {
    if length <= 1 then length <= 1
    else match v
      case Scalar => false
      case Mapping(fields) => exists f <- fields :: HasChain(f.value, length - 1)
      case List(items) => exists x <- items :: HasChain(x, length - 1)
  }

  /** The guard accepts exactly the text-keyed values without a chain of nested values
      longer than the levels left. */
  lemma {:induction false} DepthGuardIsExact(v: Value, depth: int)
    requires 1 <= depth <= MAX_DEPTH + 1
    ensures DepthOk(v, depth) <==> TextKeys(v) && !HasChain(v, MAX_DEPTH + 2 - depth)
    decreases v
  {
    match v
    case Scalar =>
    case Mapping(fields) =>
      if depth <= MAX_DEPTH {
        forall f | f in fields
          ensures DepthOk(f.value, depth + 1) <==> TextKeys(f.value) && !HasChain(f.value, MAX_DEPTH + 1 - depth) {
          DepthGuardIsExact(f.value, depth + 1);
        }
      }
    case List(items) =>
      if depth <= MAX_DEPTH {
        forall x | x in items ensures DepthOk(x, depth + 1) <==> TextKeys(x) && !HasChain(x, MAX_DEPTH + 1 - depth) {
          DepthGuardIsExact(x, depth + 1);
        }
      }
  }
}
