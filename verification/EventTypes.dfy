/** Names of event types: the pattern as a character test, and what it accepts. */
module EventTypes {
  // ---------------------------------------------------------------- the character test

  /** Lower-case segments joined by one to five dots, the first starting with a letter. */
  predicate TypeOk(kind: string) {
    && kind != [] && 'a' <= kind[0] <= 'z' && kind[|kind| - 1] != '.'
    && (forall i | 0 <= i < |kind| :: 'a' <= kind[i] <= 'z' || '0' <= kind[i] <= '9' || kind[i] == '.')
    && (forall i | 0 <= i < |kind| - 1 :: kind[i] == '.' ==> kind[i + 1] != '.')
    && 1 <= Dots(kind) <= 5
  }

  function Dots(kind: string): nat {
    if kind == [] then 0 else Dots(kind[..|kind| - 1]) + if kind[|kind| - 1] == '.' then 1 else 0
  }

  // ---------------------------------------------------------------- segments

  predicate Letter(c: char) { 'a' <= c <= 'z' }

  predicate Plain(c: char) { Letter(c) || '0' <= c <= '9' }

  /** One or more lower-case letters or digits. */
  predicate Segment(s: string) { s != [] && AllPlain(s) }

  predicate AllPlain(s: string) { forall i | 0 <= i < |s| :: Plain(s[i]) }

  function Join(segs: seq<string>): string
    requires segs != []
  {
    var n := |segs| - 1;
    if n == 0 then segs[0] else Join(segs[..n]) + "." + segs[n]
  }

  /** Appends a character to the last of some segments. */
  function Grown(segs: seq<string>, c: char): seq<string>
    requires segs != []
  {
    segs[..|segs| - 1] + [segs[|segs| - 1] + [c]]
  }

  function Split(kind: string): (segs: seq<string>)
    ensures segs != []
  {
    if kind == [] then [""]
    else
      var rest, c := Split(kind[..|kind| - 1]), kind[|kind| - 1];
      if c == '.' then rest + [""] else Grown(rest, c)
  }

  /** Lower-case letters, digits and dots, with no dot first or next to another. */
  predicate DotsApart(kind: string) {
    && (kind != [] ==> kind[0] != '.')
    && (forall i | 0 <= i < |kind| - 1 :: kind[i] == '.' ==> kind[i + 1] != '.')
    && (forall i | 0 <= i < |kind| :: Plain(kind[i]) || kind[i] == '.')
  }

  predicate AllSegments(segs: seq<string>) { forall i | 0 <= i < |segs| :: Segment(segs[i]) }

  lemma JoinOpened(segs: seq<string>)
    requires segs != []
    ensures Join(segs + [""]) == Join(segs) + "."
  {
    assert (segs + [""])[..|segs|] == segs;
    assert Join(segs) + "." + "" == Join(segs) + ".";
  }

  lemma JoinGrown(segs: seq<string>, c: char)
    requires segs != []
    ensures Join(Grown(segs, c)) == Join(segs) + [c]
  {
    var n := |segs| - 1;
    assert Grown(segs, c)[..n] == segs[..n];
    if n > 0 { assert Join(segs[..n]) + "." + (segs[n] + [c]) == Join(segs[..n]) + "." + segs[n] + [c]; }
  }

  /** All but the last are segments; the last may be one that has only begun. */
  predicate Begun(segs: seq<string>) {
    segs != [] && (forall i | 0 <= i < |segs| - 1 :: Segment(segs[i])) && AllPlain(segs[|segs| - 1])
  }

  lemma BegunOpened(segs: seq<string>)
    requires Begun(segs) && segs[|segs| - 1] != []
    ensures Begun(segs + [""]) && (segs + [""])[0] == segs[0]
  {
  }

  lemma BegunGrown(segs: seq<string>, c: char)
    requires Begun(segs) && Plain(c)
    ensures Begun(Grown(segs, c)) && |Grown(segs, c)| == |segs| && Grown(segs, c)[|segs| - 1] != []
    ensures Grown(segs, c)[0] == if |segs| == 1 then segs[0] + [c] else segs[0]
  {
  }

  /** Splitting is undone by joining. */
  lemma {:induction false} SplitJoins(kind: string)
    ensures |Split(kind)| == Dots(kind) + 1 && Join(Split(kind)) == kind
  {
    if kind != [] {
      var init, c := kind[..|kind| - 1], kind[|kind| - 1];
      SplitJoins(init);
      assert kind == init + [c];
      if c == '.' { JoinOpened(Split(init)); } else { JoinGrown(Split(init), c); }
    }
  }

  /** It gives segments, the last of them unfinished if the text ends in a dot. */
  lemma {:induction false} SplitFacts(kind: string)
    requires DotsApart(kind)
    ensures var segs := Split(kind);
            && Begun(segs) && (segs[|segs| - 1] != [] <==> kind != [] && kind[|kind| - 1] != '.')
            && (kind != [] ==> segs[0] != [] && segs[0][0] == kind[0])
  {
    if kind != [] {
      var init, c := kind[..|kind| - 1], kind[|kind| - 1];
      SplitFacts(init);
      if c == '.' { BegunOpened(Split(init)); } else { BegunGrown(Split(init), c); }
    }
  }

  lemma {:induction false} DotsJoin(a: string, b: string)
    ensures Dots(a + b) == Dots(a) + Dots(b)
  {
    if b == [] {
      assert a + b == a;
    } else {
      assert (a + b)[..|a + b| - 1] == a + b[..|b| - 1];
      DotsJoin(a, b[..|b| - 1]);
    }
  }

  lemma {:induction false} SegmentHasNoDot(s: string)
    requires AllPlain(s)
    ensures Dots(s) == 0
  {
    if s != [] { SegmentHasNoDot(s[..|s| - 1]); }
  }

  /** What one more segment does to a name. */
  lemma JoinMore(front: string, last: string)
    requires front != [] && DotsApart(front) && front[|front| - 1] != '.' && Segment(last)
    ensures var kind := front + "." + last;
            && DotsApart(kind) && kind[|kind| - 1] != '.' && kind[0] == front[0] && Dots(kind) == Dots(front) + 1
  {
    DotsJoin(front, ".");
    DotsJoin(front + ".", last);
    SegmentHasNoDot(last);
    assert Dots(".") == 1 by { assert "."[..0] == []; }
  }

  lemma {:induction false} JoinFacts(segs: seq<string>)
    requires segs != [] && AllSegments(segs)
    ensures segs[0] != []
    ensures var kind := Join(segs);
            && kind != [] && DotsApart(kind) && kind[|kind| - 1] != '.' && kind[0] == segs[0][0]
            && Dots(kind) == |segs| - 1
  {
    var n := |segs| - 1;
    assert Segment(segs[0]);
    if n == 0 {
      SegmentHasNoDot(segs[0]);
    } else {
      assert AllSegments(segs[..n]);
      JoinFacts(segs[..n]);
      JoinMore(Join(segs[..n]), segs[n]);
    }
  }

  /** Two to six segments, the first starting with a letter. */
  predicate Named(segs: seq<string>) {
    2 <= |segs| <= 6 && AllSegments(segs) && Segment(segs[0]) && Letter(segs[0][0])
  }

  /** An event type is accepted iff it is two to six segments of lower-case letters and digits
      joined by dots, the first starting with a letter. */
  lemma TypeIsSegments(kind: string)
    ensures TypeOk(kind) <==> exists segs: seq<string> :: Named(segs) && kind == Join(segs)
  {
    if TypeOk(kind) {
      SplitFacts(kind);
      SplitJoins(kind);
      assert Named(Split(kind));
    }
    if segs: seq<string> :| Named(segs) && kind == Join(segs) { JoinFacts(segs); }
  }
}
