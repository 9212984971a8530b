/** Typing presence over whole runs: index completeness, order independence and limits. */
module PresenceGuarantees {
  import opened Common
  import opened PresenceModel

  // ---------------------------------------------------------------- index completeness

  /** A lease with its own bookkeeping intact at time `t`. */
  predicate LeaseOk(h: Hash, l: Lease, t: Time) {
    && l.at <= t
    && (l.expiry == 0 || l.expiry == l.at + TTL)
    && l.at + RETENTION <= h.expiresAt
  }

  /** A running lease is in the index of its agent, which outlives it. */
  predicate Indexed(r: Redis, k: Key, l: Lease) {
    && k.agent in r.indexes
    && l.at + RETENTION <= r.indexes[k.agent].expiresAt
    && k.conversation in r.indexes[k.agent].scores
    && l.expiry <= r.indexes[k.agent].scores[k.conversation]
  }

  predicate Covered(r: Redis, t: Time) {
    && (forall k, i :: k in r.hashes && i in r.hashes[k].rows ==> LeaseOk(r.hashes[k], r.hashes[k].rows[i], t))
    && (forall k, i :: k in r.hashes && i in r.hashes[k].rows && r.hashes[k].rows[i].expiry > Max(t, 0)
          ==> Indexed(r, k, r.hashes[k].rows[i]))
    && (forall k :: k in r.hashes ==> |r.hashes[k].rows| <= MAX_INSTANCES)
    && (forall a :: a in r.indexes ==> r.indexes[a].expiresAt <= t + RETENTION)
  }

  lemma RetainedSmaller(rows: map<Instance, Lease>, now: Time)
    ensures |Retained(rows, now)| <= |rows|
  {
    assert Retained(rows, now).Keys <= rows.Keys;
    SubsetSize(Retained(rows, now).Keys, rows.Keys);
  }

  lemma {:induction false} SubsetSize<T>(a: set<T>, b: set<T>)
    requires a <= b
    ensures |a| <= |b|
  {
    assert b == a + (b - a);
  }

  lemma IndexStays(r: Redis, s: Signal, k: Key, l: Lease, t: Time)
    requires Indexed(r, k, l) && l.expiry > Max(s.now, 0) && l.expiry == l.at + TTL && t <= s.now
    requires forall a :: a in r.indexes ==> r.indexes[a].expiresAt <= t + RETENTION
    ensures Indexed(r.(indexes := NewIndex(r, s)), k, l)
  {
  }

  lemma NewIndexBound(r: Redis, s: Signal, t: Time)
    requires t <= s.now && forall a :: a in r.indexes ==> r.indexes[a].expiresAt <= t + RETENTION
    ensures forall a :: a in NewIndex(r, s) ==> NewIndex(r, s)[a].expiresAt <= s.now + RETENTION
  {
  }

  lemma PruneKeepsCovered(r: Redis, s: Signal, t: Time)
    requires Covered(r, t) && t <= s.now
    ensures Covered(r.(hashes := WithRows(r, s, Kept(r, s))), s.now)
  {
    var p := r.(hashes := WithRows(r, s, Kept(r, s)));
    RetainedSmaller(Rows(r, s.key, s.now), s.now);
    forall k, i | k in p.hashes && i in p.hashes[k].rows
      ensures LeaseOk(p.hashes[k], p.hashes[k].rows[i], s.now)
      ensures p.hashes[k].rows[i].expiry > Max(s.now, 0) ==> Indexed(p, k, p.hashes[k].rows[i])
    {
      assert k in r.hashes && i in r.hashes[k].rows && r.hashes[k].rows[i] == p.hashes[k].rows[i];
    }
  }

  /** Rate counters play no part in coverage. */
  lemma RatesIrrelevant(r: Redis, rates: map<RateKey, Rate>, t: Time)
    requires Covered(r, t)
    ensures Covered(r.(rates := rates), t)
  {
    forall k, i | k in r.hashes && i in r.hashes[k].rows && r.hashes[k].rows[i].expiry > Max(t, 0)
      ensures Indexed(r.(rates := rates), k, r.hashes[k].rows[i])
    {
      assert Indexed(r, k, r.hashes[k].rows[i]);
    }
  }

  lemma PublishKeepsCovered(r: Redis, s: Signal, t: Time)
    requires Covered(r, t) && t <= s.now
    ensures Covered(Publish(r, s), s.now)
  {
    if Judge(r, s) == Accepted {
      AcceptKeepsCovered(r, s, t);
    } else {
      PruneKeepsCovered(r, s, t);
      RatesIrrelevant(r.(hashes := WithRows(r, s, Kept(r, s))), Publish(r, s).rates, s.now);
    }
  }

  lemma AcceptKeepsLeases(r: Redis, s: Signal, t: Time, k: Key, i: Instance)
    requires Covered(r, t) && t <= s.now && Judge(r, s) == Accepted
    requires k in Publish(r, s).hashes && i in Publish(r, s).hashes[k].rows
    ensures var p := Publish(r, s);
            && LeaseOk(p.hashes[k], p.hashes[k].rows[i], s.now)
            && (p.hashes[k].rows[i].expiry > Max(s.now, 0) ==> Indexed(p, k, p.hashes[k].rows[i]))
  {
    var p := Publish(r, s);
    var l := p.hashes[k].rows[i];
    if k != s.key || i != s.instance {
      assert k in r.hashes && i in r.hashes[k].rows && r.hashes[k].rows[i] == l;
      if l.expiry > Max(s.now, 0) { IndexStays(r, s, k, l, t); }
    }
  }

  lemma AcceptKeepsSize(r: Redis, s: Signal, t: Time)
    requires Covered(r, t) && t <= s.now && Judge(r, s) == Accepted
    ensures |Publish(r, s).hashes[s.key].rows| <= MAX_INSTANCES
  {
    RetainedSmaller(Rows(r, s.key, s.now), s.now);
    var kept := Kept(r, s);
    assert Publish(r, s).hashes[s.key].rows.Keys == kept.Keys + {s.instance};
  }

  lemma AcceptKeepsCovered(r: Redis, s: Signal, t: Time)
    requires Covered(r, t) && t <= s.now && Judge(r, s) == Accepted
    ensures Covered(Publish(r, s), s.now)
  {
    var p := Publish(r, s);
    NewIndexBound(r, s, t);
    AcceptKeepsSize(r, s, t);
    forall k, i | k in p.hashes && i in p.hashes[k].rows
      ensures LeaseOk(p.hashes[k], p.hashes[k].rows[i], s.now)
      ensures p.hashes[k].rows[i].expiry > Max(s.now, 0) ==> Indexed(p, k, p.hashes[k].rows[i])
    {
      AcceptKeepsLeases(r, s, t, k, i);
    }
  }

  lemma {:induction false} RunKeepsCovered(r: Redis, signals: seq<Signal>, start: Time)
    requires Covered(r, start) && Monotone(signals) && (signals != [] ==> start <= signals[0].now)
    ensures Covered(Run(r, signals), Clock(start, signals))
    ensures start <= Clock(start, signals)
  {
    if signals != [] {
      var init := signals[..|signals| - 1];
      RunKeepsCovered(r, init, start);
      PublishKeepsCovered(Run(r, init), signals[|signals| - 1], Clock(start, init));
    }
  }

  /** Every conversation somebody is typing in is found through its agent's index, with a
      score that reaches at least to the end of that lease, at any later reading time. */
  lemma IndexIsComplete(signals: seq<Signal>, now: Time, k: Key, i: Instance)
    requires Monotone(signals) && (forall s <- signals :: 0 <= s.now <= now)
    requires i in Rows(Run(Empty(), signals), k, now) && Rows(Run(Empty(), signals), k, now)[i].expiry > now >= 0
    ensures var live := After(Scores(Run(Empty(), signals), k.agent, now), now);
            k.conversation in live && live[k.conversation] >= Rows(Run(Empty(), signals), k, now)[i].expiry
  {
    RunKeepsCovered(Empty(), signals, 0);
    var r := Run(Empty(), signals);
    var l := Rows(r, k, now)[i];
    assert l == r.hashes[k].rows[i];
    assert Indexed(r, k, l);
  }

  /** No actor ever holds more than eight client instances under one ownership epoch. */
  lemma InstancesAreBounded(signals: seq<Signal>, k: Key)
    requires Monotone(signals) && (forall s <- signals :: 0 <= s.now) && k in Run(Empty(), signals).hashes
    ensures |Run(Empty(), signals).hashes[k].rows| <= 8
  {
    RunKeepsCovered(Empty(), signals, 0);
  }

  // ---------------------------------------------------------------- order independence

  predicate Mine(s: Signal, k: Key, i: Instance) { s.key == k && s.instance == i }

  /** The highest-numbered signal of an instance; the first of equals. */
  function Highest(signals: seq<Signal>, k: Key, i: Instance): Option<Signal> {
    if signals == [] then None
    else
      var best, s := Highest(signals[..|signals| - 1], k, i), signals[|signals| - 1];
      if !Mine(s, k, i) then best
      else if best.None? || best.value.sequence < s.sequence then Some(s)
      else best
  }

  /** No signal of the instance was turned away by a limit. */
  predicate Unlimited(r: Redis, signals: seq<Signal>, k: Key, i: Instance) {
    signals != [] ==>
      && Unlimited(r, signals[..|signals| - 1], k, i)
      && (Mine(signals[|signals| - 1], k, i)
          ==> Judge(Run(r, signals[..|signals| - 1]), signals[|signals| - 1]) != Limited)
  }

  /** What the hash holds for an instance, epochs and other tabs aside. */
  predicate Stores(r: Redis, k: Key, i: Instance, want: Option<Signal>) {
    if want.None? then k !in r.hashes || i !in r.hashes[k].rows
    else
      && k in r.hashes && i in r.hashes[k].rows
      && r.hashes[k].rows[i] == Lease(want.value.sequence, want.value.now, ExpiryOf(want.value))
      && want.value.now + RETENTION <= r.hashes[k].expiresAt
  }

  lemma {:induction false} HighestInRun(signals: seq<Signal>, k: Key, i: Instance)
    ensures Highest(signals, k, i).Some?
      ==> Highest(signals, k, i).value in signals && Mine(Highest(signals, k, i).value, k, i)
    ensures forall s <- signals :: Mine(s, k, i) ==>
              Highest(signals, k, i).Some? && s.sequence <= Highest(signals, k, i).value.sequence
  {
    if signals != [] {
      HighestInRun(signals[..|signals| - 1], k, i);
      assert signals == signals[..|signals| - 1] + [signals[|signals| - 1]];
    }
  }

  predicate IsNewHighest(s: Signal, k: Key, i: Instance, best: Option<Signal>) {
    Mine(s, k, i) && (best.None? || best.value.sequence < s.sequence)
  }

  /** Every signal on the hash came while the highest number of the instance before it was still
      remembered, or was itself a higher one. Signals on other hashes may come at any time. */
  predicate Remembered(signals: seq<Signal>, k: Key, i: Instance) {
    signals != [] ==>
      var init, s := signals[..|signals| - 1], signals[|signals| - 1];
      var best := Highest(init, k, i);
      && Remembered(init, k, i)
      && (s.key == k && best.Some? && !IsNewHighest(s, k, i, best) ==> s.now < best.value.now + RETENTION)
  }

  lemma PublishStores(r: Redis, s: Signal, k: Key, i: Instance, want: Option<Signal>)
    requires Stores(r, k, i, want)
    requires want.Some? ==> want.value.now <= s.now
    requires s.key == k && want.Some? && !IsNewHighest(s, k, i, want) ==> s.now < want.value.now + RETENTION
    requires Mine(s, k, i) ==> Judge(r, s) != Limited
    ensures Stores(Publish(r, s), k, i, if IsNewHighest(s, k, i, want) then Some(s) else want)
  {
  }

  /** Whatever other tabs and actors send in between, the stored lease is that of the highest
      sequence delivered, in whatever order the signals arrive while it is remembered. */
  lemma {:induction false} HighestSequenceWins(r: Redis, signals: seq<Signal>, k: Key, i: Instance)
    requires Stores(r, k, i, None) && Monotone(signals)
    requires Unlimited(r, signals, k, i) && Remembered(signals, k, i)
    ensures Stores(Run(r, signals), k, i, Highest(signals, k, i))
  {
    if signals != [] {
      var init, s := signals[..|signals| - 1], signals[|signals| - 1];
      HighestSequenceWins(r, init, k, i);
      HighestInRun(init, k, i);
      if Highest(init, k, i).Some? {
        var a :| 0 <= a < |init| && init[a] == Highest(init, k, i).value;
        assert signals[a] == init[a];
      }
      PublishStores(Run(r, init), s, k, i, Highest(init, k, i));
    }
  }

  /** Signals on the hash within one retention time after each of the instance's are remembered. */
  lemma {:induction false} NearSignalsAreRemembered(signals: seq<Signal>, k: Key, i: Instance)
    requires forall a, b :: 0 <= a < |signals| && 0 <= b < |signals| && Mine(signals[a], k, i) && signals[b].key == k
               ==> signals[b].now < signals[a].now + RETENTION
    ensures Remembered(signals, k, i)
  {
    if signals != [] {
      var init := signals[..|signals| - 1];
      forall a, b | 0 <= a < |init| && 0 <= b < |init| && Mine(init[a], k, i) && init[b].key == k
        ensures init[b].now < init[a].now + RETENTION {
        assert init[a] == signals[a] && init[b] == signals[b];
      }
      NearSignalsAreRemembered(init, k, i);
      HighestInRun(init, k, i);
      if Highest(init, k, i).Some? {
        var a :| 0 <= a < |init| && init[a] == Highest(init, k, i).value;
        assert signals[a] == init[a];
      }
    }
  }

  /** The same from the arrival times alone: no signal on the hash comes a retention time or more
      after any of the instance's. */
  lemma NearbySignalsHighestWins(r: Redis, signals: seq<Signal>, k: Key, i: Instance)
    requires Stores(r, k, i, None) && Monotone(signals) && Unlimited(r, signals, k, i)
    requires forall a, b :: 0 <= a < |signals| && 0 <= b < |signals| && Mine(signals[a], k, i) && signals[b].key == k
               ==> signals[b].now < signals[a].now + RETENTION
    ensures Stores(Run(r, signals), k, i, Highest(signals, k, i))
  {
    NearSignalsAreRemembered(signals, k, i);
    HighestSequenceWins(r, signals, k, i);
  }

  /** How far the tombstones reach: a repeated or lower number is recognised as stale iff it
      comes within the retention time of the stored one; after that it counts as new. */
  lemma StaleIffRemembered(r: Redis, s: Signal, k: Key, i: Instance, h: Signal)
    requires Stores(r, k, i, Some(h)) && Mine(s, k, i) && s.sequence <= h.sequence && h.now <= s.now
    ensures Judge(r, s) == Stale <==> s.now < h.now + RETENTION
    ensures s.now >= h.now + RETENTION && Judge(r, s) != Limited ==> Stores(Publish(r, s), k, i, Some(s))
  {
  }

  /** A stop and, one retention time later, the start it was meant to end: the start counts. */
  lemma ForgottenStopRevives(k: Key, i: Instance)
    ensures var run := [Signal(0, k, i, 2, false), Signal(RETENTION, k, i, 1, true)];
            var r := Run(Empty(), run);
            k in r.hashes && i in r.hashes[k].rows && r.hashes[k].rows[i] == Lease(1, RETENTION, RETENTION + TTL)
  {
    var stop, start := Signal(0, k, i, 2, false), Signal(RETENTION, k, i, 1, true);
    var r := Publish(Empty(), stop);
    assert [stop][..0] == [] && [stop, start][..1] == [stop];
    assert Run(Empty(), [stop]) == r && Run(Empty(), [stop, start]) == Publish(r, start);
    StopIsStored(stop);
    assert Bumped(r, RateOf(k), RETENTION).count == 1;
    assert |Kept(r, start)| == 0;
    StaleIffRemembered(r, start, k, i, stop);
  }

  lemma StopIsStored(stop: Signal)
    requires stop.now == 0
    ensures var r := Publish(Empty(), stop);
            Stores(r, stop.key, stop.instance, Some(stop)) && r.rates == map[RateOf(stop.key) := Rate(1, WINDOW)]
            && r.hashes == map[stop.key :=
                                 Hash(map[stop.instance := Lease(stop.sequence, 0, ExpiryOf(stop))], RETENTION)]
  {
    assert Kept(Empty(), stop) == map[];
  }

  /** Some delivered signal of the instance has this number and this flag. */
  predicate Offers(a: seq<Signal>, k: Key, i: Instance, sequence: nat, typing: bool) {
    exists s <- a :: Mine(s, k, i) && s.sequence == sequence && s.typing == typing
  }

  /** The same signals of the instance, whatever their arrival times. */
  ghost predicate SameContent(a: seq<Signal>, b: seq<Signal>, k: Key, i: Instance) {
    forall n: nat, f: bool :: Offers(a, k, i, n, f) <==> Offers(b, k, i, n, f)
  }

  ghost predicate Distinct(a: seq<Signal>, k: Key, i: Instance) {
    forall n: nat :: !(Offers(a, k, i, n, true) && Offers(a, k, i, n, false))
  }

  lemma HighestOffers(a: seq<Signal>, k: Key, i: Instance)
    ensures Highest(a, k, i).Some? ==>
              Highest(a, k, i).value in a
                  && Offers(a, k, i, Highest(a, k, i).value.sequence, Highest(a, k, i).value.typing)
    ensures forall n: nat, f: bool :: Offers(a, k, i, n, f)
              ==> Highest(a, k, i).Some? && n <= Highest(a, k, i).value.sequence
  {
    HighestInRun(a, k, i);
  }

  /** The highest signal is determined by the content alone. */
  lemma HighestContent(a: seq<Signal>, b: seq<Signal>, k: Key, i: Instance)
    requires SameContent(a, b, k, i) && Distinct(a, k, i) && (exists s <- a :: Mine(s, k, i))
    ensures Highest(a, k, i).Some? && Highest(b, k, i).Some?
    ensures Highest(a, k, i).value in a && Highest(b, k, i).value in b
    ensures Highest(a, k, i).value.sequence == Highest(b, k, i).value.sequence
    ensures Highest(a, k, i).value.typing == Highest(b, k, i).value.typing
  {
    HighestOffers(a, k, i);
    HighestOffers(b, k, i);
    var s :| s in a && Mine(s, k, i);
    assert Offers(a, k, i, s.sequence, s.typing);
    var ha := Highest(a, k, i).value;
    assert Offers(b, k, i, ha.sequence, ha.typing);
    var hb := Highest(b, k, i).value;
    assert Offers(a, k, i, hb.sequence, hb.typing);
  }

  /** A delivery of an instance's signals that meets no limit, starts without a lease of the
      instance, and keeps its highest number remembered. Times count from zero. */
  predicate Delivers(r: Redis, a: seq<Signal>, k: Key, i: Instance) {
    && Stores(r, k, i, None) && Monotone(a) && Unlimited(r, a, k, i) && Remembered(a, k, i)
    && forall s <- a :: Mine(s, k, i) ==> s.now >= 0
  }

  /** Two deliveries of the same signals in different orders, into any two stores and among any
      other traffic, store the same sequence and the same typing flag, so a start that arrives
      after its stop never revives it. */
  lemma DeliveryOrderIsIrrelevant(p: Redis, a: seq<Signal>, q: Redis, b: seq<Signal>, k: Key, i: Instance)
    requires Delivers(p, a, k, i) && Delivers(q, b, k, i)
    requires SameContent(a, b, k, i) && Distinct(a, k, i) && (exists s <- a :: Mine(s, k, i))
    ensures var x, y := Run(p, a), Run(q, b);
            && k in x.hashes && i in x.hashes[k].rows && k in y.hashes && i in y.hashes[k].rows
            && x.hashes[k].rows[i].sequence == y.hashes[k].rows[i].sequence
            && (x.hashes[k].rows[i].expiry > 0 <==> y.hashes[k].rows[i].expiry > 0)
  {
    HighestContent(a, b, k, i);
    StoredFlag(p, a, k, i);
    StoredFlag(q, b, k, i);
  }

  lemma StoredFlag(r: Redis, a: seq<Signal>, k: Key, i: Instance)
    requires Delivers(r, a, k, i)
    requires Highest(a, k, i).Some?
    ensures var p, h := Run(r, a), Highest(a, k, i).value;
            && k in p.hashes && i in p.hashes[k].rows
            && p.hashes[k].rows[i].sequence == h.sequence
            && (p.hashes[k].rows[i].expiry > 0 <==> h.typing)
  {
    HighestSequenceWins(r, a, k, i);
    HighestInRun(a, k, i);
  }

  // ---------------------------------------------------------------- rate limits

  /** When a signal was accepted, and when the window that admitted it ends. */
  datatype Admitted = Admitted(at: Time, ends: Time)

  function Admissions(r: Redis, signals: seq<Signal>, k: RateKey): seq<Admitted> {
    if signals == [] then []
    else
      var init, s := signals[..|signals| - 1], signals[|signals| - 1];
      Admissions(r, init, k)
      + if RateOf(s.key) == k && Judge(Run(r, init), s) == Accepted
        then [Admitted(s.now, Bumped(Run(r, init), k, s.now).expiresAt)] else []
  }

  predicate Windowed(a: seq<Admitted>) {
    && (forall x :: 0 <= x < |a| ==> a[x].ends - WINDOW <= a[x].at <= a[x].ends)
    && (forall x, y :: 0 <= x < y < |a| ==> a[x].ends == a[y].ends || a[x].ends < a[y].ends - WINDOW)
    && (forall x, y :: 0 <= x < y < |a| && a[x].ends == a[y].ends ==> y - x < MAX_SIGNALS)
  }

  function RateAt(r: Redis, k: RateKey): Option<Rate> { if k in r.rates then Some(r.rates[k]) else None }

  predicate RateTracks(a: seq<Admitted>, rate: Option<Rate>, t: Time) {
    if rate.None? then a == []
    else
      && rate.value.expiresAt <= t + WINDOW
      && (forall x :: 0 <= x < |a| ==> a[x].ends == rate.value.expiresAt || a[x].ends < rate.value.expiresAt - WINDOW)
      && (forall x :: 0 <= x < |a| && a[x].ends == rate.value.expiresAt ==> |a| - x <= rate.value.count)
  }

  /** The counter after one more signal, from the stored counter alone. */
  function Next(rate: Option<Rate>, now: Time): Rate {
    if rate.Some? && now <= rate.value.expiresAt then Rate(rate.value.count + 1, rate.value.expiresAt)
    else Rate(1, now + WINDOW)
  }

  lemma BumpTracks(a: seq<Admitted>, rate: Option<Rate>, t: Time, now: Time)
    requires RateTracks(a, rate, t) && t <= now
    ensures RateTracks(a, Some(Next(rate, now)), now)
  {
  }

  /** Appending to a well-windowed list: the new entry against each old one. */
  lemma WindowedAppend(a: seq<Admitted>, e: Admitted)
    requires Windowed(a) && e.ends - WINDOW <= e.at <= e.ends
    requires forall x :: 0 <= x < |a| ==> a[x].ends == e.ends || a[x].ends < e.ends - WINDOW
    requires forall x :: 0 <= x < |a| && a[x].ends == e.ends ==> |a| - x < MAX_SIGNALS
    ensures Windowed(a + [e])
  {
    var b := a + [e];
    forall x, y | 0 <= x < y < |b|
      ensures b[x].ends == b[y].ends || b[x].ends < b[y].ends - WINDOW
      ensures b[x].ends == b[y].ends ==> y - x < MAX_SIGNALS
    {
      assert b[x] == a[x];
      if y < |a| { assert b[y] == a[y]; }
    }
  }

  lemma TracksAppend(a: seq<Admitted>, e: Admitted, rate: Rate, t: Time)
    requires RateTracks(a, Some(rate), t) && e.ends == rate.expiresAt
    requires forall x :: 0 <= x < |a| && a[x].ends == rate.expiresAt ==> |a| - x < rate.count
    requires 1 <= rate.count
    ensures RateTracks(a + [e], Some(rate), t)
  {
    var b := a + [e];
    forall x | 0 <= x < |b|
      ensures b[x].ends == rate.expiresAt || b[x].ends < rate.expiresAt - WINDOW
      ensures b[x].ends == rate.expiresAt ==> |b| - x <= rate.count
    {
      if x < |a| { assert b[x] == a[x]; }
    }
  }

  lemma AdmitTracks(a: seq<Admitted>, rate: Option<Rate>, t: Time, now: Time)
    requires Windowed(a) && RateTracks(a, rate, t) && t <= now && Next(rate, now).count <= MAX_SIGNALS
    ensures Windowed(a + [Admitted(now, Next(rate, now).expiresAt)])
    ensures RateTracks(a + [Admitted(now, Next(rate, now).expiresAt)], Some(Next(rate, now)), now)
  {
    var e := Admitted(now, Next(rate, now).expiresAt);
    BumpTracks(a, rate, t, now);
    assert forall x :: 0 <= x < |a| && a[x].ends == e.ends ==> |a| - x < Next(rate, now).count;
    WindowedAppend(a, e);
    TracksAppend(a, e, Next(rate, now), now);
  }

  lemma PublishRate(r: Redis, s: Signal, k: RateKey)
    ensures RateAt(Publish(r, s), k)
            == if RateOf(s.key) == k && Judge(r, s) != Stale then Some(Next(RateAt(r, k), s.now)) else RateAt(r, k)
    ensures Bumped(r, k, s.now) == Next(RateAt(r, k), s.now)
    ensures Judge(r, s) == Accepted ==> Bumped(r, RateOf(s.key), s.now).count <= MAX_SIGNALS
  {
  }

  lemma PublishKeepsWindows(r: Redis, s: Signal, k: RateKey, a: seq<Admitted>, t: Time)
    requires Windowed(a) && RateTracks(a, RateAt(r, k), t) && t <= s.now
    ensures var b := a + if RateOf(s.key) == k && Judge(r, s) == Accepted
                         then [Admitted(s.now, Bumped(r, k, s.now).expiresAt)] else [];
            Windowed(b) && RateTracks(b, RateAt(Publish(r, s), k), s.now)
  {
    PublishRate(r, s, k);
    if RateOf(s.key) == k && Judge(r, s) == Accepted {
      AdmitTracks(a, RateAt(r, k), t, s.now);
    } else {
      BumpTracks(a, RateAt(r, k), t, s.now);
      assert a + [] == a;
    }
  }

  lemma {:induction false} RunKeepsWindows(signals: seq<Signal>, k: RateKey, start: Time)
    requires Monotone(signals) && (signals != [] ==> start <= signals[0].now)
    ensures Windowed(Admissions(Empty(), signals, k))
    ensures RateTracks(Admissions(Empty(), signals, k), RateAt(Run(Empty(), signals), k), Clock(start, signals))
  {
    if signals != [] {
      var init := signals[..|signals| - 1];
      RunKeepsWindows(init, k, start);
      PublishKeepsWindows(Run(Empty(), init), signals[|signals| - 1], k, Admissions(Empty(), init, k),
          Clock(start, init));
    }
  }

  /** A rate window admits at most six signals of one actor, whatever instances and epochs
      they use, and thirteen admissions always span more than a second. */
  lemma RateIsBounded(signals: seq<Signal>, k: RateKey, x: nat)
    requires Monotone(signals)
    ensures var a := Admissions(Empty(), signals, k);
            && (x + 6 < |a| ==> a[x].ends < a[x + 6].ends)
            && (x + 12 < |a| ==> a[x].at + 1000 < a[x + 12].at)
  {
    var start := if signals == [] then 0 else signals[0].now;
    RunKeepsWindows(signals, k, start);
    var a := Admissions(Empty(), signals, k);
    if x + 12 < |a| {
      assert a[x].ends < a[x + 6].ends - WINDOW;
      assert a[x + 6].ends < a[x + 12].ends - WINDOW;
    }
  }

  // ---------------------------------------------------------------- epochs

  /** Some signal of this very hash and instance wrote the row. */
  ghost predicate WrittenBy(signals: seq<Signal>, k: Key, i: Instance, row: Lease) {
    exists s <- signals :: Mine(s, k, i) && row == Lease(s.sequence, s.now, ExpiryOf(s))
  }

  lemma PublishWrites(r: Redis, s: Signal, k: Key, i: Instance)
    requires k in Publish(r, s).hashes && i in Publish(r, s).hashes[k].rows
    ensures var row := Publish(r, s).hashes[k].rows[i];
            || (k in r.hashes && i in r.hashes[k].rows && row == r.hashes[k].rows[i])
            || (Mine(s, k, i) && row == Lease(s.sequence, s.now, ExpiryOf(s)))
  {
  }

  /** In any run every stored row was written by a signal of its own instance under its own
      hash: the same agent, conversation, actor and both ownership epochs. */
  lemma {:induction false} RowsComeFromTheirKey(signals: seq<Signal>, k: Key, i: Instance)
    requires k in Run(Empty(), signals).hashes && i in Run(Empty(), signals).hashes[k].rows
    ensures WrittenBy(signals, k, i, Run(Empty(), signals).hashes[k].rows[i])
  {
    if signals != [] {
      var init, s := signals[..|signals| - 1], signals[|signals| - 1];
      assert signals == init + [s];
      PublishWrites(Run(Empty(), init), s, k, i);
      if !(Mine(s, k, i) && Run(Empty(), signals).hashes[k].rows[i] == Lease(s.sequence, s.now, ExpiryOf(s))) {
        RowsComeFromTheirKey(init, k, i);
        var x :| x in init && Mine(x, k, i)
            && Run(Empty(), init).hashes[k].rows[i] == Lease(x.sequence, x.now, ExpiryOf(x));
        assert x in signals;
      }
    }
  }

  /** Typing shown under an owner and epoch was signalled under exactly that owner and epoch. */
  lemma EpochChangeHidesTyping(signals: seq<Signal>, scope: Scope, actor: Actor, now: Time, i: Instance)
    requires i in Rows(Run(Empty(), signals), KeyOf(scope, actor), now)
    ensures exists s <- signals ::
              && s.instance == i && s.key.actor == actor && s.key.conversation == scope.conversation
              && s.key.controlVersion == scope.controlVersion && s.key.automationVersion == scope.automationVersion
              && s.key.automationAgent == scope.automationAgent
              && Rows(Run(Empty(), signals), KeyOf(scope, actor), now)[i] == Lease(s.sequence, s.now, ExpiryOf(s))
  {
    RowsComeFromTheirKey(signals, KeyOf(scope, actor), i);
  }
}
