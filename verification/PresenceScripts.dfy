/** The three presence scripts, step by step over the stored hashes, counters and indexes. */
module PresenceScripts {
  import opened Common
  import opened PresenceModel

  /** The greatest expiry of a hash, zero for none. */
  ghost predicate IsLatest(rows: map<Instance, Lease>, m: Time) {
    && (forall i :: i in rows ==> rows[i].expiry <= m)
    && (m == 0 || exists i :: i in rows && rows[i].expiry == m)
    && 0 <= m
  }

  /** What a reader may be told at `now`: the greatest live expiry, or zero. */
  ghost predicate IsAnswer(rows: map<Instance, Lease>, now: Time, answer: Time) {
    exists m :: IsLatest(rows, m) && answer == if m > now then m else 0
  }

  /** Live index entries of several agents, counted with the repetition of the key list. */
  ghost function LiveTotal(r: Redis, agents: seq<Uuid>, now: Time): nat {
    if agents == [] then 0
    else LiveTotal(r, agents[..|agents| - 1], now) + |After(Scores(r, agents[|agents| - 1], now), now)|
  }

  lemma {:induction false} LiveTotalGrows(r: Redis, agents: seq<Uuid>, now: Time, i: nat)
    requires i <= |agents|
    ensures LiveTotal(r, agents[..i], now) <= LiveTotal(r, agents, now)
    decreases |agents|
  {
    if i < |agents| {
      LiveTotalGrows(r, agents[..|agents| - 1], now, i);
      assert agents[..|agents| - 1][..i] == agents[..i];
    } else {
      assert agents[..i] == agents;
    }
  }

  lemma RetainedIs(rows: map<Instance, Lease>, now: Time, kept: map<Instance, Lease>)
    requires forall i :: i in kept ==> i in rows && kept[i] == rows[i]
    requires forall i :: i in rows ==> (i in kept <==> rows[i].at + RETENTION > now)
    ensures kept == Retained(rows, now)
  {
  }

  class PresenceRedis {
    var hashes: map<Key, Hash>
    var rates: map<RateKey, Rate>
    var indexes: map<Uuid, Index>

    ghost function View(): Redis
      reads this
    {
      Redis(hashes, rates, indexes)
    }

    constructor ()
      ensures View() == Empty()
    {
      hashes, rates, indexes := map[], map[], map[];
    }

    /** `math.max` over the third field of every value. */
    method LatestOf(rows: map<Instance, Lease>) returns (latest: Time)
      requires forall i :: i in rows ==> rows[i].expiry >= 0
      ensures IsLatest(rows, latest)
    {
      latest := 0;
      var todo := rows.Keys;
      while todo != {}
        invariant todo <= rows.Keys && 0 <= latest
        invariant forall i :: i in rows && i !in todo ==> rows[i].expiry <= latest
        invariant latest == 0 || exists i :: i in rows && rows[i].expiry == latest
        decreases |todo|
      {
        var i :| i in todo;
        if latest < rows[i].expiry { latest := rows[i].expiry; }
        todo := todo - {i};
      }
    }

    /** Walks the hash once, deleting forgotten fields and counting the others. */
    method SweepRows(rows: map<Instance, Lease>, now: Time) returns (kept: map<Instance, Lease>, count: nat)
      ensures kept == Retained(rows, now) && count == |kept|
    {
      kept := rows;
      count := 0;
      var todo := rows.Keys;
      ghost var counted: set<Instance> := {};
      while todo != {}
        invariant Swept(rows, now, kept, todo, counted) && count == |counted|
        decreases |todo|
      {
        var i :| i in todo;
        SweptStep(rows, now, kept, todo, counted, i);
        if rows[i].at + RETENTION <= now {
          kept := kept - {i};
        } else {
          count := count + 1;
          counted := counted + {i};
        }
        todo := todo - {i};
      }
      assert kept.Keys == counted;
      RetainedIs(rows, now, kept);
    }

    /** Part way through the walk: what is left to do and what was counted make up what is kept. */
    ghost static predicate Swept(rows: map<Instance, Lease>, now: Time, kept: map<Instance, Lease>,
                                 todo: set<Instance>, counted: set<Instance>)
    {
      && todo <= rows.Keys && counted <= rows.Keys && counted !! todo && kept.Keys == counted + todo
      && (forall i :: i in kept ==> kept[i] == rows[i])
      && (forall i :: i in rows && i !in todo ==> (i in counted <==> rows[i].at + RETENTION > now))
    }

    /** One field more: forgotten and deleted, or counted. */
    static lemma SweptStep(rows: map<Instance, Lease>, now: Time, kept: map<Instance, Lease>,
                           todo: set<Instance>, counted: set<Instance>, i: Instance)
      requires Swept(rows, now, kept, todo, counted) && i in todo
      ensures |counted + {i}| == |counted| + 1
      ensures if rows[i].at + RETENTION <= now then Swept(rows, now, kept - {i}, todo - {i}, counted)
              else Swept(rows, now, kept, todo - {i}, counted + {i})
    {
    }

    predicate ExpiriesNonNegative()
      reads this
    {
      forall k, i :: k in hashes && i in hashes[k].rows ==> hashes[k].rows[i].expiry >= 0
    }

    method Incr(k: RateKey, now: Time) returns (rate: nat)
      modifies this`rates
      ensures rates == old(rates)[k := Bumped(old(View()), k, now)] && rate == Bumped(old(View()), k, now).count
    {
      if k in rates && now <= rates[k].expiresAt {
        rates := rates[k := Rate(rates[k].count + 1, rates[k].expiresAt)];
      } else {
        rates := rates[k := Rate(1, now + WINDOW)];
      }
      rate := rates[k].count;
    }

    method TouchIndex(s: Signal)
      modifies this`indexes
      ensures indexes == NewIndex(old(View()), s)
    {
      var agent := s.key.agent;
      var scores := Scores(Redis(hashes, rates, indexes), agent, s.now);
      var live := After(scores, s.now);
      if s.typing {
        var conv := s.key.conversation;
        var score := if conv in live && live[conv] > ExpiryOf(s) then live[conv] else ExpiryOf(s);
        indexes := indexes[agent := Index(live[conv := score], s.now + RETENTION)];
      } else if agent in indexes && s.now <= indexes[agent].expiresAt {
        indexes := indexes[agent := Index(live, indexes[agent].expiresAt)];
      }
    }

    /** The first pass: forgotten fields go, the hash keeps its time to live. */
    method PruneHash(s: Signal) returns (kept: map<Instance, Lease>, count: nat)
      requires ExpiriesNonNegative()
      modifies this`hashes
      ensures kept == Kept(old(View()), s) && count == |kept|
      ensures hashes == WithRows(old(View()), s, kept) && ExpiriesNonNegative()
      ensures forall i :: i in kept ==> kept[i].expiry >= 0
    {
      var stored := if s.key in hashes && s.now <= hashes[s.key].expiresAt then hashes[s.key].rows else map[];
      kept, count := SweepRows(stored, s.now);
      if s.key in hashes && s.now <= hashes[s.key].expiresAt {
        hashes := hashes[s.key := Hash(kept, hashes[s.key].expiresAt)];
      }
    }

    /** The last pass: the lease, its hash and its agent's index. */
    method StoreLease(s: Signal, kept: map<Instance, Lease>)
      requires ExpiriesNonNegative() && s.now >= 0 && forall i :: i in kept ==> kept[i].expiry >= 0
      modifies this`hashes, this`indexes
      ensures hashes == old(hashes)[s.key := Hash(kept[s.instance := Lease(s.sequence, s.now, ExpiryOf(s))],
        s.now + RETENTION)]
      ensures indexes == NewIndex(old(View()), s) && ExpiriesNonNegative()
    {
      var until := if s.typing then s.now + TTL else 0;
      hashes := hashes[s.key := Hash(kept[s.instance := Lease(s.sequence, s.now, until)], s.now + RETENTION)];
      TouchIndex(s);
    }

    method Answer(rows: map<Instance, Lease>, now: Time) returns (expiry: Time)
      requires forall i :: i in rows ==> rows[i].expiry >= 0
      ensures IsAnswer(rows, now, expiry)
    {
      var latest := LatestOf(rows);
      return if latest > now then latest else 0;
    }

    /** Pruning first makes no difference to the store that follows. */
    static lemma AcceptedState(before: Redis, mid: Redis, s: Signal)
      requires Judge(before, s) == Accepted
      requires mid.hashes == WithRows(before, s, Kept(before, s)) && mid.indexes == before.indexes
      requires mid.rates == before.rates[RateOf(s.key) := Bumped(before, RateOf(s.key), s.now)]
      ensures var stored := Hash(Kept(before, s)[s.instance := Lease(s.sequence, s.now, ExpiryOf(s))],
        s.now + RETENTION);
              Publish(before, s) == Redis(mid.hashes[s.key := stored], mid.rates, NewIndex(mid, s))
    {
      var stored := Hash(Kept(before, s)[s.instance := Lease(s.sequence, s.now, ExpiryOf(s))], s.now + RETENTION);
      assert mid.hashes[s.key := stored] == before.hashes[s.key := stored];
    }

    /** The limits and the store, once a signal is newer than its instance's lease. */
    method AdmitSignal(s: Signal, kept: map<Instance, Lease>, count: nat, ghost before: Redis)
      returns (expiry: Time, limited: bool)
      requires ExpiriesNonNegative() && s.now >= 0
      requires View() == before.(hashes := WithRows(before, s, kept))
      requires kept == Kept(before, s) && count == |kept| && Judge(before, s) != Stale
      requires forall i :: i in kept ==> kept[i].expiry >= 0
      modifies this
      ensures View() == Publish(before, s) && ExpiriesNonNegative()
      ensures limited <==> Judge(before, s) == Limited
      ensures limited ==> expiry == 0
      ensures !limited ==> s.key in hashes && IsAnswer(hashes[s.key].rows, s.now, expiry)
    {
      var rate := Incr(RateOf(s.key), s.now);
      if rate > MAX_SIGNALS { return 0, true; }
      if s.instance !in kept && count >= MAX_INSTANCES { return 0, true; }
      AcceptedState(before, View(), s);
      StoreLease(s, kept);
      expiry := Answer(hashes[s.key].rows, s.now);
      return expiry, false;
    }

    /** The publish script: one signal, one atomic change, and the caller's answer. */
    method PublishSignal(s: Signal) returns (expiry: Time, limited: bool)
      requires ExpiriesNonNegative() && s.now >= 0
      modifies this
      ensures View() == Publish(old(View()), s) && ExpiriesNonNegative()
      ensures limited <==> Judge(old(View()), s) == Limited
      ensures limited ==> expiry == 0
      ensures Judge(old(View()), s) == Stale ==> IsAnswer(Kept(old(View()), s), s.now, expiry)
      ensures Judge(old(View()), s) == Accepted ==> IsAnswer(hashes[s.key].rows, s.now, expiry)
    {
      var kept, count := PruneHash(s);
      if s.instance in kept && s.sequence <= kept[s.instance].sequence {
        expiry := Answer(kept, s.now);
        return expiry, false;
      }
      expiry, limited := AdmitSignal(s, kept, count, old(View()));
    }

    /** The read script of one key. */
    method Read(k: Key, now: Time) returns (expiry: Time)
      requires ExpiriesNonNegative()
      ensures IsAnswer(Rows(View(), k, now), now, expiry)
    {
      var rows := if k in hashes && now <= hashes[k].expiresAt then hashes[k].rows else map[];
      expiry := Answer(rows, now);
    }

    /** `ZRANGEBYSCORE (now +inf LIMIT 0 limit`: some live members, no more than the limit. */
    method RangeAfter(agent: Uuid, now: Time, limit: nat) returns (page: seq<Uuid>)
      ensures var live := After(Scores(View(), agent, now), now);
              && (forall c :: c in page ==> c in live)
              && |page| == (if |live| < limit then |live| else limit)
              && (|live| <= limit ==> forall c :: c in live ==> c in page)
    {
      var live := After(Scores(Redis(hashes, rates, indexes), agent, now), now);
      page := [];
      var todo := live.Keys;
      while todo != {} && |page| < limit
        invariant todo <= live.Keys && |page| + |todo| == |live.Keys| && |page| <= limit
        invariant forall c :: c in page <==> c in live && c !in todo
        decreases |todo|
      {
        var c :| c in todo;
        page := page + [c];
        todo := todo - {c};
      }
    }

    /** The index script: one aggregate budget over all keys, overflow instead of a partial list. */
    method ReadIndexes(agents: seq<Uuid>, now: Time, budget: nat) returns (found: seq<Uuid>, overflow: bool)
      ensures overflow <==> LiveTotal(View(), agents, now) > budget
      ensures !overflow ==> |found| == LiveTotal(View(), agents, now)
      ensures !overflow ==> forall c :: c in found <==> exists a <- agents :: c in After(Scores(View(), a, now), now)
    {
      var remaining := budget + 1;
      found := [];
      for n := 0 to |agents|
        invariant |found| == LiveTotal(View(), agents[..n], now) && |found| + remaining == budget + 1 && remaining > 0
        invariant forall c :: c in found <==> exists a <- agents[..n] :: c in After(Scores(View(), a, now), now)
      {
        assert agents[..n + 1][..n] == agents[..n];
        var page := RangeAfter(agents[n], now, remaining);
        found := found + page;
        LiveTotalGrows(View(), agents, now, n + 1);
        if remaining == |page| { return [], true; }
        remaining := remaining - |page|;
        assert agents[..n + 1] == agents[..n] + [agents[n]];
      }
      assert agents[..|agents|] == agents;
      overflow := false;
    }
  }
}
