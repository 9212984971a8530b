/** What one typing signal does, read off the stored hashes, counters and indexes and the times. */
module PresenceDecisions {
  import opened Common
  import opened PresenceModel

  /** The hash is still there and holds a row of the instance not older than 32 seconds. */
  predicate Recalled(r: Redis, k: Key, i: Instance, now: Time) {
    k in r.hashes && now <= r.hashes[k].expiresAt && i in r.hashes[k].rows && r.hashes[k].rows[i].at > now - 32_000
  }

  /** The instances recalled under a key. */
  ghost function Crowd(r: Redis, k: Key, now: Time): set<Instance> {
    set i | k in r.hashes && i in r.hashes[k].rows && Recalled(r, k, i, now)
  }

  /** How many signals of this actor the running one-second window has counted. */
  function Counted(r: Redis, k: RateKey, now: Time): nat {
    if k in r.rates && now <= r.rates[k].expiresAt then r.rates[k].count else 0
  }

  lemma KeptIsCrowd(r: Redis, s: Signal)
    ensures Kept(r, s).Keys == Crowd(r, s.key, s.now) && |Kept(r, s)| == |Crowd(r, s.key, s.now)|
    ensures forall i <- Kept(r, s) :: Kept(r, s)[i] == r.hashes[s.key].rows[i]
  {
    assert |Kept(r, s).Keys| == |Kept(r, s)|;
  }

  /** A signal is stale iff its instance is recalled with the same or a higher number; else it is
      turned away iff six were counted in the window already, or its instance is new to a key that
      recalls eight; else it is accepted. */
  lemma JudgementIff(r: Redis, s: Signal)
    ensures var stale := Recalled(r, s.key, s.instance, s.now)
                         && s.sequence <= r.hashes[s.key].rows[s.instance].sequence;
            var full := Counted(r, RateOf(s.key), s.now) >= 6
                        || (!Recalled(r, s.key, s.instance, s.now) && |Crowd(r, s.key, s.now)| >= 8);
            && (Judge(r, s) == Stale <==> stale)
            && (Judge(r, s) == Limited <==> !stale && full)
            && (Judge(r, s) == Accepted <==> !stale && !full)
  {
    KeptIsCrowd(r, s);
    assert s.instance in Kept(r, s) <==> Recalled(r, s.key, s.instance, s.now);
  }

  /** The window counts every signal that is not stale, starts when none is running, and lasts one
      second; a stale one is not counted.  Windows of other actors are untouched. */
  lemma RateWrites(r: Redis, s: Signal, x: RateKey)
    ensures var t := Publish(r, s);
            var mine := x == RateKey(s.key.conversation, s.key.actor) && Judge(r, s) != Stale;
            && (mine ==>
                  && x in t.rates && t.rates[x].count == Counted(r, x, s.now) + 1
                  && t.rates[x].expiresAt == (if x in r.rates && s.now <= r.rates[x].expiresAt
                                              then r.rates[x].expiresAt else s.now + 1000))
            && (!mine ==> (x in t.rates <==> x in r.rates) && (x in r.rates ==> t.rates[x] == r.rates[x]))
  {
  }

  /** An accepted signal is stored under its number with the time it came, shows typing for eight
      seconds iff it is a start, and keeps its hash for 32; nothing else is stored for anybody.
      Every signal forgets the rows of its own key that are no longer recalled, and no others. */
  lemma RowsWritten(r: Redis, s: Signal, k: Key, i: Instance)
    ensures var t := Publish(r, s);
            var mine := k == s.key && i == s.instance && Judge(r, s) == Accepted;
            && (mine ==>
                  && k in t.hashes && i in t.hashes[k].rows && t.hashes[k].expiresAt == s.now + 32_000
                  && t.hashes[k].rows[i] == Lease(s.sequence, s.now, if s.typing then s.now + 8_000 else 0))
            && (!mine && k == s.key ==>
                  && (Recalled(t, k, i, s.now) <==> Recalled(r, k, i, s.now))
                  && (k in t.hashes && s.now <= t.hashes[k].expiresAt && i in t.hashes[k].rows ==>
                        Recalled(r, k, i, s.now)))
            && (!mine && k in t.hashes && i in t.hashes[k].rows ==>
                  k in r.hashes && i in r.hashes[k].rows && t.hashes[k].rows[i] == r.hashes[k].rows[i])
            && (k != s.key ==> (k in t.hashes <==> k in r.hashes) && (k in r.hashes ==> t.hashes[k] == r.hashes[k]))
  {
    KeptIsCrowd(r, s);
  }

  /** The live entries of an agent's index. */
  predicate Listed(r: Redis, agent: Uuid, conversation: Uuid, now: Time) {
    && agent in r.indexes && now <= r.indexes[agent].expiresAt
    && conversation in r.indexes[agent].scores && r.indexes[agent].scores[conversation] > now
  }

  /** An accepted start lists its conversation until at least eight seconds later and keeps the
      index for 32; every accepted signal drops its agent's entries that have run out, and no
      others; other agents' indexes and the judgement of a signal that is not accepted touch none. */
  lemma IndexWritten(r: Redis, s: Signal, agent: Uuid, conversation: Uuid)
    ensures var t := Publish(r, s);
            var mine := agent == s.key.agent && conversation == s.key.conversation && s.typing
                        && Judge(r, s) == Accepted;
            && (mine ==>
                  && Listed(t, agent, conversation, s.now)
                  && t.indexes[agent].scores[conversation] >= s.now + 8_000
                  && t.indexes[agent].expiresAt == s.now + 32_000
                  && t.indexes[agent].scores[conversation]
                     == (if Listed(r, agent, conversation, s.now)
                            && r.indexes[agent].scores[conversation] > s.now + 8_000
                         then r.indexes[agent].scores[conversation] else s.now + 8_000))
            && (!mine ==> (Listed(t, agent, conversation, s.now) <==> Listed(r, agent, conversation, s.now)))
            && (!mine && Listed(t, agent, conversation, s.now) ==>
                  t.indexes[agent].scores[conversation] == r.indexes[agent].scores[conversation])
            && (agent == s.key.agent && Judge(r, s) == Accepted && agent in t.indexes
                && s.now <= t.indexes[agent].expiresAt && conversation in t.indexes[agent].scores ==>
                  t.indexes[agent].scores[conversation] > s.now)
            && (agent != s.key.agent || Judge(r, s) != Accepted ==>
                  (agent in t.indexes <==> agent in r.indexes)
                  && (agent in r.indexes ==> t.indexes[agent] == r.indexes[agent]))
  {
  }
}
