/** Typing presence in Redis: per-actor lease hashes, a rate window and a per-agent index.

    A key with a time to live is readable through the millisecond it names and gone
    afterwards.  One signal is one atomic script. */
module PresenceModel {
  import opened Common

  const TTL: Time := 8000
  const RETENTION: Time := 32000
  const MAX_INSTANCES: nat := 8
  const MAX_SIGNALS: nat := 6
  const WINDOW: Time := 1000

  datatype Actor = Visitor | Operator(admin: Uuid)

  /** A hash key pins the conversation, both ownership epochs and the actor. */
  datatype Key = Key(agent: Uuid, conversation: Uuid, controlVersion: nat, automationVersion: nat,
                     automationAgent: Uuid, actor: Actor)

  /** The rate key leaves the epochs and the client instance out. */
  datatype RateKey = RateKey(conversation: Uuid, actor: Actor)

  type Instance = Uuid

  datatype Lease = Lease(sequence: nat, at: Time, expiry: Time)
  datatype Hash = Hash(rows: map<Instance, Lease>, expiresAt: Time)
  datatype Rate = Rate(count: nat, expiresAt: Time)
  datatype Index = Index(scores: map<Uuid, Time>, expiresAt: Time)

  datatype Redis = Redis(hashes: map<Key, Hash>, rates: map<RateKey, Rate>, indexes: map<Uuid, Index>)

  datatype Signal = Signal(now: Time, key: Key, instance: Instance, sequence: nat, typing: bool)

  datatype Outcome = Stale | Limited | Accepted

  function RateOf(k: Key): RateKey { RateKey(k.conversation, k.actor) }

  function Rows(r: Redis, k: Key, now: Time): map<Instance, Lease> {
    if k in r.hashes && now <= r.hashes[k].expiresAt then r.hashes[k].rows else map[]
  }

  function Retained(rows: map<Instance, Lease>, now: Time): map<Instance, Lease> {
    map i | i in rows && rows[i].at + RETENTION > now :: rows[i]
  }

  function Scores(r: Redis, agent: Uuid, now: Time): map<Uuid, Time> {
    if agent in r.indexes && now <= r.indexes[agent].expiresAt then r.indexes[agent].scores else map[]
  }

  function After(scores: map<Uuid, Time>, now: Time): map<Uuid, Time> {
    map c | c in scores && scores[c] > now :: scores[c]
  }

  function Bumped(r: Redis, k: RateKey, now: Time): Rate {
    if k in r.rates && now <= r.rates[k].expiresAt
    then Rate(r.rates[k].count + 1, r.rates[k].expiresAt)
    else Rate(1, now + WINDOW)
  }

  function ExpiryOf(s: Signal): Time { if s.typing then s.now + TTL else 0 }

  /** The rows left once forgotten instances are dropped. */
  function Kept(r: Redis, s: Signal): map<Instance, Lease> { Retained(Rows(r, s.key, s.now), s.now) }

  function Judge(r: Redis, s: Signal): Outcome {
    var kept := Kept(r, s);
    if s.instance in kept && s.sequence <= kept[s.instance].sequence then Stale
    else if Bumped(r, RateOf(s.key), s.now).count > MAX_SIGNALS then Limited
    else if s.instance !in kept && |kept| >= MAX_INSTANCES then Limited
    else Accepted
  }

  /** Deleting forgotten fields keeps the hash's own time to live. */
  function WithRows(r: Redis, s: Signal, rows: map<Instance, Lease>): map<Key, Hash> {
    if s.key in r.hashes && s.now <= r.hashes[s.key].expiresAt
    then r.hashes[s.key := Hash(rows, r.hashes[s.key].expiresAt)]
    else r.hashes
  }

  function Max(a: Time, b: Time): Time { if a < b then b else a }

  function NewIndex(r: Redis, s: Signal): map<Uuid, Index> {
    var agent := s.key.agent;
    var live := After(Scores(r, agent, s.now), s.now);
    if s.typing then
      var conv := s.key.conversation;
      var score := if conv in live then Max(live[conv], ExpiryOf(s)) else ExpiryOf(s);
      r.indexes[agent := Index(live[conv := score], s.now + RETENTION)]
    else if agent in r.indexes && s.now <= r.indexes[agent].expiresAt
    then r.indexes[agent := Index(live, r.indexes[agent].expiresAt)]
    else r.indexes
  }

  function Publish(r: Redis, s: Signal): Redis {
    match Judge(r, s)
    case Stale => r.(hashes := WithRows(r, s, Kept(r, s)))
    case Limited =>
      r.(hashes := WithRows(r, s, Kept(r, s)), rates := r.rates[RateOf(s.key) := Bumped(r, RateOf(s.key), s.now)])
    case Accepted =>
      Redis(r.hashes[s.key := Hash(Kept(r, s)[s.instance := Lease(s.sequence, s.now, ExpiryOf(s))], s.now + RETENTION)],
            r.rates[RateOf(s.key) := Bumped(r, RateOf(s.key), s.now)],
            NewIndex(r, s))
  }

  function Empty(): Redis { Redis(map[], map[], map[]) }

  function Run(r: Redis, signals: seq<Signal>): Redis {
    if signals == [] then r
    else Publish(Run(r, signals[..|signals| - 1]), signals[|signals| - 1])
  }

  predicate Monotone(signals: seq<Signal>) {
    forall i, j :: 0 <= i < j < |signals| ==> signals[i].now <= signals[j].now
  }

  /** The latest instant a run has reached, from a given start. */
  function Clock(start: Time, signals: seq<Signal>): Time {
    if signals == [] then start else signals[|signals| - 1].now
  }

  // ---------------------------------------------------------------- scopes

  datatype Mode = Automated | Paused | Human | Closed

  datatype Scope = Scope(conversation: Uuid, agent: Uuid, web: bool, active: bool, mode: Mode, controlVersion: nat,
                         automationVersion: nat, automationAgent: Uuid, assignee: Option<Uuid>)

  /** The key an operator or visitor types under; any change of owner or epoch changes it. */
  function KeyOf(s: Scope, actor: Actor): Key {
    Key(s.agent, s.conversation, s.controlVersion, s.automationVersion, s.automationAgent, actor)
  }
}
