/** Identity-link claims: one-time proofs that two channel identities are the same person. */
module ClaimModel {
  import opened Common

  datatype Status = Pending | Verified | Rejected | Revoked | Expired

  /** Claim ids are derived from the agent and the issue key; the derivation is injective. */
  datatype ClaimId = ClaimId(agent: Uuid, key: string)

  datatype Claim = Claim(
    source: Uuid, target: Uuid, status: Status, proof: Option<string>, expiresAt: Time,
    consumedAt: Option<Time>, verifiedBy: Option<Uuid>, verifiedAt: Option<Time>,
    rejectedAt: Option<Time>, revokedAt: Option<Time>, expiredAt: Option<Time>,
    version: nat, issueDigest: Digest)

  /** Command digests, as injective constructors over what is hashed. */
  datatype Digest =
    | IssueDigest(actor: Uuid, source: Uuid, target: Uuid, ttl: int, evidence: nat)
    | VerifyDigest(actor: Uuid, id: ClaimId, expected: int, proof: string)
    | MoveDigest(actor: Uuid, id: ClaimId, expected: int, to: Status)

  /** An immutable event, which is also the receipt of its key. No status before means issued. */
  datatype Event = Event(
    id: ClaimId, actor: Uuid, before: Option<Status>, after: Status, version: nat,
    key: string, digest: Digest, at: Time)

  datatype State = State(claims: map<ClaimId, Claim>, events: seq<Event>)

  /** A channel identity: its principal and the agents that have a conversation with it. */
  datatype Identity = Identity(principal: Uuid, visibleTo: set<Uuid>)

  datatype Command =
    | Issue(source: Uuid, target: Uuid, opaqueToken: bool, ttl: int, evidence: nat,
            directory: map<Uuid, Identity>, minted: string)
    | Verify(id: ClaimId, token: string, expected: int)
    | Reject(id: ClaimId, expected: int)
    | Revoke(id: ClaimId, expected: int)
    | Expire(id: ClaimId, expected: int)

  datatype Request = Request(agent: Uuid, key: string, actor: Uuid, at: Time, command: Command)

  datatype Verdict =
    | Applied | Duplicate | NotFound | Invalid | KeyReused | VersionConflict | Conflict | ProofFailed | KeyCollision

  const SECOND: Time := 1000
  const MIN_TTL := 60
  const MAX_TTL := 86_400
  const MAX_KEY := 220
  const MIN_TOKEN := 40
  const MAX_TOKEN := 256

  predicate KeyOk(key: string) { 0 < |key| <= MAX_KEY }

  predicate TokenOk(token: string) { MIN_TOKEN <= |token| <= MAX_TOKEN }

  function Target(c: Command): Status
    requires !c.Issue?
  {
    match c
    case Verify(_, _, _) => Verified
    case Reject(_, _) => Rejected
    case Revoke(_, _) => Revoked
    case Expire(_, _) => Expired
  }

  /** The only status a transition may leave. */
  function Source(to: Status): Status { if to == Revoked then Verified else Pending }

  function DigestOf(q: Request): Digest {
    match q.command
    case Issue(source, target, _, ttl, evidence, _, _) => IssueDigest(q.actor, source, target, ttl, evidence)
    case Verify(id, token, expected) => VerifyDigest(q.actor, id, expected, token)
    case Reject(id, expected) => MoveDigest(q.actor, id, expected, Rejected)
    case Revoke(id, expected) => MoveDigest(q.actor, id, expected, Revoked)
    case Expire(id, expected) => MoveDigest(q.actor, id, expected, Expired)
  }

  /** The receipt of a key in an agent's scope. */
  function Receipt(events: seq<Event>, agent: Uuid, key: string): Option<Event> {
    if events == [] then None
    else
      var e := events[|events| - 1];
      if e.id.agent == agent && e.key == key then Some(e) else Receipt(events[..|events| - 1], agent, key)
  }

  predicate Visible(dir: map<Uuid, Identity>, identity: Uuid, agent: Uuid) {
    identity in dir && agent in dir[identity].visibleTo
  }

  function JudgeIssue(s: State, q: Request): Verdict
    requires q.command.Issue?
  {
    var c := q.command;
    var id := ClaimId(q.agent, q.key);
    if !KeyOk(q.key) || !c.opaqueToken || !(MIN_TTL <= c.ttl <= MAX_TTL) then Invalid
    else if id in s.claims then if s.claims[id].issueDigest == DigestOf(q) then Duplicate else KeyReused
    else if c.source == c.target then Invalid
    else if !Visible(c.directory, c.source, q.agent) || !Visible(c.directory, c.target, q.agent) then NotFound
    else if c.directory[c.source].principal == c.directory[c.target].principal then Invalid
    else if Receipt(s.events, q.agent, q.key).Some? then KeyCollision
    else Applied
  }

  /** Checks of a transition on its claim, once its key is known to be new. */
  function JudgeRow(row: Claim, q: Request): Verdict
    requires !q.command.Issue?
  {
    var c := q.command;
    if row.version != c.expected then VersionConflict
    else if row.status != Source(Target(c)) then Conflict
    else if c.Verify? && (q.at >= row.expiresAt || row.proof != Some(c.token)) then ProofFailed
    else if c.Expire? && q.at < row.expiresAt then Conflict
    else Applied
  }

  function JudgeMove(s: State, q: Request): Verdict
    requires !q.command.Issue?
  {
    var c := q.command;
    var receipt := Receipt(s.events, q.agent, q.key);
    if c.Verify? && !TokenOk(c.token) then ProofFailed
    else if !KeyOk(q.key) then Invalid
    else if c.id !in s.claims || c.id.agent != q.agent then NotFound
    else if receipt.Some? then
      if receipt.value.id == c.id && receipt.value.before.Some? && receipt.value.after == Target(c)
         && receipt.value.digest == DigestOf(q)
      then Duplicate else KeyReused
    else JudgeRow(s.claims[c.id], q)
  }

  function Judge(s: State, q: Request): Verdict {
    if q.command.Issue? then JudgeIssue(s, q) else JudgeMove(s, q)
  }

  function IssuedClaim(q: Request): Claim
    requires q.command.Issue?
  {
    var c := q.command;
    Claim(c.source, c.target, Pending, Some(c.minted), q.at + SECOND * c.ttl,
          None, None, None, None, None, None, 0, DigestOf(q))
  }

  function MovedClaim(row: Claim, q: Request): Claim
    requires !q.command.Issue?
  {
    var next := row.(status := Target(q.command), version := row.version + 1);
    match q.command
    case Verify(_, _, _) =>
      next.(proof := None, consumedAt := Some(q.at), verifiedBy := Some(q.actor), verifiedAt := Some(q.at))
    case Reject(_, _) => next.(proof := None, rejectedAt := Some(q.at))
    case Revoke(_, _) => next.(revokedAt := Some(q.at))
    case Expire(_, _) => next.(proof := None, expiredAt := Some(q.at))
  }

  /** The claim a request is about. */
  function Subject(q: Request): ClaimId {
    if q.command.Issue? then ClaimId(q.agent, q.key) else q.command.id
  }

  function EventOf(s: State, q: Request): Event
    requires !q.command.Issue? ==> Subject(q) in s.claims
  {
    if q.command.Issue? then Event(Subject(q), q.actor, None, Pending, 0, q.key, DigestOf(q), q.at)
    else
      var row := s.claims[q.command.id];
      Event(q.command.id, q.actor, Some(row.status), Target(q.command), row.version + 1, q.key, DigestOf(q), q.at)
  }

  /** Only an applied request changes anything: its claim and one event. */
  function Next(s: State, q: Request): State {
    if Judge(s, q) != Applied then s
    else if q.command.Issue? then State(s.claims[Subject(q) := IssuedClaim(q)], s.events + [EventOf(s, q)])
    else State(s.claims[Subject(q) := MovedClaim(s.claims[Subject(q)], q)], s.events + [EventOf(s, q)])
  }

  function Exec(s: State, run: seq<Request>): State {
    if run == [] then s else Next(Exec(s, run[..|run| - 1]), run[|run| - 1])
  }

  const EMPTY: State := State(map[], [])
}
