/** The service over the claim and event tables. */
module IdentityLinkClaims {
  import opened Common
  import opened ClaimModel

  class ClaimService {
    var claims: map<ClaimId, Claim>
    var events: seq<Event>

    ghost function View(): State
      reads this
    {
      State(claims, events)
    }

    constructor ()
      ensures View() == EMPTY
    {
      claims, events := map[], [];
    }

    /** Scans the event table for the receipt of a key. */
    method FindReceipt(agent: Uuid, key: string) returns (r: Option<Event>)
      ensures r == Receipt(events, agent, key)
    {
      r := None;
      for i := 0 to |events|
        invariant r == Receipt(events[..i], agent, key)
      {
        assert events[..i + 1][..i] == events[..i];
        if events[i].id.agent == agent && events[i].key == key { r := Some(events[i]); }
      }
      assert events[..|events|] == events;
    }

    /** Issues a claim, or recognises the issue that used the key. */
    method Issue(q: Request) returns (v: Verdict, token: Option<string>)
      requires q.command.Issue?
      modifies this
      ensures v == Judge(old(View()), q) && View() == Next(old(View()), q)
      ensures token == if v == Applied then Some(q.command.minted) else None
    {
      token := None;
      var c := q.command;
      if !KeyOk(q.key) || !c.opaqueToken { return Invalid, None; }
      if !(MIN_TTL <= c.ttl <= MAX_TTL) { return Invalid, None; }
      var id := ClaimId(q.agent, q.key);
      if id in claims {
        return if claims[id].issueDigest == DigestOf(q) then Duplicate else KeyReused, None;
      }
      if c.source == c.target { return Invalid, None; }
      if !Visible(c.directory, c.source, q.agent) || !Visible(c.directory, c.target, q.agent) { return NotFound, None; }
      if c.directory[c.source].principal == c.directory[c.target].principal { return Invalid, None; }
      var receipt := FindReceipt(q.agent, q.key);
      if receipt.Some? { return KeyCollision, None; }
      claims := claims[id := IssuedClaim(q)];
      events := events + [Event(id, q.actor, None, Pending, 0, q.key, DigestOf(q), q.at)];
      return Applied, Some(c.minted);
    }

    /** Loads the claim and tells a new key from a repeated or foreign one. */
    method PrepareTransition(q: Request) returns (stop: Option<Verdict>)
      requires !q.command.Issue?
      ensures stop.None? ==> q.command.id in claims && KeyOk(q.key)
      ensures stop.None? ==> q.command.id.agent == q.agent && Receipt(events, q.agent, q.key).None?
      ensures stop.Some? ==> stop.value != Applied
      ensures stop.Some? ==> (q.command.Verify? ==> TokenOk(q.command.token)) ==> stop.value == JudgeMove(View(), q)
    {
      if !KeyOk(q.key) { return Some(Invalid); }
      if q.command.id !in claims || q.command.id.agent != q.agent { return Some(NotFound); }
      var receipt := FindReceipt(q.agent, q.key);
      if receipt.None? { return None; }
      var e := receipt.value;
      if e.id != q.command.id || e.before.None? || e.after != Target(q.command) { return Some(KeyReused); }
      return Some(if e.digest == DigestOf(q) then Duplicate else KeyReused);
    }

    /** Stores the changed claim and appends its event. */
    method RecordTransition(q: Request, from: Status, row: Claim)
      requires !q.command.Issue? && q.command.id in claims
      modifies this
      ensures View() == State(
        old(claims)[q.command.id := row],
        old(events) + [Event(q.command.id, q.actor, Some(from), row.status, row.version, q.key, DigestOf(q), q.at)])
    {
      claims := claims[q.command.id := row];
      events := events + [Event(q.command.id, q.actor, Some(from), row.status, row.version, q.key, DigestOf(q), q.at)];
    }

    /** Consumes the proof of a pending claim. */
    method Verify(q: Request) returns (v: Verdict)
      requires q.command.Verify?
      modifies this
      ensures v == Judge(old(View()), q) && View() == Next(old(View()), q)
    {
      if !TokenOk(q.command.token) { return ProofFailed; }
      var stop := PrepareTransition(q);
      if stop.Some? { return stop.value; }
      var claim := claims[q.command.id];
      if claim.version != q.command.expected { return VersionConflict; }
      if claim.status != Pending { return Conflict; }
      if q.at >= claim.expiresAt { return ProofFailed; }
      if claim.proof.None? || claim.proof.value != q.command.token { return ProofFailed; }
      claim := claim.(status := Verified);
      claim := claim.(version := claim.version + 1);
      claim := claim.(proof := None);
      claim := claim.(consumedAt := Some(q.at));
      claim := claim.(verifiedBy := Some(q.actor), verifiedAt := Some(q.at));
      RecordTransition(q, Pending, claim);
      return Applied;
    }

    /** Rejects, revokes or expires a claim. */
    method TerminalTransition(q: Request) returns (v: Verdict)
      requires q.command.Reject? || q.command.Revoke? || q.command.Expire?
      modifies this
      ensures v == Judge(old(View()), q) && View() == Next(old(View()), q)
    {
      var stop := PrepareTransition(q);
      if stop.Some? { return stop.value; }
      var claim := claims[q.command.id];
      if claim.version != q.command.expected { return VersionConflict; }
      if claim.status != (if q.command.Revoke? then Verified else Pending) { return Conflict; }
      if q.command.Expire? && q.at < claim.expiresAt { return Conflict; }
      var from := claim.status;
      claim := claim.(status := Target(q.command));
      claim := claim.(version := claim.version + 1);
      if !q.command.Revoke? { claim := claim.(proof := None); }
      match q.command {
        case Reject(_, _) => claim := claim.(rejectedAt := Some(q.at));
        case Revoke(_, _) => claim := claim.(revokedAt := Some(q.at));
        case Expire(_, _) => claim := claim.(expiredAt := Some(q.at));
      }
      RecordTransition(q, from, claim);
      return Applied;
    }
  }
}
