/** When each identity-link command takes effect and what it leaves, read off the columns of the
    claim, the arguments and the earlier requests. */
module ClaimDecisions {
  import opened Common
  import opened ClaimModel
  import opened ClaimGuarantees

  /** No command of this agent has used the key. */
  predicate Unused(s: State, agent: Uuid, key: string) {
    forall e <- s.events :: !(e.id.agent == agent && e.key == key)
  }

  /** The identity exists and has a conversation with the agent. */
  predicate Known(directory: map<Uuid, Identity>, identity: Uuid, agent: Uuid) {
    identity in directory && agent in directory[identity].visibleTo
  }

  /** Two different known identities of two different people, for one minute to one day, with an
      opaque token and a key of 1 to 220 characters. */
  predicate ProperIssue(q: Request)
    requires q.command.Issue?
  {
    var c := q.command;
    && 1 <= |q.key| <= 220 && c.opaqueToken && 60 <= c.ttl <= 86_400
    && c.source != c.target && Known(c.directory, c.source, q.agent) && Known(c.directory, c.target, q.agent)
    && c.directory[c.source].principal != c.directory[c.target].principal
  }

  /** In any reachable state a claim is issued exactly for a proper command under an unused key. */
  lemma IssueIff(run: seq<Request>, q: Request)
    requires q.command.Issue?
    ensures var s := Exec(EMPTY, run);
            Next(s, q) != s <==> ProperIssue(q) && Unused(s, q.agent, q.key)
  {
    var s := Exec(EMPTY, run);
    RunKeepsInv(run);
    ReceiptIff(s.events, q.agent, q.key);
    EffectIff(s, q);
    var id := ClaimId(q.agent, q.key);
    if id in s.claims {
      var h := History(s.events, id);
      assert ClaimOk(s.claims[id], h, id);
      HistoryMembers(s.events, id);
      assert h[0] in h && h[0] in s.events && h[0].id == id && h[0].key == q.key;
    }
  }

  lemma EffectIff(s: State, q: Request)
    ensures Next(s, q) != s <==> Judge(s, q) == Applied
    ensures Judge(s, q) == Applied ==> |Next(s, q).events| == |s.events| + 1
  {
  }

  /** The status a command moves a claim to, and the only one it may move it from. */
  predicate Moves(c: Command, from: Status, to: Status)
    requires !c.Issue?
  {
    match c
    case Verify(_, _, _) => from == Pending && to == Verified
    case Reject(_, _) => from == Pending && to == Rejected
    case Revoke(_, _) => from == Verified && to == Revoked
    case Expire(_, _) => from == Pending && to == Expired
  }

  /** The deadline and the token fit: a proof comes strictly before the deadline with the stored
      token, an expiry at or after it. */
  predicate InTime(row: Claim, q: Request)
    requires !q.command.Issue?
  {
    match q.command
    case Verify(_, token, _) => 40 <= |token| <= 256 && q.at < row.expiresAt && row.proof == Some(token)
    case Expire(_, _) => q.at >= row.expiresAt
    case _ => true
  }

  /** In any reachable state a transition takes effect exactly on an issued claim of its agent at
      the expected version, from the one status it may start from, in time, and under an unused
      key of 1 to 220 characters. */
  lemma MoveIff(run: seq<Request>, q: Request)
    requires !q.command.Issue?
    ensures var s, id := Exec(EMPTY, run), q.command.id;
            Next(s, q) != s <==>
              && 1 <= |q.key| <= 220 && Unused(s, q.agent, q.key)
              && id in s.claims && id.agent == q.agent
              && s.claims[id].version == q.command.expected
              && (exists to :: Moves(q.command, s.claims[id].status, to))
              && InTime(s.claims[id], q)
  {
    var s := Exec(EMPTY, run);
    ReceiptIff(s.events, q.agent, q.key);
    EffectIff(s, q);
    if q.command.id in s.claims {
      var from := s.claims[q.command.id].status;
      assert Moves(q.command, from, Target(q.command)) <==> from == Source(Target(q.command));
    }
  }

  /** What an applied transition leaves: the new status and version, who and when, no proof unless
      revoked, and one event that tells all of it. */
  lemma MoveWrites(s: State, q: Request)
    requires !q.command.Issue? && Next(s, q) != s
    ensures var t, id := Next(s, q), q.command.id;
            && id in s.claims && t.claims.Keys == s.claims.Keys
            && (forall x <- s.claims :: x != id ==> t.claims[x] == s.claims[x])
            && var a, b := s.claims[id], t.claims[id];
               && Moves(q.command, a.status, b.status) && b.version == a.version + 1
               && b.source == a.source && b.target == a.target && b.expiresAt == a.expiresAt
               && b.issueDigest == a.issueDigest
               && b.proof == (if q.command.Revoke? then a.proof else None)
               && b.consumedAt == (if q.command.Verify? then Some(q.at) else a.consumedAt)
               && b.verifiedAt == (if q.command.Verify? then Some(q.at) else a.verifiedAt)
               && b.verifiedBy == (if q.command.Verify? then Some(q.actor) else a.verifiedBy)
               && b.rejectedAt == (if q.command.Reject? then Some(q.at) else a.rejectedAt)
               && b.revokedAt == (if q.command.Revoke? then Some(q.at) else a.revokedAt)
               && b.expiredAt == (if q.command.Expire? then Some(q.at) else a.expiredAt)
               && |t.events| == |s.events| + 1 && t.events[..|s.events|] == s.events
               && var e := t.events[|s.events|];
                  && e.id == id && e.actor == q.actor && e.before == Some(a.status) && e.after == b.status
                  && e.version == b.version && e.key == q.key && e.at == q.at
  {
  }

  /** A refused command changes nothing, and says which of its conditions failed first. */
  lemma RefusalsTell(s: State, q: Request)
    requires !q.command.Issue?
    ensures var v := Judge(s, q);
            && (q.command.Verify? && !(40 <= |q.command.token| <= 256) ==> v == ProofFailed)
            && (v == VersionConflict ==>
                  q.command.id in s.claims && s.claims[q.command.id].version != q.command.expected)
            && (v == NotFound ==> q.command.id !in s.claims || q.command.id.agent != q.agent)
            && (v != Applied ==> Next(s, q) == s)
  {
  }

  /** Which refusal an issue gets, in the order of its checks. */
  lemma IssueRefusals(s: State, q: Request)
    requires q.command.Issue?
    ensures var c, v := q.command, Judge(s, q);
            if !(1 <= |q.key| <= 220 && c.opaqueToken && 60 <= c.ttl <= 86_400) then v == Invalid
            else if ClaimId(q.agent, q.key) in s.claims then v in {Duplicate, KeyReused}
            else if c.source == c.target then v == Invalid
            else if !(Known(c.directory, c.source, q.agent) && Known(c.directory, c.target, q.agent)) then v == NotFound
            else if c.directory[c.source].principal == c.directory[c.target].principal then v == Invalid
            else v in {KeyCollision, Applied}
  {
  }

  /** This request of the run issued the claim, and the claim still says so. */
  ghost predicate IssuedBy(run: seq<Request>, i: nat, id: ClaimId, c: Claim) {
    && i < |run| && run[i].command.Issue? && run[i].agent == id.agent && run[i].key == id.key
    && ProperIssue(run[i])
    && c.source == run[i].command.source && c.target == run[i].command.target
    && c.expiresAt == run[i].at + 1000 * run[i].command.ttl
    && (c.proof.Some? ==> c.proof == Some(run[i].command.minted))
  }

  /** In any run every claim was issued by a proper request under its key, expires that request's
      ttl in seconds after it, and while it keeps a proof keeps the token minted for it. */
  lemma {:induction false} ClaimsAreAsIssued(run: seq<Request>, id: ClaimId)
    requires id in Exec(EMPTY, run).claims
    ensures exists i :: IssuedBy(run, i, id, Exec(EMPTY, run).claims[id])
  {
    var n := |run| - 1;
    var s, q := Exec(EMPTY, run[..n]), run[n];
    if q.command.Issue? && Next(s, q) != s && ClaimId(q.agent, q.key) == id {
      IssueIff(run[..n], q);
      assert IssuedBy(run, n, id, Exec(EMPTY, run).claims[id]);
    } else {
      if !q.command.Issue? && Next(s, q) != s { MoveWrites(s, q); }
      ClaimsAreAsIssued(run[..n], id);
      var i :| IssuedBy(run[..n], i, id, s.claims[id]);
      assert IssuedBy(run, i, id, Exec(EMPTY, run).claims[id]);
    }
  }

  /** The same command: same actor, kind and arguments.  What the directory says and which token is
      minted is not part of it. */
  predicate SameCommand(a: Request, b: Request) {
    && a.actor == b.actor
    && match a.command
       case Issue(source, target, _, ttl, evidence, _, _) =>
         b.command.Issue? && b.command.source == source && b.command.target == target && b.command.ttl == ttl
         && b.command.evidence == evidence
       case Verify(id, token, expected) =>
         b.command.Verify? && b.command.id == id && b.command.token == token && b.command.expected == expected
       case Reject(id, expected) => b.command.Reject? && b.command.id == id && b.command.expected == expected
       case Revoke(id, expected) => b.command.Revoke? && b.command.id == id && b.command.expected == expected
       case Expire(id, expected) => b.command.Expire? && b.command.id == id && b.command.expected == expected
  }

  /** After any later steps a repeated command is a duplicate, and any other under its key is not. */
  lemma RepeatIsDuplicate(before: seq<Request>, q: Request, later: seq<Request>, again: Request)
    requires Next(Exec(EMPTY, before), q) != Exec(EMPTY, before)
    requires again.agent == q.agent && again.key == q.key
    requires again.command.Issue? ==> again.command.opaqueToken
    ensures Judge(Exec(EMPTY, before + [q] + later), again) == Duplicate <==> SameCommand(again, q)
    ensures Next(Exec(EMPTY, before + [q] + later), again) == Exec(EMPTY, before + [q] + later)
  {
    EffectIff(Exec(EMPTY, before), q);
    RetriesAreRecognised(before, q, later, again);
    OneChangePerKey(before, q, later, again);
    assert DigestOf(again) == DigestOf(q) <==> SameCommand(again, q);
  }
}
