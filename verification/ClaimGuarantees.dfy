/** What holds of identity-link claims over every run of requests. */
module ClaimGuarantees {
  import opened Common
  import opened ClaimModel

  /** The events of one claim, oldest first. */
  function History(events: seq<Event>, id: ClaimId): seq<Event> {
    if events == [] then []
    else
      var e := events[|events| - 1];
      if e.id == id then History(events[..|events| - 1], id) + [e] else History(events[..|events| - 1], id)
  }

  /** A claim is pending, or one step further, or verified and then revoked. */
  predicate ChainOk(h: seq<Event>) {
    && 1 <= |h| <= 3
    && (forall i | 0 <= i < |h| :: h[i].version == i)
    && h[0].before == None && h[0].after == Pending
    && (forall i | 1 <= i < |h| ::
          h[i].before == Some(h[i - 1].after) && h[i - 1].after == Source(h[i].after) && h[i].after != Pending)
  }

  /** The proof hash is stored iff the claim is pending; consumption and expiry respect the deadline. */
  predicate RowOk(c: Claim) {
    && (c.proof.Some? <==> c.status == Pending)
    && (c.consumedAt.Some? <==> c.status in {Verified, Revoked})
    && (c.consumedAt.Some? ==> c.consumedAt.value < c.expiresAt && c.verifiedAt == c.consumedAt)
    && (c.expiredAt.Some? <==> c.status == Expired)
    && (c.expiredAt.Some? ==> c.expiredAt.value >= c.expiresAt)
    && (c.rejectedAt.Some? <==> c.status == Rejected)
    && (c.revokedAt.Some? <==> c.status == Revoked)
  }

  predicate EventOk(e: Event, c: Claim) {
    && (e.after == Verified ==> e.at < c.expiresAt && c.consumedAt == Some(e.at) && c.verifiedBy == Some(e.actor))
    && (e.after == Expired ==> e.at >= c.expiresAt && c.expiredAt == Some(e.at))
    && (e.after == Rejected ==> c.rejectedAt == Some(e.at))
    && (e.after == Revoked ==> c.revokedAt == Some(e.at))
  }

  /** A claim and its own events. */
  predicate ClaimOk(c: Claim, h: seq<Event>, id: ClaimId) {
    && RowOk(c) && ChainOk(h)
    && c.version == |h| - 1 && c.status == h[|h| - 1].after
    && h[0].key == id.key && h[0].digest == c.issueDigest
    && (forall e <- h :: EventOk(e, c))
  }

  /** No two events of an agent share a key. */
  predicate UniqueKeys(events: seq<Event>) {
    forall i, j | 0 <= i < j < |events| :: events[i].id.agent == events[j].id.agent ==> events[i].key != events[j].key
  }

  ghost predicate ClaimsOk(s: State) {
    forall id {:trigger History(s.events, id)} | id in s.claims :: ClaimOk(s.claims[id], History(s.events, id), id)
  }

  ghost predicate Inv(s: State) {
    && ClaimsOk(s) && UniqueKeys(s.events)
    && forall e <- s.events :: e.id in s.claims
  }

  lemma {:induction false} ReceiptIff(events: seq<Event>, agent: Uuid, key: string)
    ensures var r := Receipt(events, agent, key);
            && (r.Some? ==> r.value in events && r.value.id.agent == agent && r.value.key == key)
            && (r.None? ==> forall e <- events :: e.id.agent == agent ==> e.key != key)
  {
    if events != [] { ReceiptIff(events[..|events| - 1], agent, key); }
  }

  lemma {:induction false} ReceiptOf(events: seq<Event>, e: Event)
    requires UniqueKeys(events) && e in events
    ensures Receipt(events, e.id.agent, e.key) == Some(e)
  {
    if e != events[|events| - 1] { ReceiptOf(events[..|events| - 1], e); }
  }

  lemma {:induction false} HistoryMembers(events: seq<Event>, id: ClaimId)
    ensures forall e :: e in History(events, id) <==> e in events && e.id == id
  {
    if events != [] { HistoryMembers(events[..|events| - 1], id); }
  }

  lemma {:induction false} NoHistory(events: seq<Event>, id: ClaimId)
    requires forall e <- events :: e.id != id
    ensures History(events, id) == []
  {
    if events != [] { NoHistory(events[..|events| - 1], id); }
  }

  lemma HistoryGrows(events: seq<Event>, e: Event, id: ClaimId)
    ensures History(events + [e], id) == if e.id == id then History(events, id) + [e] else History(events, id)
  {
    assert (events + [e])[..|events|] == events;
  }

  /** A claim that can still move has moved at most once. */
  lemma MovableIsEarly(h: seq<Event>)
    requires ChainOk(h) && h[|h| - 1].after in {Pending, Verified}
    ensures |h| <= 2
  {
    var i := |h| - 1;
    if i > 0 { assert h[i].before == Some(h[i - 1].after); }
  }

  lemma MoveKeepsClaim(c: Claim, h: seq<Event>, id: ClaimId, q: Request, e: Event)
    requires ClaimOk(c, h, id) && !q.command.Issue? && JudgeRow(c, q) == Applied
    requires e.before == Some(c.status) && e.after == Target(q.command) && e.version == c.version + 1
    requires e.at == q.at && e.actor == q.actor
    ensures ClaimOk(MovedClaim(c, q), h + [e], id)
  {
    MovableIsEarly(h);
    var d := MovedClaim(c, q);
    forall x | x in h + [e] ensures EventOk(x, d) {
      if x in h {
        var i :| 0 <= i < |h| && h[i] == x;
        if i > 0 { assert h[i].before == Some(h[i - 1].after); }
      }
    }
    assert RowOk(d);
    forall i | 1 <= i < |h + [e]|
      ensures (h + [e])[i].before == Some((h + [e])[i - 1].after)
      ensures (h + [e])[i - 1].after == Source((h + [e])[i].after) && (h + [e])[i].after != Pending {
      if i < |h| { assert h[i].before == Some(h[i - 1].after); }
    }
  }

  lemma IssueKeepsClaim(q: Request, e: Event)
    requires q.command.Issue? && e == Event(Subject(q), q.actor, None, Pending, 0, q.key, DigestOf(q), q.at)
    ensures ClaimOk(IssuedClaim(q), [e], Subject(q))
  {
  }

  lemma StepKeepsInv(s: State, q: Request)
    requires Inv(s)
    ensures Inv(Next(s, q))
  {
    if Judge(s, q) == Applied {
      var e, t, subject := EventOf(s, q), Next(s, q), Subject(q);
      ReceiptIff(s.events, q.agent, q.key);
      forall id | id in t.claims ensures ClaimOk(t.claims[id], History(t.events, id), id) {
        HistoryGrows(s.events, e, id);
        if id != subject {
          assert ClaimOk(s.claims[id], History(s.events, id), id);
        } else if q.command.Issue? {
          NoHistory(s.events, id);
          IssueKeepsClaim(q, e);
        } else {
          MoveKeepsClaim(s.claims[id], History(s.events, id), id, q, e);
        }
      }
    }
  }

  lemma {:induction false} RunKeepsInv(run: seq<Request>)
    ensures Inv(Exec(EMPTY, run))
  {
    if run != [] {
      RunKeepsInv(run[..|run| - 1]);
      StepKeepsInv(Exec(EMPTY, run[..|run| - 1]), run[|run| - 1]);
    }
  }

  // ---------------------------------------------------------------- guarantees

  /** A proof hash is stored iff the claim is pending; a claim was proved strictly before its
      deadline, and called expired only from it on. */
  lemma ProofsRespectTheirDeadline(run: seq<Request>, id: ClaimId)
    requires id in Exec(EMPTY, run).claims
    ensures var c := Exec(EMPTY, run).claims[id];
            && (c.proof.Some? <==> c.status == Pending)
            && (c.status in {Verified, Revoked} ==> c.consumedAt.Some? && c.consumedAt.value < c.expiresAt)
            && (c.status == Expired ==> c.expiredAt.Some? && c.expiredAt.value >= c.expiresAt)
  {
    RunKeepsInv(run);
    assert ClaimOk(Exec(EMPTY, run).claims[id], History(Exec(EMPTY, run).events, id), id);
  }

  /** A verification can only be the second event. */
  lemma VerifiedOnce(h: seq<Event>)
    requires ChainOk(h)
    ensures forall i | 0 <= i < |h| :: h[i].after == Verified ==> i == 1
  {
    forall i | 0 <= i < |h| && h[i].after == Verified ensures i == 1 {
      if i > 0 { assert h[i].before == Some(h[i - 1].after); }
      if i == 2 { assert h[1].before == Some(h[0].after); }
    }
  }

  /** The events of a claim are exactly versions 0 to its version, which is at most two; at
      most one of them is the proof's consumption. */
  lemma VersionsAreExact(run: seq<Request>, id: ClaimId)
    requires id in Exec(EMPTY, run).claims
    ensures var s := Exec(EMPTY, run);
            var h := History(s.events, id);
            && |h| == s.claims[id].version + 1 <= 3
            && (forall i | 0 <= i < |h| :: h[i].version == i)
            && s.claims[id].status == h[|h| - 1].after
            && (forall i, j | 0 <= i < |h| && 0 <= j < |h| :: h[i].after == Verified && h[j].after == Verified
                   ==> i == j)
  {
    RunKeepsInv(run);
    var s := Exec(EMPTY, run);
    var h := History(s.events, id);
    assert ClaimOk(s.claims[id], h, id);
    VerifiedOnce(h);
  }

  lemma StepExtends(s: State, q: Request)
    ensures s.events <= Next(s, q).events && s.claims.Keys <= Next(s, q).claims.Keys
    ensures Judge(s, q) == Applied ==> EventOf(s, q) in Next(s, q).events && Subject(q) in Next(s, q).claims
  {
    if Judge(s, q) == Applied { assert Next(s, q).events[|s.events|] == EventOf(s, q); }
  }

  lemma {:induction false} RunExtends(s: State, run: seq<Request>)
    ensures s.events <= Exec(s, run).events && s.claims.Keys <= Exec(s, run).claims.Keys
  {
    if run != [] {
      RunExtends(s, run[..|run| - 1]);
      StepExtends(Exec(s, run[..|run| - 1]), run[|run| - 1]);
    }
  }

  lemma {:induction false} ExecJoins(s: State, a: seq<Request>, b: seq<Request>)
    ensures Exec(s, a + b) == Exec(Exec(s, a), b)
  {
    if b == [] {
      assert a + b == a;
    } else {
      assert (a + b)[..|a + b| - 1] == a + b[..|b| - 1];
      ExecJoins(s, a, b[..|b| - 1]);
    }
  }

  /** What an applied request leaves behind is found under its key ever after. */
  lemma ReceiptStays(before: seq<Request>, q: Request, later: seq<Request>)
    requires Judge(Exec(EMPTY, before), q) == Applied
    ensures var s := Exec(EMPTY, before);
            var t := Exec(EMPTY, before + [q] + later);
            && Receipt(t.events, q.agent, q.key) == Some(EventOf(s, q))
            && Subject(q) in t.claims
            && Inv(t)
  {
    var s := Exec(EMPTY, before);
    assert (before + [q])[..|before|] == before;
    ExecJoins(EMPTY, before + [q], later);
    StepExtends(s, q);
    RunExtends(Next(s, q), later);
    RunKeepsInv(before + [q] + later);
    ReceiptOf(Exec(EMPTY, before + [q] + later).events, EventOf(s, q));
  }

  /** In an agent's scope a key changes something at most once, whichever claims are named. */
  lemma OneChangePerKey(before: seq<Request>, q: Request, later: seq<Request>, again: Request)
    requires Judge(Exec(EMPTY, before), q) == Applied
    requires again.agent == q.agent && again.key == q.key
    ensures var t := Exec(EMPTY, before + [q] + later);
            Judge(t, again) != Applied && Next(t, again) == t
  {
    ReceiptStays(before, q, later);
  }

  /** After any later steps, the same command is recognised as a duplicate, and a different
      command under its key is refused. */
  lemma RetriesAreRecognised(before: seq<Request>, q: Request, later: seq<Request>, again: Request)
    requires Judge(Exec(EMPTY, before), q) == Applied
    requires again.agent == q.agent && again.key == q.key
    ensures var v := Judge(Exec(EMPTY, before + [q] + later), again);
            && (DigestOf(again) == DigestOf(q) && (again.command.Issue? ==> again.command.opaqueToken)
                ==> v == Duplicate)
            && (v == Duplicate ==> DigestOf(again) == DigestOf(q))
  {
    var s, t := Exec(EMPTY, before), Exec(EMPTY, before + [q] + later);
    ReceiptStays(before, q, later);
    var id := ClaimId(q.agent, q.key);
    if id in t.claims {
      var h := History(t.events, id);
      assert ClaimOk(t.claims[id], h, id);
      HistoryMembers(t.events, id);
      assert h[0] in h;
      ReceiptOf(t.events, h[0]);
    }
  }

  /** Rejected, revoked and expired claims never change again. */
  lemma TerminalClaimsStay(s: State, q: Request, id: ClaimId)
    requires Inv(s) && id in s.claims && s.claims[id].status in {Rejected, Revoked, Expired}
    ensures id in Next(s, q).claims && Next(s, q).claims[id] == s.claims[id]
  {
  }

  /** Some earlier applied request issued the claim with this proof. */
  ghost predicate IssuedWith(run: seq<Request>, id: ClaimId, proof: string) {
    exists i | 0 <= i < |run| ::
      && run[i].command.Issue? && Subject(run[i]) == id && run[i].command.minted == proof
      && Judge(Exec(EMPTY, run[..i]), run[i]) == Applied
  }

  lemma IssuedStays(run: seq<Request>, q: Request, id: ClaimId, proof: string)
    requires IssuedWith(run, id, proof)
    ensures IssuedWith(run + [q], id, proof)
  {
    var i :| 0 <= i < |run| && run[i].command.Issue? && Subject(run[i]) == id && run[i].command.minted == proof
             && Judge(Exec(EMPTY, run[..i]), run[i]) == Applied;
    assert (run + [q])[..i] == run[..i] && (run + [q])[i] == run[i];
  }

  lemma {:induction false} StoredProofWasMinted(run: seq<Request>, id: ClaimId)
    requires id in Exec(EMPTY, run).claims && Exec(EMPTY, run).claims[id].proof.Some?
    ensures IssuedWith(run, id, Exec(EMPTY, run).claims[id].proof.value)
  {
    if run != [] {
      var n := |run| - 1;
      var s, q := Exec(EMPTY, run[..n]), run[n];
      assert run == run[..n] + [q];
      if Judge(s, q) == Applied && q.command.Issue? && Subject(q) == id {
        assert Judge(Exec(EMPTY, run[..n]), run[n]) == Applied;
      } else {
        StoredProofWasMinted(run[..n], id);
        IssuedStays(run[..n], q, id, s.claims[id].proof.value);
      }
    }
  }

  /** A claim is verified only with the token minted when it was issued, and only before its deadline. */
  lemma OnlyTheMintedTokenVerifies(run: seq<Request>, q: Request)
    requires q.command.Verify? && Judge(Exec(EMPTY, run), q) == Applied
    ensures IssuedWith(run, q.command.id, q.command.token)
    ensures q.at < Exec(EMPTY, run).claims[q.command.id].expiresAt
  {
    StoredProofWasMinted(run, q.command.id);
  }

  // ---------------------------------------------------------------- keys of transitions in an issue

  /** A claim exists under a key iff the key's receipt is an issue's. */
  lemma ClaimIffIssueReceipt(s: State, agent: Uuid, key: string)
    requires Inv(s)
    ensures var r := Receipt(s.events, agent, key);
            ClaimId(agent, key) in s.claims <==> r.Some? && r.value.before.None?
  {
    var id, r := ClaimId(agent, key), Receipt(s.events, agent, key);
    ReceiptIff(s.events, agent, key);
    if id in s.claims {
      var h := History(s.events, id);
      assert ClaimOk(s.claims[id], h, id);
      HistoryMembers(s.events, id);
      assert h[0] in h;
      ReceiptOf(s.events, h[0]);
    }
    if r.Some? && r.value.before.None? {
      var h := History(s.events, r.value.id);
      assert ClaimOk(s.claims[r.value.id], h, r.value.id);
      HistoryMembers(s.events, r.value.id);
      IssueEventIsFirst(h, r.value);
    }
  }

  lemma IssueEventIsFirst(h: seq<Event>, e: Event)
    requires ChainOk(h) && e in h && e.before.None?
    ensures e == h[0]
  {
    forall i | 1 <= i < |h| ensures h[i].before.Some? {
      assert h[i].before == Some(h[i - 1].after);
    }
  }

  /** The issue is well formed, and its identities could be linked. */
  predicate Issuable(q: Request) {
    var c := q.command;
    && c.Issue? && KeyOk(q.key) && c.opaqueToken && MIN_TTL <= c.ttl <= MAX_TTL && c.source != c.target
    && Visible(c.directory, c.source, q.agent) && Visible(c.directory, c.target, q.agent)
    && c.directory[c.source].principal != c.directory[c.target].principal
  }

  lemma JudgesCollision(s: State, q: Request)
    requires var r := Receipt(s.events, q.agent, q.key);
             ClaimId(q.agent, q.key) in s.claims <==> r.Some? && r.value.before.None?
    ensures var r := Receipt(s.events, q.agent, q.key);
            Judge(s, q) == KeyCollision <==> r.Some? && r.value.before.Some? && Issuable(q)
  {
  }

  /** In every reachable state, a command surfaces as a constraint violation and not as a
      reused key iff it is an issue that could go through under a key a transition has used. */
  lemma KeyCollisionIff(run: seq<Request>, q: Request)
    ensures var s := Exec(EMPTY, run);
            var r := Receipt(s.events, q.agent, q.key);
            Judge(s, q) == KeyCollision <==> r.Some? && r.value.before.Some? && Issuable(q)
  {
    RunKeepsInv(run);
    ClaimIffIssueReceipt(Exec(EMPTY, run), q.agent, q.key);
    JudgesCollision(Exec(EMPTY, run), q);
  }

  function TwoPeople(): map<Uuid, Identity> { map[10 := Identity(100, {1}), 11 := Identity(101, {1})] }

  /** A claim issued under one key and rejected under another; the second key then issues again. */
  function IssueOf(key: string): Request {
    Request(1, key, 9, 0, Issue(10, 11, true, 60, 0, TwoPeople(), "token"))
  }

  function RejectionOf(key: string, claim: string): Request {
    Request(1, key, 9, 0, Reject(ClaimId(1, claim), 0))
  }

  lemma TransitionKeyCollides()
    ensures var run := [IssueOf("a"), RejectionOf("b", "a")];
            && Judge(Exec(EMPTY, run[..1]), run[1]) == Applied
            && Judge(Exec(EMPTY, run), IssueOf("b")) == KeyCollision
            && Next(Exec(EMPTY, run), IssueOf("b")) == Exec(EMPTY, run)
  {
    var one := [IssueOf("a")];
    var run := [IssueOf("a"), RejectionOf("b", "a")];
    assert one[..0] == [] && run[..1] == one;
    assert "a"[0] != "b"[0];
    assert Judge(EMPTY, IssueOf("a")) == Applied;
    var s := Exec(EMPTY, one);
    assert s.events == [EventOf(EMPTY, IssueOf("a"))];
    assert s.events[..0] == [];
    assert Receipt(s.events, 1, "b") == None;
    assert Judge(s, RejectionOf("b", "a")) == Applied;
    var t := Exec(EMPTY, run);
    assert t.events == s.events + [EventOf(s, RejectionOf("b", "a"))];
    assert t.events[..1] == s.events;
  }
}
