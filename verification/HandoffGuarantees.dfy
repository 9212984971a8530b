/** What holds of handoff routes over every run of commands. */
module HandoffGuarantees {
  import opened Common
  import opened HandoffModel

  /** The receipts of one route, oldest first. */
  function History(receipts: seq<Receipt>, id: RouteId): seq<Receipt> {
    if receipts == [] then []
    else
      var e := receipts[|receipts| - 1];
      var h := History(receipts[..|receipts| - 1], id);
      if e.route == id then h + [e] else h
  }

  /** Target and active flag after the last receipt that was applied. */
  function Replay(h: seq<Receipt>): Option<(Uuid, bool)> {
    if h == [] then None
    else
      var e := h[|h| - 1];
      if e.applied then Some((e.target, e.active)) else Replay(h[..|h| - 1])
  }

  /** Applied changes after creation. */
  function Changes(h: seq<Receipt>): nat {
    if h == [] then 0
    else Changes(h[..|h| - 1]) + if h[|h| - 1].applied && h[|h| - 1].kind != Created then 1 else 0
  }

  /** A receipt names what the one before left, and is applied iff it differs. */
  predicate Follows(last: Receipt, e: Receipt, id: RouteId) {
    && e.kind != Created && e.target != id.source
    && e.previousTarget == Some(last.target) && e.previousActive == Some(last.active)
    && (e.applied <==> e.target != last.target || e.active != last.active)
    && e.version == last.version + if e.applied then 1 else 0
  }

  predicate ChainOk(h: seq<Receipt>, id: RouteId) {
    && h != [] && h[0].kind == Created && h[0].applied && h[0].version == 0 && h[0].target != id.source
    && h[0].previousTarget == None && h[0].previousActive == None
    && forall i | 1 <= i < |h| :: Follows(h[i - 1], h[i], id)
  }

  predicate RouteOk(r: Route, h: seq<Receipt>, id: RouteId) {
    && ChainOk(h, id)
    && r.target == h[|h| - 1].target && r.active == h[|h| - 1].active && r.version == h[|h| - 1].version
    && Replay(h) == Some((r.target, r.active)) && Changes(h) == r.version
  }

  predicate UniqueKeys(receipts: seq<Receipt>) {
    forall i, j | 0 <= i < j < |receipts| ::
      receipts[i].route.source == receipts[j].route.source ==> receipts[i].key != receipts[j].key
  }

  ghost predicate RoutesOk(s: State) {
    forall id {:trigger History(s.receipts, id)} | id in s.routes :: RouteOk(s.routes[id], History(s.receipts, id), id)
  }

  ghost predicate Inv(s: State) {
    && RoutesOk(s) && UniqueKeys(s.receipts)
    && forall e <- s.receipts :: e.route in s.routes
  }

  lemma {:induction false} ReceiptIff(receipts: seq<Receipt>, source: Uuid, key: string)
    ensures var r := ReceiptOf(receipts, source, key);
            && (r.Some? ==> r.value in receipts && r.value.route.source == source && r.value.key == key)
            && (r.None? ==> forall e <- receipts :: e.route.source == source ==> e.key != key)
  {
    if receipts != [] { ReceiptIff(receipts[..|receipts| - 1], source, key); }
  }

  lemma {:induction false} FindsReceipt(receipts: seq<Receipt>, e: Receipt)
    requires UniqueKeys(receipts) && e in receipts
    ensures ReceiptOf(receipts, e.route.source, e.key) == Some(e)
  {
    if e != receipts[|receipts| - 1] { FindsReceipt(receipts[..|receipts| - 1], e); }
  }

  lemma {:induction false} NoHistory(receipts: seq<Receipt>, id: RouteId)
    requires forall e <- receipts :: e.route != id
    ensures History(receipts, id) == []
  {
    if receipts != [] { NoHistory(receipts[..|receipts| - 1], id); }
  }

  lemma HistoryGrows(receipts: seq<Receipt>, e: Receipt, id: RouteId)
    ensures History(receipts + [e], id) == if e.route == id then History(receipts, id) + [e] else History(receipts, id)
  {
    assert (receipts + [e])[..|receipts|] == receipts;
  }

  lemma ChainExtends(h: seq<Receipt>, e: Receipt, id: RouteId)
    requires ChainOk(h, id) && Follows(h[|h| - 1], e, id)
    ensures ChainOk(h + [e], id)
  {
    var g := h + [e];
    forall i | 1 <= i < |g| ensures Follows(g[i - 1], g[i], id) {
      assert g[i - 1] == h[i - 1];
      if i < |h| { assert Follows(h[i - 1], h[i], id); }
    }
  }

  lemma LastTarget(h: seq<Receipt>, id: RouteId)
    requires ChainOk(h, id)
    ensures h[|h| - 1].target != id.source
  {
    if |h| > 1 { assert Follows(h[|h| - 2], h[|h| - 1], id); }
  }

  lemma MoveKeepsRoute(row: Route, h: seq<Receipt>, id: RouteId, q: Request, e: Receipt)
    requires RouteOk(row, h, id) && !q.command.Create?
    requires var next := Outcome(row, q);
             && next.target != id.source && e.kind != Created
             && e.previousTarget == Some(row.target) && e.previousActive == Some(row.active)
             && e.target == next.target && e.active == next.active && e.version == next.version
             && e.applied == (next != row)
    ensures RouteOk(Outcome(row, q), h + [e], id)
  {
    ChainExtends(h, e, id);
    assert (h + [e])[..|h|] == h;
  }

  lemma CreateKeepsRoute(s: State, q: Request)
    requires Judge(s, q).Done? && q.command.Create?
    ensures RouteOk(NewRoute(s, q), [NewReceipt(s, q)], Subject(q))
  {
    assert [NewReceipt(s, q)][..0] == [];
  }

  /** What a command that is done leaves of the routes and receipts. */
  lemma StepKeepsRoute(s: State, q: Request, id: RouteId)
    requires Inv(s) && Judge(s, q).Done? && id in Next(s, q).routes
    ensures RouteOk(Next(s, q).routes[id], History(Next(s, q).receipts, id), id)
  {
    var h := History(s.receipts, id);
    HistoryGrows(s.receipts, NewReceipt(s, q), id);
    if q.command.Create? && id == Subject(q) {
      NoHistory(s.receipts, id);
      CreateKeepsRoute(s, q);
    } else {
      assert RouteOk(s.routes[id], h, id);
      if id == Subject(q) {
        LastTarget(h, id);
        MoveKeepsRoute(s.routes[id], h, id, q, NewReceipt(s, q));
      }
    }
  }

  lemma NewKeyStaysUnique(receipts: seq<Receipt>, e: Receipt)
    requires UniqueKeys(receipts) && ReceiptOf(receipts, e.route.source, e.key).None?
    ensures UniqueKeys(receipts + [e])
  {
    ReceiptIff(receipts, e.route.source, e.key);
  }

  lemma StepKeepsTables(s: State, q: Request)
    requires Inv(s) && Judge(s, q).Done?
    ensures UniqueKeys(Next(s, q).receipts) && forall e <- Next(s, q).receipts :: e.route in Next(s, q).routes
  {
    NewKeyStaysUnique(s.receipts, NewReceipt(s, q));
  }

  lemma StepKeepsInv(s: State, q: Request)
    requires Inv(s)
    ensures Inv(Next(s, q))
  {
    if Judge(s, q).Done? {
      StepKeepsTables(s, q);
      forall id | id in Next(s, q).routes
        ensures RouteOk(Next(s, q).routes[id], History(Next(s, q).receipts, id), id) {
        StepKeepsRoute(s, q, id);
      }
    }
  }

  lemma {:induction false} RunKeepsInv(run: seq<Request>)
    ensures Inv(Exec(EMPTY, run))
  {
    if run != [] {
      RunKeepsInv(run[..|run| - 1]);
      StepKeepsInv(Exec(EMPTY, run[..|run| - 1]), run[|run| - 1]);
    }
  }

  // ---------------------------------------------------------------- guarantees

  /** A route's receipts reproduce it: the last applied one gives target and active flag, and
      the version counts the applied changes after creation. No route points at its own agent. */
  lemma ReceiptsDetermineRoute(run: seq<Request>, id: RouteId)
    requires id in Exec(EMPTY, run).routes
    ensures var s := Exec(EMPTY, run);
            var r, h := s.routes[id], History(s.receipts, id);
            Replay(h) == Some((r.target, r.active)) && r.version == Changes(h) && r.target != id.source
  {
    RunKeepsInv(run);
    var s := Exec(EMPTY, run);
    var h := History(s.receipts, id);
    assert RouteOk(s.routes[id], h, id);
    LastTarget(h, id);
  }

  /** Drops every command whose key already has a receipt when its turn comes. */
  function Pruned(s: State, run: seq<Request>): seq<Request> {
    if run == [] then []
    else
      var front, q := run[..|run| - 1], run[|run| - 1];
      if ReceiptOf(Exec(s, front).receipts, q.source, q.key).Some? then Pruned(s, front) else Pruned(s, front) + [q]
  }

  /** Deleting repeated commands changes neither routes nor receipts. */
  lemma {:induction false} PrunedRunIsSame(s: State, run: seq<Request>)
    ensures Exec(s, Pruned(s, run)) == Exec(s, run)
  {
    if run != [] {
      var front, q := run[..|run| - 1], run[|run| - 1];
      PrunedRunIsSame(s, front);
      assert (Pruned(s, front) + [q])[..|Pruned(s, front)|] == Pruned(s, front);
    }
  }

  lemma StepExtends(s: State, q: Request)
    ensures s.receipts <= Next(s, q).receipts && s.routes.Keys <= Next(s, q).routes.Keys
    ensures forall id <- s.routes :: s.routes[id].version <= Next(s, q).routes[id].version
    ensures Judge(s, q).Done? ==> NewReceipt(s, q) in Next(s, q).receipts
  {
    if Judge(s, q).Done? { assert Next(s, q).receipts[|s.receipts|] == NewReceipt(s, q); }
  }

  lemma {:induction false} RunExtends(s: State, run: seq<Request>)
    ensures s.receipts <= Exec(s, run).receipts && s.routes.Keys <= Exec(s, run).routes.Keys
    ensures forall id <- s.routes :: s.routes[id].version <= Exec(s, run).routes[id].version
  {
    if run != [] {
      RunExtends(s, run[..|run| - 1]);
      StepExtends(Exec(s, run[..|run| - 1]), run[|run| - 1]);
    }
  }

  lemma {:induction false} ExecJoins(s: State, a: seq<Request>, b: seq<Request>)
    ensures Exec(s, a + b) == Exec(Exec(s, a), b)
  {
    if b == [] {
      assert a + b == a;
    } else {
      assert (a + b)[..|a + b| - 1] == a + b[..|b| - 1];
      ExecJoins(s, a, b[..|b| - 1]);
    }
  }

  /** After any later commands, one under the same key changes nothing, and counts as a
      duplicate exactly when it is the same command. */
  lemma RetriesAreRecognised(before: seq<Request>, q: Request, later: seq<Request>, again: Request)
    requires Judge(Exec(EMPTY, before), q).Done? && WellFormed(again)
    requires again.source == q.source && again.key == q.key
    ensures var t := Exec(EMPTY, before + [q] + later);
            && Next(t, again) == t
            && Judge(t, again) == if DigestOf(again) == DigestOf(q) then Duplicate else KeyReused
  {
    var s, t := Exec(EMPTY, before), Exec(EMPTY, before + [q] + later);
    assert (before + [q])[..|before|] == before;
    ExecJoins(EMPTY, before + [q], later);
    StepExtends(s, q);
    RunExtends(Next(s, q), later);
    RunKeepsInv(before + [q] + later);
    FindsReceipt(t.receipts, NewReceipt(s, q));
  }

  /** A version admits at most one applied change: after it, every new command that expects
      the same version of the route is refused. */
  lemma OneChangePerVersion(before: seq<Request>, q: Request, later: seq<Request>, rival: Request)
    requires Judge(Exec(EMPTY, before), q) == Done(true) && !q.command.Create?
    requires !rival.command.Create? && rival.command.route == q.command.route
      && rival.command.expected == q.command.expected
    ensures !Judge(Exec(EMPTY, before + [q] + later), rival).Done?
  {
    var s := Exec(EMPTY, before);
    assert (before + [q])[..|before|] == before;
    ExecJoins(EMPTY, before + [q], later);
    RunExtends(Next(s, q), later);
  }
}
