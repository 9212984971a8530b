/** Claim order of a thread over whole runs, with the exact exceptions. */
module InboundClaimOrder {
  import opened Common
  import opened InboundModel
  import opened InboundHistory
  import opened InboundGuarantees
  import opened InboundFifo
  import opened InboundJoins
  import opened InboundArrivals

  /** The rows a step lets into a thread ahead of a row that was already claimed. */
  function LateNow(s: State, st: Step): set<JobId>
    requires Enabled(s, st)
  {
    match st
    case Enqueue(rows, route, _, now) =>
      set r | r in rows && r.id in Next(s, st).jobs
              && !JoinsUnclaimed(s, ThreadKey(route, r.message.threadId), now, r.id) :: r.id
    case Operate(c, _) =>
      var j := s.jobs[c.job];
      if c.action == Requeue && j.legacy.Some?
         && !JoinsUnclaimed(s, ThreadKey(j.route, j.legacy.value.message.threadId), j.createdAt, c.job)
      then {c.job} else {}
    case _ => {}
  }

  /** All late joiners of a run. */
  function Late(s: State, steps: seq<Step>): set<JobId>
    requires ValidRun(s, steps)
  {
    if steps == [] then {}
    else Late(s, steps[..|steps| - 1]) + LateNow(Exec(s, steps[..|steps| - 1]), steps[|steps| - 1])
  }

  // ---------------------------------------------------------------- only late joiners are claimed out of order

  /** What sorts before a claimed row is finished, or joined late. */
  predicate FrontierBut(s: State, late: set<JobId>) {
    forall c, j | c in s.jobs && j in s.jobs && SameThread(s.jobs[c], s.jobs[j]) ::
      s.jobs[c].attempts > 0 && Before(s.jobs[j], s.jobs[c]) ==> IsTerminal(s.jobs[j].status) || j in late
  }

  lemma EnqueueKeepsFrontier(s: State, st: Step, late: set<JobId>)
    requires Rows(s) && FrontierBut(s, late) && Enabled(s, st) && st.Enqueue?
    ensures FrontierBut(Next(s, st), late + LateNow(s, st))
  {
    var t := Next(s, st);
    forall c, j | c in t.jobs && j in t.jobs && SameThread(t.jobs[c], t.jobs[j]) && t.jobs[c].attempts > 0
      && Before(t.jobs[j], t.jobs[c])
      ensures IsTerminal(t.jobs[j].status) || j in late + LateNow(s, st) {
      if c !in s.jobs { AdmittedRowsAreQueued(s, st.rows, st.route, st.agent, st.now, c); }
      AdmitAllFrame(s, st.rows, st.route, st.agent, st.now, c);
      if j in s.jobs {
        AdmitAllFrame(s, st.rows, st.route, st.agent, st.now, j);
      } else {
        AdmittedRowsAreQueued(s, st.rows, st.route, st.agent, st.now, j);
        var r :| r in st.rows && r.id == j && t.jobs[j] == FreshRow(r, st.route, st.agent, st.now);
        assert !JoinsUnclaimed(s, ThreadKey(st.route, r.message.threadId), st.now, r.id);
      }
    }
  }

  lemma RewriteKeepsFrontierBut(s: State, k: Job, log: seq<Event>, late: set<JobId>)
    requires Rows(s) && FrontierBut(s, late) && k.id in s.jobs && Rewrites(s.jobs[k.id], k)
    requires k.threadKey == s.jobs[k.id].threadKey && k.attempts == s.jobs[k.id].attempts
    ensures FrontierBut(State(s.jobs[k.id := k], log), late)
  {
  }

  lemma ClaimKeepsFrontierBut(s: State, worker: WorkerId, job: JobId, expires: Time, log: seq<Event>, late: set<JobId>)
    requires Rows(s) && FrontierBut(s, late) && job in s.jobs && Claimable(s, s.jobs[job])
    ensures FrontierBut(State(s.jobs[job := ClaimRow(s.jobs[job], worker, expires)], log), late)
  {
  }

  lemma JoinKeepsFrontierBut(s: State, k: Job, log: seq<Event>, late: set<JobId>)
    requires Rows(s) && FrontierBut(s, late) && k.id in s.jobs && k.attempts == 0 && k.threadKey.Some?
    requires JoinsUnclaimed(s, k.threadKey.value, k.createdAt, k.id) || k.id in late
    ensures FrontierBut(State(s.jobs[k.id := k], log), late)
  {
  }

  lemma OperateKeepsFrontierBut(s: State, c: Command, now: Time, late: set<JobId>)
    requires Rows(s) && FrontierBut(s, late) && Judge(s, c) == Verdict.Apply
    ensures FrontierBut(Next(s, Operate(c, now)), late + LateNow(s, Operate(c, now)))
  {
    var j := s.jobs[c.job];
    var k, log := CommandRow(j, c.action, now), Next(s, Operate(c, now)).log;
    assert RowOk(j);
    if c.action == Requeue && j.legacy.Some? {
      JoinKeepsFrontierBut(s, k, log, late + LateNow(s, Operate(c, now)));
    } else {
      RewriteKeepsFrontierBut(s, k, log, late);
    }
  }

  lemma StepKeepsFrontierBut(s: State, st: Step, late: set<JobId>)
    requires Rows(s) && FrontierBut(s, late) && Enabled(s, st)
    ensures FrontierBut(Next(s, st), late + LateNow(s, st))
  {
    match st
    case Enqueue(_, _, _, _) => EnqueueKeepsFrontier(s, st, late);
    case Claim(worker, job, expires) => ClaimKeepsFrontierBut(s, worker, job, expires, Next(s, st).log, late);
    case Operate(c, now) => OperateKeepsFrontierBut(s, c, now, late);
    case _ =>
      var (k, e) := Effect(s, st);
      RewriteKeepsFrontierBut(s, k, Next(s, st).log, late);
  }

  /** Claims of a thread go forward, late joiners aside. */
  predicate InOrderBut(s: State, late: set<JobId>)
    requires Keyed(s)
  {
    forall p, q :: 0 <= p < q < |s.log| && s.log[p].kind == EvClaimed && s.log[q].kind == EvClaimed
      && SameThread(s.jobs[s.log[p].job], s.jobs[s.log[q].job]) && s.log[q].job !in late
      ==> !Before(s.jobs[s.log[q].job], s.jobs[s.log[p].job])
  }

  /** Rows of the log keep their place, and events are only appended. */
  lemma PlacesStay(s: State, st: Step, id: JobId)
    requires Rows(s) && Enabled(s, st) && id in s.jobs
    ensures id in Next(s, st).jobs
    ensures var j, k := s.jobs[id], Next(s, st).jobs[id];
            && k.createdAt == j.createdAt && k.id == j.id && j.attempts <= k.attempts
            && (j.threadKey.Some? || j.attempts > 0 ==> k.threadKey == j.threadKey)
  {
    assert RowOk(s.jobs[id]);
    if st.Enqueue? { AdmitAllFrame(s, st.rows, st.route, st.agent, st.now, id); }
  }

  /** The only claimed event a step appends is that of a claim, at the end. */
  lemma NewClaims(s: State, st: Step, p: nat)
    requires Keyed(s) && Enabled(s, st)
    ensures |s.log| <= |Next(s, st).log| && (p < |s.log| ==> Next(s, st).log[p] == s.log[p])
    ensures |s.log| <= p < |Next(s, st).log| && Next(s, st).log[p].kind == EvClaimed ==>
              st.Claim? && Next(s, st).log[p].job == st.job && p == |s.log| == |Next(s, st).log| - 1
  {
    if st.Enqueue? {
      AdmitAllKeepsClaims(s, st.rows, st.route, st.agent, st.now);
    } else {
      SingleLog(s, st);
      assert Next(s, st).log[..|s.log|] == s.log;
    }
  }

  lemma StepKeepsOrderBut(s: State, st: Step, late: set<JobId>, p: nat, q: nat)
    requires Rows(s) && Enabled(s, st) && Keyed(Next(s, st))
    requires FrontierBut(s, late) && InOrderBut(s, late) && ClaimsAreAttempts(s)
    requires var t := Next(s, st);
             && p < q < |t.log| && t.log[p].kind == EvClaimed && t.log[q].kind == EvClaimed
             && SameThread(t.jobs[t.log[p].job], t.jobs[t.log[q].job]) && t.log[q].job !in late + LateNow(s, st)
    ensures var t := Next(s, st); !Before(t.jobs[t.log[q].job], t.jobs[t.log[p].job])
  {
    var t := Next(s, st);
    NewClaims(s, st, p);
    NewClaims(s, st, q);
    assert s.log[p] in s.log;
    PlacesStay(s, st, s.log[p].job);
    PlacesStay(s, st, t.log[q].job);
    if q < |s.log| { assert s.log[q] in s.log; } else { assert Claimable(s, s.jobs[st.job]); }
  }

  lemma StepKeepsAttempts(s: State, st: Step)
    requires Rows(s) && Enabled(s, st) && ClaimsAreAttempts(s) && Keyed(Next(s, st))
    ensures ClaimsAreAttempts(Next(s, st))
  {
    if st.Enqueue? {
      var t := Next(s, st);
      forall e | e in t.log && e.kind == EvClaimed ensures t.jobs[e.job].attempts > 0 {
        var p :| 0 <= p < |t.log| && t.log[p] == e;
        NewClaims(s, st, p);
        assert e in s.log;
        PlacesStay(s, st, e.job);
      }
    } else {
      SingleKeepsAttempts(s, st);
    }
  }

  // ---------------------------------------------------------------- late joiners did overtake

  /** Event `p` claims a younger row of the thread, before any claim of `x`. */
  predicate Overtaken(s: State, x: JobId, p: nat)
    requires Keyed(s) && x in s.jobs
  {
    && p < |s.log| && s.log[p].kind == EvClaimed
    && SameThread(s.jobs[x], s.jobs[s.log[p].job]) && Before(s.jobs[x], s.jobs[s.log[p].job])
    && forall q | 0 <= q <= p :: s.log[q].kind == EvClaimed ==> s.log[q].job != x
  }

  ghost predicate AllOvertaken(s: State, late: set<JobId>)
    requires Keyed(s)
  {
    forall x <- late :: x in s.jobs && exists p :: Overtaken(s, x, p)
  }

  lemma {:induction false} CountedIsThere(h: seq<Event>, kind: EventKind)
    requires Count(h, kind) > 0
    ensures exists e <- h :: e.kind == kind
  {
    if h[|h| - 1].kind != kind {
      CountedIsThere(h[..|h| - 1], kind);
      var e :| e in h[..|h| - 1] && e.kind == kind;
      assert e in h;
    } else {
      assert h[|h| - 1] in h;
    }
  }

  /** A row with attempts has a claimed event. */
  lemma AttemptsHaveClaims(s: State, id: JobId) returns (p: nat)
    requires Inv(s) && id in s.jobs && s.jobs[id].attempts > 0
    ensures p < |s.log| && s.log[p].kind == EvClaimed && s.log[p].job == id
  {
    var h := History(s.log, id);
    assert JobOk(s.jobs[id], h);
    CountedIsThere(h, EvClaimed);
    var e :| e in h && e.kind == EvClaimed;
    HistoryMembers(s.log, id);
    assert e in s.log;
    p :| 0 <= p < |s.log| && s.log[p] == e;
  }

  lemma OvertakenStays(s: State, st: Step, x: JobId, p: nat)
    requires Rows(s) && Enabled(s, st) && Keyed(Next(s, st)) && ClaimsAreAttempts(s)
    requires x in s.jobs && Overtaken(s, x, p)
    ensures x in Next(s, st).jobs && Overtaken(Next(s, st), x, p)
  {
    NewClaims(s, st, p);
    assert s.log[p] in s.log;
    PlacesStay(s, st, x);
    PlacesStay(s, st, s.log[p].job);
    forall q | 0 <= q <= p && Next(s, st).log[q].kind == EvClaimed ensures Next(s, st).log[q].job != x {
      NewClaims(s, st, q);
    }
  }

  /** A row that joins ahead of a claimed one is overtaken from then on. */
  lemma JoinIsOvertaken(s: State, st: Step, x: JobId, key: ThreadKey, at: Time) returns (p: nat)
    requires Inv(s) && Enabled(s, st) && Keyed(Next(s, st)) && ClaimsAreAttempts(s)
    requires !JoinsUnclaimed(s, key, at, x) && (x in s.jobs ==> s.jobs[x].attempts == 0)
    requires x in Next(s, st).jobs
    requires var k := Next(s, st).jobs[x]; k.id == x && k.threadKey == Some(key) && k.createdAt == at
    ensures Overtaken(Next(s, st), x, p)
  {
    var c :| c in s.jobs && s.jobs[c].threadKey == Some(key) && KeyBefore(at, x, s.jobs[c].createdAt, c)
        && s.jobs[c].attempts > 0;
    p := AttemptsHaveClaims(s, c);
    InvRows(s);
    NewClaims(s, st, p);
    PlacesStay(s, st, c);
    forall q | 0 <= q <= p && Next(s, st).log[q].kind == EvClaimed ensures Next(s, st).log[q].job != x {
      NewClaims(s, st, q);
      assert s.log[q] in s.log;
    }
  }

  lemma LateIsOvertaken(s: State, st: Step, x: JobId)
    requires Inv(s) && Enabled(s, st) && Keyed(Next(s, st)) && ClaimsAreAttempts(s) && x in LateNow(s, st)
    ensures x in Next(s, st).jobs && exists p :: Overtaken(Next(s, st), x, p)
  {
    var t := Next(s, st);
    if st.Enqueue? {
      var r :| r in st.rows && r.id == x && x in t.jobs
               && !JoinsUnclaimed(s, ThreadKey(st.route, r.message.threadId), st.now, x);
      AdmittedRowsAreQueued(s, st.rows, st.route, st.agent, st.now, x);
      var r' :| r' in st.rows && r'.id == x && t.jobs[x] == FreshRow(r', st.route, st.agent, st.now);
      assert r == r' by { SameIdSameRow(s, st.rows, r, r'); }
      var p := JoinIsOvertaken(s, st, x, ThreadKey(st.route, r.message.threadId), st.now);
    } else {
      var j := s.jobs[x];
      InvRows(s);
      assert RowOk(j);
      var p := JoinIsOvertaken(s, st, x, ThreadKey(j.route, j.legacy.value.message.threadId), j.createdAt);
    }
  }

  lemma SameIdSameRow(s: State, rows: seq<NewRow>, a: NewRow, b: NewRow)
    requires FreshIds(s, rows) && a in rows && b in rows && a.id == b.id
    ensures a == b
  {
    var i :| 0 <= i < |rows| && rows[i] == a;
    var j :| 0 <= j < |rows| && rows[j] == b;
  }

  lemma StepKeepsOvertaken(s: State, st: Step, late: set<JobId>)
    requires Inv(s) && Enabled(s, st) && Keyed(Next(s, st)) && ClaimsAreAttempts(s) && AllOvertaken(s, late)
    ensures AllOvertaken(Next(s, st), late + LateNow(s, st))
  {
    InvRows(s);
    forall x | x in late + LateNow(s, st) ensures x in Next(s, st).jobs && exists p :: Overtaken(Next(s, st), x, p) {
      if x in late {
        var p :| Overtaken(s, x, p);
        OvertakenStays(s, st, x, p);
      } else {
        LateIsOvertaken(s, st, x);
      }
    }
  }

  // ---------------------------------------------------------------- over whole runs

  ghost predicate Tracked(s: State, late: set<JobId>) {
    Keyed(s) && FrontierBut(s, late) && ClaimsAreAttempts(s) && InOrderBut(s, late) && AllOvertaken(s, late)
  }

  lemma StepKeepsTracked(s: State, st: Step, late: set<JobId>)
    requires Inv(s) && Enabled(s, st) && Tracked(s, late)
    ensures Tracked(Next(s, st), late + LateNow(s, st))
  {
    InvRows(s);
    StepKeyed(s, st);
    StepKeepsFrontierBut(s, st, late);
    StepKeepsAttempts(s, st);
    StepKeepsOvertaken(s, st, late);
    var t := Next(s, st);
    forall p, q | 0 <= p < q < |t.log| && t.log[p].kind == EvClaimed && t.log[q].kind == EvClaimed
      && SameThread(t.jobs[t.log[p].job], t.jobs[t.log[q].job]) && t.log[q].job !in late + LateNow(s, st)
      ensures !Before(t.jobs[t.log[q].job], t.jobs[t.log[p].job]) {
      StepKeepsOrderBut(s, st, late, p, q);
    }
  }

  lemma {:induction false} RunKeepsTracked(s: State, steps: seq<Step>)
    requires Initial(s) && ValidRun(s, steps)
    ensures Tracked(Exec(s, steps), Late(s, steps))
  {
    InitialInv(s);
    if steps == [] {
      InitialHasNoClaims(s);
    } else {
      var init := steps[..|steps| - 1];
      RunKeepsTracked(s, init);
      RunKeepsInv(s, init);
      StepKeepsTracked(Exec(s, init), steps[|steps| - 1], Late(s, init));
    }
  }

  lemma LateClaimBreaksOrder(s: State, x: JobId, p: nat)
    requires Inv(s) && x in s.jobs && Overtaken(s, x, p) && s.jobs[x].attempts > 0
    ensures !ClaimsInOrder(s)
  {
    var q := AttemptsHaveClaims(s, x);
    assert p < q && s.log[q].kind == EvClaimed;
  }

  lemma TrackedOrderIff(s: State, late: set<JobId>)
    requires Inv(s) && Tracked(s, late)
    ensures ClaimsInOrder(s) <==> forall x <- late :: s.jobs[x].attempts == 0
  {
    if ClaimsInOrder(s) {
      forall x | x in late ensures s.jobs[x].attempts == 0 {
        if s.jobs[x].attempts > 0 {
          var p :| Overtaken(s, x, p);
          LateClaimBreaksOrder(s, x, p);
        }
      }
    }
    if forall x <- late :: s.jobs[x].attempts == 0 {
      forall q | 0 <= q < |s.log| && s.log[q].kind == EvClaimed ensures s.log[q].job !in late {
        assert s.log[q] in s.log;
      }
    }
  }

  /** Over any run with any number of workers, the claims of every thread never go backwards
      in (created_at, id) iff no row that joined its thread ahead of a row already claimed
      there was ever claimed itself. */
  lemma ClaimsNeverGoBackwardsIff(s: State, steps: seq<Step>)
    requires Initial(s) && ValidRun(s, steps)
    ensures Keyed(Exec(s, steps)) && Late(s, steps) <= Exec(s, steps).jobs.Keys
    ensures ClaimsInOrder(Exec(s, steps)) <==> forall x <- Late(s, steps) :: Exec(s, steps).jobs[x].attempts == 0
  {
    InitialInv(s);
    RunKeepsInv(s, steps);
    RunKeepsTracked(s, steps);
    TrackedOrderIff(Exec(s, steps), Late(s, steps));
  }

  /** A row that joins behind no claimed row joins behind nothing running or held. */
  lemma OnTimeIsAtRest(s: State, st: Step)
    requires Rows(s) && Enabled(s, st) && LateNow(s, st) == {}
    ensures JoinsAtRest(s, st)
  {
    assert forall c <- s.jobs :: RowOk(s.jobs[c]);
    match st
    case Enqueue(rows, route, agent, now) =>
      forall i | 0 <= i < |rows| && FirstSeen(s, rows, route, i)
        ensures NothingHeldAfter(s, ThreadKey(route, rows[i].message.threadId), now, rows[i].id) {
        AcceptedIffFirstSeen(s, rows, route, agent, now, i);
        assert rows[i] in rows && rows[i].id !in LateNow(s, st);
      }
    case Operate(c, _) => assert c.job !in LateNow(s, st);
    case _ =>
  }

  lemma {:induction false} OnTimeAlwaysAtRest(s: State, steps: seq<Step>)
    requires Initial(s) && ValidRun(s, steps) && Late(s, steps) == {}
    ensures AlwaysJoinsAtRest(s, steps)
  {
    if steps != [] {
      var init := steps[..|steps| - 1];
      OnTimeAlwaysAtRest(s, init);
      InitialInv(s);
      RunKeepsInv(s, init);
      InvRows(Exec(s, init));
      OnTimeIsAtRest(Exec(s, init), steps[|steps| - 1]);
    }
  }

  /** A run without late joiners keeps every thread exclusive at every moment and every
      thread's claims in order. */
  lemma OnTimeRunsAreFifo(s: State, steps: seq<Step>)
    requires Initial(s) && ValidRun(s, steps) && Late(s, steps) == {}
    ensures AlwaysShaped(s, steps) && OneRunner(Exec(s, steps))
    ensures Keyed(Exec(s, steps)) && ClaimsInOrder(Exec(s, steps))
  {
    OnTimeAlwaysAtRest(s, steps);
    ThreadsStayExclusive(s, steps);
    ClaimsNeverGoBackwardsIff(s, steps);
  }
}
