/** The flat job table, seen through the claim query, is a map from thread to FIFO queue. */
module InboundQueues {
  import opened Common
  import opened InboundModel
  import opened InboundHistory
  import opened InboundGuarantees
  import opened InboundFifo

  type Table = map<JobId, Job>

  predicate KeyedTable(jobs: Table) {
    forall id :: id in jobs ==> jobs[id].id == id
  }

  /** The unfinished rows of a thread, in no particular order. */
  ghost function OpenIn(jobs: Table, k: ThreadKey): set<JobId> {
    set id | id in jobs && jobs[id].threadKey == Some(k) && Open(jobs[id])
  }

  predicate Ascending(jobs: Table, q: seq<JobId>) {
    && (forall i :: 0 <= i < |q| ==> q[i] in jobs)
    && (forall i, j :: 0 <= i < j < |q| ==> Before(jobs[q[i]], jobs[q[j]]))
  }

  ghost predicate Elements(q: seq<JobId>, ids: set<JobId>) {
    forall id :: id in q <==> id in ids
  }

  lemma {:induction false} LeastExists(jobs: Table, ids: set<JobId>) returns (m: JobId)
    requires KeyedTable(jobs) && ids <= jobs.Keys && ids != {}
    ensures m in ids && forall x :: x in ids && x != m ==> Before(jobs[m], jobs[x])
    decreases |ids|
  {
    var a :| a in ids;
    if ids == {a} {
      m := a;
    } else {
      var b := LeastExists(jobs, ids - {a});
      m := if Before(jobs[a], jobs[b]) then a else b;
    }
  }

  /** The rows named by `ids`, in claim order. */
  ghost function Arrange(jobs: Table, ids: set<JobId>): (q: seq<JobId>)
    requires KeyedTable(jobs) && ids <= jobs.Keys
    ensures Ascending(jobs, q) && Elements(q, ids)
    decreases |ids|
  {
    if ids == {} then []
    else
      LeastHolds(jobs, ids);
      var m :| m in ids && forall x :: x in ids && x != m ==> Before(jobs[m], jobs[x]);
      [m] + Arrange(jobs, ids - {m})
  }

  lemma LeastHolds(jobs: Table, ids: set<JobId>)
    requires KeyedTable(jobs) && ids <= jobs.Keys && ids != {}
    ensures exists m :: m in ids && forall x :: x in ids && x != m ==> Before(jobs[m], jobs[x])
  {
    var m := LeastExists(jobs, ids);
  }

  /** A sorted listing of a set of rows is unique. */
  lemma {:induction false} AscendingUnique(jobs: Table, p: seq<JobId>, q: seq<JobId>)
    requires Ascending(jobs, p) && Ascending(jobs, q)
    requires forall id :: id in p <==> id in q
    ensures p == q
  {
    assert p == [] <==> q == [] by {
      if p != [] { assert p[0] in q; }
      if q != [] { assert q[0] in p; }
    }
    if p != [] {
      assert p[0] in q && q[0] in p;
      assert p[0] == q[0] by {
        var i :| 0 <= i < |q| && q[i] == p[0];
        var j :| 0 <= j < |p| && p[j] == q[0];
      }
      forall id ensures id in p[1..] <==> id in q[1..] {
        if id in p[1..] { var i :| 0 < i < |p| && p[i] == id; assert id in q; }
        if id in q[1..] { var i :| 0 < i < |q| && q[i] == id; assert id in p; }
      }
      AscendingUnique(jobs, p[1..], q[1..]);
    }
  }

  /** The queue of a thread. */
  ghost function Queue(jobs: Table, k: ThreadKey): seq<JobId>
    requires KeyedTable(jobs)
  {
    Arrange(jobs, OpenIn(jobs, k))
  }

  predicate SameOrder(a: Table, b: Table) {
    forall id :: id in a ==> id in b && b[id].id == a[id].id && b[id].createdAt == a[id].createdAt
  }

  lemma QueueIs(jobs: Table, k: ThreadKey, q: seq<JobId>)
    requires KeyedTable(jobs) && Ascending(jobs, q) && Elements(q, OpenIn(jobs, k))
    ensures Queue(jobs, k) == q
  {
    AscendingUnique(jobs, Queue(jobs, k), q);
  }

  lemma QueueStays(a: Table, b: Table, k: ThreadKey)
    requires KeyedTable(a) && KeyedTable(b) && SameOrder(a, b) && OpenIn(a, k) == OpenIn(b, k)
    ensures Queue(b, k) == Queue(a, k)
  {
    QueueIs(b, k, Queue(a, k));
  }

  function Without(q: seq<JobId>, id: JobId): seq<JobId> {
    if q == [] then []
    else if q[0] == id then q[1..]
    else [q[0]] + Without(q[1..], id)
  }

  lemma {:induction false} WithoutAscending(jobs: Table, q: seq<JobId>, id: JobId)
    requires KeyedTable(jobs) && Ascending(jobs, q)
    ensures Ascending(jobs, Without(q, id))
    ensures forall x :: x in Without(q, id) <==> x in q && x != id
  {
    if q != [] {
      assert q == [q[0]] + q[1..];
      if q[0] == id {
        forall x ensures x in q[1..] <==> x in q && x != id {
          if x in q[1..] { var i :| 0 < i < |q| && q[i] == x; }
        }
      } else {
        WithoutAscending(jobs, q[1..], id);
        var w := Without(q[1..], id);
        forall i | 0 <= i < |w| ensures Before(jobs[q[0]], jobs[w[i]]) {
          assert w[i] in q[1..];
          var n :| 0 < n < |q| && q[n] == w[i];
        }
      }
    }
  }

  lemma QueueLoses(a: Table, b: Table, k: ThreadKey, id: JobId)
    requires KeyedTable(a) && KeyedTable(b) && SameOrder(a, b) && OpenIn(b, k) == OpenIn(a, k) - {id}
    ensures Queue(b, k) == Without(Queue(a, k), id)
  {
    WithoutAscending(a, Queue(a, k), id);
    QueueIs(b, k, Without(Queue(a, k), id));
  }

  lemma QueueGains(a: Table, b: Table, k: ThreadKey, news: set<JobId>)
    requires KeyedTable(a) && KeyedTable(b) && SameOrder(a, b) && news <= b.Keys
    requires OpenIn(b, k) == OpenIn(a, k) + news
    requires forall x, y :: x in OpenIn(a, k) && y in news ==> Before(b[x], b[y])
    ensures Queue(b, k) == Queue(a, k) + Arrange(b, news)
  {
    var q, t := Queue(a, k), Arrange(b, news);
    assert forall i :: 0 <= i < |q| ==> q[i] in q;
    assert forall i :: 0 <= i < |t| ==> t[i] in t;
    QueueIs(b, k, q + t);
  }

  /** The first open row with nothing open before it heads the queue. */
  lemma HeadOfQueue(jobs: Table, k: ThreadKey, id: JobId)
    requires KeyedTable(jobs) && id in OpenIn(jobs, k)
    requires forall x :: x in OpenIn(jobs, k) && x != id ==> !Before(jobs[x], jobs[id])
    ensures Queue(jobs, k) != [] && Queue(jobs, k)[0] == id
  {
    var q := Queue(jobs, k);
    assert id in q;
    var i :| 0 <= i < |q| && q[i] == id;
    if i > 0 {
      assert q[0] in q;
      assert Before(jobs[q[0]], jobs[q[i]]);
    }
  }

  lemma NothingBeforeHead(jobs: Table, q: seq<JobId>, x: JobId)
    requires Ascending(jobs, q) && x in q
    ensures !Before(jobs[x], jobs[q[0]])
  {
    var i :| 0 <= i < |q| && q[i] == x;
    if i > 0 { assert Before(jobs[q[0]], jobs[q[i]]); }
  }

  /** The claim query picks exactly the queued heads. */
  lemma ClaimQueryPicksHeads(s: State, id: JobId, k: ThreadKey)
    requires Keyed(s) && id in s.jobs && s.jobs[id].threadKey == Some(k)
    ensures Claimable(s, s.jobs[id])
      <==> s.jobs[id].status == Queued && Queue(s.jobs, k) != [] && Queue(s.jobs, k)[0] == id
  {
    var q := Queue(s.jobs, k);
    if Claimable(s, s.jobs[id]) {
      HeadOfQueue(s.jobs, k, id);
    }
    if q != [] && q[0] == id {
      forall x | x in s.jobs && SameThread(s.jobs[x], s.jobs[id]) && Blocking(s.jobs[x].status)
        ensures !Before(s.jobs[x], s.jobs[id]) {
        assert x in q;
        NothingBeforeHead(s.jobs, q, x);
      }
    }
  }

  /** A running row is the head of its thread. */
  lemma RunnerIsHead(s: State, id: JobId, k: ThreadKey)
    requires Keyed(s) && ThreadShape(s) && id in s.jobs
    requires s.jobs[id].threadKey == Some(k) && s.jobs[id].status == Processing
    ensures Queue(s.jobs, k) != [] && Queue(s.jobs, k)[0] == id
  {
    HeadOfQueue(s.jobs, k, id);
  }

  // ---------------------------------------------------------------- refinement

  /** Arrivals sort after the unfinished rows of their thread. */
  predicate ArrivesLast(s: State, rows: seq<NewRow>, route: Uuid, now: Time) {
    forall r, c | r in rows && c in s.jobs && s.jobs[c].threadKey == Some(ThreadKey(route, r.message.threadId)) ::
      Open(s.jobs[c]) ==> KeyBefore(s.jobs[c].createdAt, c, now, r.id)
  }

  /** The ids a step adds to the table. */
  ghost function Added(s: State, t: State): set<JobId> { t.jobs.Keys - s.jobs.Keys }

  lemma EnqueueAppends(s: State, st: Step, k: ThreadKey)
    requires Keyed(s) && Enabled(s, st) && st.Enqueue? && ArrivesLast(s, st.rows, st.route, st.now)
    ensures Keyed(Next(s, st))
    ensures var t := Next(s, st);
            && (forall id :: id in s.jobs ==> id in t.jobs && t.jobs[id] == s.jobs[id])
            && (forall id :: id in Added(s, t) ==> t.jobs[id].status == Queued)
            && Queue(t.jobs, k) ==
               Queue(s.jobs, k) + Arrange(t.jobs, set id | id in Added(s, t) && t.jobs[id].threadKey == Some(k))
  {
    var t := Next(s, st);
    AdmitAllKeyed(s, st.rows, st.route, st.agent, st.now);
    forall id | id in s.jobs ensures id in t.jobs && t.jobs[id] == s.jobs[id] {
      AdmitAllFrame(s, st.rows, st.route, st.agent, st.now, id);
    }
    forall id | id in Added(s, t)
      ensures t.jobs[id].status == Queued
      ensures exists r <- st.rows :: r.id == id && t.jobs[id] == FreshRow(r, st.route, st.agent, st.now)
    {
      AdmittedRowsAreQueued(s, st.rows, st.route, st.agent, st.now, id);
    }
    var news := set id | id in Added(s, t) && t.jobs[id].threadKey == Some(k);
    assert OpenIn(t.jobs, k) == OpenIn(s.jobs, k) + news;
    QueueGains(s.jobs, t.jobs, k, news);
  }

  lemma RewriteOpen(s: State, j: Job, k: ThreadKey)
    requires Keyed(s) && j.id in s.jobs && j.createdAt == s.jobs[j.id].createdAt
    requires j.threadKey == s.jobs[j.id].threadKey && Open(j) && Open(s.jobs[j.id])
    ensures Queue(s.jobs[j.id := j], k) == Queue(s.jobs, k)
  {
    var b := s.jobs[j.id := j];
    assert OpenIn(b, k) == OpenIn(s.jobs, k);
    QueueStays(s.jobs, b, k);
  }

  lemma RewriteClosed(s: State, j: Job, k: ThreadKey)
    requires Keyed(s) && j.id in s.jobs && j.createdAt == s.jobs[j.id].createdAt
    requires j.threadKey == s.jobs[j.id].threadKey && !Open(j)
    ensures Queue(s.jobs[j.id := j], k)
            == if j.threadKey == Some(k) then Without(Queue(s.jobs, k), j.id) else Queue(s.jobs, k)
  {
    var b := s.jobs[j.id := j];
    if j.threadKey == Some(k) {
      assert OpenIn(b, k) == OpenIn(s.jobs, k) - {j.id};
      QueueLoses(s.jobs, b, k, j.id);
    } else {
      assert OpenIn(b, k) == OpenIn(s.jobs, k);
      QueueStays(s.jobs, b, k);
    }
  }

  lemma WorkerWrite(s: State, st: Step) returns (n: Job, e: Event)
    requires Keyed(s) && Enabled(s, st) && (st.Claim? || st.Sweep? || st.Advance? || st.Finish?)
    ensures n.id == st.job && Next(s, st) == State(s.jobs[n.id := n], s.log + [e])
    ensures n.threadKey == s.jobs[st.job].threadKey && n.createdAt == s.jobs[st.job].createdAt
    ensures Open(s.jobs[st.job]) && (Open(n) <==> !(st.Finish? && st.outcome != Review))
    ensures !st.Claim? ==> s.jobs[st.job].status == Processing
    ensures e.job == st.job
  {
    n, e := Effect(s, st).0, Effect(s, st).1;
  }

  lemma WorkerStepOnHead(s: State, st: Step, k: ThreadKey)
    requires Rows(s) && ThreadShape(s) && Enabled(s, st) && (st.Claim? || st.Sweep? || st.Advance? || st.Finish?)
    requires s.jobs[st.job].threadKey == Some(k)
    ensures Queue(s.jobs, k) != [] && Queue(s.jobs, k)[0] == st.job
  {
    if st.Claim? { ClaimQueryPicksHeads(s, st.job, k); } else { RunnerIsHead(s, st.job, k); }
  }

  lemma WorkerStepQueue(s: State, st: Step, k: ThreadKey)
    requires Keyed(s) && Enabled(s, st) && (st.Claim? || st.Sweep? || st.Advance? || st.Finish?)
    ensures Keyed(Next(s, st))
    ensures Queue(Next(s, st).jobs, k) ==
            if s.jobs[st.job].threadKey == Some(k) && st.Finish? && st.outcome != Review
            then Without(Queue(s.jobs, k), st.job) else Queue(s.jobs, k)
  {
    var n, e := WorkerWrite(s, st);
    if st.Finish? && st.outcome != Review { RewriteClosed(s, n, k); } else { RewriteOpen(s, n, k); }
  }

  /** Worker steps on the queues: a claim takes the head and leaves it in place,
      success and hand-over remove the head, everything else changes no queue. */
  lemma WorkerStepRefines(s: State, st: Step, k: ThreadKey)
    requires Rows(s) && ThreadShape(s) && Enabled(s, st) && (st.Claim? || st.Sweep? || st.Advance? || st.Finish?)
    ensures Keyed(Next(s, st))
    ensures var q, r := Queue(s.jobs, k), Queue(Next(s, st).jobs, k);
            var mine := s.jobs[st.job].threadKey == Some(k);
            && (mine ==> q != [] && q[0] == st.job)
            && r == if mine && st.Finish? && st.outcome != Review then q[1..] else q
  {
    if s.jobs[st.job].threadKey == Some(k) { WorkerStepOnHead(s, st, k); }
    WorkerStepQueue(s, st, k);
  }

  lemma CommandFacts(s: State, c: Command, now: Time) returns (n: Job)
    requires Rows(s) && Judge(s, c) == Verdict.Apply
    ensures n.id == c.job && Next(s, Operate(c, now)).jobs == s.jobs[n.id := n] && Keyed(Next(s, Operate(c, now)))
    ensures n.createdAt == s.jobs[c.job].createdAt && (Open(n) <==> c.action == Requeue) && Open(s.jobs[c.job])
    ensures s.jobs[c.job].legacy.None? || c.action != Requeue ==> n.threadKey == s.jobs[c.job].threadKey
    ensures s.jobs[c.job].legacy.Some? ==> s.jobs[c.job].threadKey.None?
  {
    assert RowOk(s.jobs[c.job]);
    n := CommandRow(s.jobs[c.job], c.action, now);
  }

  /** Operator commands on the queues: cancel and acknowledge take the row out wherever
      it stands; a requeue keeps every place, except that a converted legacy row enters
      its thread at the place its age gives it. */
  lemma CommandRefines(s: State, st: Step, k: ThreadKey)
    requires Rows(s) && Enabled(s, st) && st.Operate?
    ensures Keyed(Next(s, st))
    ensures var q, t, c := Queue(s.jobs, k), Next(s, st), st.command;
            && (c.action != Requeue ==>
                  Queue(t.jobs, k) == if s.jobs[c.job].threadKey == Some(k) then Without(q, c.job) else q)
            && (c.action == Requeue && s.jobs[c.job].legacy.None? ==> Queue(t.jobs, k) == q)
            && (c.action == Requeue && s.jobs[c.job].legacy.Some? ==>
                  && c.job !in q
                  && (if t.jobs[c.job].threadKey == Some(k)
                      then Without(Queue(t.jobs, k), c.job) == q && c.job in Queue(t.jobs, k)
                      else Queue(t.jobs, k) == q))
  {
    var c, t := st.command, Next(s, st);
    var j := s.jobs[c.job];
    var n := CommandFacts(s, c, st.now);
    if c.action != Requeue {
      RewriteClosed(s, n, k);
    } else if j.legacy.None? {
      RewriteOpen(s, n, k);
    } else {
      assert c.job !in Queue(s.jobs, k);
      if n.threadKey == Some(k) {
        assert OpenIn(s.jobs, k) == OpenIn(t.jobs, k) - {c.job};
        assert c.job in OpenIn(t.jobs, k);
        QueueLoses(t.jobs, s.jobs, k, c.job);
      } else {
        assert OpenIn(s.jobs, k) == OpenIn(t.jobs, k);
        QueueStays(s.jobs, t.jobs, k);
      }
    }
  }

  /** A queue is a head of any open status followed by queued rows only. */
  lemma QueueShape(s: State, k: ThreadKey, i: nat)
    requires Keyed(s) && ThreadShape(s) && 0 < i < |Queue(s.jobs, k)|
    ensures s.jobs[Queue(s.jobs, k)[i]].status == Queued
  {
    var q := Queue(s.jobs, k);
    assert q[0] in q && q[i] in q;
    assert Before(s.jobs[q[0]], s.jobs[q[i]]);
  }
}
