/** Any run of the flat job table simulates, thread by thread, an abstract FIFO queue. */
module InboundSimulation {
  import opened Common
  import opened InboundModel
  import opened InboundHistory
  import opened InboundGuarantees
  import opened InboundFifo
  import opened InboundJoins
  import opened InboundQueues
  import opened InboundArrivals

  // ---------------------------------------------------------------- the abstract queue

  /** A waiting or running job, known by its age and id only. */
  datatype Place = Place(at: Time, id: JobId)

  /** What may happen to a queue: a job joins by age, the head is taken up, the head is done,
      or an operator removes a job from wherever it stands. */
  datatype Op = Join(place: Place) | Take(id: JobId) | Pop(id: JobId) | Remove(id: JobId)

  predicate Earlier(a: Place, b: Place) { KeyBefore(a.at, a.id, b.at, b.id) }

  predicate Increasing(q: seq<Place>) { forall i, j | 0 <= i < j < |q| :: Earlier(q[i], q[j]) }

  predicate Holds(q: seq<Place>, id: JobId) { exists p <- q :: p.id == id }

  predicate IsHead(q: seq<Place>, id: JobId) { q != [] && q[0].id == id }

  /** Only the head is ever taken or popped, and nothing joins twice. */
  predicate Legal(q: seq<Place>, op: Op) {
    match op
    case Join(p) => !Holds(q, p.id)
    case Take(id) => IsHead(q, id)
    case Pop(id) => IsHead(q, id)
    case Remove(id) => Holds(q, id)
  }

  function Joined(q: seq<Place>, p: Place): seq<Place> {
    if q == [] then [p]
    else if Earlier(p, q[0]) then [p] + q
    else [q[0]] + Joined(q[1..], p)
  }

  function Removed(q: seq<Place>, id: JobId): seq<Place> {
    if q == [] then [] else if q[0].id == id then q[1..] else [q[0]] + Removed(q[1..], id)
  }

  function Apply(q: seq<Place>, op: Op): seq<Place>
    requires Legal(q, op)
  {
    match op
    case Join(p) => Joined(q, p)
    case Take(_) => q
    case Pop(_) => q[1..]
    case Remove(id) => Removed(q, id)
  }

  predicate Playable(q: seq<Place>, ops: seq<Op>)
    decreases |ops|, 0
  {
    ops != [] ==> Playable(q, ops[..|ops| - 1]) && Legal(Play(q, ops[..|ops| - 1]), ops[|ops| - 1])
  }

  /** The queue after a sequence of legal operations. */
  function Play(q: seq<Place>, ops: seq<Op>): seq<Place>
    requires Playable(q, ops)
    decreases |ops|, 1
  {
    if ops == [] then q else Apply(Play(q, ops[..|ops| - 1]), ops[|ops| - 1])
  }

  // ---------------------------------------------------------------- what a step does to one thread

  function RowOps(s: State, rows: seq<NewRow>, route: Uuid, agent: Uuid, now: Time, k: ThreadKey): seq<Op> {
    if rows == [] then []
    else
      var init, last := rows[..|rows| - 1], rows[|rows| - 1];
      RowOps(s, init, route, agent, now, k)
      + if !KeyTaken(AdmitAll(s, init, route, agent, now), route, last.message.providerId)
           && k == ThreadKey(route, last.message.threadId)
        then [Join(Place(now, last.id))] else []
  }

  function StepOps(s: State, st: Step, k: ThreadKey): seq<Op>
    requires Enabled(s, st)
  {
    match st
    case Enqueue(rows, route, agent, now) => RowOps(s, rows, route, agent, now, k)
    case Claim(_, job, _) => if s.jobs[job].threadKey == Some(k) then [Take(job)] else []
    case Finish(_, job, o, _, _) => if s.jobs[job].threadKey == Some(k) && o != Review then [Pop(job)] else []
    case Operate(c, _) =>
      var j := s.jobs[c.job];
      if c.action != Requeue then if j.threadKey == Some(k) then [Remove(c.job)] else []
      else if j.legacy.Some? && ConvertRow(j).threadKey == Some(k) then [Join(Place(j.createdAt, c.job))]
      else []
    case _ => []
  }

  function RunOps(s: State, steps: seq<Step>, k: ThreadKey): seq<Op>
    requires ValidRun(s, steps)
  {
    if steps == [] then []
    else RunOps(s, steps[..|steps| - 1], k) + StepOps(Exec(s, steps[..|steps| - 1]), steps[|steps| - 1], k)
  }

  // ---------------------------------------------------------------- the abstraction

  /** In claim order, the places of exactly these jobs. */
  ghost predicate Lists(jobs: Table, ids: set<JobId>, q: seq<Place>) {
    && ids <= jobs.Keys
    && Increasing(q)
    && (forall p :: p in q <==> p.id in ids && p.at == jobs[p.id].createdAt)
  }

  function Places(jobs: Table, q: seq<JobId>): seq<Place>
    requires forall id <- q :: id in jobs
  {
    seq(|q|, i requires 0 <= i < |q| => assert q[i] in q; Place(jobs[q[i]].createdAt, q[i]))
  }

  function Ids(q: seq<Place>): seq<JobId> { seq(|q|, i requires 0 <= i < |q| => q[i].id) }

  /** There is only one such listing: the queue the claim query serves. */
  lemma ListsIsQueue(jobs: Table, k: ThreadKey, q: seq<Place>)
    requires KeyedTable(jobs) && Lists(jobs, OpenIn(jobs, k), q)
    ensures q == Places(jobs, Queue(jobs, k)) && Ids(q) == Queue(jobs, k)
  {
    var ids := Ids(q);
    forall i | 0 <= i < |q| ensures ids[i] in OpenIn(jobs, k) && q[i].at == jobs[ids[i]].createdAt { assert q[i] in q; }
    forall id ensures id in ids <==> id in OpenIn(jobs, k) {
      if id in OpenIn(jobs, k) {
        assert Place(jobs[id].createdAt, id) in q;
        var i :| 0 <= i < |q| && q[i] == Place(jobs[id].createdAt, id);
        assert ids[i] == id;
      }
    }
    QueueIs(jobs, k, ids);
  }

  lemma HoldsIff(jobs: Table, ids: set<JobId>, q: seq<Place>, id: JobId)
    requires Lists(jobs, ids, q)
    ensures Holds(q, id) <==> id in ids
  {
    if id in ids { assert Place(jobs[id].createdAt, id) in q; }
  }

  lemma Prepend(p: Place, rest: seq<Place>)
    requires Increasing(rest) && forall x <- rest :: Earlier(p, x)
    ensures Increasing([p] + rest)
  {
  }

  lemma {:induction false} JoinedFacts(q: seq<Place>, p: Place)
    requires Increasing(q) && !Holds(q, p.id)
    ensures Increasing(Joined(q, p))
    ensures forall x :: x in Joined(q, p) <==> x in q || x == p
  {
    if q != [] {
      assert q == [q[0]] + q[1..];
      assert !Holds(q[1..], p.id);
      assert q[0] in q;
      if !Earlier(p, q[0]) {
        JoinedFacts(q[1..], p);
        assert forall x <- q[1..] :: Earlier(q[0], x);
        Prepend(q[0], Joined(q[1..], p));
      } else {
        assert forall x <- q :: Earlier(p, x);
        Prepend(p, q);
      }
    }
  }

  lemma {:induction false} RemovedFacts(q: seq<Place>, id: JobId)
    requires Increasing(q) && forall i, j | 0 <= i < j < |q| :: q[i].id != q[j].id
    ensures Increasing(Removed(q, id))
    ensures forall x :: x in Removed(q, id) <==> x in q && x.id != id
  {
    if q != [] {
      assert q == [q[0]] + q[1..];
      if q[0].id != id {
        RemovedFacts(q[1..], id);
        assert forall x <- q[1..] :: Earlier(q[0], x);
        Prepend(q[0], Removed(q[1..], id));
      }
    }
  }

  lemma DistinctIds(jobs: Table, ids: set<JobId>, q: seq<Place>)
    requires Lists(jobs, ids, q)
    ensures forall i, j | 0 <= i < j < |q| :: q[i].id != q[j].id
  {
    forall i, j | 0 <= i < j < |q| ensures q[i].id != q[j].id { assert q[i] in q && q[j] in q; }
  }

  /** Removing the head is popping it. */
  lemma PopIsRemove(q: seq<Place>, id: JobId)
    requires IsHead(q, id)
    ensures Removed(q, id) == q[1..] && Holds(q, id)
  {
    assert q[0] in q;
  }

  /** One more open job: it joins by age. */
  lemma ListsJoin(a: Table, b: Table, ids: set<JobId>, q: seq<Place>, p: Place)
    requires Lists(a, ids, q) && p.id !in ids && ids <= b.Keys && p.id in b && p.at == b[p.id].createdAt
    requires forall id <- ids :: b[id].createdAt == a[id].createdAt
    ensures Legal(q, Join(p)) && Lists(b, ids + {p.id}, Joined(q, p))
  {
    HoldsIff(a, ids, q, p.id);
    JoinedFacts(q, p);
  }

  /** One open job less. */
  lemma ListsRemove(a: Table, b: Table, ids: set<JobId>, q: seq<Place>, id: JobId)
    requires Lists(a, ids, q) && id in ids && ids <= b.Keys
    requires forall x <- ids :: b[x].createdAt == a[x].createdAt
    ensures Legal(q, Remove(id)) && Lists(b, ids - {id}, Removed(q, id))
  {
    HoldsIff(a, ids, q, id);
    DistinctIds(a, ids, q);
    RemovedFacts(q, id);
  }

  lemma ListsSame(a: Table, b: Table, ids: set<JobId>, q: seq<Place>)
    requires Lists(a, ids, q) && ids <= b.Keys && forall x <- ids :: b[x].createdAt == a[x].createdAt
    ensures Lists(b, ids, q)
  {
  }

  // ---------------------------------------------------------------- playing on

  lemma PlayOne(q: seq<Place>, op: Op)
    requires Legal(q, op)
    ensures Playable(q, [op]) && Play(q, [op]) == Apply(q, op)
  {
    assert [op][..0] == [];
  }

  lemma {:induction false} PlayOn(q: seq<Place>, a: seq<Op>, b: seq<Op>)
    requires Playable(q, a) && Playable(Play(q, a), b)
    ensures Playable(q, a + b) && Play(q, a + b) == Play(Play(q, a), b)
    decreases |b|
  {
    if b == [] {
      assert a + b == a;
    } else {
      PlayOn(q, a, b[..|b| - 1]);
      assert (a + b)[..|a + b| - 1] == a + b[..|b| - 1];
    }
  }

  // ---------------------------------------------------------------- one step

  /** The table's queue of the thread is the abstract one. */
  ghost predicate Shows(s: State, k: ThreadKey, q: seq<Place>) { Lists(s.jobs, OpenIn(s.jobs, k), q) }

  lemma AdmitPlays(s: State, row: NewRow, route: Uuid, agent: Uuid, now: Time, k: ThreadKey, q: seq<Place>)
    requires Keyed(s) && row.id !in s.jobs && Shows(s, k, q)
    ensures var joins := !KeyTaken(s, route, row.message.providerId) && k == ThreadKey(route, row.message.threadId);
            var t, p := Admit(s, row, route, agent, now), Place(now, row.id);
            if joins then Legal(q, Join(p)) && Shows(t, k, Joined(q, p)) else Shows(t, k, q)
  {
    var t := Admit(s, row, route, agent, now);
    if !KeyTaken(s, route, row.message.providerId) {
      if k == ThreadKey(route, row.message.threadId) {
        assert OpenIn(t.jobs, k) == OpenIn(s.jobs, k) + {row.id};
        ListsJoin(s.jobs, t.jobs, OpenIn(s.jobs, k), q, Place(now, row.id));
      } else {
        assert OpenIn(t.jobs, k) == OpenIn(s.jobs, k);
        ListsSame(s.jobs, t.jobs, OpenIn(s.jobs, k), q);
      }
    }
  }

  lemma {:induction false} BatchPlays(s: State, rows: seq<NewRow>, route: Uuid, agent: Uuid, now: Time, k: ThreadKey,
                                      q: seq<Place>)
    requires Keyed(s) && FreshIds(s, rows) && Shows(s, k, q)
    ensures Playable(q, RowOps(s, rows, route, agent, now, k))
    ensures Shows(AdmitAll(s, rows, route, agent, now), k, Play(q, RowOps(s, rows, route, agent, now, k)))
  {
    if rows != [] {
      var init, last := rows[..|rows| - 1], rows[|rows| - 1];
      assert FreshIds(s, init);
      BatchPlays(s, init, route, agent, now, k, q);
      AdmitAllKeyed(s, init, route, agent, now);
      AdmittedAreFromBatch(s, init, route, agent, now, last.id);
      var mid, r := AdmitAll(s, init, route, agent, now), Play(q, RowOps(s, init, route, agent, now, k));
      AdmitPlays(mid, last, route, agent, now, k, r);
      if !KeyTaken(mid, route, last.message.providerId) && k == ThreadKey(route, last.message.threadId) {
        PlayOne(r, Join(Place(now, last.id)));
        PlayOn(q, RowOps(s, init, route, agent, now, k), [Join(Place(now, last.id))]);
      } else {
        assert RowOps(s, rows, route, agent, now, k) == RowOps(s, init, route, agent, now, k);
      }
    }
  }

  lemma WorkerOpen(s: State, st: Step, k: ThreadKey)
    requires Keyed(s) && Enabled(s, st) && (st.Claim? || st.Sweep? || st.Advance? || st.Finish?)
    ensures OpenIn(Next(s, st).jobs, k) ==
            if s.jobs[st.job].threadKey == Some(k) && st.Finish? && st.outcome != Review
            then OpenIn(s.jobs, k) - {st.job} else OpenIn(s.jobs, k)
    ensures forall id <- s.jobs :: id in Next(s, st).jobs && Next(s, st).jobs[id].createdAt == s.jobs[id].createdAt
  {
    var n, e := WorkerWrite(s, st);
  }

  lemma WorkerPlays(s: State, st: Step, k: ThreadKey, q: seq<Place>)
    requires Rows(s) && ThreadShape(s) && Enabled(s, st) && (st.Claim? || st.Sweep? || st.Advance? || st.Finish?)
    requires Shows(s, k, q)
    ensures Playable(q, StepOps(s, st, k)) && Shows(Next(s, st), k, Play(q, StepOps(s, st, k)))
  {
    WorkerOpen(s, st, k);
    var t := Next(s, st);
    if s.jobs[st.job].threadKey == Some(k) {
      WorkerStepOnHead(s, st, k);
      ListsIsQueue(s.jobs, k, q);
      assert IsHead(q, st.job);
      if st.Finish? && st.outcome != Review {
        var n, e := WorkerWrite(s, st);
        ListsRemove(s.jobs, t.jobs, OpenIn(s.jobs, k), q, st.job);
        PopIsRemove(q, st.job);
        PlayOne(q, Pop(st.job));
      } else {
        ListsSame(s.jobs, t.jobs, OpenIn(s.jobs, k), q);
        if st.Claim? { PlayOne(q, Take(st.job)); }
      }
    } else {
      ListsSame(s.jobs, t.jobs, OpenIn(s.jobs, k), q);
    }
  }

  lemma CommandPlays(s: State, st: Step, k: ThreadKey, q: seq<Place>)
    requires Rows(s) && Enabled(s, st) && st.Operate? && Shows(s, k, q)
    ensures Playable(q, StepOps(s, st, k)) && Shows(Next(s, st), k, Play(q, StepOps(s, st, k)))
  {
    var c, t := st.command, Next(s, st);
    var j, open := s.jobs[c.job], OpenIn(s.jobs, k);
    var n := CommandFacts(s, c, st.now);
    if c.action != Requeue && j.threadKey == Some(k) {
      assert OpenIn(t.jobs, k) == open - {c.job};
      ListsRemove(s.jobs, t.jobs, open, q, c.job);
      PlayOne(q, Remove(c.job));
    } else if c.action == Requeue && j.legacy.Some? && ConvertRow(j).threadKey == Some(k) {
      assert OpenIn(t.jobs, k) == open + {c.job};
      ListsJoin(s.jobs, t.jobs, open, q, Place(j.createdAt, c.job));
      PlayOne(q, Join(Place(j.createdAt, c.job)));
    } else {
      assert OpenIn(t.jobs, k) == open;
      ListsSame(s.jobs, t.jobs, open, q);
    }
  }

  lemma StepPlays(s: State, st: Step, k: ThreadKey, q: seq<Place>)
    requires Rows(s) && ThreadShape(s) && Enabled(s, st) && Shows(s, k, q)
    ensures Playable(q, StepOps(s, st, k)) && Shows(Next(s, st), k, Play(q, StepOps(s, st, k)))
  {
    match st
    case Enqueue(rows, route, agent, now) => BatchPlays(s, rows, route, agent, now, k, q);
    case Operate(_, _) => CommandPlays(s, st, k, q);
    case _ => WorkerPlays(s, st, k, q);
  }

  // ---------------------------------------------------------------- whole runs

  lemma {:induction false} RunPlays(s: State, steps: seq<Step>, k: ThreadKey)
    requires Initial(s) && ValidRun(s, steps) && AlwaysJoinsAtRest(s, steps)
    ensures Playable([], RunOps(s, steps, k)) && Shows(Exec(s, steps), k, Play([], RunOps(s, steps, k)))
  {
    if steps != [] {
      var init, st := steps[..|steps| - 1], steps[|steps| - 1];
      RunPlays(s, init, k);
      ThreadsStayExclusive(s, init);
      InitialInv(s);
      RunKeepsInv(s, init);
      InvRows(Exec(s, init));
      StepPlays(Exec(s, init), st, k, Play([], RunOps(s, init, k)));
      PlayOn([], RunOps(s, init, k), StepOps(Exec(s, init), st, k));
    }
  }

  /** Simulation.  Over any run whose joins find their thread at rest, with any number of
      workers, operators and webhooks: the operations the run performs on a thread are legal for
      a FIFO queue that starts empty, in particular only its head is ever claimed or finished,
      and playing them gives exactly the queue of the final table, ages included. */
  lemma RunsSimulateQueues(s: State, steps: seq<Step>, k: ThreadKey)
    requires Initial(s) && ValidRun(s, steps) && AlwaysJoinsAtRest(s, steps)
    ensures Keyed(Exec(s, steps)) && Playable([], RunOps(s, steps, k))
    ensures var t, q := Exec(s, steps), Play([], RunOps(s, steps, k));
            q == Places(t.jobs, Queue(t.jobs, k)) && Ids(q) == Queue(t.jobs, k)
  {
    InitialInv(s);
    RunKeyed(s, steps);
    RunPlays(s, steps, k);
    ListsIsQueue(Exec(s, steps).jobs, k, Play([], RunOps(s, steps, k)));
  }
}
