/** What it means for a thread to be exclusive and its claims to be in order, and what single
    steps do to both. */
module InboundFifo {
  import opened Common
  import opened InboundModel
  import opened InboundHistory
  import opened InboundGuarantees

  predicate Open(j: Job) { !IsTerminal(j.status) }

  /** One head of any open status, followed only by queued rows. */
  predicate ThreadShape(s: State) {
    forall a, b | a in s.jobs && b in s.jobs && SameThread(s.jobs[a], s.jobs[b]) ::
      Before(s.jobs[a], s.jobs[b]) && Open(s.jobs[a]) && Open(s.jobs[b]) ==> s.jobs[b].status == Queued
  }

  predicate OneRunner(s: State) {
    forall a, b | a in s.jobs && b in s.jobs && SameThread(s.jobs[a], s.jobs[b]) ::
      s.jobs[a].status == Processing && s.jobs[b].status == Processing ==> a == b
  }

  predicate Rows(s: State) {
    Keyed(s) && forall id :: id in s.jobs ==> RowOk(s.jobs[id])
  }

  /** No row of the thread that sorts after the given place has been claimed yet. */
  predicate JoinsUnclaimed(s: State, key: ThreadKey, t: Time, id: JobId) {
    forall c | c in s.jobs && s.jobs[c].threadKey == Some(key) ::
      KeyBefore(t, id, s.jobs[c].createdAt, c) ==> s.jobs[c].attempts == 0
  }

  lemma InvRows(s: State)
    requires Inv(s)
    ensures Rows(s)
  {
    forall id | id in s.jobs ensures RowOk(s.jobs[id]) { InvRow(s, id); }
  }

  /** A row rewritten in place: same key, terminal stays terminal. */
  predicate Rewrites(j: Job, k: Job) {
    && k.id == j.id && k.createdAt == j.createdAt
    && (IsTerminal(j.status) ==> k == j)
  }

  // ---------------------------------------------------------------- claim order

  /** Claims of a thread never go backwards in (created_at, id) order. */
  predicate ClaimsInOrder(s: State)
    requires Keyed(s)
  {
    forall p, q :: 0 <= p < q < |s.log| && s.log[p].kind == EvClaimed && s.log[q].kind == EvClaimed
      && SameThread(s.jobs[s.log[p].job], s.jobs[s.log[q].job])
      ==> !Before(s.jobs[s.log[q].job], s.jobs[s.log[p].job])
  }

  /** A claimed event means its row has been attempted. */
  predicate ClaimsAreAttempts(s: State)
    requires Keyed(s)
  {
    forall e :: e in s.log && e.kind == EvClaimed ==> s.jobs[e.job].attempts > 0
  }

  lemma {:induction false} AdmitAllKeepsClaims(s: State, rows: seq<NewRow>, route: Uuid, agent: Uuid, now: Time)
    requires Keyed(s) && FreshIds(s, rows)
    ensures Keyed(AdmitAll(s, rows, route, agent, now))
    ensures var t := AdmitAll(s, rows, route, agent, now);
            && s.log <= t.log
            && (forall p :: |s.log| <= p < |t.log| ==> t.log[p].kind == EvAccepted)
  {
    AdmitAllKeyed(s, rows, route, agent, now);
    if rows != [] {
      assert FreshIds(s, rows[..|rows| - 1]);
      AdmitAllKeepsClaims(s, rows[..|rows| - 1], route, agent, now);
    }
  }

  /** The thread and place of a row that was ever claimed never change. */
  lemma ClaimedRowsKeepPlace(s: State, st: Step, id: JobId)
    requires Rows(s) && Enabled(s, st) && !st.Enqueue? && id in s.jobs && s.jobs[id].attempts > 0
    ensures id in Next(s, st).jobs
    ensures var j, k := s.jobs[id], Next(s, st).jobs[id];
            k.threadKey == j.threadKey && k.createdAt == j.createdAt && k.id == j.id && k.attempts > 0
  {
    assert RowOk(s.jobs[id]);
  }

  /** The log of a single-row step, and what a claimed event at its end means. */
  lemma SingleLog(s: State, st: Step)
    requires Enabled(s, st) && !st.Enqueue? && Keyed(s)
    ensures var t := Next(s, st);
            && |t.log| == |s.log| + 1 && t.log[..|s.log|] == s.log
            && (t.log[|s.log|].kind == EvClaimed ==> st.Claim? && t.log[|s.log|].job == st.job)
            && (st.Claim? ==> t.jobs[st.job].attempts > 0)
  {
  }

  lemma SingleKeepsAttempts(s: State, st: Step)
    requires Rows(s) && Enabled(s, st) && !st.Enqueue? && ClaimsAreAttempts(s) && Keyed(Next(s, st))
    ensures ClaimsAreAttempts(Next(s, st))
  {
    var t := Next(s, st);
    SingleLog(s, st);
    forall e | e in t.log && e.kind == EvClaimed ensures t.jobs[e.job].attempts > 0 {
      var p :| 0 <= p < |t.log| && t.log[p] == e;
      if p < |s.log| {
        assert e == t.log[..|s.log|][p];
        ClaimedRowsKeepPlace(s, st, e.job);
      }
    }
  }

  lemma InitialHasNoClaims(s: State)
    requires Initial(s)
    ensures forall e :: e in s.log ==> e.kind != EvClaimed
  {
    forall e | e in s.log ensures e.kind != EvClaimed {
      HistoryMembers(s.log, e.job);
      assert e in History(s.log, e.job);
    }
  }
}
