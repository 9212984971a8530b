/** Operator commands on held ingress rows: compare-and-set with idempotency receipts. */
module ChannelInboundReview {
  import opened Common
  import opened InboundModel
  import opened InboundHistory
  import opened InboundGuarantees
  import opened ChannelInbound

  /** The unique constraint on (job, idempotency key). */
  predicate ReceiptsUnique(log: seq<Event>) {
    forall p, q | 0 <= p < |log| && 0 <= q < |log| && log[p].job == log[q].job ::
      log[p].receipt.Some? && log[q].receipt.Some? && log[p].receipt.value.key == log[q].receipt.value.key
      ==> log[p] == log[q]
  }

  /** The constraint holds in every reachable table. */
  lemma ReachableReceiptsAreUnique(s: State, steps: seq<Step>)
    requires Initial(s) && ValidRun(s, steps)
    ensures ReceiptsUnique(Exec(s, steps).log)
  {
    InitialInv(s);
    RunKeepsInv(s, steps);
    var t := Exec(s, steps);
    forall p, q | 0 <= p < |t.log| && 0 <= q < |t.log| && t.log[p].job == t.log[q].job
      && t.log[p].receipt.Some? && t.log[q].receipt.Some? && t.log[p].receipt.value.key == t.log[q].receipt.value.key
      ensures t.log[p] == t.log[q] {
      ReceiptIsUnique(t, t.log[p], t.log[q]);
    }
  }

  method FindReceipt(log: seq<Event>, job: JobId, key: string) returns (found: Option<Receipt>)
    requires ReceiptsUnique(log)
    ensures found.Some? <==> HasReceipt(log, job, key)
    ensures found.Some? ==> forall e <- log :: e.job == job && e.receipt.Some? && e.receipt.value.key == key
                              ==> e.receipt == found
  {
    for i := 0 to |log|
      invariant forall k :: 0 <= k < i
                  ==> !(log[k].job == job && log[k].receipt.Some? && log[k].receipt.value.key == key)
    {
      if log[i].job == job && log[i].receipt.Some? && log[i].receipt.value.key == key {
        assert log[i] in log;
        return log[i].receipt;
      }
    }
    return None;
  }

  /** The checks shared by every command, up to the compare-and-set. */
  method CommandContext(store: InboundStore, c: Command) returns (v: Verdict)
    requires store.Valid() && ReceiptsUnique(store.log)
    ensures v != Refused && (v == Verdict.Apply || v == Judge(store.Table(), c))
    ensures v == Verdict.Apply <==> Judge(store.Table(), c) == Verdict.Apply || Judge(store.Table(), c) == Refused
  {
    if c.key == "" || c.correlation == "" { return BadIdentifiers; }
    var digest := DigestOf(c);
    if c.job !in store.rows || store.rows[c.job].agent != c.agent { return NotFound; }
    assert store.Table().jobs[c.job] == store.rows[c.job].View();
    var existing := FindReceipt(store.log, c.job, c.key);
    if existing.Some? {
      assert HasMatchingReceipt(store.log, c) <==> existing.value.digest == digest by {
        var e :| e in store.log && e.job == c.job && e.receipt.Some? && e.receipt.value.key == c.key;
      }
      return if existing.value.digest == digest then Replay else KeyCollision;
    }
    if store.rows[c.job].version != c.expected { return VersionConflict; }
    return Verdict.Apply;
  }

  method ApplyCommand(store: InboundStore, c: Command, status: Status, phase: Phase, code: Option<string>, now: Time)
    requires store.Valid() && c.job in store.rows
    modifies store`log, store.rows[c.job]
    ensures store.Valid() && store.rows == old(store.rows)
    ensures var j := old(store.Table()).jobs[c.job];
            var k := store.rows[c.job].View();
            && k == j.(status := status, phase := phase, code := code, version := j.version + 1, leaseOwner := None,
                       leaseExpires := None,
                       terminalAt := if status == Cancelled || status == Ignored then Some(now) else j.terminalAt)
            && store.Table() == Write(old(store.Table()), k, CommandKind(c.action), Some(j.status), Operator(c.admin),
                                      Some(Receipt(c.key, Digest(c.action, j.version, j.id), c.correlation)))
  {
    ghost var before := store.Table();
    var row := store.rows[c.job];
    var from := row.status;
    row.ApplyCommand(status, phase, code, now);
    var receipt := Receipt(c.key, Digest(c.action, row.version - 1, row.id), c.correlation);
    store.Record(row, CommandKind(c.action), Some(from), Operator(c.admin), Some(receipt));
    store.RowWritten(before, c.job, CommandKind(c.action), Some(from), Operator(c.admin), Some(receipt));
  }

  /** Converting and then applying a requeue is the one step of the model. */
  lemma RequeueWrites(before: State, converted: State, after: State, c: Command, now: Time)
    requires Judge(before, c) == Verdict.Apply && c.action == Action.Requeue && before.jobs[c.job].id == c.job
    requires converted == State(before.jobs[c.job := ConvertRow(before.jobs[c.job])], before.log)
    requires var j := converted.jobs[c.job];
             var k := j.(status := Queued, phase := Accepted, code := None, version := j.version + 1,
                         leaseOwner := None, leaseExpires := None);
             after == Write(converted, k, EvRequeued, Some(j.status), Operator(c.admin),
                            Some(Receipt(c.key, Digest(c.action, j.version, j.id), c.correlation)))
    ensures after == Next(before, Operate(c, now))
  {
    assert after.jobs == before.jobs[c.job := CommandRow(before.jobs[c.job], Action.Requeue, now)];
  }

  method ConvertAt(store: InboundStore, job: JobId)
    requires store.Valid() && job in store.rows
    modifies store.rows[job]
    ensures store.Valid()
    ensures store.Table()
      == State(old(store.Table()).jobs[job := ConvertRow(old(store.Table()).jobs[job])], old(store.log))
  {
    ghost var before := store.Table();
    var ok := store.rows[job].Convert();
    assert store.Table().jobs == before.jobs[job := ConvertRow(before.jobs[job])];
  }

  method RequeueApproved(store: InboundStore, c: Command, now: Time)
    requires store.Valid() && Judge(store.Table(), c) == Verdict.Apply && c.action == Action.Requeue
    modifies store`log, store.rows.Values
    ensures store.Valid() && store.rows == old(store.rows)
    ensures store.Table() == Next(old(store.Table()), Operate(c, now))
  {
    ghost var before := store.Table();
    ConvertAt(store, c.job);
    ghost var converted := store.Table();
    ApplyCommand(store, c, Queued, Accepted, None, now);
    RequeueWrites(before, converted, store.Table(), c, now);
  }

  /** Requeue: only rows held before any fence; quarantined payloads are encrypted first. */
  method Requeue(store: InboundStore, c: Command, now: Time) returns (v: Verdict)
    requires store.Valid() && ReceiptsUnique(store.log) && c.action == Action.Requeue
    modifies store`log, store.rows.Values
    ensures store.Valid() && store.rows == old(store.rows)
    ensures v == Judge(old(store.Table()), c)
    ensures store.Table() ==
            if v == Verdict.Apply then Next(old(store.Table()), Operate(c, now)) else old(store.Table())
  {
    v := CommandContext(store, c);
    if v != Verdict.Apply { return; }
    var row := store.rows[c.job];
    ghost var before := store.Table();
    assert before.jobs[c.job] == row.View();
    if row.status != ReviewRequired || !Requeueable(row.phase) { return Refused; }
    if row.legacy.Some? && row.legacy.value.Unreadable? { return Refused; }
    if row.legacy.None? && (row.payload.None? || row.threadKey.None?) { return Refused; }
    RequeueApproved(store, c, now);
  }

  method EraseAt(store: InboundStore, job: JobId)
    requires store.Valid() && job in store.rows
    modifies store.rows[job]
    ensures store.Valid()
    ensures var s := old(store.Table());
            store.Table() == State(s.jobs[job := s.jobs[job].(payload := None, legacy := None)], s.log)
  {
    ghost var before := store.Table();
    store.rows[job].ErasePayload();
    assert store.Table().jobs == before.jobs[job := before.jobs[job].(payload := None, legacy := None)];
  }

  lemma TerminalWrites(before: State, marked: State, after: State, c: Command, now: Time)
    requires Judge(before, c) == Verdict.Apply && c.action != Action.Requeue && before.jobs[c.job].id == c.job
    requires var j := before.jobs[c.job];
             var k := j.(status := CommandStatus(c.action), phase := Terminal, code := Some(ActionName(c.action)),
                         version := j.version + 1, leaseOwner := None, leaseExpires := None, terminalAt := Some(now));
             && marked == Write(before, k, CommandKind(c.action), Some(j.status), Operator(c.admin),
                                Some(Receipt(c.key, Digest(c.action, j.version, j.id), c.correlation)))
             && after == State(marked.jobs[c.job := k.(payload := None, legacy := None)], marked.log)
    ensures after == Next(before, Operate(c, now))
  {
    assert after.jobs == before.jobs[c.job := CommandRow(before.jobs[c.job], c.action, now)];
  }

  /** Cancel and acknowledge: terminal, payload erased. */
  method TerminalCommand(store: InboundStore, c: Command, now: Time) returns (v: Verdict)
    requires store.Valid() && ReceiptsUnique(store.log) && c.action != Action.Requeue
    modifies store`log, store.rows.Values
    ensures store.Valid() && store.rows == old(store.rows)
    ensures v == Judge(old(store.Table()), c)
    ensures store.Table() ==
            if v == Verdict.Apply then Next(old(store.Table()), Operate(c, now)) else old(store.Table())
  {
    v := CommandContext(store, c);
    if v != Verdict.Apply { return; }
    var row := store.rows[c.job];
    ghost var before := store.Table();
    assert before.jobs[c.job] == row.View();
    if !(row.status == ReviewRequired || (c.action == Cancel && row.status == Queued)) { return Refused; }
    ApplyCommand(store, c, CommandStatus(c.action), Terminal, Some(ActionName(c.action)), now);
    ghost var marked := store.Table();
    EraseAt(store, c.job);
    TerminalWrites(before, marked, store.Table(), c, now);
  }
}
