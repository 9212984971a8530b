/** Deduplicated acceptance, stated without the loop that performs it. */
module InboundArrivals {
  import opened Common
  import opened InboundModel
  import opened InboundHistory
  import opened InboundGuarantees
  import opened ChannelInbound

  /** The row at `i` is the first of the batch with its provider id, and the table had none. */
  predicate FirstSeen(s: State, rows: seq<NewRow>, route: Uuid, i: nat)
    requires i < |rows|
  {
    && !KeyTaken(s, route, rows[i].message.providerId)
    && forall j :: 0 <= j < i ==> rows[j].message.providerId != rows[i].message.providerId
  }

  /** Which provider ids a batch leaves in the table. */
  lemma {:induction false} KeysAfter(s: State, rows: seq<NewRow>, route: Uuid, agent: Uuid, now: Time, other: Uuid,
                                     key: string)
    requires Keyed(s) && FreshIds(s, rows)
    ensures KeyTaken(AdmitAll(s, rows, route, agent, now), other, key)
      <==> KeyTaken(s, other, key) || (other == route && exists r <- rows :: r.message.providerId == key)
  {
    if rows != [] {
      var init, last := rows[..|rows| - 1], rows[|rows| - 1];
      var mid, t := AdmitAll(s, init, route, agent, now), AdmitAll(s, rows, route, agent, now);
      assert FreshIds(s, init);
      KeysAfter(s, init, route, agent, now, other, key);
      KeysAfter(s, init, route, agent, now, route, last.message.providerId);
      AdmittedAreFromBatch(s, init, route, agent, now, last.id);
      AdmitAddsKey(mid, last, route, agent, now, other, key);
    }
  }

  lemma AdmittedAreFromBatch(s: State, rows: seq<NewRow>, route: Uuid, agent: Uuid, now: Time, id: JobId)
    requires FreshIds(s, rows) && id !in s.jobs && forall r <- rows :: r.id != id
    ensures id !in AdmitAll(s, rows, route, agent, now).jobs
  {
    if id in AdmitAll(s, rows, route, agent, now).jobs {
      AdmittedRowsAreQueued(s, rows, route, agent, now, id);
    }
  }

  lemma AdmitAddsKey(s: State, row: NewRow, route: Uuid, agent: Uuid, now: Time, other: Uuid, key: string)
    requires row.id !in s.jobs
    ensures KeyTaken(Admit(s, row, route, agent, now), other, key)
      <==> KeyTaken(s, other, key) || (other == route && row.message.providerId == key)
  {
    var t := Admit(s, row, route, agent, now);
    if !KeyTaken(s, route, row.message.providerId) {
      assert t.jobs[row.id] == FreshRow(row, route, agent, now);
      if KeyTaken(s, other, key) {
        var id :| id in s.jobs && s.jobs[id].route == other && s.jobs[id].providerId == key;
        assert t.jobs[id] == s.jobs[id];
      }
    }
  }

  lemma LastAccepted(s: State, rows: seq<NewRow>, route: Uuid, agent: Uuid, now: Time)
    requires Keyed(s) && FreshIds(s, rows) && rows != []
    ensures var i := |rows| - 1;
            && (rows[i].id in AdmitAll(s, rows, route, agent, now).jobs <==> FirstSeen(s, rows, route, i))
            && (rows[i].id in AcceptedIds(s, rows, route, agent, now) <==> FirstSeen(s, rows, route, i))
  {
    var init, last := rows[..|rows| - 1], rows[|rows| - 1];
    assert FreshIds(s, init);
    KeysAfter(s, init, route, agent, now, route, last.message.providerId);
    AdmittedAreFromBatch(s, init, route, agent, now, last.id);
    AcceptedAreFromBatch(s, init, route, agent, now, last.id);
    if j :| 0 <= j < |init| && rows[j].message.providerId == last.message.providerId { assert init[j] in init; }
    assert KeyTaken(AdmitAll(s, init, route, agent, now), route, last.message.providerId)
      <==> !FirstSeen(s, rows, route, |rows| - 1);
  }

  /** A row of a batch enters the table exactly when its provider id is new to the table
      and to the part of the batch before it. */
  lemma {:induction false} AcceptedIffFirstSeen(s: State, rows: seq<NewRow>, route: Uuid, agent: Uuid, now: Time,
                                                i: nat)
    requires Keyed(s) && FreshIds(s, rows) && i < |rows|
    ensures rows[i].id in AdmitAll(s, rows, route, agent, now).jobs <==> FirstSeen(s, rows, route, i)
    ensures rows[i].id in AcceptedIds(s, rows, route, agent, now) <==> FirstSeen(s, rows, route, i)
    decreases |rows|
  {
    if i < |rows| - 1 {
      var init := rows[..|rows| - 1];
      assert FreshIds(s, init) && init[i] == rows[i];
      AcceptedIffFirstSeen(s, init, route, agent, now, i);
      assert FirstSeen(s, init, route, i) <==> FirstSeen(s, rows, route, i);
    } else {
      LastAccepted(s, rows, route, agent, now);
    }
  }

  lemma {:induction false} AcceptedAreFromBatch(s: State, rows: seq<NewRow>, route: Uuid, agent: Uuid, now: Time,
                                                id: JobId)
    requires forall r <- rows :: r.id != id
    ensures id !in AcceptedIds(s, rows, route, agent, now)
  {
    if rows != [] { AcceptedAreFromBatch(s, rows[..|rows| - 1], route, agent, now, id); }
  }

  /** Replaying a whole accepted batch under new ids changes nothing. */
  lemma {:induction false} RedeliveryIsNoop(s: State, rows: seq<NewRow>, again: seq<NewRow>, route: Uuid, agent: Uuid,
                                             now: Time, later: Time)
    requires Keyed(s) && FreshIds(s, rows)
    requires forall r <- again :: exists q <- rows :: q.message.providerId == r.message.providerId
    ensures AdmitAll(AdmitAll(s, rows, route, agent, now), again, route, agent, later)
      == AdmitAll(s, rows, route, agent, now)
    decreases |again|
  {
    if again != [] {
      var last := again[|again| - 1];
      assert forall r <- again[..|again| - 1] :: r in again;
      assert last in again;
      RedeliveryIsNoop(s, rows, again[..|again| - 1], route, agent, now, later);
      KeysAfter(s, rows, route, agent, now, route, last.message.providerId);
    }
  }
}
