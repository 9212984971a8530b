/** The service over the route and receipt tables. */
module HandoffRoutes {
  import opened Common
  import opened HandoffModel

  class RouteService {
    var routes: map<RouteId, Route>
    var receipts: seq<Receipt>

    ghost function View(): State
      reads this
    {
      State(routes, receipts)
    }

    constructor ()
      ensures View() == EMPTY
    {
      routes, receipts := map[], [];
    }

    /** Scans the receipt table for a key. */
    method ReceiptByKey(source: Uuid, key: string) returns (r: Option<Receipt>)
      ensures r == ReceiptOf(receipts, source, key)
    {
      r := None;
      for i := 0 to |receipts|
        invariant r == ReceiptOf(receipts[..i], source, key)
      {
        assert receipts[..i + 1][..i] == receipts[..i];
        if receipts[i].route.source == source && receipts[i].key == key { r := Some(receipts[i]); }
      }
      assert receipts[..|receipts|] == receipts;
    }

    /** A key with a receipt ends the command: as a duplicate, or refused. */
    method Replay(q: Request) returns (stop: Option<Verdict>)
      requires WellFormed(q)
      ensures stop.None? <==> ReceiptOf(receipts, q.source, q.key).None?
      ensures stop.Some? ==> stop.value == Judge(View(), q) && !stop.value.Done?
    {
      var receipt := ReceiptByKey(q.source, q.key);
      if receipt.None? { return None; }
      if receipt.value.digest != DigestOf(q) { return Some(KeyReused); }
      if receipt.value.route !in routes { return Some(NotFound); }
      return Some(Duplicate);
    }

    method CreateRoute(q: Request) returns (v: Verdict)
      requires q.command.Create?
      modifies this
      ensures v == Judge(old(View()), q) && View() == Next(old(View()), q)
    {
      if !WellFormed(q) { return Invalid; }
      var stop := Replay(q);
      if stop.Some? { return stop.value; }
      if !TargetOk(q.source, q.command.target, q.agents) { return Invalid; }
      var id := RouteId(q.source, q.command.trigger.value);
      if id in routes { return Conflict; }
      routes := routes[id := Route(q.command.target, q.command.active, 0, q.actor, q.at)];
      receipts := receipts + [Receipt(id, q.actor, Created, None, q.command.target, None, q.command.active, 0, true,
                                      q.key, DigestOf(q), q.at)];
      return Done(true);
    }

    /** Changes target or active flag; a command that changes nothing still leaves a receipt. */
    method UpdateRoute(q: Request) returns (v: Verdict)
      requires q.command.Update?
      modifies this
      ensures v == Judge(old(View()), q) && View() == Next(old(View()), q)
    {
      if !WellFormed(q) { return Invalid; }
      var stop := Replay(q);
      if stop.Some? { return stop.value; }
      var id := q.command.route;
      if id !in routes || id.source != q.source { return NotFound; }
      var route := routes[id];
      if route.version != q.command.expected { return VersionConflict; }
      var target := OrElse(q.command.newTarget, route.target);
      if !TargetOk(q.source, target, q.agents) { return Invalid; }
      var active := OrElse(q.command.newActive, route.active);
      var previousTarget, previousActive := route.target, route.active;
      var applied := target != route.target || active != route.active;
      if applied {
        route := route.(target := target);
        route := route.(active := active);
        route := route.(version := route.version + 1);
        route := route.(updatedBy := q.actor, updatedAt := q.at);
      }
      routes := routes[id := route];
      receipts := receipts + [Receipt(id, q.actor, Updated, Some(previousTarget), route.target, Some(previousActive),
                                      route.active, route.version, applied, q.key, DigestOf(q), q.at)];
      return Done(applied);
    }

    /** Switches a route off without looking at its target. */
    method DeactivateRoute(q: Request) returns (v: Verdict)
      requires q.command.Deactivate?
      modifies this
      ensures v == Judge(old(View()), q) && View() == Next(old(View()), q)
    {
      if !WellFormed(q) { return Invalid; }
      var stop := Replay(q);
      if stop.Some? { return stop.value; }
      var id := q.command.route;
      if id !in routes || id.source != q.source { return NotFound; }
      var route := routes[id];
      if route.version != q.command.expected { return VersionConflict; }
      var previousActive := route.active;
      if route.active {
        route := route.(active := false);
        route := route.(version := route.version + 1);
        route := route.(updatedBy := q.actor, updatedAt := q.at);
      }
      routes := routes[id := route];
      receipts := receipts + [Receipt(id, q.actor, Deactivated, Some(route.target), route.target, Some(previousActive),
                                      route.active, route.version, previousActive, q.key, DigestOf(q), q.at)];
      return Done(previousActive);
    }
  }
}
