/** When each handoff-route command takes effect and what it leaves, read off the columns of the
    route and the arguments. */
module HandoffDecisions {
  import opened Common
  import opened HandoffModel
  import opened HandoffGuarantees

  /** A key of 1 to 220 characters that no command of this source agent has used. */
  predicate NewKey(s: State, q: Request) {
    && 1 <= |q.key| <= 220
    && forall e <- s.receipts :: !(e.route.source == q.source && e.key == q.key)
  }

  /** The route may lead from the source agent to this one. */
  predicate MayLead(q: Request, target: Uuid) { target != q.source && target in q.agents }

  /** The command names an existing route of its source agent at its version. */
  predicate Finds(s: State, q: Request, route: RouteId, expected: int) {
    route in s.routes && route.source == q.source && s.routes[route].version == expected
  }

  /** A route is created exactly for a supported trigger that has none yet and another active
      agent; an update needs something to change and leaves a target that may be led to; a
      deactivation only needs the route.  All need a new key, and the last two the version. */
  lemma CommandIff(s: State, q: Request)
    ensures Next(s, q) != s <==>
              && NewKey(s, q)
              && match q.command
                 case Create(target, trigger, _) =>
                   trigger.Some? && RouteId(q.source, trigger.value) !in s.routes && MayLead(q, target)
                 case Update(route, newTarget, newActive, expected) =>
                   && (newTarget.Some? || newActive.Some?) && Finds(s, q, route, expected)
                   && MayLead(q, if newTarget.Some? then newTarget.value else s.routes[route].target)
                 case Deactivate(route, expected) => Finds(s, q, route, expected)
  {
    ReceiptIff(s.receipts, q.source, q.key);
    EffectIff(s, q);
  }

  lemma EffectIff(s: State, q: Request)
    ensures Next(s, q) != s <==> Judge(s, q).Done?
    ensures Judge(s, q).Done? ==> |Next(s, q).receipts| == |s.receipts| + 1
  {
  }

  /** What a created route looks like. */
  lemma CreateWrites(s: State, q: Request)
    requires q.command.Create? && Next(s, q) != s
    ensures var t, c := Next(s, q), q.command;
            && c.trigger.Some?
            && t.routes == s.routes[RouteId(q.source, c.trigger.value) := Route(c.target, c.active, 0, q.actor, q.at)]
            && |t.receipts| == |s.receipts| + 1 && t.receipts[..|s.receipts|] == s.receipts
            && var e := t.receipts[|s.receipts|];
               && e.route == RouteId(q.source, c.trigger.value) && e.actor == q.actor && e.kind == Created
               && e.previousTarget == None && e.previousActive == None && e.target == c.target && e.active == c.active
               && e.version == 0 && e.applied && e.key == q.key && e.at == q.at
  {
    EffectIff(s, q);
  }

  /** The target a command leaves: the one it names, if it names one. */
  function TargetAfter(row: Route, c: Command): Uuid {
    if c.Update? && c.newTarget.Some? then c.newTarget.value else row.target
  }

  /** The flag it leaves: after a deactivation the route is inactive. */
  function ActiveAfter(row: Route, c: Command): bool {
    match c
    case Update(_, _, newActive, _) => if newActive.Some? then newActive.value else row.active
    case _ => false
  }

  /** An update or deactivation leaves the target and flag it asks for, moves version and
      authorship iff one of the two changed, touches no other route, and leaves one receipt that
      tells before and after. */
  lemma MoveWrites(s: State, q: Request)
    requires !q.command.Create? && Next(s, q) != s
    ensures var t, id := Next(s, q), q.command.route;
            && id in s.routes && t.routes.Keys == s.routes.Keys
            && (forall x <- s.routes :: x != id ==> t.routes[x] == s.routes[x])
            && var a, b := s.routes[id], t.routes[id];
               var changed := b.target != a.target || b.active != a.active;
               && b.target == TargetAfter(a, q.command) && b.active == ActiveAfter(a, q.command)
               && (changed ==> b.version == a.version + 1 && b.updatedBy == q.actor && b.updatedAt == q.at)
               && (!changed ==> b == a)
               && |t.receipts| == |s.receipts| + 1 && t.receipts[..|s.receipts|] == s.receipts
               && var e := t.receipts[|s.receipts|];
                  && e.route == id && e.actor == q.actor && (e.kind == Updated <==> q.command.Update?)
                  && (e.kind == Deactivated <==> q.command.Deactivate?)
                  && e.previousTarget == Some(a.target) && e.previousActive == Some(a.active)
                  && e.target == b.target && e.active == b.active && e.version == b.version
                  && e.applied == changed && e.key == q.key && e.at == q.at
  {
    EffectIff(s, q);
  }

  /** The same command by the same actor. */
  predicate SameCommand(a: Request, b: Request) { a.actor == b.actor && a.command == b.command }

  /** After any later commands a repeated command is a duplicate, and any other under its key is
      refused. */
  lemma RepeatIsDuplicate(before: seq<Request>, q: Request, later: seq<Request>, again: Request)
    requires Next(Exec(EMPTY, before), q) != Exec(EMPTY, before) && WellFormed(again)
    requires again.source == q.source && again.key == q.key
    ensures Judge(Exec(EMPTY, before + [q] + later), again) == if SameCommand(again, q) then Duplicate else KeyReused
    ensures Next(Exec(EMPTY, before + [q] + later), again) == Exec(EMPTY, before + [q] + later)
  {
    EffectIff(Exec(EMPTY, before), q);
    RetriesAreRecognised(before, q, later, again);
    assert DigestOf(again) == DigestOf(q) <==> SameCommand(again, q);
  }
}
