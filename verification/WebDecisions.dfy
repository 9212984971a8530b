/** When a web execution starts, is answered or settles, read off its row, the request and the
    conversation. */
module WebDecisions {
  import opened Common
  import opened ConversationModel
  import opened ConversationDecisions
  import W = WebExecutions

  /** A known request whose input or session differs from the stored one. */
  predicate Differs(s: W.Web, q: W.Request) {
    q.id in s.execs && (s.execs[q.id].input != q.input || s.execs[q.id].scope != q.scope)
  }

  /** Which answer a request gets: a start exactly for a consented request on a ready route and
      agent that is new, or known with the same input and session and failed or blocked; the stored
      output exactly for a completed one; and in progress exactly for a running one. */
  lemma StartIff(s: W.Web, q: W.Request)
    ensures var r := W.Judge(s, q);
            var known := q.consent && q.routeReady && q.id in s.execs && !Differs(s, q);
            && (r == W.Started <==>
                && q.consent && q.routeReady && q.actingReady && !Differs(s, q)
                && (q.id in s.execs ==> s.execs[q.id].status in {W.Failed, W.Blocked}))
            && (r == W.InProgress <==> known && s.execs[q.id].status == W.Running)
            && (r.Stored? <==> known && s.execs[q.id].status == W.Completed && s.execs[q.id].output.Some?)
            && (r.Stored? ==> s.execs[q.id].output == Some(r.output))
            && (r == W.ConsentRequired <==> !q.consent)
  {
  }

  /** A start leaves the execution running under the ownership then in force, its message not yet
      heard; it opens the session's conversation if there is none and changes no other row. Any
      other answer changes nothing. */
  lemma StartWrites(s: W.Web, q: W.Request)
    ensures var t := W.Next(s, W.Begin(q));
            && (W.Judge(s, q) != W.Started ==> t == s)
            && (W.Judge(s, q) == W.Started ==>
                  var c := if q.scope in s.convs then s.convs[q.scope] else Opened(q.conversation, q.agent);
                  && t.convs == s.convs[q.scope := c] && t.answers == s.answers
                  && t.execs.Keys == s.execs.Keys + {q.id}
                  && (forall id <- s.execs :: id != q.id ==> t.execs[id] == s.execs[id])
                  && var e := t.execs[q.id];
                     && e.scope == q.scope && e.input == q.input
                     && e.status == W.Running && !e.heard && e.output == None
                     && e.inFlight == (if q.id in s.execs then s.execs[q.id].inFlight else 0) + 1
                     && e.ticket.routing == c.agent && e.ticket.acting == c.automationAgent
                     && e.ticket.controlVersion == c.controlVersion
                     && e.ticket.automationVersion == c.automationVersion)
  {
  }

  /** The conversation is still automated under the agent and versions the execution started with. */
  predicate StillOwned(s: W.Web, e: W.Execution) { e.scope in s.convs && OnTime(s.convs[e.scope], e.ticket) }

  /** How a call ends: completed exactly with a successful, non-empty text and under unchanged
      ownership; blocked exactly when a guard tripped or the ownership changed; else failed.  Only
      a completion leaves an output and one answer, which is the text returned. */
  lemma SettleIff(s: W.Web, id: string, end: W.LoopEnd)
    requires W.Settleable(s, id, end)
    ensures var t := W.Next(s, W.Settle(id, end));
            && id in s.execs && s.execs[id].inFlight > 0 && id in t.execs
            && var e, f := s.execs[id], t.execs[id];
               && (f.status == W.Completed <==> end.Returned? && end.success && end.text != "" && StillOwned(s, e))
               && (f.status == W.Blocked <==> end.Tripped? || (end.Returned? && !StillOwned(s, e)))
               && (f.status == W.Failed <==>
                   end.Raised? || (end.Returned? && StillOwned(s, e) && !(end.success && end.text != "")))
               && f.scope == e.scope && f.input == e.input && f.ticket == e.ticket && f.inFlight == e.inFlight - 1
               && f.heard == (e.heard || f.status in {W.Completed, W.Blocked})
               && f.output == (if f.status == W.Completed then Some(end.text) else e.output)
               && t.answers == (if f.status == W.Completed then s.answers + [W.Answer(id, end.text)] else s.answers)
               && t.convs == s.convs && t.execs == s.execs[id := f]
  {
  }

  /** A call in flight can always end, and by a tripped guard only when its ownership changed. */
  lemma SettleableIff(s: W.Web, id: string, end: W.LoopEnd)
    ensures W.Enabled(s, W.Settle(id, end)) <==>
            && id in s.execs && s.execs[id].inFlight > 0 && (end.Tripped? ==> !StillOwned(s, s.execs[id]))
  {
  }

  /** A conversation command changes executions only if it is a reset that takes effect: then
      exactly the running ones of the session become blocked. */
  lemma TalkWrites(s: W.Web, scope: string, cmd: Command, id: string)
    requires scope in s.convs
    ensures var t := W.Next(s, W.Talk(scope, cmd));
            && t.convs == s.convs[scope := Do(s.convs[scope], cmd).0] && t.answers == s.answers
            && (id in t.execs <==> id in s.execs)
            && (id in s.execs ==>
                  t.execs[id] == if cmd.DoReset? && cmd.agent == s.convs[scope].agent && s.convs[scope].active
                                    && s.execs[id].scope == scope && s.execs[id].status == W.Running
                                 then s.execs[id].(status := W.Blocked) else s.execs[id])
  {
  }
}
