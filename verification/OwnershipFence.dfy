/** Ingress jobs and conversations running side by side: what the final epoch check proves. */
module OwnershipFence {
  import opened Common
  import In = InboundModel
  import InHistory = InboundHistory
  import InGuarantees = InboundGuarantees
  import opened ConversationModel
  import opened ConversationGuarantees

  /** Both tables; conversations are those that exist from the start. */
  datatype Sys = Sys(ingress: In.State, convs: map<Uuid, Conversation>)

  datatype SysStep = Ingress(step: In.Step) | Talk(conv: Uuid, cmd: Command)

  predicate SysEnabled(s: Sys, st: SysStep) {
    match st
    case Ingress(step) => In.Enabled(s.ingress, step)
    case Talk(conv, _) => conv in s.convs
  }

  function SysNext(s: Sys, st: SysStep): Sys
    requires SysEnabled(s, st)
  {
    match st
    case Ingress(step) => s.(ingress := In.Next(s.ingress, step))
    case Talk(conv, cmd) => s.(convs := s.convs[conv := Do(s.convs[conv], cmd).0])
  }

  predicate SysRun(s: Sys, steps: seq<SysStep>, n: nat)
    requires n <= |steps|
    decreases n, 0
  {
    n > 0 ==> SysRun(s, steps, n - 1) && SysEnabled(After(s, steps, n - 1), steps[n - 1])
  }

  /** The state after the first `n` steps. */
  function After(s: Sys, steps: seq<SysStep>, n: nat): Sys
    requires n <= |steps| && SysRun(s, steps, n)
    decreases n, 1
  {
    if n == 0 then s else SysNext(After(s, steps, n - 1), steps[n - 1])
  }

  function SnapshotOf(c: Conversation): In.Epoch {
    In.Epoch(c.id, c.controlVersion, c.automationAgent, c.automationVersion)
  }

  /** The check a worker makes after a successful pipeline run. */
  predicate EpochIsCurrent(s: Sys, job: In.JobId) {
    job in s.ingress.jobs &&
    var j := s.ingress.jobs[job];
    if j.epoch.None? || j.epoch.value.conversation !in s.convs
    then j.phase == In.Accepted || j.phase == In.Claimed
    else
      var c, e := s.convs[j.epoch.value.conversation], j.epoch.value;
      && c.mode == Automated && c.controlVersion == e.controlVersion
      && c.automationAgent == e.agent && c.automationVersion == e.automationVersion
  }

  predicate Records(st: SysStep, job: In.JobId) {
    st.Ingress? && st.step.Advance? && st.step.job == job && st.step.phase == In.InboundRecorded
  }

  predicate Named(s: Sys) { forall id :: id in s.convs ==> s.convs[id].id == id }

  lemma {:induction false} RunLonger(s: Sys, steps: seq<SysStep>, m: nat, n: nat)
    requires m <= n <= |steps| && SysRun(s, steps, n)
    ensures SysRun(s, steps, m)
    decreases n - m
  {
    if m < n { RunLonger(s, steps, m, n - 1); }
  }

  lemma {:induction false} RunKeyed(s: Sys, steps: seq<SysStep>, n: nat)
    requires n <= |steps| && SysRun(s, steps, n) && InHistory.Keyed(s.ingress) && Named(s)
    ensures InHistory.Keyed(After(s, steps, n).ingress) && Named(After(s, steps, n))
    ensures After(s, steps, n).convs.Keys == s.convs.Keys
  {
    if n > 0 {
      RunKeyed(s, steps, n - 1);
      var st, mid := steps[n - 1], After(s, steps, n - 1);
      match st
      case Ingress(step) => InGuarantees.StepKeyed(mid.ingress, step);
      case Talk(conv, cmd) => StepEpochs(mid.convs[conv], cmd);
    }
  }

  /** One step moves one conversation's epochs as its command does, and no other's. */
  lemma StepConv(s: Sys, st: SysStep, id: Uuid)
    requires SysEnabled(s, st) && id in s.convs
    ensures id in SysNext(s, st).convs && Evolves(s.convs[id], SysNext(s, st).convs[id])
    ensures var c, d := s.convs[id], SysNext(s, st).convs[id];
            && (c.mode == Automated && d.mode == Automated ==> d.controlVersion == c.controlVersion)
            && (d.automationAgent == c.automationAgent ==> d.automationVersion == c.automationVersion)
  {
    if st.Talk? && st.conv == id { StepEpochs(s.convs[id], st.cmd); }
  }

  lemma {:induction false} RowEvolves(s: Sys, steps: seq<SysStep>, p: nat, q: nat, id: Uuid)
    requires p <= q <= |steps| && SysRun(s, steps, q) && SysRun(s, steps, p) && id in After(s, steps, p).convs
    ensures id in After(s, steps, q).convs && Evolves(After(s, steps, p).convs[id], After(s, steps, q).convs[id])
    decreases q - p
  {
    if p < q {
      RowEvolves(s, steps, p, q - 1, id);
      StepConv(After(s, steps, q - 1), steps[q - 1], id);
    }
  }

  predicate OwnedBy(s: Sys, id: Uuid, agent: Agent) { id in s.convs && HeldBy(s.convs[id], agent) }

  /** Automated under `agent` at every moment from `p` to `q`. */
  predicate OwnedThroughout(s: Sys, steps: seq<SysStep>, p: nat, q: nat, id: Uuid, agent: Agent)
    requires p <= q <= |steps| && SysRun(s, steps, q)
  {
    forall m | p <= m <= q :: SysRun(s, steps, m) && OwnedBy(After(s, steps, m), id, agent)
  }

  /** Unchanged versions from `p` to `q`, automated at `q`: automated throughout. */
  lemma SameEpochsOwned(s: Sys, steps: seq<SysStep>, p: nat, q: nat, id: Uuid)
    requires p <= q <= |steps| && SysRun(s, steps, q) && SysRun(s, steps, p) && id in After(s, steps, p).convs
    requires id in After(s, steps, q).convs && After(s, steps, q).convs[id].mode == Automated
    requires SameEpochs(After(s, steps, p).convs[id], After(s, steps, q).convs[id])
    ensures OwnedThroughout(s, steps, p, q, id, After(s, steps, q).convs[id].automationAgent)
  {
    var d := After(s, steps, q).convs[id];
    forall m | p <= m <= q ensures SysRun(s, steps, m) && OwnedBy(After(s, steps, m), id, d.automationAgent) {
      RunLonger(s, steps, m, q);
      RowEvolves(s, steps, p, m, id);
      RowEvolves(s, steps, m, q, id);
      HeldInBetween(After(s, steps, p).convs[id], After(s, steps, m).convs[id], d);
    }
  }

  lemma {:induction false} OwnedSameEpochs(s: Sys, steps: seq<SysStep>, p: nat, q: nat, id: Uuid, agent: Agent)
    requires p <= q <= |steps| && SysRun(s, steps, q) && OwnedThroughout(s, steps, p, q, id, agent)
    ensures SameEpochs(After(s, steps, p).convs[id], After(s, steps, q).convs[id])
    decreases q - p
  {
    if p < q {
      RunLonger(s, steps, q - 1, q);
      OwnedSameEpochs(s, steps, p, q - 1, id, agent);
      StepConv(After(s, steps, q - 1), steps[q - 1], id);
    }
  }

  /** Only recording the inbound message writes a job's snapshot. */
  lemma SnapshotFrame(s: In.State, st: In.Step, id: In.JobId)
    requires InHistory.Keyed(s) && In.Enabled(s, st) && id in s.jobs
    ensures id in In.Next(s, st).jobs
    ensures In.Next(s, st).jobs[id].epoch
            == if st.Advance? && st.job == id && st.phase == In.InboundRecorded then st.epoch else s.jobs[id].epoch
  {
    if st.Enqueue? { InGuarantees.AdmitAllFrame(s, st.rows, st.route, st.agent, st.now, id); }
  }

  lemma {:induction false} SnapshotKept(s: Sys, steps: seq<SysStep>, i: nat, n: nat, job: In.JobId)
    requires i < n <= |steps| && SysRun(s, steps, n) && InHistory.Keyed(s.ingress) && Named(s)
    requires Records(steps[i], job) && forall k :: i < k < n ==> !Records(steps[k], job)
    ensures job in After(s, steps, n).ingress.jobs
    ensures After(s, steps, n).ingress.jobs[job].epoch == steps[i].step.epoch
    decreases n - i
  {
    RunKeyed(s, steps, n - 1);
    var mid, st := After(s, steps, n - 1), steps[n - 1];
    if n - 1 > i { SnapshotKept(s, steps, i, n - 1, job); }
    if st.Ingress? { SnapshotFrame(mid.ingress, st.step, job); }
  }

  /** A snapshot read at moment `r` was recorded at step `i`, and is the last one recorded before `n`. */
  predicate SnapshotRecorded(s: Sys, steps: seq<SysStep>, r: nat, i: nat, n: nat, job: In.JobId, epoch: In.Epoch) {
    && r <= i < n <= |steps| && SysRun(s, steps, n) && SysRun(s, steps, r)
    && epoch.conversation in After(s, steps, r).convs
    && epoch == SnapshotOf(After(s, steps, r).convs[epoch.conversation])
    && Records(steps[i], job) && steps[i].step.epoch == Some(epoch)
    && forall k | i < k < n :: !Records(steps[k], job)
  }

  /** No ABA.  A snapshot read at moment `r` and recorded later passes the final check
      exactly when the conversation was automated under the recorded agent at every single
      moment since `r`, whatever control transitions, assignments, other jobs, operators and
      messages were interleaved. */
  lemma CheckPassesIffOwnedThroughout(s: Sys, steps: seq<SysStep>, r: nat, i: nat, n: nat, job: In.JobId,
                                      epoch: In.Epoch)
    requires InHistory.Keyed(s.ingress) && Named(s)
    requires SnapshotRecorded(s, steps, r, i, n, job, epoch)
    ensures EpochIsCurrent(After(s, steps, n), job)
      <==> OwnedThroughout(s, steps, r, n, epoch.conversation, epoch.agent)
  {
    SnapshotKept(s, steps, i, n, job);
    RunKeyed(s, steps, n);
    RunKeyed(s, steps, r);
    if EpochIsCurrent(After(s, steps, n), job) {
      SameEpochsOwned(s, steps, r, n, epoch.conversation);
    }
    if OwnedThroughout(s, steps, r, n, epoch.conversation, epoch.agent) {
      OwnedSameEpochs(s, steps, r, n, epoch.conversation, epoch.agent);
    }
  }

  /** Without a recorded conversation the check passes exactly while the job is neither finished
      nor a quarantined legacy row, and no fence at all was ever recorded for it. */
  lemma UnrecordedCheck(s: Sys, job: In.JobId)
    requires InHistory.Inv(s.ingress) && job in s.ingress.jobs && s.ingress.jobs[job].epoch.None?
    ensures EpochIsCurrent(s, job) <==>
            && s.ingress.jobs[job].status !in {In.Completed, In.RoutedToHuman, In.Ignored, In.Cancelled}
            && s.ingress.jobs[job].legacy.None?
            && forall e :: e in s.ingress.log && e.job == job ==> e.kind != In.EvPhaseAdvanced
  {
    InHistory.InvRow(s.ingress, job);
    if !In.IsTerminal(s.ingress.jobs[job].status) { InGuarantees.UnfencedIff(s.ingress, job); }
  }

  // ---------------------------------------------------------------- between check and completion

  /** A command that takes an automated conversation away from its acting agent. */
  predicate TakesAway(c: Conversation, cmd: Command) {
    && Do(c, cmd).1 == Done
    && (cmd.DoTransition? || cmd.DoReset? || (cmd.DoAssign? && cmd.command.digest.target != c.automationAgent))
  }

  lemma TakenAwayIff(c: Conversation, cmd: Command)
    requires c.mode == Automated
    ensures var d := Do(c, cmd).0;
            (d.mode == Automated && d.automationAgent == c.automationAgent) <==> !TakesAway(c, cmd)
  {
    StepEpochs(c, cmd);
    if cmd.DoExchange? {
      var heard := Heard(c, cmd.request, cmd.user);
      SayFilesFrame(Say(heard, AssistantId(cmd.request), Automation(cmd.ticket.acting), cmd.reply,
                        cmd.ticket.controlVersion, cmd.ticket.automationVersion), cmd.ticket, cmd.request, cmd.files);
    }
  }

  predicate StepTakesAway(s: Sys, st: SysStep, conv: Uuid) {
    st.Talk? && st.conv == conv && conv in s.convs && TakesAway(s.convs[conv], st.cmd)
  }

  lemma StepOwnedIff(s: Sys, st: SysStep, conv: Uuid, agent: Agent)
    requires SysEnabled(s, st) && OwnedBy(s, conv, agent)
    ensures OwnedBy(SysNext(s, st), conv, agent) <==> !StepTakesAway(s, st, conv)
  {
    if st.Talk? && st.conv == conv { TakenAwayIff(s.convs[conv], st.cmd); }
  }

  /** No step from `n` up to `m` takes the conversation away. */
  predicate LeftAlone(s: Sys, steps: seq<SysStep>, n: nat, m: nat, conv: Uuid)
    requires n <= m <= |steps|
  {
    forall k | n <= k < m :: SysRun(s, steps, k) && !StepTakesAway(After(s, steps, k), steps[k], conv)
  }

  lemma {:induction false} OwnedIffLeftAlone(s: Sys, steps: seq<SysStep>, n: nat, m: nat, conv: Uuid, agent: Agent)
    requires n <= m <= |steps| && SysRun(s, steps, m) && SysRun(s, steps, n)
    requires OwnedBy(After(s, steps, n), conv, agent)
    ensures OwnedThroughout(s, steps, n, m, conv, agent) <==> LeftAlone(s, steps, n, m, conv)
    decreases m - n
  {
    if n < m {
      RunLonger(s, steps, m - 1, m);
      OwnedIffLeftAlone(s, steps, n, m - 1, conv, agent);
      if OwnedThroughout(s, steps, n, m - 1, conv, agent) {
        StepOwnedIff(After(s, steps, m - 1), steps[m - 1], conv, agent);
        LastMoment(s, steps, n, m, conv, agent);
        LeftAloneLast(s, steps, n, m, conv);
      } else {
        ShorterOwned(s, steps, n, m, conv, agent);
      }
    }
  }

  lemma LeftAloneLast(s: Sys, steps: seq<SysStep>, n: nat, m: nat, conv: Uuid)
    requires n < m <= |steps| && SysRun(s, steps, m - 1)
    requires LeftAlone(s, steps, n, m - 1, conv)
    ensures LeftAlone(s, steps, n, m, conv) <==> !StepTakesAway(After(s, steps, m - 1), steps[m - 1], conv)
  {
  }

  lemma LastMoment(s: Sys, steps: seq<SysStep>, n: nat, m: nat, conv: Uuid, agent: Agent)
    requires n < m <= |steps| && SysRun(s, steps, m - 1) && SysRun(s, steps, m)
    requires OwnedThroughout(s, steps, n, m - 1, conv, agent)
    ensures OwnedThroughout(s, steps, n, m, conv, agent) <==>
            OwnedBy(After(s, steps, m), conv, agent)
  {
  }

  lemma ShorterOwned(s: Sys, steps: seq<SysStep>, n: nat, m: nat, conv: Uuid, agent: Agent)
    requires n < m <= |steps| && SysRun(s, steps, m - 1) && SysRun(s, steps, m)
    ensures OwnedThroughout(s, steps, n, m, conv, agent) ==> OwnedThroughout(s, steps, n, m - 1, conv, agent)
  {
  }

  /** The check and the completing write are two transactions. After a check that passed at
      moment `n`, a job completed by step `m` was owned by automation from its snapshot to that
      very step iff no step in between handed the conversation over or to another agent. */
  lemma CompletionOwnedIffLeftAlone(s: Sys, steps: seq<SysStep>, r: nat, i: nat, n: nat, m: nat,
                                    job: In.JobId, epoch: In.Epoch)
    requires InHistory.Keyed(s.ingress) && Named(s)
    requires SnapshotRecorded(s, steps, r, i, n, job, epoch)
    requires EpochIsCurrent(After(s, steps, n), job)
    requires n <= m < |steps| && SysRun(s, steps, m) && SysEnabled(After(s, steps, m), steps[m])
    requires steps[m].Ingress? && steps[m].step.Finish? && steps[m].step.job == job
      && steps[m].step.outcome == In.Outcome.Done
    ensures OwnedThroughout(s, steps, r, m, epoch.conversation, epoch.agent)
      <==> LeftAlone(s, steps, n, m, epoch.conversation)
  {
    CheckPassesIffOwnedThroughout(s, steps, r, i, n, job, epoch);
    OwnedIffLeftAlone(s, steps, n, m, epoch.conversation, epoch.agent);
    if OwnedThroughout(s, steps, n, m, epoch.conversation, epoch.agent) {
      forall k | r <= k <= m
        ensures SysRun(s, steps, k) && OwnedBy(After(s, steps, k), epoch.conversation, epoch.agent) {
        if k < n { assert OwnedThroughout(s, steps, r, n, epoch.conversation, epoch.agent); }
      }
    }
  }

  lemma OneStep(s: Sys, steps: seq<SysStep>, n: nat)
    requires n < |steps| && SysRun(s, steps, n) && SysEnabled(After(s, steps, n), steps[n])
    ensures SysRun(s, steps, n + 1) && After(s, steps, n + 1) == SysNext(After(s, steps, n), steps[n])
  {
  }

  /** One message, one conversation: accepted, claimed, recorded; then a takeover after the
      check; then completed all the same. */
  function TakeoverRun(): seq<SysStep> {
    [Ingress(In.Enqueue([In.NewRow(1, In.Message("m", "t", "hi"))], 7, 5, 0)),
     Ingress(In.Step.Claim("w", 1, 100)),
     Ingress(In.Step.Advance("w", 1, In.InboundRecorded, Some(SnapshotOf(Opened(3, 5))))),
     Talk(3, DoTransition(5, 9, Human, 0, None, {})),
     Ingress(In.Finish("w", 1, In.Outcome.Done, None, 50))]
  }

  function Quiet(): Sys { Sys(In.State(map[], []), map[3 := Opened(3, 5)]) }

  lemma TakeoverStarts()
    ensures SysRun(Quiet(), TakeoverRun(), 1)
    ensures var t := After(Quiet(), TakeoverRun(), 1);
            && t.convs == Quiet().convs
            && t.ingress.jobs == map[1 := In.FreshRow(In.NewRow(1, In.Message("m", "t", "hi")), 7, 5, 0)]
  {
    var row := In.NewRow(1, In.Message("m", "t", "hi"));
    assert [row][..0] == [];
    OneStep(Quiet(), TakeoverRun(), 0);
  }

  /** A run of steps the code allows, whose check passes after the third step, and which
      completes the job after a human has taken the conversation over. */
  lemma CompletionIsNotFenced()
    ensures var s, steps := Quiet(), TakeoverRun();
            && InHistory.Initial(s.ingress) && InHistory.Keyed(s.ingress) && Named(s) && SysRun(s, steps, 5)
            && SysRun(s, steps, 4) && SysRun(s, steps, 3)
            && SnapshotRecorded(s, steps, 2, 2, 3, 1, SnapshotOf(Opened(3, 5)))
            && EpochIsCurrent(After(s, steps, 3), 1)
            && After(s, steps, 4).convs[3].mode == Human && After(s, steps, 4).convs[3].assignee == Some(9)
            && After(s, steps, 5).ingress.jobs[1].status == In.Completed
  {
    var s, steps := Quiet(), TakeoverRun();
    TakeoverStarts();
    var one := After(s, steps, 1);
    assert In.Claimable(one.ingress, one.ingress.jobs[1]);
    OneStep(s, steps, 1);
    OneStep(s, steps, 2);
    OneStep(s, steps, 3);
    OneStep(s, steps, 4);
  }
}
