# Verified model of the channel ingress and conversation services

A Dafny model of the durable external-channel ingress of the agent platform, of the
conversation-ownership epochs that fence its automation, and of the idempotent command
machines beside it. `dafny verify dfyconfig.toml` checks everything.

The services are modelled at up to four levels, which are proved to agree:

* a **step model**: the table rows as values, the guards the code checks, and the whole
  new state of every atomic transaction (`*Model.dfy`, or the first part of a file);
* the **service itself**: classes whose methods overwrite fields, scan tables in loops and
  append events as the code does, proved against the step model;
* **decisions**: exactly when each operation takes effect and what it writes, said in terms of
  columns, arguments, constants and earlier steps instead of the step model's own predicates
  (`*Decisions.dfy`);
* **guarantees** over every run of steps, by any number of workers, operators, webhooks and
  clients in any interleaving (`*Guarantees.dfy` and the `Inbound*` files).

| files | what they model |
|---|---|
| `InboundModel`, `ChannelInbound`, `ChannelInboundReview` | job rows, batch acceptance, claiming, fences, settling, operator commands |
| `InboundDecisions` | when each ingress step takes effect, from the earlier steps, history and columns, and what it writes |
| `InboundHistory`, `InboundGuarantees` | the invariant over rows and event histories, and what follows from it |
| `InboundFifo`, `InboundJoins`, `InboundClaimOrder` | exactly when threads stay exclusive and claims stay in order, over whole runs |
| `InboundQueues`, `InboundSimulation` | the table as one FIFO queue per thread: step by step, and as a simulation of whole runs |
| `InboundLimits`, `InboundArrivals` | draining, the limits witnessed, deduplication |
| `ConversationModel`, `Conversations`, `ConversationDecisions`, `ConversationGuarantees` | control transitions, acting-agent assignment, automated and operator writes, session resets |
| `OwnershipFence` | jobs and conversations side by side: what the final epoch check proves |
| `WebExecutions`, `WebDecisions` | synchronous web executions under an ownership snapshot |
| `PresenceModel`, `PresenceScripts`, `PresenceDecisions`, `PresenceGuarantees` | the typing-presence scripts with real time |
| `EventTypes`, `ConversationEvents` | numbered events under a row lock, paging readers, payload depth |
| `AgentLoop` | the guardrail loop between model and tools |
| `ClaimModel`, `IdentityLinkClaims`, `ClaimDecisions`, `ClaimGuarantees` | identity-link claims |
| `HandoffModel`, `HandoffRoutes`, `HandoffDecisions`, `HandoffGuarantees` | handoff routes |
| `ConversationMemory` | folding messages into a summary |

Conventions. Every `db.begin()` block and every row-locked service call is one step. SHA-256,
HMAC and uuid5 are injective constructors, ciphertext is an opaque optional value, generated
ids are new. Times are whole numbers handed in by the caller. Keys and texts are taken after
the whitespace trimming the code does first. `SKIP LOCKED` is a freely chosen set of locked
rows. The pipeline and the model provider are arbitrary inputs.

What the code does not guarantee, each with its exact condition and an input:

* A quarantined legacy row gets its thread key only when it is requeued, so it can join a
  thread whose younger row is running. Two rows of a thread then run at once, and the older
  one is claimed second (`LegacyRequeueCanDoubleRun`). A batch whose timestamp is older than a
  running row does the same (`LateBatchCanDoubleRun`). Threads stay exclusive exactly in the
  runs in which every row finds nothing running or held behind it when it joins
  (`InboundJoins.ThreadsStayExclusive`), and claims stay in order exactly when no row that
  joined ahead of a claimed one is claimed (`ClaimsNeverGoBackwardsIff`).
* Handing a blocked job to a human on the strength of its phase is right exactly when the
  inbound message is never recorded after an effect has started (`ZeroEffectTestIsRightIff` for
  one job, `PhaseTestIsRightIff` for whole runs). The shipped pipeline meets the condition: no path
  through it passes an effect fence and then its only recording call (`services/pipeline.py:458`),
  as the paths that fence earlier return at once. `LateRecordMisleads` shows what another
  pipeline could do.
* A session reset closes a conversation and moves its version without a control event
  (`ResetLeavesNoEvent`), so the control events tell who holds a conversation exactly when it
  was never reset (`LogsDetermineState`). Every fence still holds, as the version moves.
* The final epoch check and the completing write are two transactions. A takeover in between
  goes unnoticed (`CompletionIsNotFenced`); a job is completed under unbroken ownership exactly
  when no command in between takes the conversation away (`CompletionOwnedIffLeftAlone`).
* The summary watermark is a timestamp, and messages of one transaction share theirs; a batch
  that ends between them loses the later one (`TieLosesMessage`), and so does a message that
  completes at or before the watermark, as a web message accepted earlier or a retried one can
  (`LateCompletionIsLost`, `RetriedMessageIsLost`). Exactly these messages are lost
  (`RunIsLosslessIff`).
* An issue looks its key up among claims only, so a key already used by a transition surfaces
  as a constraint violation and not as a reused key (`TransitionKeyCollides`, `KeyCollisionIff`).
* Tool arguments that parse to something that cannot be listed stop the agent loop with an
  exception after a passed check and before the execution (`BareNumberRaises`,
  `ArgumentsRaisedIff`).
* A typing number is remembered for the retention time only; a lower one that comes later
  counts as new (`StaleIffRemembered`, `ForgottenStopRevives`).

## Model

| member | source | states |
|---|---|---|
| InboundArrivals.AcceptedIffFirstSeen | agent-platform/api/app/services/channel_inbound.py:133-145 | a row of a batch enters the table, and is reported accepted, iff its provider id is new on the route and to the earlier part of the same batch |
| InboundArrivals.KeysAfter | agent-platform/api/app/services/channel_inbound.py:133-140 | after a batch a (route, provider id) key is taken iff it was before or the batch brought it |
| InboundArrivals.RedeliveryIsNoop | agent-platform/api/app/services/channel_inbound.py:133-145 | delivering any already accepted provider ids again, under new ids and later, changes neither rows nor events |
| InboundHistory.StepKeepsInv | agent-platform/api/app/services/channel_inbound.py:627-656 | every step of worker, sweep, webhook or operator keeps the invariant over rows, histories, phases, attempts and receipts |
| InboundGuarantees.LogDeterminesRow | agent-platform/api/app/services/channel_inbound.py:413-431 | in every reachable table the events of a job are versions 0, 1, ... without gap, each leaving the status the next one starts from, and replaying them gives status, phase and snapshot |
| InboundGuarantees.RowShape | agent-platform/api/app/services/channel_inbound.py:637-648 | lease iff processing, terminal phase and end time iff terminal status, payload iff not terminal |
| InboundGuarantees.NoClaimAfterFence | agent-platform/api/app/services/channel_inbound_review.py:170-173 | no claim ever follows a recorded fence in the history of a job, across lease expiry, requeue and other workers |
| InboundGuarantees.ZeroEffectTestIsRightIff | agent-platform/api/app/services/channel_inbound.py:323-337 | the phase test that hands a blocked job to a human is right at every moment iff the inbound message is never recorded after an effect phase |
| InboundGuarantees.PhaseTestIsRightIff | agent-platform/api/app/services/pipeline.py:447-471 | over a whole run of any workers the phase test is right for every job at every moment iff every worker that reports an inbound message does so before any effect of that job, as the shipped pipeline does |
| InboundGuarantees.AttemptsNeedRequeues | agent-platform/api/app/services/channel_inbound.py:415-418 | attempts equal the claims in the log and are at most requeues plus one, for legacy rows at most requeues |
| InboundGuarantees.StepOnRow | agent-platform/api/app/services/channel_inbound.py:601-656 | what any step may do to any existing row: terminal rows stay, leases only come from claims, versions never fall |
| InboundGuarantees.TerminalAbsorbing | agent-platform/api/app/services/channel_inbound.py:51 | a terminal row is unchanged by any run of any steps |
| InboundGuarantees.OnlyLatestClaimantWrites | agent-platform/api/app/services/channel_inbound.py:601-624 | a fence or finish of a job can only be written by the worker of its latest claim |
| InboundDecisions.SweptIffOverdue | agent-platform/api/app/services/channel_inbound.py:355-380 | in any run a row can be swept at a moment iff it is processing and the deadline its latest claim step was given lies strictly before that moment |
| InboundDecisions.ClaimTransaction | agent-platform/api/app/services/channel_inbound.py:351-432 | a claim transaction sweeps iff some free row is overdue by its latest claim step, then the one longest overdue, and claims nothing; otherwise it claims iff some free row is next in line, then the oldest, for the asked time |
| InboundDecisions.ClaimedIffNextInLine | agent-platform/api/app/services/channel_inbound.py:382-412 | in any run a row can be claimed iff it is queued and every older row of its thread is completed, handed over, ignored or cancelled |
| InboundDecisions.FencedIffHeld | agent-platform/api/app/services/channel_inbound.py:230-269 | in any run a fence is recorded iff the worker of the latest claim step asks for it while the row is processing, for one of the five phases, and with a snapshot exactly for the inbound message |
| InboundDecisions.SettledIffHeld | agent-platform/api/app/services/channel_inbound.py:577-624 | in any run a job can be settled by exactly the worker of its latest claim step while it is processing |
| InboundDecisions.CommandIff | agent-platform/api/app/services/channel_inbound_review.py:148-339 | in any run a command takes effect iff agent, version and a new key fit, and: for a requeue the row is held, no fence is in its history and a quarantined payload is readable; for a cancel it waits or is held; for an acknowledgement it is held |
| InboundDecisions.ArrivalWrites | agent-platform/api/app/services/channel_inbound.py:103-154 | the columns of an arrived row: its message under the thread of its route, queued and unclaimed, stamped with the time of the batch |
| InboundDecisions.ClaimWrites | agent-platform/api/app/services/channel_inbound.py:413-431 | the columns and the event a claim writes, and that nothing else changes |
| InboundDecisions.FenceWrites | agent-platform/api/app/services/channel_inbound.py:240-269 | a fence moves the phase, and the snapshot if one comes with it, and nothing else |
| InboundDecisions.SettleWrites | agent-platform/api/app/services/channel_inbound.py:627-656 | done completes, routed hands over, both erasing the payload and stamping the end; review keeps phase and payload; the lease ends in each case |
| InboundDecisions.SweepWrites | agent-platform/api/app/services/channel_inbound.py:370-379 | a sweep holds the row for review with its phase and payload, ends the lease and names the expired lease as its reason |
| InboundDecisions.CommandWrites | agent-platform/api/app/services/channel_inbound_review.py:174-285 | a requeue lets the row wait from the start with a quarantined payload encrypted and keyed; cancel and acknowledge end it and erase the payload; each leaves a receipt of key, action and expected version |
| InboundDecisions.BatchTakenIff | agent-platform/api/app/services/channel_inbound.py:71-118 | a batch is taken iff channel, adapter, connection and agent of the route fit and every message belongs to the route and can be encrypted |
| InboundDecisions.EndingIff | agent-platform/api/app/services/channel_inbound.py:298-349 | a run completes its job iff the pipeline finished and the ownership check passed, hands over iff ownership blocked it before any effect phase, and else holds the job |
| InboundJoins.ThreadsStayExclusive | agent-platform/api/app/services/channel_inbound.py:382-432 | over any run, every thread is at every moment one head followed by queued rows iff every row that joined a thread found nothing running or held behind its place; then no thread has two running rows |
| InboundJoins.StepKeepsShapeIff | agent-platform/api/app/services/channel_inbound.py:351-432 | one step of any kind keeps every thread in shape iff the rows it lets into threads find nothing running or held behind them |
| InboundJoins.BatchKeepsShapeIff | agent-platform/api/app/services/channel_inbound.py:133-154 | a whole batch keeps every thread in shape iff each row it brings in finds nothing younger running or held |
| InboundClaimOrder.ClaimsNeverGoBackwardsIff | agent-platform/api/app/services/channel_inbound.py:382-412 | over any run with any number of workers, the claims of every thread never go backwards in (created_at, id) iff no row that joined its thread ahead of an already claimed row was ever claimed |
| InboundClaimOrder.OnTimeRunsAreFifo | agent-platform/api/app/services/channel_inbound.py:382-412 | a run in which no row joined ahead of a claimed one keeps every thread exclusive at every moment and all its claims in order |
| InboundSimulation.RunsSimulateQueues | agent-platform/api/app/services/channel_inbound.py:351-432 | over any run whose joins find their thread at rest, the operations on a thread are legal for a FIFO queue that starts empty, only heads being claimed and finished, and playing them gives exactly the queue of the final table |
| InboundSimulation.ListsIsQueue | agent-platform/api/app/services/channel_inbound.py:405 | the abstract queue and the listing by (created_at, id) that the claim query serves are the same |
| InboundQueues.AscendingUnique | agent-platform/api/app/services/channel_inbound.py:405 | the listing of a thread by (created_at, id) is unique, so each thread has one queue |
| InboundQueues.ClaimQueryPicksHeads | agent-platform/api/app/services/channel_inbound.py:382-407 | the "no earlier blocker" query selects exactly the queued heads of the thread queues |
| InboundQueues.EnqueueAppends | agent-platform/api/app/services/channel_inbound.py:133-154 | an enqueue that arrives last appends exactly the new rows, in claim order, to the queues and changes no old row |
| InboundQueues.WorkerStepRefines | agent-platform/api/app/services/channel_inbound.py:351-432 | a claim leaves its row at the head, success and hand-over remove the head, every other worker step changes no queue |
| InboundQueues.CommandRefines | agent-platform/api/app/services/channel_inbound_review.py:148-285 | cancel and acknowledge remove the row wherever it stands; a requeue keeps every place, except that a legacy row enters at the place of its age |
| InboundQueues.QueueShape | agent-platform/api/app/services/channel_inbound.py:49-51 | behind the head of a queue every row is queued |
| InboundLimits.WorkersDrain | agent-platform/api/app/services/channel_inbound.py:298-432 | without arrivals and commands, claims, finishes and sweeps together spend a budget of two per queued and one per running row |
| InboundLimits.EmptyClaimIff | agent-platform/api/app/services/channel_inbound.py:382-414 | no row is claimable iff every queued row waits behind a processing or held head of its thread |
| InboundJoins.LegacyRequeueKeepsShapeIff | agent-platform/api/app/services/channel_inbound_review.py:174-193 | requeueing a legacy row keeps the thread exclusive iff no younger row of the thread is processing or held |
| InboundLimits.LegacyRequeueCanDoubleRun | agent-platform/api/app/services/channel_inbound_review.py:174-210 | a run of allowed steps after which two rows of one thread are processing and the older one was claimed second |
| InboundLimits.LateBatchCanDoubleRun | agent-platform/api/app/services/channel_inbound.py:133-154 | from an empty table, a batch stamped before a running row of its thread joins ahead of it and runs beside it |
| InboundLimits.LateRecordMisleads | agent-platform/api/app/services/channel_inbound.py:323-337 | from an empty table, an inbound message recorded after an agent effect leaves a phase that reads as free of effects |
| ChannelInboundReview.ReachableReceiptsAreUnique | agent-platform/api/app/services/channel_inbound_review.py:323-330 | in every reachable log a job has at most one event per idempotency key |
| InboundGuarantees.StoredDigestIsCheckedDigest | agent-platform/api/app/services/channel_inbound_review.py:364-381 | the digest stored with a command, computed from the new version, is the one computed from the expected version of a retry |
| InboundGuarantees.RetryIsRecognised | agent-platform/api/app/services/channel_inbound_review.py:331-336 | after any later steps a repeated command is a replay, and the same key with another action or version is refused |
| InboundGuarantees.OneCommandPerVersion | agent-platform/api/app/services/channel_inbound_review.py:337-338 | two commands that both take effect on a job expected different, increasing versions |
| ConversationGuarantees.LogsDetermineState | agent-platform/api/app/services/conversation_control.py:468-506 | folding the receipts always gives the acting agent and its version; folding the control events gives mode, assignee and version iff no session reset took effect, after which the row is closed and one version ahead |
| ConversationGuarantees.ResetLeavesNoEvent | agent-platform/api/app/services/web_chat_v2.py:580-591 | one reset of a new session closes it at version 1 without any event, while the control events still tell of an automated conversation at version 0 |
| ConversationGuarantees.AuthorshipFollowsOwnership | agent-platform/api/app/services/chat_application.py:155-217 | automated text commits only while the row, and the logs up to it, say automated under both versions it names, operator text only under its author, and neither while paused or closed |
| ConversationDecisions.TransitionIff | agent-platform/api/app/services/conversation_control.py:141-189 | a transition is done iff agent and version fit, the move is one of ten, and the target is the actor or an eligible operator other than the holder, or nobody for moves other than a takeover; each refusal is the first of these that fails |
| ConversationDecisions.HoldersWereEligible | agent-platform/api/app/services/conversation_control.py:407-436 | in any run whoever a control event gives the conversation to is its own actor or was eligible when the command that appended it arrived |
| ConversationDecisions.TransitionWrites | agent-platform/api/app/services/conversation_control.py:468-506 | mode, holder, version and the one event a transition leaves |
| ConversationDecisions.AssignIff | agent-platform/api/app/services/conversation_automation_assignment.py:91-180 | an assignment under a new key is done iff it is well given, the conversation open and at the expected version, both agents active and the opportunity linked |
| ConversationDecisions.AssignRefusals | agent-platform/api/app/services/conversation_automation_assignment.py:91-180 | without a receipt under its key an assignment is answered by the first of its conditions that fails |
| ConversationDecisions.ReceiptAnswers | agent-platform/api/app/services/conversation_automation_assignment.py:140-167 | with one it is not found for another agent, a duplicate for the same command, and a collision for any other |
| ConversationDecisions.AssignWrites | agent-platform/api/app/services/conversation_automation_assignment.py:182-213 | an assignment leaves the target acting, moves the version iff that is another agent, and leaves one receipt |
| ConversationDecisions.NotifyIff | agent-platform/api/app/services/chat_application.py:246-305 | a notification is stored iff it is new and the conversation is automated under the agent and both versions of its ticket; a stored one is recognised by its text |
| ConversationDecisions.OperatorSayIff | agent-platform/api/app/services/conversation_control.py:214-260 | operator text is stored iff it is new and agent, version, human control of its author and the key fit |
| ConversationDecisions.InboundIff | agent-platform/api/app/services/chat_application.py:78-110 | a provider message is stored iff it is new, in any state of the conversation |
| ConversationDecisions.ExchangeIff | agent-platform/api/app/services/chat_application.py:132-165 | an exchange is stored iff its request was never answered, its ticket is on time and its reply and files are new and durable |
| ConversationDecisions.ExchangeWrites | agent-platform/api/app/services/chat_application.py:155-217 | an exchange leaves the texts of user, reply and files under their ids, the execution last, and nothing else |
| ConversationDecisions.StoredTextsWereSent | agent-platform/api/app/services/chat_application.py:78-305 | in any run every stored text is what some command of its author carried under its id |
| ConversationGuarantees.EachMessageOnce | agent-platform/api/app/services/chat_application.py:87-98 | no client message id and no execution is stored twice, whatever is retried |
| ConversationGuarantees.NoAba | agent-platform/api/app/services/conversation_control.py:479-488 | equal versions at two moments mean that mode, assignee and acting agent were the same at every moment between |
| ConversationGuarantees.StepEpochs | agent-platform/api/app/services/conversation_automation_assignment.py:184-188 | versions grow by at most one per command, and stay iff what they count stays |
| ConversationGuarantees.AssignRetry | agent-platform/api/app/services/conversation_automation_assignment.py:140-167 | after any later commands a repeated assignment is a duplicate and its key refuses any other |
| ConversationGuarantees.PrunedRunIsSame | agent-platform/api/app/services/conversation_automation_assignment.py:145-150 | deleting every assignment whose key already has a receipt changes nothing |
| OwnershipFence.CheckPassesIffOwnedThroughout | agent-platform/api/app/services/channel_inbound.py:541-564 | with a recorded snapshot the final check passes iff the conversation was automated under the recorded agent at every moment since the snapshot was read |
| OwnershipFence.UnrecordedCheck | agent-platform/api/app/services/channel_inbound.py:556-557 | without a recorded conversation the check passes iff the job is unfinished, not quarantined, and no fence was ever recorded for it |
| OwnershipFence.CompletionOwnedIffLeftAlone | agent-platform/api/app/services/channel_inbound.py:305-317 | after a check that passed, a job is completed under unbroken ownership since its snapshot iff no command between check and completing write handed the conversation over or to another agent |
| OwnershipFence.CompletionIsNotFenced | agent-platform/api/app/services/channel_inbound.py:305-317 | a run of allowed steps from an empty table: the check passes, a human takes over, and the job is completed all the same |
| WebExecutions.CompletionWasOwnedThroughout | agent-platform/api/app/services/chat_application.py:709-719 | a web execution completes only if automation under its acting agent owned the conversation at every moment since its latest start |
| WebExecutions.OneAnswerPerRequest | agent-platform/api/app/services/chat_application.py:748-763 | a request id is answered at most once, by its completed execution |
| WebExecutions.RepeatsAreReplayed | agent-platform/api/app/services/chat_application.py:510-546 | once completed, a request is answered from the stored row ever after, and other input or another session is refused |
| WebDecisions.StartIff | agent-platform/api/app/services/chat_application.py:466-626 | which answer a request gets: started, stored output, in progress or refused, each with its exact condition on consent, route, stored row, input, session and agent |
| WebDecisions.StartWrites | agent-platform/api/app/services/chat_application.py:549-626 | a start leaves the execution running under the ownership then in force and changes no other row |
| WebDecisions.SettleIff | agent-platform/api/app/services/chat_application.py:692-763 | a call completes iff it returned a successful, non-empty text under unchanged ownership, is blocked iff a guard tripped or ownership changed, else fails; only a completion leaves an answer, which is that text |
| WebDecisions.TalkWrites | agent-platform/api/app/services/web_chat_v2.py:580-610 | only a reset that takes effect changes executions: exactly the running ones of its session are blocked |
| WebExecutions.NothingCompletesAfterClosing | agent-platform/api/app/services/web_chat_v2.py:580-610 | after a session is closed, by a reset or a transition, neither a call in flight nor a retry completes |
| WebExecutions.StaleStaysStale | agent-platform/api/app/services/chat_application.py:630-640 | a snapshot that a guard found stale stays stale |
| PresenceGuarantees.IndexIsComplete | agent-platform/api/app/services/chat_presence.py:51-58 | after any monotone run of publishes every live lease is in its agent index with a score that reaches its expiry, despite pruning and key expiries |
| PresenceGuarantees.HighestSequenceWins | agent-platform/api/app/services/chat_presence.py:44-53 | from any store without a lease of the instance and among any other traffic, the stored lease is that of the highest sequence delivered, while signals on its hash come within the retention time of the highest so far or raise it |
| PresenceGuarantees.NearbySignalsHighestWins | agent-platform/api/app/services/chat_presence.py:44-53 | the same from arrival times alone: no signal on the hash comes a retention time or more after one of the instance |
| PresenceGuarantees.StaleIffRemembered | agent-platform/api/app/services/chat_presence.py:36-46 | a repeated or lower number is recognised as stale iff it comes within the retention time of the stored one; later it counts as new |
| PresenceGuarantees.ForgottenStopRevives | agent-platform/api/app/services/chat_presence.py:36-53 | a start that arrives one retention time after its stop is stored and shows typing |
| PresenceGuarantees.DeliveryOrderIsIrrelevant | agent-platform/api/app/services/chat_presence.py:25-46 | two delivery orders of the same signals, into any two stores and among any other traffic, store the same sequence and typing flag |
| PresenceDecisions.JudgementIff | agent-platform/api/app/services/chat_presence.py:34-50 | a signal is stale iff its instance is recalled with the same or a higher number; else limited iff six were counted in the window or its instance is new to a key that recalls eight; else accepted |
| PresenceDecisions.RateWrites | agent-platform/api/app/services/chat_presence.py:47-48 | a window counts every signal that is not stale, starts when none runs and lasts a second |
| PresenceDecisions.RowsWritten | agent-platform/api/app/services/chat_presence.py:34-53 | an accepted signal is stored with its number and time, shows typing for eight seconds iff it is a start, and keeps its hash for 32; only rows of its own key that are no longer recalled are forgotten |
| PresenceDecisions.IndexWritten | agent-platform/api/app/services/chat_presence.py:54-58 | an accepted start lists its conversation for at least eight seconds and keeps the index for 32; only entries of its agent that have run out are dropped |
| PresenceGuarantees.InstancesAreBounded | agent-platform/api/app/services/chat_presence.py:50 | no hash, that is no actor under one ownership epoch, ever holds more than eight instances |
| PresenceGuarantees.RateIsBounded | agent-platform/api/app/services/chat_presence.py:47-49 | a window admits at most six signals and thirteen admissions always span more than 1000 ms |
| PresenceGuarantees.RowsComeFromTheirKey | agent-platform/api/app/services/chat_presence.py:30-61 | in any run every stored row was written by a signal of its own instance under its own hash |
| PresenceGuarantees.EpochChangeHidesTyping | agent-platform/api/app/services/chat_presence.py:165-171 | typing shown under an owner and epoch was signalled under exactly that owner and epoch, whatever else the run holds |
| ConversationEvents.SequencesAreGapFree | agent-platform/api/app/services/conversation_events.py:81-91 | under interleaved transactions, commits and rollbacks committed sequences are exactly 1 to next - 1 |
| ConversationEvents.ReadersMissNothing | agent-platform/api/app/services/conversation_events.py:121-137 | a reader that pages from its last cursor holds every matching event up to it, once and in order |
| ConversationEvents.ReceivedIff | agent-platform/api/app/services/conversation_events.py:121-137 | in any run a reader has received an event iff it is committed, within its cursor, and of the visibility it joined for, if any; each once and in order |
| ConversationEvents.StreamIsWhatCommitted | agent-platform/api/app/services/conversation_events.py:81-91 | the committed stream is exactly what the committed transactions published, in commit order, with the kinds and visibilities they gave |
| ConversationEvents.PageIsExact | agent-platform/api/app/services/conversation_events.py:121-137 | a page holds only events after the cursor of the visibility asked for, in order, and misses none up to its last, or none at all when short |
| EventTypes.TypeIsSegments | agent-platform/api/app/services/conversation_events.py:39 | an event type is accepted iff it is two to six segments of lower-case letters and digits joined by dots, the first starting with a letter |
| ConversationEvents.PayloadIff | agent-platform/api/app/services/conversation_events.py:139-172 | a payload is accepted iff it is an object with text keys, nested at most eight levels deep, that encodes to at most 32768 bytes |
| ConversationEvents.ShortPageMeansLevel | agent-platform/api/app/services/conversation_events.py:134-137 | a page adds at most its limit, and a page below its limit leaves the reader level with the stream |
| ConversationEvents.PagingCatchesUp | agent-platform/api/app/services/conversation_events.py:94-137 | once its pages have asked for as many events as a reader lacked it holds all that was committed when it started, whatever is committed meanwhile; while nothing is, it is level exactly from then on |
| ConversationEvents.DepthGuardIsExact | agent-platform/api/app/services/conversation_events.py:160-172 | a payload passes iff all keys are text and no chain of nested values exceeds the levels left |
| AgentLoop.Run | agent-platform/api/app/services/agent_loop.py:305-743 | for any replies, outcomes, timeouts and guard failures: the full account of the loop, its transcript, counts and records as functions of the calls handled, and arguments raise iff an executable call with a passed check cannot list its own |
| AgentLoop.AnswerCall | agent-platform/api/app/services/agent_loop.py:528-720 | the one answer to a call: limit, repetition, unavailability or outcome; a call stops the loop iff it executes and its check fails or its arguments cannot be listed |
| AgentLoop.AnswerTurn | agent-platform/api/app/services/agent_loop.py:528-720 | a turn is answered call by call in order, or stopped at an executable call of that turn by its check or its arguments |
| AgentLoop.RunsAreLimited | agent-platform/api/app/services/agent_loop.py:539-600 | executed calls are calls of the model, at most max_tool_calls, in both the allowed and the registered set, and pairwise differ in name and arguments |
| AgentLoop.EveryAdmissibleRequestRuns | agent-platform/api/app/services/agent_loop.py:559-612 | a (name, arguments) pair is executed iff its name is both allowed and registered and it is asked for within the limit |
| AgentLoop.EveryTurnIsAnswered | agent-platform/api/app/services/agent_loop.py:528-720 | every assistant turn is followed by exactly one tool message per call with matching ids in order |
| AgentLoop.ExecutedAreAuthorised | agent-platform/api/app/services/agent_loop.py:584-596 | whatever the model asks and however the loop ends, every executed call names a tool that is both allowed to this agent and registered |
| AgentLoop.AnswerSays | agent-platform/api/app/services/agent_loop.py:528-720 | what the model is told about a call: limit, repetition, tool not in both sets, or the outcome of the next execution, each with its exact condition |
| AgentLoop.ReportsSay | agent-platform/api/app/services/agent_loop.py:428-743 | what a report says, from what the model replied and what was late: unavailable, timeout, error, success with the text or the fixed answer, or iterations used up |
| AgentLoop.NothingAfterDenied | agent-platform/api/app/services/agent_loop.py:597 | a failed check is the last thing the loop does, and the loop ends by a failed check iff its last act is one |
| AgentLoop.RecordsTell | agent-platform/api/app/services/agent_loop.py:608-700 | one record per execution with its status, and the tools used are those that returned, each named once |
| AgentLoop.AccountIsUnique | agent-platform/api/app/services/agent_loop.py:428-743 | what the model replies, which checks fail and what is late determine the loop: complete turns, handled calls, ending and last acts |
| AgentLoop.WholeTrace | agent-platform/api/app/services/agent_loop.py:428-746 | however it ends, the loop executed exactly the calls of the model that should run, each right after a passed check, and asked the model at most max_iterations times |
| AgentLoop.ArgumentsRaisedIff | agent-platform/api/app/services/agent_loop.py:597-608 | the loop raises over arguments iff it gets to an executable call of the model whose check passes and whose arguments cannot be listed |
| AgentLoop.BareNumberRaises | agent-platform/api/app/services/agent_loop.py:600-608 | a model that calls an available tool with a bare number makes the loop raise after a passed check and before the execution |
| ClaimGuarantees.ProofsRespectTheirDeadline | agent-platform/api/app/services/identity_link_claims.py:291-305 | a proof hash is stored iff pending, consumed strictly before the deadline, and expired claims were due |
| ClaimGuarantees.VersionsAreExact | agent-platform/api/app/services/identity_link_claims.py:503-533 | the events of a claim are exactly versions 0 to its version, at most two transitions, at most one of them a verification |
| ClaimGuarantees.OneChangePerKey | agent-platform/api/app/services/identity_link_claims.py:486-501 | in an agent scope a key changes something at most once, whichever claims are named |
| ClaimGuarantees.RetriesAreRecognised | agent-platform/api/app/services/identity_link_claims.py:154-165 | after any later requests a repeated command is a duplicate, and only the same command is |
| ClaimGuarantees.TerminalClaimsStay | agent-platform/api/app/services/identity_link_claims.py:439-452 | rejected, revoked and expired claims never change |
| ClaimGuarantees.OnlyTheMintedTokenVerifies | agent-platform/api/app/services/identity_link_claims.py:296-300 | a claim is verified only with the token minted by the request that issued it, before its deadline |
| ClaimDecisions.IssueIff | agent-platform/api/app/services/identity_link_claims.py:119-247 | in any reachable state a claim is issued iff key, token and ttl are within bounds, the identities are two known ones of two people, and the key is unused in the agent |
| ClaimDecisions.MoveIff | agent-platform/api/app/services/identity_link_claims.py:254-501 | in any reachable state a transition takes effect iff the claim is of the agent, at the expected version and in the one status it may start from, in time with the right token, under an unused key |
| ClaimDecisions.MoveWrites | agent-platform/api/app/services/identity_link_claims.py:300-322 | status, version, times, proof and the one event a transition leaves, and that no other claim changes |
| ClaimDecisions.ClaimsAreAsIssued | agent-platform/api/app/services/identity_link_claims.py:186-210 | in any run every claim was issued by a proper request under its key, expires ttl seconds after it, and keeps the token minted for it while it keeps a proof |
| ClaimDecisions.RepeatIsDuplicate | agent-platform/api/app/services/identity_link_claims.py:154-165 | after any later requests a command is a duplicate iff it has the actor, kind and arguments of the one that used its key |
| ClaimGuarantees.KeyCollisionIff | agent-platform/api/app/services/identity_link_claims.py:154-208 | in every reachable state a command surfaces as a constraint violation iff it is an issue that could go through under a key a transition has used |
| ClaimGuarantees.TransitionKeyCollides | agent-platform/api/app/services/identity_link_claims.py:180-247 | a claim issued under one key and rejected under another, after which an issue under the second key violates the constraint and changes nothing |
| HandoffGuarantees.ReceiptsDetermineRoute | agent-platform/api/app/services/agent_handoff_routes.py:423-454 | the last applied receipt gives target and active flag, the version counts applied changes after creation, and no route points at its own agent |
| HandoffDecisions.CommandIff | agent-platform/api/app/services/agent_handoff_routes.py:93-330 | a create, update or deactivation takes effect iff its key is new, route and version fit, and the target it leaves is another active agent, with something to change for an update |
| HandoffDecisions.CreateWrites | agent-platform/api/app/services/agent_handoff_routes.py:150-198 | a created route and its receipt |
| HandoffDecisions.MoveWrites | agent-platform/api/app/services/agent_handoff_routes.py:237-330 | an update leaves the target and flag it asks for, a deactivation an inactive route; version and authorship move iff one of the two changed; the receipt tells before and after |
| HandoffDecisions.RepeatIsDuplicate | agent-platform/api/app/services/agent_handoff_routes.py:341-353 | after any later commands a repeated key is a duplicate iff it carries the same command of the same actor, and refused otherwise |
| HandoffGuarantees.PrunedRunIsSame | agent-platform/api/app/services/agent_handoff_routes.py:341-353 | deleting every command whose key already has a receipt leaves routes and receipts unchanged |
| HandoffGuarantees.RetriesAreRecognised | agent-platform/api/app/services/agent_handoff_routes.py:481-486 | after any later commands a repeated key changes nothing, and is a duplicate iff it is the same command |
| HandoffGuarantees.OneChangePerVersion | agent-platform/api/app/services/agent_handoff_routes.py:488-493 | after an applied change, no command that expected the same version of the route takes effect |
| ConversationMemory.FoldsOnceInOrder | agent-platform/api/app/services/conversation_memory.py:101-125 | on every run, also with equal timestamps and retried messages, no message is folded twice and folds go forward in time |
| ConversationMemory.RunIsLosslessIff | agent-platform/api/app/services/conversation_memory.py:101-147 | the lost messages of a run are exactly those that completed at or before the watermark unfolded or stood behind a batch with its last timestamp, and were not withdrawn since; without retries none is lost iff every step was safe, iff the folded batches join to a prefix of the transcript |
| ConversationMemory.LossIsPermanent | agent-platform/api/app/services/conversation_memory.py:101-102 | a message the watermark went past is never folded, even if it is withdrawn and completes again |
| ConversationMemory.IncreasingTimesLoseNothing | agent-platform/api/app/services/conversation_memory.py:101-147 | with strictly increasing timestamps nothing is lost |
| ConversationMemory.FoldIff | agent-platform/api/app/services/conversation_memory.py:94-147 | on every run a refresh folds iff summaries are on, the newer messages exceed the history limit by the trigger and the provider gives text; it folds the excess, up to a hundred |
| ConversationMemory.FoldIsBounded | agent-platform/api/app/services/conversation_memory.py:94-125 | on every run a fold hands over exactly the oldest 1 to 100 messages after the watermark and leaves at least history_limit; a refresh that does not fold changes nothing |
| ConversationMemory.TieLosesMessage | agent-platform/api/app/services/conversation_memory.py:147 | two messages with one timestamp, of which a batch takes only the first, lose the second |
| ConversationMemory.LateCompletionIsLost | agent-platform/api/app/services/conversation_memory.py:101-102 | a message that completes after a younger one was folded is lost |
| ConversationMemory.RetriedMessageIsLost | agent-platform/api/app/services/chat_application.py:549-551 | a blocked message that is retried, while a younger one is folded, completes behind the watermark and is lost |
| ChannelInbound.InboundStore.EnqueueBatch | agent-platform/api/app/services/channel_inbound.py:71-163 | refused batches, also those that cannot be encrypted or committed, change nothing and name the first failing check; otherwise the table becomes the batch admitted row by row, and accepted plus duplicates is the batch size |
| ChannelInbound.InboundStore.ClaimJob | agent-platform/api/app/services/channel_inbound.py:351-432 | a claim either sweeps the earliest expired unlocked lease and claims nothing, or claims the oldest unlocked queued row without an earlier blocker, or finds neither and changes nothing |
| ChannelInbound.InboundStore.AdvanceOwned | agent-platform/api/app/services/channel_inbound.py:240-269 | a lifecycle fence is written iff the caller holds the lease of a processing row; the epoch snapshot only with inbound_recorded |
| ChannelInbound.InboundStore.BeforeExternalEffect | agent-platform/api/app/services/channel_inbound.py:230-238 | only the four effect phases are accepted, and only from the lease holder |
| ChannelInbound.InboundStore.OwnedProcessingJob | agent-platform/api/app/services/channel_inbound.py:601-624 | a row is found iff it is processing under exactly this worker |
| ChannelInbound.InboundStore.TransitionOwned | agent-platform/api/app/services/channel_inbound.py:577-598 | an owned row takes the finish step with its event; anybody else changes nothing |
| ChannelInbound.InboundStore.Settle | agent-platform/api/app/services/channel_inbound.py:298-349 | a run completes its job iff the pipeline finished and the epoch check passed, hands over only while no effect phase is recorded, else holds the job for review; without the lease it writes nothing |
| ChannelInbound.JobRow.Transition | agent-platform/api/app/services/channel_inbound.py:627-656 | the whole new row of a transition; terminal statuses erase every payload and stamp the end |
| ChannelInboundReview.CommandContext | agent-platform/api/app/services/channel_inbound_review.py:287-339 | missing identifiers, unknown jobs, replays, key collisions and stale versions are told apart exactly as the reference judgement does |
| ChannelInboundReview.Requeue | agent-platform/api/app/services/channel_inbound_review.py:148-210 | a requeue takes effect iff the judgement allows it, and then as one step with one event; otherwise nothing changes |
| ChannelInboundReview.TerminalCommand | agent-platform/api/app/services/channel_inbound_review.py:240-285 | cancel and acknowledge take effect iff allowed, end the job and erase its payload |
| Conversations.ConversationRow.Transition | agent-platform/api/app/services/conversation_control.py:141-189 | the new row and answer of every control transition, refused ones leaving the row as it was |
| Conversations.ConversationRow.ResolveTargetAdmin | agent-platform/api/app/services/conversation_control.py:397-445 | which operator a transition gives the conversation to, or that the target is refused |
| Conversations.ConversationRow.ApplyControlEpoch | agent-platform/api/app/services/conversation_control.py:468-506 | mode, assignee, version and event of one control epoch |
| Conversations.ConversationRow.Assign | agent-platform/api/app/services/conversation_automation_assignment.py:91-213 | the new acting agent, version and receipt of an assignment, or the exact refusal |
| Conversations.ConversationRow.AssertExecutionCurrent | agent-platform/api/app/services/chat_application.py:921-944 | which row-locked check of an automated write fails first, if any |
| Conversations.ConversationRow.RecordInboundMessage | agent-platform/api/app/services/chat_application.py:78-110 | a provider message is stored once; a retry finds it |
| Conversations.ConversationRow.RecordExchange | agent-platform/api/app/services/chat_application.py:112-217 | an exchange is stored whole or not at all, and once per request |
| Conversations.ConversationRow.RecordNotification | agent-platform/api/app/services/chat_application.py:227-305 | a notification is stored once under a current ticket; another text under its key is refused |
| Conversations.ConversationRow.RecordOperatorMessage | agent-platform/api/app/services/conversation_control.py:214-271 | an operator message needs the current version and human control by its author |
| WebExecutions.WebService.Start | agent-platform/api/app/services/chat_application.py:466-626 | consent, route, input, session, stored outcome, running and retry are told apart; only a start changes anything |
| WebExecutions.WebService.Finish | agent-platform/api/app/services/chat_application.py:692-763 | a tripped guard blocks, an exception fails, a stale snapshot blocks, an unsuccessful or empty result fails, and only the rest completes with one answer |
| WebExecutions.WebService.ResetSession | agent-platform/api/app/services/web_chat_v2.py:429-449 | a reset closes an open conversation and blocks exactly its running executions; a closed one is left alone |
| Conversations.ConversationRow.ResetSession | agent-platform/api/app/services/web_chat_v2.py:580-591 | a reset closes the row, clears the operator and moves the version, with no control event |
| PresenceScripts.PresenceRedis.PublishSignal | agent-platform/api/app/services/chat_presence.py:27-63 | the keys after one publish, whether it was limited, and the latest live expiry |
| PresenceScripts.PresenceRedis.Read | agent-platform/api/app/services/chat_presence.py:65-73 | the latest expiry among the stored rows if it lies ahead, else zero |
| PresenceScripts.PresenceRedis.ReadIndexes | agent-platform/api/app/services/chat_presence.py:78-90 | overflow iff the live entries of all keys exceed the budget; otherwise exactly the live conversations |
| ConversationEvents.EventService.PublishEvent | agent-platform/api/app/services/conversation_events.py:43-92 | an event with a bad type, visibility or payload, or for another conversation, is refused and changes nothing; any other takes the next sequence and is appended |
| ConversationEvents.EventService.ListAfter | agent-platform/api/app/services/conversation_events.py:94-137 | cursor and limit out of range, an absent conversation and an unknown visibility are refused in that order; otherwise the first matching events after the cursor |
| IdentityLinkClaims.ClaimService.Issue | agent-platform/api/app/services/identity_link_claims.py:119-252 | an issue is applied, recognised or refused as judged; the token leaves only with an applied issue |
| IdentityLinkClaims.ClaimService.Verify | agent-platform/api/app/services/identity_link_claims.py:254-322 | a verification is applied only on the expected version of a pending claim with the right proof in time |
| IdentityLinkClaims.ClaimService.TerminalTransition | agent-platform/api/app/services/identity_link_claims.py:400-467 | reject, revoke and expire change claim and events as judged, or nothing |
| IdentityLinkClaims.ClaimService.PrepareTransition | agent-platform/api/app/services/identity_link_claims.py:469-501 | a key passes iff it has no receipt in the agent scope; otherwise duplicate or refused |
| HandoffRoutes.RouteService.CreateRoute | agent-platform/api/app/services/agent_handoff_routes.py:93-198 | a route is created with its receipt, or replayed, or refused, as judged |
| HandoffRoutes.RouteService.UpdateRoute | agent-platform/api/app/services/agent_handoff_routes.py:200-276 | an update changes target and flag iff they differ, bumps the version only then, and leaves a receipt either way |
| HandoffRoutes.RouteService.DeactivateRoute | agent-platform/api/app/services/agent_handoff_routes.py:278-330 | a deactivation switches an active route off; on an inactive one it only leaves a receipt |
| HandoffRoutes.RouteService.Replay | agent-platform/api/app/services/agent_handoff_routes.py:332-369 | a key with a receipt never reaches the route: same command duplicate, any other refused |
| ConversationMemory.MemoryRow.RefreshSummary | agent-platform/api/app/services/conversation_memory.py:84-157 | a refresh folds iff a batch is due and the provider gives text, and then moves summary and watermark; otherwise nothing changes |

## Left out

- The message pipeline, outbound delivery, the durable web queue, web chat v2 other than its session reset, and commercial services: not part of this model; the pipeline is an arbitrary sequence of lifecycle calls with any result.
- ChannelInbound.InboundStore.Settle: takes the result of the epoch check as an input, which `OwnershipFence` relates to the conversation, and reads the phase and writes the transition in one step; no other party can advance an owned row in between.
- Conversations.ConversationRow.RecordExchange: leaves out delivery commands and the refusal of an exchange without a route, and takes summary refresh and history cache as separate.
- Conversations.ConversationRow.RecordNotification: leaves out the delivery command and the refusal of a notification without a route.
- Conversations.ConversationRow.RecordOperatorMessage: leaves out the public event and the outbound delivery.
- Route snapshot check, decryption and runtime lookup before the pipeline: part of the arbitrary pipeline result.
- Statuses of legacy rows other than quarantined, and the legacy migration itself.
- Redis timeouts, degraded answers and the bounds on agents and conversations per presence query.
- Event publication inside control transitions and operator commands, and operator message delivery results.
- Event payloads: tuples count as scalars, as in the depth guard; the encoded size is an input.
- AgentLoop.Run: leaves out prompts, retrieval, produced files, result formatting and truncation; the loop detector's shortened hash is taken as injective. A reply without choices, a result that cannot be encoded, and arguments that are not text raise in the code and are no endings of the model.
- WebExecutions.WebService.Start: route, runtime and identity lookups are inputs; the lookup and the write of one request are one step. A reset also cancels accepted and queued executions, which only the durable queue has, and publishes events. A run whose process dies stays running, as nothing in this path ends it.
- ConversationMemory.MemoryRow.RefreshSummary: one refresh at a time; equal timestamps are listed in a stable order; an unreadable watermark is not modelled.
- Evidence normalisation, listing and views of identity claims; identities and claims deleted with their principals.
- Database isolation below the atomic step, foreign-key cascades, grants, audit, read models, history cache, configuration and user interface.
