# ADVERSA, verified

A Dafny model of the parts of ADVERSA that decide what happens to a pull request and that must
survive a bad network: the offline queue, the request/response protocol between agents, gossip
deduplication, the review decision, and the two on-chain ledgers.

| directory | subject |
|---|---|
| `Options.dfy`, `Sequences.dfy` | optional values, and filtering of sequences |
| `offline/` | `OfflineQueue`, `ConnectivityDetector` and `SyncEngine` as classes, and a step system in which every uninterrupted block between two `await`s is one event; probes, forced offline mode, overlapping `drain()` calls, immediate executions, failed writes and restarts interleave freely |
| `rpc/` | AXL clients, brokers and agents as classes, a network that loses, repeats and reorders whatever was ever sent, and a clock for the calls' timers |
| `gossip/` | the client's window of seen keys, and the broker's fingerprints, expiry timers and topic queues |
| `review/` | debates, weighted consensus, guardrails, vote construction, the merge decision, its dependence on the protocol, and the gateway's heuristic scan |
| `contracts/` | `AdversaReputation` and `AdversaRegistry` under any sequence of transactions from any accounts |

Each class method is one block of the program and is proved to perform one step of the corresponding
specification function (`Next`, `RouteAll`, `Decide`, `Apply`, ...). The theorems are then about every
run of those functions. Histories (what was enqueued, settled, executed, accepted) are part of the
specification state, so that they can be spoken about; the code never reads them.

Assumptions: generated identifiers are new; JSON and base64 lose nothing; a write of the queue file
happens entirely or not at all; executors, language models, probes and the network answer
arbitrarily; weights are exact reals; regular expressions are arbitrary predicates.

## What the proofs showed about the code

Where code and documentation differ, the model follows the code.

- Queued actions survive a restart, but a process that is online from its start never replays them:
  only a change from offline to online starts a drain (`OfflineTheorems.LoadedActionsWaitForAnEdge`,
  with the exact condition in `OfflineTheorems.DrainStartsExactly`).
- "Replay in order" (docs/architecture.md:138) holds among queued actions only. An action submitted
  online never enters the queue and can finish before anything that waits
  (`OfflineTheorems.OnlineSubmissionsOvertakeTheQueue`).
- `persist` swallows its errors, and a restart reads the file. It loses a queued action if and only if
  the action was enqueued since the last successful write, of whatever operation; and it brings back a
  completed or dropped action if and only if that was settled, but not also enqueued, since then
  (`OfflineDisk.RestartExactly`). `OfflineTheorems.UnwrittenActionIsLost` and
  `OfflineDisk.CompletedActionRunsAgain` are runs in which an action is lost and carried out twice.
  When the last write before each restart succeeded, neither happens (`OfflineTheorems.Durability`).
- A call whose own `send` throws has failed for the code that made it, but its entry and timer stay if and
  only if nothing else has settled it yet (`AxlTheorems.FailedSendPendingExactly`, with a run in
  `FailedSendLeavesPending`); an answer may have come during the retries.
- An A2A reply is built with the handler's result spread over the tag (src/agents/base-agent.ts:157).
  All six agents return a `type` of their own, so no A2A call is ever answered
  (`AxlTheorems.A2aIsNeverAnswered`). The exact condition for a reply to be recognised is
  `AxlAgent.A2aReplyRecognised`; results without a `type` do come back (`AxlTheorems.A2aRoundTrip`).
- Debate messages carry a fresh request id (src/agents/redteam.ts:308) while the decision looks them up
  by exploit id. As long as the two never coincide, one critical or high exploit in the red team's
  report prevents the merge, however well it was defended (`MergeTheorems.DebatesNeverRescue`). Since the red team's A2A calls are
  never answered, no debate is held at all, so the same follows without any assumption on ids for the
  exploits that reach the gateway (`Unanswered.ReportedExploitsBlock`).
- Often they do not reach it. The gateway gives the red team 45 s (src/review/pipeline.ts:217); the red team
  returns only after its debates, each of which waits 45 s for an A2A answer, counted from a later moment
  (src/agents/redteam.ts:222-247). Unless every debate fails early, by an error of the security agent, a
  throwing `send` or a shutdown, the gateway's call times out first, and a critical exploit that was found
  does not block the merge (`Unanswered.AwaitedDebateLosesTheReport`). Found exploits block exactly if the
  report was received (`Unanswered.FoundExploitsBlockExactlyIfReported`), and a result can still be received
  exactly while the call is pending (`AxlDeadlines.AnswerArrivesExactly`). A run in which a critical exploit
  was found, and that merges, is `Unanswered.FoundExploitCanMerge`.
- Even with equal ids, a critical exploit defended against a failed bypass is vetoed, because the last
  message of the debate is the counter-attack, which states no verdict (`MergeTheorems.VetoVersusDebate`).
- The human vote is commented as "1x weight, non-blocking" (src/review/consensus.ts:85) but weighs 2,
  and a rejection blocks every clean panel whose weight is below 29998 / 5001 at the default threshold
  (`MergeTheorems.HumanRejectionAtDefaultThreshold`, with a concrete panel in `HumanRejectionCanBlock`).
- docs/architecture.md:93 compares the exact share with the threshold; the code rounds first, so half a
  basis point less is enough (`ConsensusTheorems.ExactThreshold`). A panel with a share of 3761 / 5015 is
  approved at 75 percent (`ConsensusTheorems.RoundingApproves`).
- `debateExploit` reports what its messages last state exactly when the defender's last `mitigated` is a
  boolean or missing; any other truthy value is reported but not found by `lastMitigationState`
  (`Debate.VerdictAgreement`).
- A timer left over from an evicted fingerprint ends the deduplication of a later acceptance early: a run
  in which one message is accepted twice in a row within its time to live is
  `GossipExpiry.StaleTimerEndsDeduplication`. Within 5000 later acceptances and the time to live, a
  message is forgotten if and only if such a timer has run (`GossipExpiry.ForgottenEarlyExactly`).

## Model

| member | source | states |
|---|---|---|
| OfflineSafety.RunIsSafe | src/offline/sync.ts:58-105 | in every state of every run: at most one drain loop is alive, exactly when `draining` is set, and it awaits the queue's head; status announcements alternate; online and idle, nothing that was queued at the last online edge is still queued; after a successful write the file equals the array |
| OfflineSafety.StatusStepIsSafe | src/offline/sync.ts:12-23 | a probe or the manual switch keeps the drain single, the announcements alternating and equal to the status, and leaves no idle process over a queue it announced online for |
| OfflineTheorems.NoActionForgotten | src/offline/sync.ts:12-23 | no lost wake-up: online, with an action of the latest edge still queued, exactly one drain is active and is awaiting the head or pausing |
| OfflineTheorems.LoadedActionsWaitForAnEdge | src/offline/queue.ts:107-122 | while the process stays online from its start, loaded actions stay queued and nothing is ever settled |
| OfflineTheorems.OnlineSubmissionsOvertakeTheQueue | src/offline/sync.ts:29-56 | a submission goes behind the queue if and only if the system is offline; otherwise it can complete with the queue untouched |
| OfflineTheorems.FifoConservation | src/offline/sync.ts:58-105 | the ids completed or dropped by drains, in order, followed by the queue's ids are exactly the loaded and then enqueued ids, in order and without repetition |
| OfflineTheorems.Durability | src/offline/queue.ts:86-122 | when the last write, and the last one before each restart, succeeded: every action ever enqueued is in the file, was completed, or was dropped by the retry-limit test |
| OfflineTheorems.AttemptBound | src/offline/queue.ts:74-84 | drains attempt a settled action at most its limit of times plus once per attempt cut off by a restart; dropped means exactly limit many failures, completed means fewer; a preceding failed immediate execution adds one attempt, never more |
| OfflineTheorems.QueuedAttemptBound | src/offline/queue.ts:74-84 | an action still queued has failed fewer times than its limit and was attempted at most that often |
| OfflineTheorems.UnwrittenActionIsLost | src/offline/queue.ts:95-105 | a concrete run in which a failed write followed by a restart loses an accepted action, an instance of `OfflineDisk.RestartExactly` |
| OfflineDisk.FileAndQueueBalance | src/offline/queue.ts:95-122 | in every run, whatever writes fail and whenever it restarts: the ids in the file, then those enqueued since the last successful write, are those settled since then, then the queued ones, without repetition |
| OfflineDisk.RestartExactly | src/offline/queue.ts:107-122 | a restart at any point loses a queued action if and only if it is among those enqueued since the last successful write, and revives a settled one if and only if it was settled but not enqueued since then |
| OfflineDisk.RestartIsHarmless | src/offline/queue.ts:107-122 | a restart reloads the very queue it interrupted, by id, if and only if the same actions were enqueued and settled since the last successful write |
| OfflineDisk.EveryFate | src/offline/queue.ts:38-122 | in every run, each action is in the file, queued but unsaved, completed, dropped at its limit, or was queued and unsaved when a restart came |
| OfflineDisk.LostExactly | src/offline/queue.ts:38-122 | an action was forgotten at some restart, queued and unsaved, if and only if it is neither in the file nor queued nor settled |
| OfflineDisk.CompletedActionRunsAgain | src/offline/sync.ts:79-81 | a reachable state in which a completed action, its completion unwritten, is being executed for the second time |
| OfflineTheorems.DrainWorkIsBounded | src/offline/sync.ts:68-100 | without restarts, the steps of all drains together are bounded by the initial attempt budget and what is enqueued meanwhile |
| OfflineTheorems.DrainLeftAloneEmptiesTheQueue | src/offline/sync.ts:68-102 | amid probes, repeated `drain()` calls and online submissions, a drain that stays online while nothing is enqueued never gets stuck, takes boundedly many steps, and has emptied the queue when it ends |
| OfflineTheorems.DrainStartsExactly | src/offline/sync.ts:17-22 | an idle process starts a drain if and only if it is called directly while online or announced online, with something queued |
| OfflineLedger.RunKeepsLedger | src/offline/queue.ts:38-93 | order, uniqueness and the attempt accounts of every queued and settled action are kept by every run |
| OfflineLedger.FailedKeepsLedger | src/offline/queue.ts:74-84 | a failed attempt is charged to the head alone and either re-writes it in place or moves it to the dropped actions |
| OfflineOrigins.ActionsAreAsAsked | src/offline/sync.ts:29-56 | in every run, an action queued, saved, being executed or settled has the kind, the payload and the limit (five without one) that were asked for under its id, or under the id its immediate execution failed with |
| OfflineOrigins.RequeuedAsAsked | src/offline/sync.ts:47-50 | a failed immediate execution is queued last, as the same request under a new id, unattempted and without an error |
| OfflineOrigins.SubmissionIsAsAsked | src/offline/sync.ts:34-55 | a submission becomes one unattempted action as asked: the last of the queue when offline, started when online |
| OfflineOrigins.CompletedHadAnExecutor | src/offline/sync.ts:107-113 | in every run, drains complete only actions for whose kind an executor was registered |
| OfflineOrigins.StartedDrainAwaitsHead | src/offline/sync.ts:68-79 | a drain that starts awaits the head, whose execution can succeed if and only if its kind has an executor |
| OfflineOrigins.ExecutorsStay | src/offline/sync.ts:25-27 | registering keeps the earlier executors, and only a restart removes any |
| OfflineQueue.CompletedHead | src/offline/queue.ts:86-93 | filtering by the head's id removes the head and nothing else, ids being distinct |
| OfflineQueue.FailedHead | src/offline/queue.ts:74-84 | a failure of the head drops it at its limit and otherwise leaves it at the head with one more retry |
| OfflineQueue.WithoutOne | src/offline/queue.ts:86-88 | filtering by any action's id removes exactly that action, ids being distinct |
| OfflineQueue.MarkedFailedOne | src/offline/queue.ts:74-84 | a failure of any action removes it at its limit, and otherwise leaves it in place with one more retry and the error, and leaves all others as they were |
| OfflineQueue.AttemptCosts | src/offline/queue.ts:74-93 | success or failure, an attempt strictly lowers the sum of remaining attempts |
| OfflineQueue.OfflineQueue.Enqueue | src/offline/queue.ts:38-56 | appends a fresh action with its default limit and saves the whole array if the write succeeds |
| OfflineQueue.OfflineQueue.MarkFailed | src/offline/queue.ts:74-84 | array and file after a failure, including an unknown id, which is not even saved |
| OfflineQueue.OfflineQueue.MarkComplete | src/offline/queue.ts:86-93 | array and file after a completion |
| OfflineQueue.OfflineQueue.Dequeue | src/offline/queue.ts:58-60 | removes the head and leaves the file as it was |
| OfflineQueue.OfflineQueue.Persist | src/offline/queue.ts:95-105 | the file is the array after a successful write and unchanged after a failed one |
| OfflineQueue.OfflineQueue.constructor | src/offline/queue.ts:107-122 | starts from the saved array, or from nothing |
| Connectivity.ConnectivityDetector.SetForcedOffline | src/offline/detector.ts:25-41 | announces exactly the changes of the effective status |
| Connectivity.ConnectivityDetector.Check | src/offline/detector.ts:43-77 | the same for a probe that has answered |
| Sync.SyncEngine.RegisterExecutor | src/offline/sync.ts:25-27 | performs the registration step |
| Sync.SyncEngine.OnStatusChange | src/offline/sync.ts:17-22 | drains if and only if the change is to online and something is queued |
| Sync.SyncEngine.ExecuteOrQueue | src/offline/sync.ts:29-56 | performs the submission step of the step system |
| Sync.SyncEngine.ImmediateSettled | src/offline/sync.ts:44-51 | a failed immediate execution is queued as a new action, even while online |
| Sync.SyncEngine.Drain | src/offline/sync.ts:58-68 | returns at once when a drain is active, and otherwise runs the first loop test |
| Sync.SyncEngine.SetForcedOffline | src/offline/detector.ts:25-41 | switch, announcement and status handler together are one step, and the announcement is the one the step system records |
| Sync.SyncEngine.Check | src/offline/detector.ts:58-74 | probe, announcement and status handler together are one step, with the recorded announcement |
| Sync.SyncEngine.ExecutorDone | src/offline/sync.ts:79-81 | completion and the next loop test are one step |
| Sync.SyncEngine.ExecutorFailed | src/offline/sync.ts:93-98 | failure and the start of the pause are one step |
| Sync.SyncEngine.PauseOver | src/offline/sync.ts:98-103 | after the pause the loop test decides anew |
| Sync.SyncEngine.DrainLoop | src/offline/sync.ts:58-105 | the loop as written, with status changes and finitely many arrivals at its awaits, terminates, empties the queue or ends offline, settles old and new actions in order, and counts the completions |
| AxlTheorems.McpAgreement | src/axl/client.ts:186-218 | over any network behaviour, a `callMCP` resolves only with the `result` field of a reply, and only with a value that the addressee's handler returned for a message whose `service`, `method`, `params` and `request_id` fields are those of that call |
| AxlTheorems.FaultAgreement | src/axl/client.ts:436-447 | the error a call is rejected with is the text of an error that the addressee's handler ended in, for a message with that call's own fields |
| AxlTheorems.McpRoundTrip | src/agents/base-agent.ts:143-152 | for every call and every result some run brings exactly that result back to the caller |
| AxlTheorems.ErrorRoundTrip | src/agents/base-agent.ts:150-161 | for every call and every error some run rejects the caller with exactly that error |
| AxlTheorems.A2aAgreement | src/axl/client.ts:225-253 | an A2A call resolves only with a result its addressee computed for a message with that call's own payload and id, and only one without a `type` of its own |
| AxlTheorems.A2aRoundTrip | src/agents/base-agent.ts:153-162 | every result without a `type` can come back, as the whole reply message |
| AxlTheorems.A2aReplyKeepsResult | src/agents/base-agent.ts:157-157 | an A2A reply holds every field of the result except a request id of its own |
| AxlTheorems.A2aIsNeverAnswered | src/agents/security.ts:406-410 | with results that carry their own `type`, no A2A call is ever resolved |
| AxlTheorems.SettledExactlyOnce | src/axl/client.ts:195-205 | in every reachable state the pending calls are the issued calls not yet settled, each with one armed timer; none is settled twice |
| AxlTheorems.ShutdownSettlesAll | src/axl/client.ts:459-470 | shutdown leaves no entry and no timer, and rejects each pending call once |
| AxlTheorems.FailedSendLeavesPending | src/axl/client.ts:207-217 | a call that already threw to its caller is still pending |
| AxlTheorems.FailedSendPendingExactly | src/axl/client.ts:207-217 | in every run, the entry and timer of a call whose send threw are left if and only if nothing has settled it |
| AxlAgreement.RunInv | src/axl/client.ts:409-457 | the invariant of the protocol: settlement, fresh ids, queues that hold only what was sent to them, every packet of a call traced to it, agreement of what was resolved |
| AxlAgreement.HonestStep | src/agents/base-agent.ts:133-163 | every packet bearing a call's id is that call or an answer of its addressee |
| AxlAgreement.SettlementStep | src/axl/client.ts:409-470 | replies, faults, timeouts and shutdowns settle each call at most once in total |
| AxlNetwork.CallsPassTheClient | src/axl/client.ts:450-451 | the client never keeps a call for itself: each call of a batch reaches the agent, whatever replies come with it |
| AxlAgent.A2aReplyRecognised | src/agents/base-agent.ts:153-162 | an A2A reply is recognised by the caller if and only if the result has no `type`, or a reply type |
| AxlAgent.FaultSays | src/agents/base-agent.ts:150-161 | a handler's error is reported in the type that belongs to the call, with its text |
| AxlNetwork.HandlersEndOnce | src/agents/base-agent.ts:146-161 | a handler replies once to its caller, and if that reply's own send throws, sends that error after it |
| AxlAgent.Agent.HandleRawMessage | src/agents/base-agent.ts:133-163 | exactly the calls start a handler |
| AxlAgent.Broker.Send | src/axl-broker/server.ts:156-181 | forwards if and only if some peer has that id and can be reached; exactly the first such record changes, to online now or to offline; failure is visible only in `success` |
| AxlAgent.Broker.Recv | src/axl-broker/server.ts:143-146 | hands out the whole queue and empties it |
| AxlAgent.Broker.Deliver | src/axl-broker/server.ts:148-152 | appends to the queue |
| AxlClient.RepeatedMessageIsIgnored | src/axl/client.ts:421-448 | within the messages of one or several polls, a repetition of an earlier message changes nothing |
| AxlTheorems.ProcessedOnce | src/axl/client.ts:421-448 | in every run, a message processed once is never taken for an answer at that client again, whatever calls, timeouts, shutdowns and messages come in between |
| AxlTiming.OnTimeStep | src/axl/client.ts:195-205 | under a clock: no pending call is overdue by more than a timer may be late, and none times out before it is due |
| AxlDeadlines.TimesOutAfter45Seconds | src/axl/client.ts:191-203 | no call times out before 45000 ms, and none is pending later than that plus the lateness |
| AxlDeadlines.TimeoutComesTooLate | src/axl/client.ts:228-241 | when a call issued after `r` has timed out before the handler of `r` returned, `r` has ended without an answer |
| AxlDeadlines.AnswerNeedsEarlyFailures | src/agents/redteam.ts:222-247 | a call whose handler awaits A2A calls is answered only if each of them threw on sending, was refused with an error, or was shut down |
| AxlDeadlines.AnswerArrivesExactly | src/agents/base-agent.ts:146-149 | a result the handler is ready to return can reach the caller if and only if the call is still pending |
| AxlLateAnswer.LateAnswer | src/agents/redteam.ts:222-247 | with timers exactly on time, a run in which the handler returns after both its own and its caller's call timed out |
| AxlClient.OtherCallsUntouched | src/axl/client.ts:421-448 | a call not named by any message of a batch is left as it was |
| AxlClient.EveryMessageOnce | src/axl/client.ts:416-452 | each message of a batch either settles a call or is passed on, and whatever is no reply or fault is passed on |
| AxlClient.RouteAllKeepsSettledOnce | src/axl/client.ts:409-457 | a batch settles each of its pending calls once and no other |
| AxlClient.AXLClient.BeginCall | src/axl/client.ts:195-205 | entry and timer are registered before anything is sent |
| AxlClient.AXLClient.Timeout | src/axl/client.ts:197-203 | a timeout removes the entry and rejects the call |
| AxlClient.AXLClient.Poll | src/axl/client.ts:413-452 | routes replies and faults of pending calls and passes everything else on, in order |
| AxlClient.AXLClient.StopPolling | src/axl/client.ts:459-470 | rejects all pending calls and leaves the map empty |
| GossipWindow.DeliveriesAreSpaced | src/axl/gossipsub.ts:37-65 | for arrivals in any order, as overlapping polls produce, two deliveries of one key have at least 2000 other deliveries between them |
| GossipWindow.EveryKeyIsDelivered | src/axl/gossipsub.ts:42-60 | deduplication never suppresses every copy of a message |
| GossipWindow.NoRepeatBeforeOverflow | src/axl/gossipsub.ts:48-51 | up to 2001 deliveries no key is delivered twice |
| GossipWindow.AcceptedExactly | src/axl/gossipsub.ts:43-51 | an arrival is accepted if and only if its key is none of the last 2000 accepted ones |
| GossipWindow.KeyIdentifies | src/axl/gossipsub.ts:44-44 | two messages have one key if and only if they agree in sender, topic and time |
| GossipWindow.GossipSub.Receive | src/axl/gossipsub.ts:43-51 | a message reaches the handlers if and only if its key is not among the last 2000 accepted; set and queue hold the same distinct keys |
| GossipWindow.GossipSub.Poll | src/axl/gossipsub.ts:41-60 | the handled messages are exactly those the window accepts, in order |
| Fingerprint.Injective | src/axl-broker/server.ts:286-288 | the fingerprint determines sender, topic and time although topics contain the separator |
| GossipBuffer.BufferInvariant | src/axl-broker/server.ts:290-305 | in every reachable state each topic queue is the last 500 messages accepted since its last drain, at most 5000 fingerprints are kept, and each has the timer of its newest acceptance armed |
| GossipBuffer.NothingOutlivesItsTimer | src/axl-broker/server.ts:303-304 | once the due timers have fired, only fingerprints younger than the time to live remain |
| GossipBuffer.ArrivalIsQueued | src/axl-broker/server.ts:290-302 | an accepted message becomes the last of its topic's queue, of at most 500, and nothing else changes |
| GossipBuffer.DrainEmptiesItsTopic | src/axl-broker/server.ts:330-335 | draining empties one topic's queue and leaves the others and the fingerprints alone |
| GossipBuffer.ExpiryTakesItsMark | src/axl-broker/server.ts:304-304 | a timer is due 30000 ms after its acceptance and removes exactly its own fingerprint |
| GossipBuffer.WhyAcceptedAgain | src/axl-broker/server.ts:290-305 | a repetition is due to 5000 later acceptances, to age, or to a stale timer of a still earlier acceptance |
| GossipExpiry.ForgottenExactly | src/axl-broker/server.ts:290-305 | within 5000 later acceptances a message is no longer recognised if and only if a timer for its fingerprint has fired since it was last accepted |
| GossipExpiry.ForgottenEarlyExactly | src/axl-broker/server.ts:303-304 | within the time to live too, if and only if that timer was armed by an earlier acceptance |
| GossipExpiry.StaleTimerEndsDeduplication | src/axl-broker/server.ts:294-304 | a reachable state in which one message was accepted twice in a row within its time to live |
| GossipBuffer.RunInv | src/axl-broker/server.ts:290-335 | the invariant of the buffer over arrivals, expiries and drains in any order |
| GossipBuffer.GossipBroker.EnqueueGossip | src/axl-broker/server.ts:290-305 | set, eviction and queue of one arrival are one step |
| GossipBuffer.GossipBroker.Expire | src/axl-broker/server.ts:304-304 | the callback deletes its fingerprint |
| GossipBuffer.GossipBroker.Messages | src/axl-broker/server.ts:330-335 | hands out one topic's queue and empties it |
| MergeTheorems.MergeCharacterisation | src/review/pipeline.ts:254-314 | without a human vote a run merges if and only if somebody votes, no review agent reports a critical or high finding, no such exploit lacks a mitigated message, every critical exploit's last message is mitigated, with a critical exploit all exploits are counted, and the threshold is at most 10000; the confidence is then 10000 |
| MergeConditions.MergesExactly | src/review/pipeline.ts:174-314 | the same on the panel's own fields: who took part, what each agent that was there and answered reported, the scan where security reported nothing, and for each exploit which debate messages are needed, with severities and verdicts written out |
| MergeConditions.GraveFindingBlocks | src/review/pipeline.ts:180-182 | one critical or high finding of an agent that was there and answered blocks the merge, whatever the human says |
| MergeConditions.GraveScanBlocks | src/review/pipeline.ts:186-191 | so does one of the scan when the security agent is missing, failed or found nothing |
| MergeConditions.GraveExploitBlocks | src/review/pipeline.ts:274-281 | so does a critical or high exploit in the report without a message that claims its mitigation |
| MergeConditions.BuildVoteSays | src/review/pipeline.ts:641-658 | an agent's vote rejects if and only if it reported a critical or high finding, and lists exactly those |
| MergeConditions.RedTeamVoteSays | src/review/pipeline.ts:274-296 | the red team's vote rejects if and only if a critical or high exploit is unanswered, and lists all unanswered ones |
| MergeTheorems.MergeWithHuman | src/review/consensus.ts:85-116 | the same condition with a human vote: an approval adds nothing, a rejection adds exactly a lower bound on the panel's weight |
| MergeTheorems.HumanRejectionAtDefaultThreshold | src/review/consensus.ts:85-109 | at threshold 7500 a rejection blocks a clean panel if and only if its weight is below 29998 / 5001 |
| MergeTheorems.HumanRejectionCanBlock | src/review/consensus.ts:85-109 | a concrete panel that merges without the human and not with a rejection |
| MergeTheorems.ThreeAgentsOutweighTheHuman | src/review/consensus.ts:7-14 | a clean panel with red team, security and a third agent merges at the default threshold despite a human rejection, whatever the reputations |
| MergeTheorems.LeastPanelWeight | src/review/pipeline.ts:254-297 | the least weight of a panel, by the agents taking part and with the fixed weight of the stand-in security peer; it is reached when all reputations are at most -250 |
| MergeTheorems.DebatesNeverRescue | src/review/consensus.ts:155-161 | when no debate's request id is an exploit's id, a run merges exactly when there is no critical or high exploit or finding at all |
| MergeTheorems.VetoVersusDebate | src/agents/redteam.ts:359-368 | the veto accepts a debate if and only if its last answer is `true` and the last message is an answer |
| Unanswered.ReportedExploitsBlock | src/review/pipeline.ts:231-232 | with agents whose A2A results carry a `type`, over any network behaviour and for any ids: any critical or high exploit that reached the gateway prevents the merge, and without a human vote the exploits matter in no other way |
| Unanswered.FoundExploitsBlockExactlyIfReported | src/review/pipeline.ts:215-241 | a critical or high exploit found by the red team prevents the merge if and only if the gateway's call to the red team resolved; otherwise the run merges as if nothing had been found |
| Unanswered.AwaitedDebateLosesTheReport | src/review/pipeline.ts:217-240 | the report is lost when a debate was awaited without an early failure, its call being issued later than the gateway's; the run then merges whatever the red team found, if the other agents found nothing |
| Unanswered.FoundExploitCanMerge | src/review/pipeline.ts:217-240 | a concrete run in which the red team returned a critical exploit and that merges |
| Unanswered.NoDebateIsHeld | src/agents/redteam.ts:323-327 | with such agents no debate message is ever collected |
| MergeTheorems.MitigationChain | src/review/consensus.ts:155-192 | last message mitigated implies last stated verdict mitigated implies counted as mitigated, which is the red-team vote's test |
| MergeTheorems.CountsAddUp | src/review/pipeline.ts:274-296 | exploits counted as mitigated and exploits listed by the red-team vote add up to all exploits |
| MergeTheorems.GuardrailsMean | src/review/guardrails.ts:8-26 | the three guardrails together are the clean panel and the confidence test |
| MergeTheorems.VotesUnblocking | src/review/pipeline.ts:265-297 | all votes approve without blocking findings exactly when the collected blocking issues are empty, and exactly when agents and red team report nothing blocking |
| ConsensusTheorems.ExactThreshold | src/review/consensus.ts:104-109 | rounding makes the decision the inequality 20000 approval >= (2 threshold - 1) weight |
| ConsensusTheorems.RoundingApproves | src/review/consensus.ts:104-109 | a concrete panel whose exact share is below the threshold and that is approved |
| ConsensusTheorems.ConfidenceInRange | src/review/consensus.ts:104-107 | the confidence is between 0 and 10000 |
| ConsensusTheorems.ApprovalHelps | src/review/consensus.ts:67-73 | turning any vote into an approval never lowers the confidence |
| ConsensusTheorems.AddedApprovalHelps | src/review/consensus.ts:67-73 | adding an approving vote never lowers it |
| ConsensusTheorems.ReputationHelpsItsSide | src/review/consensus.ts:145-153 | raising a reputation never hurts the side its owner voted for |
| ConsensusTheorems.AbstainIsReject | src/review/consensus.ts:67-74 | an abstention scores like a rejection |
| ConsensusTheorems.HundredPointsAreAFifth | src/review/consensus.ts:145-153 | within the bounds, 100 points of reputation change a weight by a fifth of the role's; none counts as neutral; -250 and 500 points give half and double |
| ConsensusTheorems.ReputationInfluenceIsBounded | src/review/consensus.ts:145-153 | with role weights A of T approving, the share stays between A/(4T-3A) and 4A/(T+3A) whatever the reputations |
| ConsensusTheorems.OrderOfVotesIsIrrelevant | src/review/consensus.ts:62-116 | permuting the votes changes neither decision, confidence, the multisets of blocking and critical issues, the counts, nor the verdict of the guardrails |
| Consensus.Tally | src/review/consensus.ts:62-102 | the loop computes the sums of the weights over all, approving and rejecting votes, with the human's 2 added to the total and to one side |
| ResultTheorems.TallyIsResult | src/review/consensus.ts:163-195 | the tally's totals are the weights the result reports plus exactly the human's 2 points |
| ResultTheorems.ResultWeights | src/review/consensus.ts:183-185 | the reported weights are the sums of effective weights over all, approving and rejecting votes, vetoed or not |
| ResultTheorems.ConfidenceOfResult | src/review/consensus.ts:104-109 | without a veto the confidence is the basis point nearest to the reported approving share with the human's points, and the decision compares it with the threshold |
| ResultTheorems.IssuesOfResult | src/review/consensus.ts:111-116 | the issues are exactly the critical and high findings of the votes, and the critical ones among them |
| ResultTheorems.VetoOfResult | src/review/consensus.ts:36-60 | a veto reports confidence 0 and exactly the critical exploits not settled by their last message |
| ResultTheorems.NoVotes | src/review/consensus.ts:25-28 | without votes everything is refused |
| ResultTheorems.MitigatedCount | src/review/consensus.ts:174-192 | the count of mitigated exploits is that of the exploits some defense claims to mitigate |
| ResultTheorems.RefusalNamesItsGround | src/review/guardrails.ts:8-26 | each refusal names the first of the three grounds |
| ResultTheorems.PublishedWeights | src/review/consensus.ts:7-14 | at neutral reputation the roles weigh 4, 3, 2 and 1 |
| Consensus.ComputeConsensus | src/review/consensus.ts:17-143 | computes the specified decision on all paths: no votes, veto, vote |
| Pipeline.CollectVotes | src/review/pipeline.ts:254-297 | the votes of a run, with the stand-in security peer and the scan's findings where they apply |
| Pipeline.Run | src/review/pipeline.ts:312-363 | a run merges exactly when the specified decision passes the guardrails |
| Debate.LastMitigationState | src/review/debate.ts:27-33 | finds the last boolean verdict, if there is one |
| Debate.DebateExploit | src/agents/redteam.ts:280-372 | the messages and the reported verdict on every path, including failed calls |
| Debate.LaunchCounterAttack | src/agents/redteam.ts:374-454 | one or two messages, the second only after an answered bypass |
| Debate.VerdictAgreement | src/agents/redteam.ts:305-371 | one request id throughout, mitigation claimed exactly by defenses, and the reported verdict is the last stated one if and only if the last answer is a boolean or missing |
| HeuristicScan.GatewayHeuristicScan | src/review/pipeline.ts:607-632 | the nested loops report, in order of line and rule, exactly the first match of every title |
| HeuristicScan.ScanIsDetermined | src/review/pipeline.ts:607-632 | that description leaves exactly one possible list of findings |
| HeuristicScan.OneFindingPerRule | src/review/pipeline.ts:613-616 | with distinct titles: exactly one finding per rule that matches some added line, about its first such line, ordered by line and then by rule |
| HeuristicScan.AddedMeans | src/review/pipeline.ts:609-609 | exactly the lines that begin with one or two plus signs can be reported |
| HeuristicScan.ReportSays | src/review/pipeline.ts:616-627 | a finding names its rule, its line counted from one, and the first 120 characters |
| Reputation.LedgerIsTally | contracts/contracts/AdversaReputation.sol:59-133 | after any transactions the agents are distinct and exactly the registered ones, every figure is a count of successful calls, and the score is 10 accurate - 20 inaccurate + 25 found - 5 false |
| Reputation.AccuracyRateIsARate | contracts/contracts/AdversaReputation.sol:139-143 | in every reachable state the rate is at most 10000, with equality exactly when all reviews were accurate |
| Reputation.RateIsShare | contracts/contracts/AdversaReputation.sol:139-143 | the rate is 10000 times the share of accurate reviews, rounded down; 0 without reviews; it reverts exactly on overflow |
| Reputation.WriterSucceeds | contracts/contracts/AdversaReputation.sol:76-133 | an account that may write succeeds on any agent whose figures are within range, registers it and sets its time |
| Reputation.ApprovalLetsWrite | contracts/contracts/AdversaReputation.sol:53-57 | exactly the owner approves, exactly one more account |
| Reputation.OutsidersChangeNothing | contracts/contracts/AdversaReputation.sol:38-57 | accounts neither owner nor approved cannot change anything by any calls, together or alone |
| Reputation.AdversaReputation.ApproveCallerTx | contracts/contracts/AdversaReputation.sol:53-57 | outcome and storage, reverts included |
| Reputation.AdversaReputation.RegisterAgentTx | contracts/contracts/AdversaReputation.sol:59-74 | registers once, whoever asks again |
| Reputation.AdversaReputation.UpdateReputationTx | contracts/contracts/AdversaReputation.sol:76-104 | outcome and storage, with registration on first use undone when checked arithmetic reverts |
| Reputation.AdversaReputation.RecordExploitTx | contracts/contracts/AdversaReputation.sol:106-133 | the same for exploits |
| Reputation.AdversaReputation.GetAccuracyRate | contracts/contracts/AdversaReputation.sol:139-143 | the rounded-down share of accurate reviews, an unknown agent included |
| Registry.RegistryIsConsistent | contracts/contracts/AdversaRegistry.sol:74-101 | after any transactions the hash list is distinct, in recording order, and mapped to exactly the records stored |
| Registry.RecordsNeverChange | contracts/contracts/AdversaRegistry.sol:74-101 | no transaction sequence changes a stored record or reorders the list |
| Registry.OutsidersChangeNothing | contracts/contracts/AdversaRegistry.sol:41-49 | accounts neither owner nor approved cannot change anything by any calls, together or alone |
| Registry.OwnerDecidesWhoWrites | contracts/contracts/AdversaRegistry.sol:56-72 | who may write after an approval, a revocation or a transfer, and when the owner's calls revert |
| Registry.DeployerStaysApproved | contracts/contracts/AdversaRegistry.sol:51-54 | the deployer may still write after giving the registry away |
| Registry.FirstRecordIsStored | contracts/contracts/AdversaRegistry.sol:74-101 | the first record for a hash by an account that may write is stored field by field, with the block's time; a second reverts |
| Registry.CountsApprovals | contracts/contracts/AdversaRegistry.sol:116-122 | the loop's count is the number of approving records |
| Registry.ShareRoundsDown | contracts/contracts/AdversaRegistry.sol:122-122 | the rate is their share in basis points, rounded down |
| Registry.AdversaRegistry.ApproveCallerTx | contracts/contracts/AdversaRegistry.sol:56-60 | outcome and storage, reverts included |
| Registry.AdversaRegistry.RevokeCallerTx | contracts/contracts/AdversaRegistry.sol:62-65 | the same for a revocation, which needs no valid address |
| Registry.AdversaRegistry.TransferOwnershipTx | contracts/contracts/AdversaRegistry.sol:67-72 | the same for a transfer; the old owner stays approved unless revoked |
| Registry.AdversaRegistry.RecordReviewTx | contracts/contracts/AdversaRegistry.sol:74-101 | outcome and storage, reverts included |
| Registry.AdversaRegistry.GetReview | contracts/contracts/AdversaRegistry.sol:103-106 | the stored record or the not-found revert |
| Registry.AdversaRegistry.GetApprovalRate | contracts/contracts/AdversaRegistry.sol:116-123 | the counting loop returns the rounded-down share of approved records |

## Left out

- HTTP, sockets, the dashboard, mesh events, logging and the front end.
- Language-model calls, prompts and JSON extraction from their answers; regular expressions of the scan rules.
- 0G, KeeperHub and GitHub clients: an executor succeeds or fails arbitrarily, at any later step.
- Identifier generation, encodings, the clock, and partial writes of the queue file.
- Floating-point rounding of weights; the model computes with exact reals.
- Sync.SyncEngine.DrainLoop: the arrivals during one call are finitely many, without which it need not end.
- Sync.SyncEngine.ExecuteOrQueue: an action is a value, so executors that keep or modify the object they were handed are not captured.
- OfflineTheorems.FifoConservation: assumes that each restart follows a successful write; without that, `OfflineDisk.FileAndQueueBalance` and `OfflineDisk.RestartExactly` apply.
- OfflineTheorems.Durability: makes the same assumption; `OfflineDisk.EveryFate` makes none.
- Status handlers other than the sync engine's, and the timing of probes.
- Queue files holding two actions with one id, which the program never writes.
- AxlTheorems.A2aAgreement: assumes that no handler result poses as one of the six protocol messages.
- App-level gossip and convergecast over the receive queue, which compete with the polling loop for messages.
- AxlTiming.OnTimeStep: timers of all processes are late by at most one common bound, which may be any number; transmission itself may take any time or none.
- Unanswered.FoundExploitsBlockExactlyIfReported: how exploits are encoded in the red team's result is not part of this model.
- Misrouting through stale peer addresses; a packet is delivered to the peer it names or not at all.
- A received message whose decoded body is not an object, which would abort the rest of its batch.
- Broker endpoints for direct MCP and A2A, registration and topology.
- GossipWindow.GossipSub.Poll: one poll that is not overlapped by another; overlapping polls are arbitrary orders of `Receive`.
- Handler lists and their exceptions in `GossipSub`; `subscribe` and `unsubscribe`.
- Evidence text and confidences in debates, errors raised by malformed text in them, the limit of five debates, learned patterns and agent status.
- Descriptive fields of findings, votes and results that no decision reads.
- Security agent's own `heuristicScan`, the same loop with another filter.
- Pipeline.Run: recording, comments and revision requests after the merge decision are not part of this model.
- `getTopAgents`, the plain getters of both contracts, events and gas.
- `AdversaINFT.sol`, whose transfers come from an ERC-721 library that is not part of this model.
