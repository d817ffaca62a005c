# Durable agent coordination, verified

A Dafny model of how the repository coordinates durable agents over append-only
transcripts, and proofs of what that coordination promises. Run
`dafny verify dfyconfig.toml` in this directory.

Code that works by changing things step by step is modelled by classes with the
same fields and loops; each of their methods is proved equal to a function on
values, and the promises are proved about every run of those functions.

| part | files |
|---|---|
| Progress analysis: components, verdicts, deadlocks, stalls, Owner Demand | `Digraph`, `ComponentSearch`, `ProgressFacts`, `VerdictPropagation`, `DependencyDeadlocks`, `DeliveryStalls`, `OwnerDemand`, `ProgressAssessment` |
| Control channel: endpoints, both ends over FIFO links, byte framing, admission | `ControlEndpoint`, `ControlProtocol`, `ControlChannel`, `TerminalIds`, `ControlFraming`, `ControlAdmission`, `AdmissionBroker` |
| Delivery scheduler: queue, reservations, runs, deferred boots | `DeliveryQueue`, `DeliveryOperations`, `DeliverySelection`, `DeliveryEffects`, `DeliveryRuns`, `DeliveryDecisions`, `DeliveryResumes`, `DeliveryScheduler`, `DeferredBoots` |
| One Answer proof: retrieval against direct Delivery | `AnswerArbitration`, `AgentWaits`, `AnswerProofs` |
| Incremental caches: Request Relationships, JSONL reader | `RelationshipJournal`, `RelationshipProjection`, `RequestRelationships`, `TranscriptLines`, `TranscriptReader`, `TranscriptTails` |
| Cold recovery and the rebuilt roster | `SpawnerChains`, `SpawnTree`, `ColdRecovery`, `WorkflowRoster`, `RecoveredWorkflow` |

## Premises

- An agent id names one agent of a snapshot, and a Request id one Request. `DeliveryResumes.SingleIffNew` also takes a resumed id to name one Message, which is never suppressed (src/protocol/run-control.ts:107-124, src/coordination/messages.ts:1203-1225).
- Transcripts are append-only at the level of complete lines, so a proof once present stays present.
- An agent's lane runs one operation at a time, in the order asked; no lane operation sees another half done.
- A hand-off whose reservation was dropped unproven (interruption, discard, settlement, failed resume) is never committed by the Runtime.
- A Supervisory Resume brings a Message that is neither scheduled, under way nor proven for its recipient: the one caller takes the id from its own tool call (`DeliveryResumes.SingleIffNew` says that nothing less will do).
- A current Hold blocks ordinary delivery, and a Hold that ended is never current again (src/runtime/agent-runtime-supervisor.ts:414-416, 456-493); when it ends is left open.
- A Steer Delivery that left the queue as suppressed while its batch was under way stays suppressed.
- Retrieval and its commit are one step: the final check of a tool result is not overtaken before the result is appended.
- Every change of an agent's stake in a Request is journaled, and a journal identity (roster, transcript states, scopes) that was left never comes back.
- No recovered session carries the Owner's own id (`ColdRecovery.AppendingEndsIffOwnerUnclaimed` says for which of them that matters).
- The incomplete tail of a transcript is not replaced while one iteration of the reader is under way (`TranscriptTails.ReplacementHarmlessIff` says when that would matter).
- An encoded JSON frame is non-empty, contains no byte 0x0A (section 7 of RFC 8259 has control characters escaped), and decodes back to itself.

## Where the code falls short of its promise

- Control channel: a request whose frame fails local admission and that is aborted before that rejection reaches it sends a Cancellation for an id the peer never saw; the peer closes the channel. `ControlProtocol.ClosesOnlyOverStrayCancellation` shows that this is the only way two conforming ends close each other, `ControlProtocol.StrayCancellationHappens` gives such a run.
- Scheduler: `admitResumeInLane` asks neither whether the Message is under way or proven nor whether it is queued. `DeliveryResumes.SingleIffNew` is the exact condition over all continuations of a run: the Message is new in all three respects. `DeliveryResumes.ResumeCanProveTwice` and `DeliveryResumes.QueuedResumeCanProveTwice` are runs, from the idle scheduler, in which a proven and a merely queued Message are proved twice; the second needs the Hold to end without a drain before the next safe boundary, and an Agent Wait that takes the released resume without looking at its proof.
- Agent Wait: ending a Run or shutting down forgets a Wait whose prepared result may still be on its way to be committed, and the commit guard then lets it through unexamined. `AnswerProofs.SingleIffExamined` is the exact condition over whole runs: no Answer that such a result retrieves is proven or reserved when it commits. `AnswerProofs.ForgottenWaitCanProveTwice` is a run in which an Answer is proved twice.
- JSONL reader: an incomplete tail replaced between two chunks of one iteration can mix old and new bytes into one line. `TranscriptTails.ReplacementHarmlessIff` is the exact condition: the bytes read so far stay, or no newline lies where the iteration still reads. `TranscriptTails.ReplacedTailIsMixed` is a run of a new reader, with full 64 KiB chunks, that takes an entry which never was in the file.
- Cold recovery: an accepted candidate with the Owner's own id is its own descendant, and appending descendants does not end. `ColdRecovery.AppendingEndsIffOwnerUnclaimed` is the exact condition; `ColdRecovery.OwnOwnerNeverEnds` is the smallest such directory.

## Model

| member | source | states |
|---|---|---|
| ComponentSearch.StronglyConnectedComponents | src/coordination/progress-verdict.ts:253-296 | the emitted components partition what the given agents reach, and two of those agents share one exactly when each reaches the other |
| ComponentSearch.Search.Visit | src/coordination/progress-verdict.ts:264-290 | visiting an agent keeps the stack, index and low-link invariant, and settles everything it reaches or leaves it stacked below an open agent |
| ComponentSearch.Search.Follow | src/coordination/progress-verdict.ts:272-279 | following one target lowers the low-link no further than some reachable stacked agent allows |
| ComponentSearch.Search.Leave | src/coordination/progress-verdict.ts:281-290 | leaving an agent emits a component exactly when its low-link is its own index, and what is emitted is strongly connected and closed off |
| ComponentSearch.Emit | src/coordination/progress-verdict.ts:281-290 | the agents above a root of the search form one strongly connected component, and removing them keeps the search invariant |
| ComponentSearch.Retreat | src/coordination/progress-verdict.ts:272-281 | an agent whose low-link lies below it reaches an agent still open, so keeping it stacked is right |
| ComponentSearch.EmittedAreComponents | src/coordination/progress-verdict.ts:253-296 | components emitted in search order are exactly the classes of mutual reachability |
| VerdictPropagation.CombineDependencies | src/coordination/progress-verdict.ts:108-130 | the loop ends, and gives each locally stalled agent the best local verdict reachable through locally stalled agents, every other agent its own |
| VerdictPropagation.OrderIrrelevant | src/coordination/progress-verdict.ts:108-130 | the combined verdict of an agent does not depend on the order of the snapshot |
| VerdictPropagation.ProgressComesFromSomewhere | src/coordination/progress-verdict.ts:108-130 | a combined verdict of progressing has a locally progressing agent behind it |
| ProgressFacts.LocalVerdictOf | src/coordination/progress-verdict.ts:132-154 | with unique ids, the verdict map gives every agent the verdict that its facts ask for: inactive when dormant or failed, waiting when awaiting a human, held or suspended whatever else it does, else progressing when anything is under way, waiting when only excused, stalled when idle |
| ProgressFacts.ReasonIsStrongest | src/coordination/progress-verdict.ts:77-88 | the reported waiting reason applies and is the strongest that does; none is reported only when none applies |
| DependencyDeadlocks.DetectDependencyDeadlocks | src/coordination/progress-verdict.ts:215-251 | reports precisely the cyclic components of eligible agents that no unanswered Request leaves, apart from each other |
| DependencyDeadlocks.ReportIsExact | src/coordination/progress-verdict.ts:232-250 | filtering the components keeps each deadlock and nothing else |
| DependencyDeadlocks.ClosedSetHoldsDeadlock | src/coordination/progress-verdict.ts:215-251 | a set of eligible agents closed under its unanswered Requests, each having one, contains a reported deadlock |
| DependencyDeadlocks.DeadlockStaysStalled | src/coordination/progress-verdict.ts:108-130 | every member of a reported deadlock is stalled after verdicts are combined |
| DeliveryStalls.TraceDeliveryStall | src/coordination/progress-verdict.ts:156-200 | a blocked Delivery yields a stall exactly when it holds an obligated agent up; its affected agents are those on the simple paths there, its Requests those owed at the roots of such paths |
| DeliveryStalls.TraceDeliveryStalls | src/coordination/progress-verdict.ts:156-200 | one exact result per blocked Delivery that holds an agent up, in order |
| DeliveryStalls.Tracer.Visit | src/coordination/progress-verdict.ts:170-187 | the depth-first walk ends on cyclic graphs and collects exactly what lies on the qualifying extensions of its path |
| DeliveryStalls.HeldUpIffReachable | src/coordination/progress-verdict.ts:156-200 | a Delivery is reported exactly when some obligated root without a waiting reason reaches its recipient through agents that neither wait nor progress |
| OwnerDemand.DemandedRequestIds | src/coordination/owner-demand.ts:15-32 | demanded are exactly the Requests whose author is reachable from the roots |
| OwnerDemand.SomeDemandedMeansAll | src/coordination/operational-incidents.ts:1344-1348 | if one Request of a reported deadlock is demanded, all of them are, though deadlocks are sought among ordinary agents and demand follows Moderators' Requests too |
| ProgressAssessment.AssessProgress | src/coordination/progress-verdict.ts:90-97 | from snapshot facts alone: an agent that is not idle ends with the verdict its facts ask for, an idle one progressing, else waiting, when its unanswered Requests lead through idle agents to such an agent, else stalled; deadlocks are exactly those among idle agents that only Requests retain, and their members end stalled |
| ProgressAssessment.TracedPaths | src/coordination/progress-verdict.ts:161-187 | the paths behind a Delivery Stall are exactly the simple paths of unanswered Requests from an obligated live agent at rest, through agents without a waiting reason that do not progress, to a recipient without one |
| ControlProtocol.RunKeeps | src/control/agent-control-channel.ts:263-522 | over every interleaving of calls, refusals, aborts, handlers, events and deliveries at both ends, the protocol invariant holds |
| ControlProtocol.ClosesOnlyOverStrayCancellation | src/control/agent-control-channel.ts:408-522 | in every run, at both ends, the next frame closes the channel exactly when it is a Cancellation of a request that never left and lies above all finished ids |
| ControlProtocol.CarefulRunsNeverClose | src/control/agent-control-channel.ts:408-522 | without an abort of an unsent request, no run raises any protocol violation, at either end |
| ControlProtocol.StrayCancellationHappens | src/control/agent-control-channel.ts:263-304 | a concrete run in which aborting a locally refused request closes the peer's channel |
| ControlProtocol.PendingIsInOnePlace | src/control/agent-control-channel.ts:263-304 | a pending sent request of either end is in exactly one place: its frame under way, being served, or its response under way |
| ControlProtocol.DrainedMeansSettled | src/control/agent-control-channel.ts:440-489 | with links drained and no handler running, no sent request of either end is pending |
| ControlProtocol.SettledOnce | src/control/agent-control-channel.ts:470-489 | a settlement and an answer, once recorded, stay as they are in every later state of a run |
| ControlProtocol.AnsweredOnce | src/control/agent-control-channel.ts:440-468 | in every run neither end writes two responses to one request |
| ControlProtocol.CancelArrives | src/control/agent-control-channel.ts:512-522 | a Cancellation of a sent request finds it seen, served or finished, and keeps the invariant |
| ControlProtocol.RequestArrives | src/control/agent-control-channel.ts:408-438 | an arriving request is new to the high-water mark and the serving set, is served or answered as having no handler, and keeps the invariant |
| ControlProtocol.ResponseArrives | src/control/agent-control-channel.ts:470-489 | an arriving response belongs to a pending or finished request, and keeps the invariant |
| ControlProtocol.ResponseDecides | src/control/agent-control-channel.ts:470-489 | in every run a response to a pending request settles it for good: a result resolves, and passes the schema of the method called; an error rejects with its own code |
| ControlProtocol.HandlerResultArrives | src/control/agent-control-channel.ts:434-489 | in every run a request that its caller did not abort settles as its handler ended: with exactly the result returned when that passes the schema of the method the caller named, rejected as failed otherwise |
| ControlProtocol.AbortedByCaller | src/control/agent-control-channel.ts:277-303 | a request settles as aborted exactly when its caller aborts it |
| ControlEndpoint.ResponsesSettle | src/control/agent-control-channel.ts:470-489 | whatever the peer sends, a response settles its pending request alone: a result resolves exactly when it passes the schema, and is rejected as invalid otherwise; an error rejects with its code |
| ControlEndpoint.ClosesExactly | src/control/agent-control-channel.ts:408-522 | whatever the peer sends, a frame closes the channel with a violation exactly when it breaks that rule |
| ControlChannel.FramedAgentControlChannel.Request | src/control/agent-control-channel.ts:263-304 | refuses a closed channel or an undeclared method; otherwise issues the next id and writes its frame, or leaves it unsent when local admission fails |
| ControlChannel.FramedAgentControlChannel.OnAbort | src/control/agent-control-channel.ts:277-287 | only a pending request is aborted, finished and cancelled at the peer |
| ControlChannel.FramedAgentControlChannel.SendEvent | src/control/agent-control-channel.ts:306-338 | events leave with consecutive numbers |
| ControlChannel.FramedAgentControlChannel.HandleFrame | src/control/agent-control-channel.ts:398-522 | a frame acts as the endpoint step says or closes the channel with that violation; a response settles its pending request by the schema of its method; a closed channel ignores it |
| ControlChannel.FramedAgentControlChannel.CompleteIncoming | src/control/agent-control-channel.ts:440-468 | a handler's result is sent exactly when it passes the schema of the method, a failure otherwise, and nothing once the request was withdrawn |
| ControlChannel.FramedAgentControlChannel.FinishClose | src/control/agent-control-channel.ts:593-613 | closing settles all pending requests and abandons all served ones, once |
| ControlChannel.ClosingSettlesAll | src/control/agent-control-channel.ts:593-613 | closing rejects exactly the pending requests, abandons the served ones and changes no settlement or answer |
| TerminalIds.CanonicalIsExact | src/control/agent-control-channel.ts:155-163 | an id is canonical with number n exactly when it is the prefix followed by n in decimal, n a positive safe integer |
| TerminalIds.TerminalRequestIds.Add | src/control/agent-control-channel.ts:134-153 | finishing a canonical id finishes every smaller one and nothing else; another id is remembered by recency |
| TerminalIds.RememberedWhileRecent | src/control/agent-control-channel.ts:141-153 | a non-canonical id is remembered through the next 1023 additions, whatever they are |
| ControlChannel.TerminalIdsDecide | src/control/agent-control-channel.ts:134-139 | a channel keeping plain high-water marks closes over the same responses, requests and Cancellations as one asking its sets of finished ids |
| ControlFraming.FrameReader.Receive | src/control/agent-control-channel.ts:347-372 | a chunk handled segment by segment is the byte-by-byte reading of it, closing at the same byte |
| ControlFraming.ReceiveAll | src/control/agent-control-channel.ts:347-372 | any chunking handles the same frames and fails on the same input as the unsplit stream |
| ControlFraming.LineDecides | src/control/agent-control-channel.ts:347-372 | a complete line is handled exactly when it is neither empty nor over the limit; any other closes the channel |
| ControlFraming.Fragment | src/control/in-memory-control-transport.ts:91-104 | the chunks are non-empty and concatenate to the data, whatever the sizes |
| ControlFraming.StreamRoundTrip | src/control/agent-control-channel.ts:549-567 | frames serialized within the limit are read back as exactly those frames |
| ControlFraming.ReceiveChunked | src/control/agent-control-channel.ts:347-372 | admitted frames are handled exactly, in order, by a reader fed any chunking of their stream |
| ControlFraming.SendFrames | src/control/in-memory-control-transport.ts:91-104 | frames fragmented one by one into chunks of any sizes reach the reader as exactly those frames |
| ControlAdmission.AdmissionTransport.Receive | src/control/agent-control-admission.ts:267-302 | the first line of the stream becomes the Hello and the rest is kept for the channel, however the chunks fall; an oversized or bad Hello closes |
| ControlAdmission.AdmissionTransport.Activate | src/control/agent-control-admission.ts:259-265 | activation hands over exactly the bytes buffered since the Hello, and later bytes go straight through |
| ControlAdmission.EndToEnd | src/control/agent-control-admission.ts:198-323 | a Hello line and admitted frames, cut anywhere and with activation after any chunk, reach the channel's reader as exactly those frames |
| AdmissionBroker.AgentControlAdmissionBroker.Admit | src/control/agent-control-admission.ts:65-102 | refuses an aborted, closed, empty or duplicate admission, in that order; otherwise exactly this admission becomes pending |
| AdmissionBroker.AgentControlAdmissionBroker.Inspect | src/control/agent-control-admission.ts:143-187 | a connection is admitted exactly when its Hello matches the admission pending under its token; the token is used up and the admission settled whether it matched or not |
| AdmissionBroker.AgentControlAdmissionBroker.Close | src/control/agent-control-admission.ts:104-120 | closing settles all that is pending, leaves earlier settlements as they were, and nothing is pending afterwards |
| DeliverySelection.EligibleExactly | src/coordination/message-delivery-scheduler.ts:1233-1254 | eligible is exactly: unblocked foreground input save Deferred Requests behind an older one; with none, the oldest Background item; with an unready Delivery queued, nobody |
| DeliverySelection.SteerExactly | src/coordination/message-delivery-scheduler.ts:1256-1277 | a Steer batch is every eligible unreserved Steer Message that no other member withdraws |
| DeliverySelection.SelectionExactly | src/coordination/message-delivery-scheduler.ts:891-894 | selected are exactly those who join the Steer batch, or with nobody to join it the first in the queue that may go |
| DeliverySelection.DrainHandsOver | src/coordination/message-delivery-scheduler.ts:843-939 | a drain that finds the recipient free hands over what the selection rules select |
| DeliverySelection.AdmittedIsScheduled | src/coordination/message-delivery-scheduler.ts:434-517 | an admission answered as pending leaves its Delivery queued; any other answer changes nothing |
| DeliverySelection.AdvanceKeeps | src/coordination/message-delivery-scheduler.ts:843-939 | no drain loses a queued Delivery that is neither proven nor suppressed |
| DeliveryDecisions.SettleKeepsIff | src/coordination/message-delivery-scheduler.ts:723-807 | unless the Run is held, a settlement loses an owed Delivery exactly when the Run failed, an occupied prompt slot failed or holds an unproven id, or a frozen batch holds one still owed |
| DeliveryDecisions.SettleExactly | src/coordination/message-delivery-scheduler.ts:744-803 | such a settlement discards everything, or frees every prompt and drains exactly what is owed |
| DeliveryDecisions.SettlementLosesIff | src/coordination/message-delivery-scheduler.ts:744-803 | that condition at every point of a run |
| DeliveryDecisions.SettlementHandsOver | src/coordination/message-delivery-scheduler.ts:794-803 | at every point of a run, a settlement that loses nothing hands over, at a boundary with nothing in its way, exactly those of all that is owed who join the Steer batch, or the first who may go |
| DeliveryDecisions.HeldExactly | src/coordination/message-delivery-scheduler.ts:728-744 | a held Run frees every prompt, hands over nothing and keeps its queue and its resume slot |
| DeliveryDecisions.PurgeExactly | src/coordination/message-delivery-scheduler.ts:1200-1231 | dropped is exactly what is proven, or suppressed and in no prompt; a preemption ends with the last proof of its batch, a frozen batch once none of it is queued, and nothing else changes |
| DeliveryDecisions.ResumeGoes | src/coordination/message-delivery-scheduler.ts:847-857 | a resume goes exactly when it is let go, its Hold is current and settled and its turn begins; it keeps the slot when committed and loses it otherwise |
| DeliveryDecisions.OrdinaryGoes | src/coordination/message-delivery-scheduler.ts:858-938 | ordinary input goes exactly when no resume is in its way, input is not blocked and no preemption is unproven, and the recipient yields its Wait or is at a boundary with no prompt or owed batch; then by selection |
| DeliveryDecisions.TriggerExactly | src/coordination/message-delivery-scheduler.ts:871-873 | a Wait is preempted by the first Steer Delivery that may, even behind a Deferred one, without one by the first that may |
| DeliveryDecisions.PreemptionExactly | src/coordination/message-delivery-scheduler.ts:1054-1096 | handed over are exactly the Steer batch without Answers, or a trigger of another mode alone; nothing exactly when the trigger may not go or is reserved, a preemption is under way or no preempting input remains |
| DeliveryDecisions.AnswersStayWithTheirWait | src/coordination/message-delivery-scheduler.ts:1065-1075 | in every run no batch that preempts a Wait holds a Steer Answer |
| DeliveryDecisions.BoundaryExactly | src/coordination/message-delivery-scheduler.ts:553-558 | a safe boundary freezes exactly those who may join the Steer batch, unless input is blocked or an earlier batch is still owed |
| DeliveryDecisions.FrozenGoes | src/coordination/message-delivery-scheduler.ts:1174-1198 | a batch held back goes once, exactly what is still owed of it, and only while it is the current one |
| DeliveryDecisions.AdmitExactly | src/coordination/message-delivery-scheduler.ts:434-517 | which answer an admission gives, and that an accepted Delivery joins the end of the queue and drains unless its boot is deferred |
| DeliveryDecisions.AdmitResumeExactly | src/coordination/message-delivery-scheduler.ts:519-551 | the resume slot is refused for capacity while it is in use, and then as unavailable when the Hold is no longer current |
| DeliveryDecisions.CountsOnce | src/coordination/message-delivery-scheduler.ts:663-679 | the capacity check counts each queued Message once that is neither a Creation Request nor proven nor suppressed |
| DeliveryDecisions.ParkingExactly | src/coordination/message-delivery-scheduler.ts:568-588 | an unproven Deferred prompt keeps everything as it is, an unproven preemption ends only the Deferred prompt, otherwise both end and all that is owed drains |
| DeliveryDecisions.AbandonExactly | src/coordination/message-delivery-scheduler.ts:823-841 | a drain that throws gives up exactly the queued Deliveries that no reservation owns |
| DeliverySelection.HoldKeepsQueue | src/coordination/message-delivery-scheduler.ts:728-745 | a held Run keeps everything unproven queued |
| DeliveryEffects.AdvanceFollows | src/coordination/message-delivery-scheduler.ts:843-939 | a drain keeps reservations apart, hands over only unreserved unproven Deliveries in turn, and accounts for every earlier hand-off |
| DeliveryEffects.ReservePreemptionFollows | src/coordination/message-delivery-scheduler.ts:1054-1096 | reserving a Wait preemption keeps reservations apart, hands over only unreserved unproven Deliveries in turn, and accounts for every earlier hand-off |
| DeliveryEffects.FreezeFollows | src/coordination/message-delivery-scheduler.ts:1147-1198 | so does freezing a Steer batch, dispatched at once or later |
| DeliveryEffects.SettleFollows | src/coordination/message-delivery-scheduler.ts:723-807 | so does every way a Run settles |
| DeliveryEffects.ParkingFollows | src/coordination/message-delivery-scheduler.ts:568-588 | so does parking the Owner |
| DeliveryRuns.OperateSound | src/coordination/message-delivery-scheduler.ts:434-1231 | every operation keeps the invariant, and what it hands over was not under way, not proven and not reserved |
| DeliveryRuns.SingleHandOff | src/coordination/message-delivery-scheduler.ts:610-617 | in every run an id is in at most one reservation, is proved at most once, and is handed over at most once more than its hand-offs were dropped |
| DeliveryRuns.HandOffsAreFair | src/coordination/message-delivery-scheduler.ts:1233-1277 | in every run no batch holds a Request with its Cancellation, a Deferred Request or Background item goes alone, and a Deferred Request only when the prompts before it are proven |
| DeliveryRuns.LinesAreFifo | src/coordination/message-delivery-scheduler.ts:1233-1254 | in every run Deferred Requests are handed over in admission order, and so are Background items |
| DeliveryResumes.SingleIffNew | src/coordination/message-delivery-scheduler.ts:519-551 | over every run whose resumed ids name one Message each, never suppressed: all that can follow, whatever the Runtime answers, proves each Message at most once exactly when every resume that took the slot brought a Message neither scheduled, under way nor proven |
| DeliveryResumes.NotNewBreaks | src/coordination/message-delivery-scheduler.ts:843-863 | a resume that takes the slot for a Message that is not new has a continuation that proves it, or can still prove it, twice |
| DeliveryResumes.ResumeCanProveTwice | src/coordination/message-delivery-scheduler.ts:519-551 | a run from the idle scheduler in which a proven Message of a held Run is resumed and proved a second time |
| DeliveryResumes.QueuedResumeCanProveTwice | src/coordination/message-delivery-scheduler.ts:843-885 | a run from the idle scheduler in which a resume of a Message that is only queued, neither under way nor proven, gets it proved twice |
| DeliveryScheduler.MessageDeliveryScheduler.RemoveProvenDeliveries | src/coordination/message-delivery-scheduler.ts:1200-1231 | drops exactly what is proven, or suppressed and in no prompt, in one pass, and releases finished preemptions and batches |
| DeliveryScheduler.MessageDeliveryScheduler.AdvanceDelivery | src/coordination/message-delivery-scheduler.ts:843-939 | purges, then continues a resumption, reserves a preemption, freezes a Steer batch or hands over one Delivery: the new fields and the batch are those of the function that the run results are about |
| DeliveryScheduler.MessageDeliveryScheduler.Admit | src/coordination/message-delivery-scheduler.ts:434-517 | coalesces a scheduled id, refuses for capacity, ignores a suppressed Delivery, defers or fails a boot, else queues and drains: fields, batch and answer are those of the function that the run results are about |
| DeliveryScheduler.MessageDeliveryScheduler.AdmitResume | src/coordination/message-delivery-scheduler.ts:519-551 | takes the one resume slot only under the current Hold: fields, batch and answer are those of the function that the run results are about |
| DeliveryScheduler.MessageDeliveryScheduler.ReserveWaitPreemption | src/coordination/message-delivery-scheduler.ts:1054-1096 | reserves an eligible trigger, or the Steer batch without Answers that still holds preempting input, as the function of `DeliveryDecisions.PreemptionExactly`; refusal changes nothing |
| DeliveryScheduler.MessageDeliveryScheduler.FinishSettled | src/coordination/message-delivery-scheduler.ts:723-807 | a held Run keeps its queue, a failure or unproven work discards everything, anything else releases and drains: fields and batch are those of the function of `DeliveryDecisions.SettleExactly` |
| DeliveryScheduler.MessageDeliveryScheduler.BeginParking | src/coordination/message-delivery-scheduler.ts:568-588 | prompts proven whole give up their reservation before the drain, as the function that the run results are about |
| DeferredBoots.RoundIsFair | src/coordination/message-delivery-scheduler.ts:1328-1345 | a check passes over nobody who waits and drops nobody who awaits a boot; boots and Runs at work together never exceed the bound after a check that started some, and reach it when it leaves some waiting |
| DeferredBoots.RoundKeepsOrder | src/coordination/message-delivery-scheduler.ts:1328-1345 | after a check no agent is both deferred and booting, and whoever started was ahead of whoever still waits |
| DeferredBoots.DeferredBootQueue.StartRound | src/coordination/message-delivery-scheduler.ts:1328-1341 | the loop over the ordered set starts, drops and leaves exactly the deferrals of the check that is proved fair, within the bound on boots and Runs at work |
| DeferredBoots.DeferredBootQueue.StartDeferredBoots | src/coordination/message-delivery-scheduler.ts:1328-1345 | repeated checks end, start awaited boots in deferral order, pass over nobody who still awaits one, and leave deferrals only at the bound on boots and Runs at work |
| DeferredBoots.NobodyIsOvertaken | src/coordination/message-delivery-scheduler.ts:1319-1397 | in every run children boot in the order in which they asked, newcomers included |
| DeferredBoots.ChecksKeepBound | src/coordination/message-delivery-scheduler.ts:1328-1345 | at every point of a run a check lifts boots and Runs at work together to the bound at most, and starts nobody at the bound |
| DeferredBoots.ArrivalsKeepBound | src/coordination/message-delivery-scheduler.ts:1386-1420 | at every point of a run a spawned child boots at once exactly when nobody waits, its boot is not under way and a slot is free, and then the bound still holds; the Owner and the Moderators never wait |
| AnswerArbitration.AggregateIsComplete | src/coordination/agent-waits.ts:416-421 | an aggregate exists exactly when no Request is cancelled and every Answer is canonical and proven or not on its way; it then lists each Request with its Answer, in order, and says who proves it |
| AnswerArbitration.OneListing | src/coordination/agent-waits.ts:416-421 | there is one such list |
| AnswerArbitration.ReconfirmDecides | src/coordination/answer-arbitration.ts:65-80 | reconfirmation is lost exactly when an unproven Answer is on its way by direct Delivery, unchanged exactly when the slots still tell the truth, and a replacement keeps every Request and Answer in place |
| AgentWaits.AgentWaitCoordinator.Wait | src/coordination/agent-waits.ts:105-206 | a Wait starts resolved when its aggregate is complete, waiting otherwise |
| AgentWaits.AgentWaitCoordinator.PreemptWait | src/coordination/agent-waits.ts:229-276 | a complete aggregate wins over preempting input; an incomplete one yields only to reserved input of the current Run: fields and promises are those of the function of `AgentWaits.PreemptDecides` |
| AgentWaits.PreemptDecides | src/coordination/agent-waits.ts:229-276 | an open Wait whose Answers can all be had resolves with all of them whatever the Run and the scheduler say; any other resolves as preempted exactly when the Run is current and its Delivery reserved, else stays open; a cancelled Request or a dead Run fences it |
| AgentWaits.AgentWaitCoordinator.ReconcileWait | src/coordination/agent-waits.ts:361-387 | a waiting Wait resumes with a complete aggregate and is fenced by a cancelled Request |
| AgentWaits.ReconcileDecides | src/coordination/agent-waits.ts:361-414 | a check resolves an open Wait exactly when all Answers can be had, and fences it over a cancelled Request or a dead Run |
| AgentWaits.BeginDecides | src/coordination/agent-waits.ts:143-204 | a Wait resolves at once exactly when all its Answers can be had, and is open otherwise |
| AgentWaits.AgentWaitCoordinator.GuardCommit | src/coordination/agent-waits.ts:278-314 | only the candidate of the current Run commits, reconfirmed; anything else is fenced |
| AgentWaits.GuardDecides | src/coordination/agent-waits.ts:278-314 | what may be committed is exactly the result that the Wait prepared, told truthfully, unless one of its Answers is on its way by direct Delivery; any other ends the Wait |
| AnswerProofs.OneProofPerAnswer | src/coordination/answer-arbitration.ts:65-118 | in every interleaving that forgets no Wait with its result still to be published, an Answer is proved at most once, and never while a direct hand-off of it can still commit |
| AnswerProofs.PublishedResultsKeepTheirAnswers | src/coordination/agent-waits.ts:278-314 | in every interleaving, forgotten Waits included, a published result lists the Requests and canonical Answers its caller was given, in the same order, all proven |
| AnswerProofs.SettledOnce | src/coordination/agent-waits.ts:389-414 | in every run a Wait's promise, once settled, and a result, once published, stay as they are in all later states |
| AnswerProofs.ReadyWaitResolves | src/coordination/agent-waits.ts:361-414 | at every point of a run a live Wait whose Answers can all be had resolves at the next check with all of them |
| AnswerProofs.AnswersBeatPreemption | src/coordination/agent-waits.ts:245-276 | at every point of a run input never preempts a Wait whose Answers can all be had, and preempts any other without a cancelled Request exactly when the Run is current and its Delivery reserved |
| AnswerProofs.PublicationCommits | src/coordination/agent-waits.ts:278-314 | a prepared result is published with every Answer proven, unless an Answer is on its way by direct Delivery; then nothing is |
| AnswerProofs.RetryCommits | src/coordination/messages.ts:305-350 | a retried Answer is published and proven, unless direct Delivery won it meanwhile; then the retry is given up |
| AnswerProofs.SingleIffExamined | src/coordination/agent-waits.ts:278-314 | over every interleaving, proofs stay single exactly when each result of a forgotten Wait retrieves no Answer that is proven or reserved when it commits |
| AnswerProofs.ForgottenWaitCanProveTwice | src/coordination/agent-waits.ts:286-287 | a run in which a Wait is forgotten before its result commits and its Answer is proved twice |
| RelationshipProjection.ProjectionEqualsRecomputation | src/coordination/request-relationships.ts:272-400 | under any slicing, reset, lazy binding and failed evaluation, a caught-up graph is exactly the Requests awaited and owed now |
| RelationshipProjection.EntriesAreCollectedOnce | src/coordination/request-relationships.ts:298-321 | the shared journal holds every entry it has reached exactly once |
| RelationshipProjection.CatchingUpIsIncremental | src/coordination/request-relationships.ts:272-400 | after one change a caught-up cache collects into the journal it has, and its graph keeps its members and looks at the new entries only |
| RelationshipProjection.AdvanceGraphSound | src/coordination/request-relationships.ts:358-400 | a turn of the update leaves every difference from the present stakes still ahead of the graph |
| RelationshipProjection.AdvanceSourcesSound | src/coordination/request-relationships.ts:298-321 | a turn of the collection keeps that, shared with graphs already under way |
| RelationshipProjection.StartSourcesSound | src/coordination/request-relationships.ts:272-296 | a check of the sources keeps, restarts or extends the collection as the journal identities ask |
| RequestRelationships.RequestRelationshipCache.CommittedRelationshipsFor | src/coordination/request-relationships.ts:175-188 | the read barrier ends and returns the recomputed projection, even over an interrupted collection or update |
| RequestRelationships.RequestRelationshipCache.AdvanceRelationshipUpdate | src/coordination/request-relationships.ts:358-400 | one turn of the generator; after a failure the graph starts over |
| TranscriptReader.ReaderAgreesWithFullParse | src/pi-integration/session-manager-transcript.ts:151-298 | in every run the entries are the parse of the consumed complete lines, the read position is past the cursor by the remembered tail, and a read with nothing new has the whole file |
| TranscriptReader.SessionFileTranscriptReader.Read | src/pi-integration/session-manager-transcript.ts:279-289 | a read of an unchanging file, cut into reads of any sizes, ends with the parse of all its complete lines, or fails with those before the first bad one |
| TranscriptReader.AdvanceOk | src/pi-integration/session-manager-transcript.ts:204-277 | a turn of the consumer takes complete lines only, once each, and a failed line leaves everything before it |
| TranscriptReader.StartOk | src/pi-integration/session-manager-transcript.ts:151-203 | opening restarts the incomplete tail at the cursor, and finds nothing to do only when the whole file is parsed |
| TranscriptLines.StartExactly | src/pi-integration/session-manager-transcript.ts:151-203 | a changed file is read on from the cursor exactly while it is the same file, did not shrink below what was read, was not rewritten at the same size and keeps the anchor; else from its start |
| TranscriptTails.ReplacementHarmlessIff | src/pi-integration/session-manager-transcript.ts:204-255 | a change of the file under way leaves the iteration in agreement with it, whatever the lines mean and however the rest is cut into reads, exactly when it keeps the bytes read so far or holds no newline where the iteration still reads |
| TranscriptTails.ReplacedTailIsMixed | src/pi-integration/session-manager-transcript.ts:204-255 | a run of a new reader in which a tail replaced between two chunks makes it take an entry that never was in the file |
| TranscriptLines.NextLine | src/pi-integration/session-manager-transcript.ts:218-244 | taking the next complete line is the next step of a parse from scratch |
| TranscriptLines.ParseExactly | src/pi-integration/session-manager-transcript.ts:218-277 | a parse from scratch is what the complete lines say, in order, up to the first that does not decode or is a misplaced header |
| SpawnerChains.SpawnerVerification.MarkInvalid | src/bootstrap/cold-host-discovery.ts:130-225 | invalid are exactly the candidates with a duplicate id or source, a foreign Workflow or an unverifiable spawn |
| SpawnerChains.SpawnerVerification.VerifyPath | src/bootstrap/cold-host-discovery.ts:227-255 | the memoised walk ends, cycles included, and accepts exactly the chains that end at the Owner |
| SpawnerChains.SpawnerVerification.VerifyPaths | src/bootstrap/cold-host-discovery.ts:227-256 | afterwards an ordinary candidate is invalid exactly when it is not accepted |
| SpawnerChains.CycleNeverRooted | src/bootstrap/cold-host-discovery.ts:236-241 | a candidate that climbs back to itself never reaches the Owner |
| SpawnerChains.AcceptedExactly | src/bootstrap/cold-host-discovery.ts:130-256 | accepted are exactly the candidates that a chain of spawners connects with the Owner, each the only claim of its agent and spawn, of this Workflow, with agreeing records |
| SpawnTree.KidsOfPreorder | src/bootstrap/cold-host-discovery.ts:258-275 | grouping the preorder list by spawner gives back every children list, in order |
| ColdRecovery.DiscoverColdWorkflow | src/bootstrap/cold-host-discovery.ts:130-280 | the ordered list holds exactly the accepted candidates, each once, after its spawner, siblings in spawn order; quarantined are exactly the others' ids |
| ColdRecovery.ModeratorExactly | src/bootstrap/cold-host-discovery.ts:130-161 | a Moderator is recovered exactly when it is the only claim of its agent and of this Workflow |
| ColdRecovery.RecoveryOrder.AppendDescendants | src/bootstrap/cold-host-discovery.ts:269-275 | appending ends within as many nested calls as there are agents further down, and adds the preorder of the parent's subtree |
| ColdRecovery.SortSorts | src/bootstrap/cold-host-discovery.ts:265-267 | sorting siblings by spawn order is sorted and a permutation |
| ColdRecovery.AppendingEndsIffOwnerUnclaimed | src/bootstrap/cold-host-discovery.ts:269-275 | appending below the Owner ends within some number of nested calls exactly when no accepted candidate carries the Owner's id |
| ColdRecovery.OwnOwnerNeverEnds | src/bootstrap/cold-host-discovery.ts:227-275 | one sound session that names the Owner as itself and as its spawner is accepted, and no number of nested calls suffices |
| WorkflowRoster.Roster.Integrate | src/coordination/workflow-coordinator.ts:402-433 | rebuilding the roster from the preorder never misses a Direct Spawner and gives the same children lists |
| WorkflowRoster.Roster.AgentAuthorityOrder | src/coordination/workflow-coordinator.ts:1046-1064 | the stack traversal ends without a repeated agent and returns the Owner, the agents in recovery order, then the Moderators |
| RecoveredWorkflow.RecoverWorkflow | src/coordination/workflow-coordinator.ts:402-433 | from the files on disk, both preorders agree |

## Left out

- Sorting of the ids in reported components, deadlocks and stalls, and the order in which they are reported: presentation only; the model reports sets and its own order.
- Schemas of methods, events and transcript records: abstract predicates and a decoder.
- Sockets, pipes, files, timers and processes: byte sequences, a disk with stamps, and steps that may happen at any time.
- Behaviour of the protocol after one end closed its channel: only closing itself is modelled.
- An event handler that throws, and a response frame that fails local admission: both close the channel by design and are not among the protocol's steps.
- Delivery progress timers and their failure notices: not part of the reservations.
- Moderator reminders committed through their own native transaction: a sixth reservation that only makes the recipient busier.
- The hook that delays one dispatch for tests; a frozen batch dispatched later than it was frozen is modelled.
- Suppression and readiness answers that change between two reads inside one synchronous operation: one reading per operation.
- A capacity bound on the queue: only the admission check is modelled, since a released resume joins the queue without it.
- Runtime startup and its second attempt: the outcome of a boot is a parameter.
- The insertion order of a relationship set, and admitted but uncommitted authorship added to a projection: sets only, committed facts only.
- Graphs of several agents: one agent's graph over the shared journal; graphs do not affect each other.
- Entries refused while being indexed, after their line was decoded: a line is taken or refused as a whole.
- The path order of recovered Moderators: they are listed in file order.
- Obligation stacks, operation reviews, incident handling beyond the demand filter, and all presentation.
