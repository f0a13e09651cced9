# Control plane of a Kubernetes fleet: protocols and what they keep

The Inari server rolls versions out to clusters in stages, mirrors what agents report, decides who may do what, and
relays its own events. This project models the parts of it that are protocols, and states what each of them keeps over
every run. Written in Dafny 4.11; `dfyconfig.toml` lists the files.

## The parts

- **Staged rollouts** (`stages`, `clustersets`, `commandids`, `queue`, `command_dispatch`, `rollout_*`). A rollout is a stored row, target
  rows per stage, a command queue, approvals, a fleet and a clock. Each operation is a list of single-transaction
  writes, so a crash is a prefix of the list; `rollout_model` has the operations and the runs, in which starting,
  stopping, resuming, advancing, rolling back, approval decisions and their redeliveries, agent answers, fleet changes
  and time interleave in any order. `rollout_service` is the service as the source has it, updating its rows in place,
  with every method tied to those writes and every sequence of calls a run; `rollout_effects` and `rollout_outcomes` tell the
  outcome of an advance step as stored state, and `rollout_stream` ties the steps of a run to what an agent's stream does.
- **Capability sync** (`capabilities`, `session`, `session_trust`, `session_registry`). A table of soft-deleted rows, a session
  with the keep set of a framed sync, checksums, sequence numbers; what a stored checksum is worth; and the registry that fences duplicate streams.
- **Decision cache** (`memory_cache`, `decision_cache`, `decision_hits`). The bounded in-process cache, and generation-stamped decisions
  under interleaved stepwise checks, writes and bumps.
- **Outbox** (`outbox`, `relay`, `relay_progress`, `dispatcher`). Rows, a deduplicating stream, any number of relays that crash; then the
  delivery of one message to one handler.
- **Authorization tuples** (`permissions`, `tuples`, `tuple_writer`, `org_directory`, `tenant_facts`, `fga_store`,
  `reconcilers`, `org_role_sync`). Tuples kept up to date event by event and by reconcilers, against the same set worked out from
  scratch.
- **Approvals, drift, versions** (`approvals`, `drift`, `versions`, `version_order`).

## What the code does that its documentation does not say

Where lemmas are named they give the exact condition, a concrete case, or both.

- Rollout commands are queued as a plain JSON object, while the queue documents, and the stream reads, the JSON of an
  Any with its type. So the stream skips every rollout command: none is ever sent, and with agents that answer only
  what they were sent no rollout leaves its first stage. What is proved about completion assumes payloads written with their type.
  `RolloutCommandsAreNeverSent`, `RolloutCommandIsNeverSent`, `ResponsiveRolloutCompletes`. Fifty of them stop the queue of their
  cluster. `RolloutCommandsHoldUpACluster`.
- Starting is documented for pending rollouts, but the transition table lets a parked, paused or failed rollout start
  again from stage 0 with its gate dropped; then a before gate can be skipped, unless it is a wait that runs out on the
  way back. The order of stages survives. `StartExactly`, `RestartSkipsGate`, `StagesAreTakenInOrder`.
- Seeding a stage is one write per member, and entering its before gate another; the next advance takes a stage with any
  rows as seeded. A crash inside seeding, in a gated stage or an ungated one, leaves the members not yet seeded out for
  good, and the rollout can complete without them. `StepSeedsExactly`, `CompletedReachesAllExactly`,
  `CutSeedingLosesMembers`. A crash from the first row up to the gate loses the gate. `AdvancePrefix`,
  `TornSeedingSkipsGate`.
- The decision of an orphaned approval (made for a gate that moved on before it was linked) is documented to do nothing.
  It acts whenever a gate of its stage is open: a rejection whatever the side, an approval if the side is the same.
  `DecisionActsExactly`, `RejectionIgnoresTheSide`, `LeftoverRequestFailsTheRollout`, `OrphanedApprovalClearsTheGate`.
- Resuming is documented for paused rollouts; the table of moves also lets it start a pending rollout and send a failed
  one on in its stage, without going back to the first. `ResumesExactly`.
- A second rollback to another version after an interrupted one does not replace the commands already queued. `RollbackOf`.
- A selector `{k: ""}` is met by clusters without the label k. `SubsetMatchExactly`.
- A decision-cache key is ambiguous when user, relation or object holds `|`; and when a cache full of live entries throws
  the generation counter out, stale decisions come back until they expire. `KeyIsOwnExactly`, `LiveEntrySafeExactly`,
  `EvictedCounterServesStale`.
- A handler's dead letter written to a row whose relay has not committed is erased by the relay's next success.
  `UnmarkedRowLosesItsDeadLetter`, `WrittenBackErrorStaysExactly`.
- A queued command whose payload cannot be read is skipped but stays due; fifty of them stop a cluster's queue, and
  fewer do not. `SentExactlyUnlessHeldUp`.
- The creation of a team without permissions is passed to the tuple store as an empty request, which a strict server
  refuses each time. `EmptyTeamsFailExactly`.
- A sync dropped half-way is documented to be taken up at the next handshake. It is not when nothing was stored yet, nor
  when a resync answer, or an incremental update ahead of the first chunk, has committed the agent's checksum before
  the sync was through. `TrustKeptExactly`, `DroppedSyncIsAskedFor`, `AbandonedSyncAskedForExactly`,
  `AnsweredSyncIsNotAskedFor`.
- Catalog item object names are not collision-free. `CatalogItemsCollideExactly`.
- A request with an action is decided under the lifecycle rule, not under its item's policy; the platform-admin policy
  does not stop an operator from deciding their own request. `SelfApprovalExactly`.
- Two diverged instances of one resource with different states make every drift sweep open an event anew, for as long as
  the states differ. `SweepShowsTheDivergences`, `SecondSweepIsIdleExactly`, `ContradictionReopensForEver`.
- A number of a version that does not fit into 64 bits counts as zero. `WrittenIsRead`.
- An empty version text resets the search for the latest one. `LatestIsHighestExactly`.

## Model

| member | source | states |
|---|---|---|
| `Stages.AcceptedForEveryTotal` | internal/fleetmanager/rollout.go:54-81 | a concurrency accepted with total 100 is accepted for every positive total, and only then; the result lies in 1..total |
| `Stages.PercentIsCeiling` | internal/fleetmanager/rollout.go:64-73 | a percentage gives the least number of clusters that makes up that share |
| `Stages.CountIsClamped` | internal/fleetmanager/rollout.go:54-81 | a plain number asks for that many clusters, or for all where there are fewer; zero and numbers beyond 64 bits are refused |
| `Stages.PercentageIsRoundedUp` | internal/fleetmanager/rollout.go:54-81 | a percentage written out asks for the least number that makes up the share; outside 1 to 100 it is refused |
| `Stages.ValidateStages` | internal/fleetmanager/rollout.go:102-127 | accepts exactly the non-empty lists of well-formed stages and otherwise names the first ill-formed one |
| `ClusterSets.MatchesSelector` | internal/fleetmanager/clustersets.go:147-154 | the loop decides whether every selector pair is met |
| `ClusterSets.MatchesBoth` | internal/fleetmanager/clustersets.go:144-154 | selectors that agree on shared keys compose: meeting the merge is meeting both |
| `ClusterSets.SubsetMatchExactly` | internal/fleetmanager/clustersets.go:144-154 | matching is subset matching exactly when no selector asks for an empty value of a missing label |
| `ClusterSets.ResolveClusters` | internal/fleetmanager/clustersets.go:157-169 | the loop keeps the matching clusters in order |
| `ClusterSets.ResolveExactly` | internal/fleetmanager/clustersets.go:157-169 | a cluster is resolved if and only if it is listed and matches |
| `ClusterSets.ComputeStageMembers` | internal/fleetmanager/rollout.go:376-392 | the nested loops compute the members of a stage, or fail at the first missing set |
| `ClusterSets.MembersAreTheUnion` | internal/fleetmanager/rollout.go:374-392 | the members are the union of the sets, nothing else |
| `ClusterSets.MembersAreDistinct` | internal/fleetmanager/rollout.go:374-392 | no cluster appears twice, even where sets overlap |
| `CommandIds.CommandIdsAreInjective` | internal/fleetmanager/rollout.go:351-373 | within a rollout, a command id determines stage, cluster and kind, whatever characters a cluster id holds |
| `CommandIds.CommandIdsSpelledOut` | internal/fleetmanager/rollout.go:364-373 | the text of a command id |
| `CommandIds.DesiredStateIsReadableExactly` | internal/fleetmanager/rollout.go:354-362 | a rollout payload can be read back by the stream exactly if it is written with its type, which the service does not do; and it determines the version asked for |
| `CommandQueue.Queue.Enqueue` | internal/agentgateway/queue.go:33-43 | a new id gets a pending row with what was given; one that is there already is left as it is |
| `CommandQueue.Queue.MarkDelivered` | internal/agentgateway/queue.go:77-83 | only an open command becomes delivered, and its attempts go up by one |
| `CommandQueue.Queue.Complete` | internal/agentgateway/queue.go:110-117 | only a terminal status is taken; the command then has that status and message, and no other row moves |
| `CommandQueue.Queue.CompletePendingByType` | internal/agentgateway/queue.go:88-94 | acknowledges exactly the open commands of that cluster and type |
| `CommandQueue.FirstEnqueueWins` | internal/agentgateway/queue.go:33-117 | over any calls, a row keeps the cluster, type, payload and creation time of its first enqueue |
| `CommandQueue.AnsweredForGood` | internal/agentgateway/queue.go:48-117 | a closed command is never due and never delivered again |
| `CommandQueue.OpenUntilAnswered` | internal/agentgateway/queue.go:48-117 | a command is open after a run if and only if nothing in the run answered it or its type, and then it falls due again |
| `CommandDispatch.Dispatcher.DispatchDue` | internal/agentgateway/stream.go:368-396 | one pass over the due commands: those whose payload is not an Any the stream can read are passed over, the first failed send ends it, every send is recorded |
| `CommandDispatch.Dispatcher.HandleAck` | internal/agentgateway/stream.go:239-264 | the queued command an acknowledgement means, bare or prefixed, is completed |
| `CommandDispatch.PassRecordsWhatItSends` | internal/agentgateway/stream.go:368-396 | a pass marks exactly what it sent and leaves every other row alone |
| `CommandDispatch.SentInOrder` | internal/agentgateway/stream.go:368-396 | a pass sends the readable commands of its list in order, up to the first the stream does not take |
| `CommandDispatch.PassDrains` | internal/agentgateway/queue.go:45-75 | with readable commands and the stream up, a pass takes its whole list off the due commands and nothing else |
| `CommandDispatch.ListedUnlessOutnumbered` | internal/agentgateway/queue.go:48-58 | only fifty commands at least as old can keep a due command out of a pass |
| `CommandDispatch.UnreadableCommandsHoldUp` | internal/agentgateway/stream.go:374-380 | fifty older ones that cannot be read keep it out for good |
| `CommandDispatch.SentExactlyUnlessHeldUp` | internal/agentgateway/stream.go:368-396 | in undisturbed passes within a retry window, as many as there are older readable commands and one more, a due readable command of its own age is sent if and only if fewer than fifty older unreadable ones are pending |
| `CommandDispatch.RolloutCommandIsNeverSent` | internal/agentgateway/stream.go:374-380 | whatever passes over a queue and calls on it there are, no command with a payload as rollouts write it is ever sent |
| `CommandDispatch.RolloutCommandsHoldUpACluster` | internal/agentgateway/stream.go:368-380 | so fifty unanswered rollout commands queued for one cluster keep every younger command of it, readable ones included, from being sent, over any passes and calls that do not answer those |
| `CommandDispatch.AckRetiresExactly` | internal/agentgateway/stream.go:246-261 | an acknowledgement gives one command the answer's status and message, the bare id before the first prefix that fits, or changes nothing |
| `RolloutService.Service.constructor` | internal/fleetmanager/rollout.go:132-178 | a rollout starts pending, at stage 0, without rows |
| `RolloutService.Service.SetRolloutState` | internal/fleetmanager/store.go:102-121 | the update takes effect if and only if the stored state is the expected one |
| `RolloutService.Service.Transition` | internal/fleetmanager/rollout.go:206-240 | a move happens exactly along the transition table |
| `RolloutService.Service.StartRollout` | internal/fleetmanager/rollout.go:242-259 | refused while running, completed or rolled back; otherwise from stage 0 without a gate, as many advance steps as it takes to park |
| `RolloutService.Service.StopRollout` | internal/fleetmanager/rollout.go:262-274 | a running or gated rollout becomes paused and is otherwise as it was; any other is left alone |
| `RolloutService.Service.ResumeRollout` | internal/fleetmanager/rollout.go:277-299 | a rollout with an open gate resumes into it, any other on with its stage, and then advances; from which states |
| `RolloutService.Service.ClearGate` | internal/fleetmanager/rollout.go:301-311 | a before gate leads back into its stage, an after gate on to the next |
| `RolloutService.Service.GateApproved` | internal/fleetmanager/rollout.go:313-329 | only the open gate of that stage and side is cleared |
| `RolloutService.Service.GateRejected` | internal/fleetmanager/rollout.go:332-349 | a rejection fails a rollout parked on that stage |
| `RolloutService.Service.Handle` | internal/fleetmanager/resume.go:43-65 | a decided approval becomes one gate move |
| `RolloutService.Service.RequestGateApproval` | internal/fleetmanager/rollout.go:408-441 | one request, linked to the gate it was made for; otherwise nothing |
| `RolloutService.Service.EnterGate` | internal/fleetmanager/rollout.go:394-406 | parks on the gate and asks for approval where the gate is one |
| `RolloutService.Service.DeliverBatch` | internal/fleetmanager/rollout.go:615-648 | up to the given number of pending rows get their command and become delivered |
| `RolloutService.Service.SeedStage` | internal/fleetmanager/rollout.go:508-516 | every member gets a pending row |
| `RolloutService.Service.ReconcileStage` | internal/fleetmanager/rollout.go:527-569 | answers are taken into the rows; the three counts are those of the rows afterwards |
| `RolloutEffects.SeedEffect` | internal/fleetmanager/rollout.go:508-516 | seeding an empty stage leaves exactly its members, pending, and touches nothing else |
| `RolloutEffects.ReconcileEffect` | internal/fleetmanager/rollout.go:527-569 | reconciling settles each row of the stage and touches nothing else |
| `RolloutEffects.AdvanceDoesExactly` | internal/fleetmanager/rollout.go:460-588 | the outcome of a whole advance step in every state, as stored rows, commands, gate and requests: what is told of it is met by what the step does and by nothing else |
| `RolloutEffects.MovesOnExactly` | internal/fleetmanager/rollout.go:570-588 | a step moves on exactly if the stage has nothing left to wait for and no after gate |
| `RolloutOutcomes.GateOutcome` | internal/fleetmanager/rollout.go:467-480 | at a gate: a missing request is made and linked, a wait that is over is left on the right side, nothing else happens |
| `RolloutOutcomes.EndOutcome` | internal/fleetmanager/rollout.go:477-487 | what is not under way is not moved; beyond its last stage a rollout is completed |
| `RolloutOutcomes.EmptyStageOutcome` | internal/fleetmanager/rollout.go:500-507 | a stage without members fails the rollout, one with a missing set keeps it |
| `RolloutOutcomes.GatedEntryOutcome` | internal/fleetmanager/rollout.go:508-519 | into a gated stage: all members pending, nothing sent, the gate open from now on, with a request if it is an approval |
| `RolloutOutcomes.OpenEntryOutcome` | internal/fleetmanager/rollout.go:508-525 | into an ungated stage: the first members, as many as the concurrency allows, are delivered under commands for the desired version, the others pending |
| `RolloutOutcomes.RefusedOutcome` | internal/fleetmanager/rollout.go:527-574 | one refused target fails the rollout where it is, and no command is added |
| `RolloutOutcomes.DoneOutcome` | internal/fleetmanager/rollout.go:578-588 | with every target done: the after gate opens from now on, with a request if it is an approval, or the next stage is reached |
| `RolloutOutcomes.TopUpOutcome` | internal/fleetmanager/rollout.go:570-577 | otherwise exactly as many more are delivered, from the first pending one on, as fill the concurrency or are left |
| `RolloutService.Service.EnterStage` | internal/fleetmanager/rollout.go:500-525 | members are seeded before the gate is entered or the first batch goes out; no members fails the rollout |
| `RolloutService.Service.AfterReconcile` | internal/fleetmanager/rollout.go:570-588 | fail, top up, park on the after gate or move on, by the counts |
| `RolloutService.Service.DriveStage` | internal/fleetmanager/rollout.go:527-588 | a seeded stage: reconcile, then decide |
| `RolloutService.Service.AdvanceOnce` | internal/fleetmanager/rollout.go:460-588 | one step has that outcome; says whether it moved on to the next stage, and whether it could be carried out |
| `RolloutService.Service.Advance` | internal/fleetmanager/rollout.go:443-458 | at most 64 steps, ending with the first that parks |
| `RolloutService.AdvanceStopsExactly` | internal/fleetmanager/rollout.go:443-458 | a call takes whole steps, all but the last moving on, and the last not unless it was the last allowed |
| `RolloutService.Service.RollbackStages` | internal/fleetmanager/rollout.go:676-691 | rollback commands for all members, last stage first, up to a missing set |
| `RolloutService.Service.Rollback` | internal/fleetmanager/rollout.go:657-702 | ends rolled back exactly if it is allowed and every cluster set exists; then every member of every stage has a rollback command; nothing but rollback commands is added |
| `RolloutService.CallsAreARun` | internal/fleetmanager/rollout.go:242-702 | any sequence of service calls, with steps of agents, approvers, fleet and clock in between, is a run of the model, and one that keeps the before gates exactly if every start in it fits |
| `RolloutService.ServiceKeepsItsOrder` | internal/fleetmanager/rollout.go:242-702 | so of a created rollout after any calls: stages in order, completed means acknowledged, and with fitting starts no before gate skipped |
| `RolloutMoves.StartsExactly` | internal/fleetmanager/rollout.go:29-49 | from which states a start begins again at the first stage, with no gate open, and that nothing else changes |
| `RolloutMoves.StopsExactly` | internal/fleetmanager/rollout.go:262-274 | a stop pauses a running or gated rollout where it is, and no other |
| `RolloutMoves.ResumesExactly` | internal/fleetmanager/rollout.go:277-299 | a resume goes back into the open gate or on with the stage; the table lets it do so from more states than the paused one |
| `RolloutMoves.LinksExactly` | internal/fleetmanager/store.go:122-140 | a request is linked exactly if the rollout still waits at that gate of that stage without one; otherwise it is an orphan and nothing happens |
| `RolloutMoves.PauseChangesNothing` | internal/fleetmanager/rollout.go:262-299 | in every run, stopping what is under way and resuming it at once leaves it exactly as it was |
| `RolloutMoves.StopHolds` | internal/fleetmanager/rollout.go:262-274 | after a stop, until somebody starts, resumes, rolls back or delivers a decision, the rollout stays paused where it is, no row moves and no command is added, whatever else happens |
| `RolloutMoves.RollsBackExactly` | internal/fleetmanager/rollout.go:657-702 | when a rollback is refused, what it adds, down to which stage when a set is missing, and how it ends |
| `RolloutStream.EventIsAStep` | internal/agentgateway/stream.go:205-298 | seen from a rollout, every event of a stream is at most one answer to one of its commands |
| `RolloutStream.PassIsSends` | internal/agentgateway/stream.go:368-396 | and every pass over the queue a run of sends of its commands |
| `RolloutStream.StreamAnswerDecidesTarget` | internal/fleetmanager/rollout.go:527-574 | an agent's answer under a command's id makes its delivered target healthy at the next advance, or, refused, makes it and the rollout fail |
| `RolloutRuns.StepKeepsExactly` | internal/fleetmanager/rollout.go:206-702 | one step of any actor always keeps the order of stages, and keeps the before gates if and only if it is not a misfit start or an advance torn inside seeding |
| `RolloutRuns.StartExactly` | internal/fleetmanager/rollout.go:242-259 | starting keeps the before gates exactly if it drops no unmet one, or one whose wait runs out before the stages below have been gone through again |
| `RolloutRuns.AdvancePrefix` | internal/fleetmanager/rollout.go:460-588 | a crash after any number of writes of an advance step never disturbs the order of stages, and loses a before gate exactly between seeding and entering it |
| `RolloutRuns.GatesAreNeverSkipped` | internal/fleetmanager/rollout.go:277-349 | in every state of every run with fitting starts and no torn seeding, an apply command exists only beyond a before gate that was waited out or approved for that stage and side |
| `RolloutRuns.StagesAreTakenInOrder` | internal/fleetmanager/rollout.go:462-613 | in every run, restarts and crashes included: stages before the current one have rows, all of them acknowledged, and their after gates were met; no stage has an apply command before all below it are acknowledged |
| `RolloutRuns.CompletedMeansAcknowledged` | internal/fleetmanager/rollout.go:484-588 | in every run, a completed rollout has had every target of every stage acknowledged |
| `RolloutLimits.AdvanceWithinBound` | internal/fleetmanager/rollout.go:520-577 | an advance, cut short or not, never raises the number in flight of any stage above what it was or the bound of the membership it saw |
| `RolloutLimits.OtherStepsTouchNoRows` | internal/fleetmanager/rollout.go:206-702 | no other step puts a cluster in flight |
| `RolloutLimits.InFlightIsBounded` | internal/fleetmanager/rollout.go:520-648 | with fixed membership, in every run, the number in flight never exceeds the parsed concurrency of its stage, and only one stage has any |
| `RolloutLimits.NoCommandIsAhead` | internal/fleetmanager/rollout.go:590-613 | no apply command is ahead of the current stage in a run whose starts find no rows beyond the first stage |
| `RolloutLimits.FailedTargetFreezesStage` | internal/fleetmanager/rollout.go:527-574 | in every run a failed target stays failed, no stage beyond its own gets a command and the rollout never completes, also after restarts; without one it does not leave the stage |
| `RolloutLimits.RejectedGateStaysShut` | internal/fleetmanager/rollout.go:332-349 | a rollout failed on a gate moves only by an explicit new start or to rolled back |
| `RolloutLimits.RolledBackForGood` | internal/fleetmanager/rollout.go:29-49 | rolled back is final |
| `RolloutProgress.RolloutCommandsAreNeverSent` | internal/fleetmanager/rollout.go:351-373 | as the service writes its commands none is sent in any run; with agents that answer only what they were sent, nothing is acknowledged and the first stage is never left |
| `RolloutProgress.SweepProgress` | internal/fleetmanager/rollout.go:446-588 | with typed payloads and ungated stages: once what is in flight is sent and acknowledged, an advance step completes the rollout or strictly lowers the measure |
| `RolloutProgress.ResponsiveRolloutCompletes` | internal/fleetmanager/rollout.go:446-716 | so with typed payloads a started rollout is completed by every schedule of agents that acknowledge what they were sent: sends, acknowledgements and time in any order, advances at any time and cut short, once there were as many whole advances with everything in flight answered as the measure of the fresh rollout says |
| `RolloutProgress.ResponsiveScheduleExists` | internal/fleetmanager/rollout.go:446-716 | and there is such a schedule: sweep after sweep, no more than the measure |
| `RolloutCompletion.EveryRolloutCanComplete` | internal/fleetmanager/rollout.go:394-588 | with gates of either kind on either side of any stage, approvers that approve, agents that acknowledge what they were sent, and time bring every rollout to its end |
| `RolloutUndo.RollbackReachesEveryCluster` | internal/fleetmanager/rollout.go:657-702 | after any run with unchanged membership, every cluster that an apply command was queued for has a rollback command of its own afterwards |
| `RolloutUndo.RollbackOf` | internal/fleetmanager/rollout.go:657-702 | a rollback command carries the version asked for exactly if an earlier, interrupted rollback had not already queued another |
| `RolloutUndo.RollbackOkExactly` | internal/fleetmanager/rollout.go:676-691 | the rollback gets through exactly if every cluster set exists |
| `RolloutUndo.RestartSkipsGate` | internal/fleetmanager/rollout.go:242-259 | every start that does not fit, of a parked, paused or failed rollout at any stage, is followed by a run that delivers past the unmet gate |
| `RolloutUndo.TornSeedingSkipsGate` | internal/fleetmanager/rollout.go:508-519 | a crash between seeding and the gate, from the first row on, loses the gate: the next advance delivers past it |
| `RolloutSeeding.RowsKeepTheirClusters` | internal/fleetmanager/rollout.go:500-516 | once a stage has rows, no step of any actor, fleet changes included, gives a cluster a row of it or takes one away |
| `RolloutSeeding.StepSeedsExactly` | internal/fleetmanager/rollout.go:500-525 | with fixed membership a step keeps every stage that has rows wholly seeded if and only if it is not an advance cut inside seeding, after the first row and before the last, gated or not |
| `RolloutSeeding.CompletedReachesAllExactly` | internal/fleetmanager/rollout.go:484-588 | with fixed membership, a completed rollout has had every member of every stage acknowledged if and only if no step of its run cut a seeding short |
| `RolloutSeeding.CutSeedingLosesMembers` | internal/fleetmanager/rollout.go:508-516 | a cut seeding leaves rows for exactly the members it got to, with the before gates still kept exactly if the stage has none, and in no later run does a lost member get a row or an apply command of the stage |
| `RolloutUndo.DecisionActsExactly` | internal/fleetmanager/resume.go:43-65 | a delivered decision changes the rollout if and only if it is parked with a gate open in the stage of the request, and the request was rejected or was approved for the side that is open; and what it then becomes |
| `RolloutUndo.RejectionIgnoresTheSide` | internal/fleetmanager/rollout.go:332-349 | so rejecting a still pending request of the other gate of the stage fails a rollout parked on this one |
| `RolloutExamples.LeftoverRequestFailsTheRollout` | internal/fleetmanager/rollout.go:408-441 | a run from creation that gets there: a before-gate request left unlinked by a crash, a second one approved, the stage delivered and acknowledged, the after gate open; rejecting the first fails the rollout |
| `RolloutUndo.OrphanedApprovalClearsTheGate` | internal/fleetmanager/rollout.go:408-441 | a request made but not linked, then a second one made and linked: approving the first clears the gate while the second is undecided |
| `RolloutExamples.RestartingTheExampleSkipsItsGate` | internal/fleetmanager/rollout.go:29-49 | a concrete rollout and run after which a gated stage has its command without approval |
| `Capabilities.MapCapabilityUpdate` | internal/agentgateway/mapping.go:126-149 | the loop maps what is known, in order, and drops unknown kinds |
| `Capabilities.MappingKeepsWhatIsSaid` | internal/agentgateway/mapping.go:35-52 | an item deletes exactly if the wire says so, is about what the wire names, and adopts or ignores exactly if told to |
| `Capabilities.WireRoundTrip` | internal/agentgateway/mapping.go:13-52 | items written to the wire are read back as they were, in order |
| `Capabilities.ApplyingReplays` | internal/capabilities/capabilities.go:226-247 | applying items to rows is replaying them over what is live; rows never leave the table |
| `Capabilities.RestrictReplay` | internal/agentgateway/stream.go:172-181 | replaying and looking at what a sync has touched commute |
| `Capabilities.Store.ApplyAll` | internal/capabilities/capabilities.go:226-247 | the counts are upserts, and deletes of something live |
| `Capabilities.CountsAreOfItems` | internal/capabilities/capabilities.go:228-248 | the counts are the number of items that upsert, and of those that delete something live at that point |
| `Capabilities.Store.SoftDeleteMissing` | internal/capabilities/capabilities.go:52-90 | exactly the live rows outside the keep set go, and are counted |
| `Capabilities.Store.Ingest` | internal/capabilities/capabilities.go:133-168 | items, checksum and record of one incremental update |
| `Capabilities.Store.IngestChunk` | internal/capabilities/capabilities.go:170-186 | a chunk deletes nothing by absence and commits no checksum |
| `Capabilities.Store.FinalizeSync` | internal/capabilities/capabilities.go:188-224 | delete-missing, checksum and record of a finished sync |
| `AgentSession.Session.UnionKeep` | internal/agentgateway/stream.go:172-181 | the keep set grows by the keys of upserted items |
| `AgentSession.Session.HandleCapabilityUpdate` | internal/agentgateway/stream.go:98-170 | one update, incremental, chunk or terminal, and the record it leaves |
| `AgentSession.Session.HandleEvent` | internal/agentgateway/stream.go:205-348 | sequence check, update, command answer, resync answer and handshake, with the replies sent; an answered command is refused or acknowledged as the agent said |
| `AgentSession.AnswersRetire` | internal/agentgateway/stream.go:239-298 | a command answer gives its command the status the agent gave, with the message; a resync answer acknowledges the open resync requests of its cluster; no other command moves, and no other event moves any |
| `AgentSession.RepliesSpelledOut` | internal/agentgateway/stream.go:205-346 | which replies an event has: a gap with both numbers, the handshake answer with its demand, the resync request |
| `AgentSession.SessionRefinesReplica` | internal/agentgateway/stream.go:98-181 | upserting at once with deferred deletes refines building a second copy from scratch and swapping it in, over every series of updates from any table |
| `AgentSession.FramedSyncIsAReplay` | internal/agentgateway/stream.go:98-181 | after the terminal chunk what is live is the replay of all chunk and interleaved items over the empty set |
| `AgentSession.AbandonedSyncLosesNothing` | internal/agentgateway/stream.go:76-81 | without a terminal chunk only explicit delete items took anything away |
| `AgentSession.UnknownChunkIsNotTerminal` | internal/agentgateway/stream.go:142-156 | a chunk of unknown kinds only is not the end of a sync |
| `AgentSession.CachedIsStored` | internal/agentgateway/stream.go:110-170 | cached and stored checksum agree along any session |
| `AgentSession.ChecksumChangesOnlyByCommit` | internal/agentgateway/stream.go:112-137 | which events commit a checksum, and that an interleaved incremental never does |
| `AgentSession.SyncEstablishesAgreement` | internal/agentgateway/stream.go:98-170 | an undisturbed full sync makes what is live the visible part of the agent's state, under the agent's checksum |
| `AgentSession.UpdatesKeepAgreement` | internal/agentgateway/stream.go:110-137 | every later incremental update keeps that agreement |
| `AgentSession.HandshakeAsksWhenStale` | internal/agentgateway/stream.go:326-346 | an agent in agreement is asked to resync exactly if its checksum has changed |
| `SessionTrust.TrustKeptExactly` | internal/agentgateway/stream.go:85-298 | the stored checksum is the agent's only if what is live is what the agent has: every event of an honest agent keeps that, except exactly a resync answer or incremental update that leaves the agent's checksum stored while the server differs where the event says nothing |
| `SessionTrust.DroppedSyncIsAskedFor` | internal/capabilities/capabilities.go:169-174 | so after any run without such an event, wherever the stream drops: if the server differs from the agent and a checksum is stored, the next handshake asks for a resync |
| `SessionTrust.AbandonedSyncAskedForExactly` | internal/agentgateway/stream.go:93-97 | an abandoned sync is asked for again if and only if the checksum of the last resync answer in it, or the stored one without any, is there and is not the agent's |
| `SessionTrust.AnsweredSyncIsNotAskedFor` | internal/agentgateway/stream.go:278-289 | answered with the checksum, then chunks, then dropped: a capability the agent no longer has stays live and the next handshake does not ask |
| `AgentSession.OneGapRequestAtATime` | internal/agentgateway/stream.go:205-215 | at most one gap request is outstanding |
| `AgentSession.GapsAreReportedExactly` | internal/agentgateway/stream.go:205-215 | between answers a gap is reported if and only if there is one |
| `SessionRegistry.Registry.RegisterSession` | internal/agentgateway/session_registry.go:20-37 | the new session becomes the current one and the old one is evicted |
| `SessionRegistry.Registry.UnregisterSession` | internal/agentgateway/session_registry.go:39-47 | only the current session can be removed |
| `SessionRegistry.LastStreamWins` | internal/agentgateway/session_registry.go:10-47 | a session is current if and only if no later stream of its cluster registered and it has not given itself up |
| `SessionRegistry.EvictedOnlyOnce` | internal/agentgateway/session_registry.go:27-36 | no session is evicted twice |
| `MemoryCache.Memory.Get` | internal/cache/memory.go:49-61 | a read gives the unexpired value and loses nothing that is live |
| `MemoryCache.Memory.Set` | internal/cache/memory.go:63-82 | the entry is there; sweeping and eviction only when the key is new and the cache full |
| `MemoryCache.SetThenGet` | internal/cache/memory.go:49-83 | a value set is read back until its time to live is over, and not after |
| `MemoryCache.Memory.Increment` | internal/cache/memory.go:91-105 | counts on from the unexpired value, wrapping at 64 bits, and fails on text that is no number |
| `MemoryCache.CountsUp` | internal/cache/memory.go:91-107 | so many increments of a missing key give that number, without an expiry, and touch no other key |
| `MemoryCache.CountWraps` | internal/cache/memory.go:91-107 | at the largest 64-bit number the count goes over to the smallest |
| `MemoryCache.Memory.SweepLocked` | internal/cache/memory.go:114-120 | exactly the expired entries go |
| `MemoryCache.SetEvictsOnlyWhenFull` | internal/cache/memory.go:63-82 | a live entry is lost exactly if the key is new and the cache is full of live entries, and then just enough are |
| `MemoryCache.SetIsEvictThenPut` | internal/cache/memory.go:63-82 | an insertion is an eviction of what is gone and a plain update |
| `MemoryCache.LiveEntrySafeExactly` | internal/cache/memory.go:63-82 | a live entry survives the insertion of another key, whatever is thrown out, exactly if the key is there or fewer entries, or fewer live ones, than the maximum are |
| `DecisionCache.CachedAuthorizer.Check` | internal/authz/cachepep.go:51-101 | one check: from the cache on a hit, from the store otherwise; a broken cache never fails it and an error is never cached; and what it leaves of the cache |
| `DecisionCache.CheckIsFourSteps` | internal/authz/cachepep.go:51-101 | such a check is the four steps of a call in the interleavings below, with the same answer and the same cache |
| `DecisionHits.SecondCheckHitsExactly` | internal/authz/cachepep.go:51-101 | a check that asked the store is answered again from the cache for exactly the time to live, as long as the generation read is the same |
| `DecisionHits.BumpMovesOn` | internal/authz/cachepep.go:147-172 | a bump moves every question to another key, so that what was cached under the old one is not found |
| `DecisionCache.InvalidatingStore.AfterChange` | internal/authz/cachepep.go:147-172 | the bump after a change is the step of the same name |
| `DecisionCache.KeyIsOwnExactly` | internal/authz/cachepep.go:47-49 | no other query shares a query's key if and only if the separator occurs in none of its three parts |
| `DecisionCache.AnswersAreFresh` | internal/authz/cachepep.go:22-101 | in every interleaving of stepwise checks, writes, bumps, outages and other users of the cache in which each insertion finds fewer live entries than the maximum, an answer is the store's at some version no older than at the last bump before the check began |
| `DecisionCache.BumpPutsTheFloorUnderTheWrite` | internal/authz/cachepep.go:149-172 | whatever happens between a write and a successful bump and after it, the last floor is from then on that write's version or a later one |
| `DecisionCache.BumpedWriteIsSeen` | internal/authz/cachepep.go:22-172 | so a check that begins at any time after a write and its bump, in any interleaving that keeps the counter, answers as the store did at that write or later |
| `DecisionCache.StalenessIsBounded` | internal/authz/cachepep.go:116-122 | whatever is evicted and however many bumps fail, an answer is at most the time to live and one store round trip old |
| `DecisionCache.EvictedCounterServesStale` | internal/cache/memory.go:67-75 | in a cache full of live entries another user's insertion may throw the counter out, and then a revoked decision is served after its bump |
| `Relay.Dispatcher.RelayOnce` | internal/audit/nats.go:231-320 | when the commit succeeds an acknowledged row is published without an error, any other polled one has its error, one attempt more, and is published exactly if that was the last; no other row moves; the stream has what arrived |
| `Relay.PolledExactly` | internal/audit/nats.go:232-250 | the oldest unpublished, unlocked rows, up to the batch size |
| `Relay.PassIsARun` | internal/audit/nats.go:225-320 | a pass is a run of the relay protocol |
| `RelayProgress.GoodPassesPublishAll` | internal/audit/nats.go:231-320 | while publishing succeeds and nobody interferes, as many passes as batches in the backlog publish every row |
| `RelayProgress.BacklogDrains` | internal/audit/nats.go:296-311 | whatever becomes of each publish, after as many passes as attempts are left every row is published, relayed or given up |
| `Outbox.NoEventIsLost` | internal/audit/nats.go:225-320 | every committed row is still to be relayed, or in the stream, or a dead letter with its error, in every interleaving of relays and crashes |
| `Outbox.PublishedForGood` | internal/audit/nats.go:232-311 | a published row stays published in every run, and no relay claims it again |
| `Outbox.OneCopyPerWindow` | internal/audit/nats.go:225-229 | the stream holds at most one copy of an event per deduplication window |
| `Outbox.WindowDecides` | internal/audit/nats.go:225-229 | a message that comes again is stored again exactly once the window has run out |
| `Outbox.RelaysNeverShareARow` | internal/audit/nats.go:232-236 | concurrent relays work on different rows |
| `Outbox.WrittenBackErrorStays` | internal/audit/nats.go:424-433 | the error a handler's dead letter leaves stays for good on a row already marked published |
| `Outbox.UnmarkedRowLosesItsDeadLetter` | internal/audit/nats.go:305-311 | on a row not yet marked, the next success of any free relay erases it |
| `Outbox.WrittenBackErrorStaysExactly` | internal/audit/nats.go:305-433 | the error stays in every run of relays, crashes and late messages if and only if the row was marked published when it was written back |
| `Dispatch.BackoffSchedule` | internal/audit/nats.go:60-74 | one delay per delivery: 1, 2, 5, 10, then 30 seconds |
| `Dispatch.RetryDelay` | internal/audit/nats.go:444-458 | the clamped entry for a delivery count |
| `Dispatch.DelaysNeverDecrease` | internal/audit/nats.go:444-458 | every delay is an entry of the schedule, and later deliveries never wait less |
| `Dispatch.RetryWaits` | internal/audit/nats.go:444-457 | the wait after each failing delivery by its number |
| `Dispatch.ComesAgainExactly` | internal/audit/nats.go:396-440 | which deliveries leave the message to come again, which count as a run and which make a dead letter |
| `Dispatch.Consumer.Deliver` | internal/audit/nats.go:391-442 | one disposition per delivery, and what it does to the message and the row |
| `Dispatch.FailingHandlerIsBounded` | internal/audit/nats.go:391-442 | an always failing handler runs exactly as often as the budget allows, and the event becomes a dead letter exactly if the last delivery could tell that it was the last |
| `Dispatch.SuccessIsFinal` | internal/audit/nats.go:410-416 | a success whose acknowledgement arrives is never run again |
| `Dispatch.BudgetHolds` | internal/audit/nats.go:419-440 | no message exceeds its budget or is dead-lettered twice |
| `Permissions.RelationsAreInjective` | internal/authz/permissions.go:120-127 | different permissions never share a relation |
| `Permissions.EffectiveTier` | internal/authz/permissions.go:140-155 | the loop finds the highest tier any permission contributes |
| `Permissions.FragmentTierExactly` | internal/authz/permissions.go:129-155 | a permission contributes its catalog entry's tier, a slug outside the catalog none |
| `Tuples.PermissionTuples` | internal/authz/tuplewriter.go:10-28 | one tuple per catalog permission; unknown slugs are skipped |
| `Tuples.MarkedIdsCollideExactly` | internal/authz/authz.go:361-377 | two ids name one object exactly if they are equal or differ by one type marker |
| `Tuples.CatalogItemsCollideExactly` | internal/authz/authz.go:387-392 | catalog item names coincide exactly for ids equal up to colons and slashes |
| `TupleWriter.Writer.Handle` | internal/authz/tuplewriter.go:71-346 | one delivery deletes and writes what the event asks for, and fails where it cannot be understood; what events ask for is told by the laws on membership, children and permissions |
| `TupleWriter.EmptyTeamsFailExactly` | internal/authz/tuplewriter.go:112-128 | on a server that refuses empty requests exactly the creation and deletion of a team without any catalog permission fail, however often retried |
| `TupleWriter.Writer.SeedTuples` | internal/authz/tuplewriter.go:348-363 | one tuple per permission of every seeded team |
| `TupleWriter.Writer.TuplesForTenantDeletion` | internal/authz/tenantdeletion.go:12-37 | the tuples of a snapshot, or an error exactly if it lists an object of an unknown type |
| `TupleWriter.RetriesConverge` | internal/authz/tuplewriter.go:71-346 | after failures, retries and repeats the store is as after one success |
| `TupleWriter.UnderstoodExactly` | internal/authz/tuplewriter.go:71-110 | an event cannot be understood exactly if it is malformed, or lists an object of an unknown type |
| `TupleWriter.RestoreUndoesDeletion` | internal/authz/tuplewriter.go:78-111 | delete then restore is the identity exactly if the store held the whole snapshot |
| `OrgDirectory.EventAsksForTheChange` | internal/authz/tuplewriter.go:288-346 | an accurate event replaces exactly the grants of the teams it affects |
| `OrgDirectory.IncrementalEqualsRecomputed` | internal/authz/tuplewriter.go:71-346 | over any run of changes with failures and immediate repeats, the permission tuples are those worked out from teams, roles and permissions; no other tuple changes |
| `OrgDirectory.LateRedeliveryDrifts` | internal/authz/tuplewriter.go:112-124 | a creation delivered again after the deletion leaves grants behind exactly if there were any |
| `TenantFacts.MembersAreShown` | internal/authz/tuplewriter.go:125-140 | over any run of events of all sorts, with failures and repeats, a user is a member of a team in the store if and only if the user is in the team by then |
| `TenantFacts.ChildrenAreShown` | internal/authz/tuplewriter.go:141-300 | likewise an object is a child of its organization or cluster if and only if it belongs to it by then, the holder being the user of the tuple |
| `TenantFacts.MembershipEffect` | internal/authz/tuplewriter.go:125-140 | the tuple that joining writes and leaving takes away, spelled out |
| `TenantFacts.ParentEffect` | internal/authz/tuplewriter.go:141-183 | the parent tuples of a cluster and of an instance, spelled out |
| `TenantFacts.FleetNamesSpelledOut` | internal/authz/authz.go:379-416 | the object names of fleet kinds for stored ids |
| `TenantFacts.TenantNamesSpelledOut` | internal/authz/authz.go:379-416 | likewise for packs, extensions, zones and organizations |
| `TenantFacts.KindsNeverCollide` | internal/authz/authz.go:379-416 | objects of different kinds never have one name |
| `TenantFacts.AllowedExactly` | internal/authz/tuplewriter.go:71-346 | end to end: after any run of team, role, mapping and membership changes, with failures and repeats, the store gives a user a permission if and only if the user is then in a team whose role then has it |
| `FgaStore.Store.WriteTuples` | internal/authz/authz.go:181-204 | batch, then one by one: success gives the union, failure something in between; on a strict server an empty or repeating list always fails |
| `FgaStore.Store.DeleteTuples` | internal/authz/authz.go:206-226 | likewise for the difference |
| `FgaStore.Store.ReadTuples` | internal/authz/authz.go:157-179 | all tuples of one object and relation |
| `Reconcilers.ReconcileMembers` | internal/authz/platformsync.go:47-85 | a clean pass makes the set exactly the desired one; any failure leaves it between; nothing else moves; a pass with nothing to do sends no change |
| `Reconcilers.BuildDesired` | internal/authz/rolesync.go:44-62 | the nested maps say who should hold what, and list exactly the organizations with some catalog permission |
| `Reconcilers.SweepLegacy` | internal/authz/rolesync.go:76-98 | only retired relations of that object lose tuples; on success none is left of those the server knows |
| `Reconcilers.ConvergeOrg` | internal/authz/rolesync.go:100-139 | every catalog relation of the object is made as wanted; failures leave each in between |
| `Reconcilers.LegacyIsRetired` | internal/authz/rolesync.go:20-23 | no retired relation is one of the catalog's |
| `OrgRoleSync.SyncOnce` | internal/authz/rolesync.go:35-74 | a pass over all organizations: nothing else touched; with one spelling per organization exact on success, in between on failure, idle when nothing is to be done |
| `OrgRoleSync.ConvergedMeansFollows` | internal/authz/rolesync.go:1-8 | what the reconciler converges to is the very set the events maintain |
| `OrgRoleSync.UnvisitedKeepsWhatItHad` | internal/authz/rolesync.go:44-62 | an organization without any catalog permission is left right exactly if it had no tuples |
| `Approvals.SameActorExactly` | internal/approvals/approvals.go:70-74 | two spellings are one actor exactly if they are equal or differ by one prefix |
| `Approvals.Service.Gate` | internal/approvals/approvals.go:262-293 | nothing waits under the auto policy; otherwise a request is filed with its expiry |
| `Approvals.Service.Authorize` | internal/approvals/lifecycle.go:29-66 | who may decide a request that has an action, and who one that has none |
| `Approvals.WhoMayDecide` | internal/approvals/lifecycle.go:29-66 | who is let through, exactly, and why the others are not |
| `Approvals.Service.Decide` | internal/approvals/approvals.go:412-474 | read, check and guarded update, with the refusal returned |
| `Approvals.DecisionSettlesExactly` | internal/approvals/approvals.go:412-474 | an undisturbed decision settles the request as decided, with one event naming who and why, exactly if it is pending there and the approver may; otherwise nothing changes |
| `Approvals.Service.Cancel` | internal/approvals/approvals.go:313-354 | only the requester withdraws, only while pending |
| `Approvals.CancelSettlesExactly` | internal/approvals/approvals.go:313-354 | likewise a withdrawal, by its requester |
| `Approvals.Service.ExpireSweep` | internal/approvals/approvals.go:356-391 | after a sweep no request is overdue |
| `Approvals.SweepExpiresExactly` | internal/approvals/approvals.go:356-391 | an undisturbed sweep expires exactly the pending requests whose time is up |
| `Approvals.EveryRequestIsSettledOnce` | internal/approvals/approvals.go:313-474 | under all interleavings a request has exactly one settlement event if it is settled, none if it is pending |
| `Approvals.SettlementsAreJustified` | internal/approvals/approvals.go:48-74 | no own decision under the peer policy or with an action, under either spelling; platform-admin decisions by someone who was an operator, action decisions by an operator or creator, when checked; no foreign cancel; no early expiry |
| `Approvals.SettledForGood` | internal/approvals/approvals.go:329-343 | a settled request never changes again |
| `Approvals.SelfApprovalExactly` | internal/approvals/approvals.go:48-68 | exactly when a requester can decide their own request |
| `Drift.Detector.ReportDrift` | internal/fleetmanager/drift.go:19-55 | an event is opened unless an identical one is open |
| `Drift.Detector.ResolveDrift` | internal/fleetmanager/drift.go:57-78 | an open event is closed once |
| `Drift.Detector.DriftSweep` | internal/fleetmanager/drift.go:123-171 | what is open after a sweep: what was open or diverges and still stands; the notices sent, one for each event opened and one for each closed, in order; nothing is opened exactly if all divergences were open; other kinds are untouched |
| `Drift.ClosedExactly` | internal/fleetmanager/drift.go:155-171 | which events a closing notice goes out for |
| `Drift.SweepShowsTheDivergences` | internal/fleetmanager/drift.go:123-171 | the open instance events are exactly the divergences if and only if no two of them contradict each other |
| `Drift.RefsDiffer` | internal/fleetmanager/drift.go:131-137 | as names hold no slashes, different resources have different references |
| `Drift.RefIsOwnExactly` | internal/fleetmanager/drift.go:131-137 | whatever names hold, a reference tells its resource exactly if there is no namespace in it and no slash in kind or name |
| `Drift.SecondSweepIsIdleExactly` | internal/fleetmanager/drift.go:123-171 | sweeping again opens and resolves nothing if and only if no two divergences contradict each other |
| `Drift.ContradictionReopensForEver` | internal/fleetmanager/drift.go:132-138 | every later sweep of a contradictory list has something to open again |
| `Drift.ContradictionIsNotShown` | internal/fleetmanager/drift.go:132-138 | two states of one resource: one of them is not shown |
| `Versions.SplitVersion` | internal/catalog/normalize.go:48-66 | prefix, pre-release and numeric parts, unreadable parts as zero |
| `Versions.CompareVersions` | internal/catalog/normalize.go:15-46 | the loop computes the order |
| `Versions.CompareAntisymmetric` | internal/catalog/normalize.go:15-46 | the order is antisymmetric and reflexive on all texts |
| `Versions.CompareTransitive` | internal/catalog/normalize.go:15-46 | the order is transitive on all texts, strictly where a step is strict |
| `VersionOrder.WrittenIsRead` | internal/catalog/normalize.go:48-66 | a version written as numbers, dots and a pre-release, marked or not, is read back so; numbers beyond 64 bits as zero |
| `VersionOrder.CompareIsTheOrder` | internal/catalog/normalize.go:15-46 | of written versions one is older exactly if at the first place where the zero-padded numbers differ its number is smaller, or with equal numbers it is a pre-release of the other or its pre-release comes first as a text |
| `VersionOrder.TheOrderOnExamples` | internal/catalog/normalize.go:28-46 | a pre-release is older than its release, and a larger number in any place makes a later version |
| `Versions.LatestInChannel` | internal/catalog/normalize.go:68-80 | the loop over a channel's versions |
| `Versions.LatestIsHighestExactly` | internal/catalog/normalize.go:68-80 | the result is a highest version exactly if the empty text is not listed, or is beaten, or comes last |
| `VersionOrder.LatestIsAfterNone` | internal/catalog/normalize.go:68-80 | the latest version of a channel is one of the channel that no other of the channel is after |
| `Versions.ListOrderDoesNotMatter` | internal/catalog/normalize.go:68-80 | lists of the same versions give results that compare as equal |
| `Versions.EmptyVersionHidesTheHighest` | internal/catalog/normalize.go:71-77 | a concrete list whose result is not the highest |

## Left out

Rollouts:

- Two calls at once. Every call reads the rollout before its guarded update, and the guard compares the state only. So two advance calls that read the same state can seed or deliver twice; and a stop, resume, rollback or gate decision that read the rollout before a move from running to running can write back the old stage and gate. Neither race is modelled: an operation reads and writes without another operation's writes in between.
- CallsAreARun: a call that is not cut short reads clock and fleet once; the model's runs let both change between the steps of a call, and cut calls short.
- The order in which target rows are listed: the source lists by cluster id, the model in the order of seeding, so which clusters go first is not captured.
- Overflow of total times percentage in 64 bits, which needs more than 2^56 clusters.
- EveryRolloutCanComplete: gives a run to the end; that every schedule gets there is stated for ungated stages only. Withdrawn and expired gate approvals move no rollout, so nothing is claimed about them.
- ResponsiveRolloutCompletes: covers ungated stages with fixed, non-empty membership, as a gate waits for a person or the clock, and payloads written with their type, as otherwise nothing is sent; SweepProgress likewise.
- CompletedReachesAllExactly: with membership that changes during the run, whom a stage should have reached depends on when one looks; RowsKeepTheirClusters covers that case.
- RestartSkipsGate: the stage has members at the time; without any, nothing is delivered to it.

Agents:

- DispatchDue: the list it is given is any that the queue's query may answer; a send whose recording fails is a send that comes again. Which message types the server knows is part of a payload here.
- TrustKeptExactly: chunks hold what the agent has when they arrive; a stale chunk is not covered, and changes an agent makes without reporting them are not steps.
- SentExactlyUnlessHeldUp: passes within one retry window; slower ones list unanswered commands again, before younger ones.
- What a refused command does to an instance, status updates, addon reports, heartbeats and pings; a failed transaction ends the session with the table as it was, which is the end of a run.
- Several sessions writing for one cluster at once: checksums are stated along one session at a time; the registry that keeps them apart is modelled by itself.
- Row timestamps, JSON bytes of schemas and hints, and the cancelling of contexts.

Decisions and events:

- AnswersAreFresh: counts fewer than 2^63 bumps, after which the counter wraps.
- Listing objects, which is not cached; metrics and sampled logs; the Redis backend, whose evictions and outages are the same steps.
- Outbox rows are numbered as they commit; the text of errors is kept only as being there or not being empty.
- FailingHandlerIsBounded: delivery by the stream is taken as its contract says: no more than the budget, one at a time per message.

Authorization:

- The OpenFGA model beyond a permission given to the members of a team, paging and request size limits. The event writer is stated for any outcome of its requests, so repetitions in the permissions of one event show there as a failing request.
- Permission names, descriptions, domains and the built-in role bundles.
- OrgTeamSync's projection of members into the database; its tuples go through ReconcileMembers.
- SyncOnce: exactness is stated for organizations with one spelling of their id each, since two spellings name one object with two sets of wishes.

Approvals, drift, versions:

- Errors of the role, item and database lookups, the audit records and the payload texts.
- Drift of other kinds than instances, and the listing of events.
- SweepShowsTheDivergences: cluster ids without `|` and states that are not empty, which is what the listings give.
- Versions compare by code point here and by byte in the source; for UTF-8 the two orders agree.

Everything else of the server: HTTP and configuration, Keycloak, Vault, cloud accounts, Git and OCI clients, catalog browsing, cluster registration, add-ons, feature flags, extensions, credentials and cryptography.
