# VoiceMesh, modelled and proved

VoiceMesh runs live voice calls and bills them. This project models its two hard halves, and the self-contained state
machines beside them, as Dafny programs, and proves what they keep over every run. `dafny verify dfyconfig.toml` checks
all of it.

**The live session.** A response is produced by three tasks (language model, speech, transport) that meet in two
flow-controlled queues, while the caller may interrupt at any moment.

- `Flow`, `FlowHistory`: a queue as a value and as a history of critical sections; `FlowControl` is the queue object
  itself, one method for each section, tied to the history; `Overshoot` adds many producers.
- `Responses`, `Session`, `SessionFloor`, `SessionMemory`: the fence that keeps obsolete responses silent, and, told by
  events alone, what it means for a response to be active, what is sent, and what the conversation remembers.
- `Pipeline`: the three tasks, the hard-limit callbacks and the outside world as one step relation, one step for each
  code segment between awaits. `PipelineSafety`, `PipelineDrain`, `PipelineContent`, `PipelineOrder`, `PipelineCalm` and
  `PipelinePolicy` prove that no interleaving deadlocks, that every schedule drains, that a response which keeps the
  floor is spoken in full and in order, that a cancelled one is silent, and what a hard limit does. `PipelinePhrases`
  determines how the tokens are cut into phrases, `PipelineFloor` who holds the floor, and `PipelineCancel` what a
  cancellation stops and flushes.
- `Turns`, `TurnDetector`, `TurnAudio`: turn detection as a statement about the whole frame history, and the detector
  and audio buffer that compute it frame by frame. `Resample` is the audio arithmetic.

**The ledger.** Events reach the ledger at least once, through workers that may crash anywhere.

- `LedgerTables`, `ExactlyOnce`, `LedgerSums`, `LedgerOutbox`: the tables, one projection transaction, and the laws of
  any sequence of transactions and of what they announce. `Projector` is the projector object with its loops,
  `CallLaws` what one call's rows depend on, and `EventKeys` which events the default idempotency keys tell apart.
- `Delivery`, `DeliverySafety`, `DeliveryLaws`, `DeliveryProgress`: logs, any number of workers of one consumer group,
  polls, transactions, lost replies, commits, crashes and rebalances as one step relation; exactly-once effect,
  watermark soundness, and exactly which record can stop a partition. `Consumer` is the consumer's own loop.
- `Readiness`, `ReadinessExpectations`, `BillOfTheLog`: what a manifest and a report of readiness guarantee, which usage
  a barrier makes the ledger expect, and the bill as a function of the log.
  `ReadinessCases` is a run in which readiness is reported too early.
- `Feedback`, `Outbox`: what the worker publishes in answer to what it reads.
- `Cents`, `FinalBilling`, `BillingCases`: rounding, component buckets, the final record and its adjustments, and the
  inputs on which they disagree with the ledger or with each other. `Finalization` joins log, readiness, workflow and
  record in one run.
- `ActionTrace`, `ActionRun`, `ActionCases`, `DurableAction`: what a durable action may do as an automaton, its run as a
  function of all that is answered, raised and signalled, two runs that are its hard cases, and the workflow object.
- `BillingWorkflow`, `ReadinessWatch`, `ClickHouse`: the finalization and retry loops against any sequence of replies and
  failures; `Waits` is what the loops that wait for signals have in common.

Objects the source updates in place are classes whose methods are proved equal to a specification function, and the
theorems are lemmas about those functions over all runs. Every lemma turns automatic induction off, so that each proof is
the one written.

## What the proofs found

- Frames are told apart by value, so a turn whose opening frame equals one before it in its run loses audio;
  `ForwardedIsTheTurnUnlessEchoed` says exactly when, `EqualFramesLoseAudio` gives an input.
- A manifest and the watermark of its partition are written in one transaction, so the readiness check's
  `projection_caught_up` is true whenever there is a manifest, and no call waits in `WAITING_FOR_PROJECTION`
  (`AlwaysCaughtUp`).
- The readiness query renames `audio_minute` without looking at the stage, unlike the projector, so audio minutes
  outside speech-to-text satisfy a requirement of speech-to-text seconds (`ReadyMeans` says exactly when,
  `SpeechPassesForTranscription` is a run).
- An event that measures one type twice leaves one row and adds both quantities to the rollup (`RepeatedTypesDrift`,
  `RepeatedTypeSplitsTheLedger`).
- Default idempotency keys of two calls collide when a turn's name has a colon in it (`ColonsCollide`), and only then.
- A record that the projection rejects stops its partition for good: one it cannot read, a usage record without a price,
  or a start event whose tenant or agent is not a stored identifier. No other record does
  (`FinishedIffAccepted`). The default tenant of a session is such a name (`DefaultTenantStopsThePartition`).
- Rewriting a final record does not update `telephony_cost_cents`, so its parts need not sum to its total
  (`RewrittenRecordSumsUp` says exactly when, `LateTelephonyIsInNoPart` is an input).
- Adjustments are each measured against the original final total, so two or more of them charge early late usage again
  (`LateUsageIsChargedAgain` says exactly when, `TwoLateCentsChargeThree` is an input).
- Finalization bills five cents a minute whatever rate the projector was configured with, and the time between start and
  end where no duration is recorded. `FinalAgreesWithTheLedger` says exactly on which ledgers that is the ledger's total:
  at five cents for a recorded duration (`AgreesIffFiveCents`), and never for a call without one that lasted some
  time, such as a failed call (`FailedCallIsBilled`).
- A cancel is sent exactly when it is on record as the create request returns or at the head of a poll round with run
  time left (`CancelIsSentIffSeenInTime`), so one that arrives in the wait of the last round is not sent, and the action
  is reported as timed out (`LateCancelTimesOut`).
- A terminal state becomes failed, or timed out, exactly when persisting or announcing it raises
  (`TerminalFailsIffItRaises`, `TerminalBecomesFailed`).
- Both workflow loops count a wait that a signal cut short in full. Their waits never last longer than their limit asks,
  rounded up to whole waits, but they can give up before it has passed: exactly when signals cut more than that rounding
  (`ActionRun.GivesUpEarlyIffCut`, `ReadinessWatch.GivesUpEarlyIffCut`), and signals can use up any limit without a wait
  (`PushesUseUpTheRunTime`, `UpdatesUseUpTheDeadline`).
- ClickHouse rows can be acknowledged twice exactly when a batch is larger than the writer's buffer (`RepeatsIffLarger`).
  The consumer takes its batch size and the buffer's from one setting (`apps/api/analytics/clickhouse/consumer.py:42-55`)
  and batches keep to that size (`BarriersDoNotWait`), so as deployed a failed attempt leaves no
  acknowledged row behind.
- Of the hard-limit policies only `cancel_response` does more than report: under `drop_oldest` and `fail_turn`, which the
  settings accept (`apps/api/config.py:142-147`), reaching a hard limit by itself drops and fails nothing
  (`ReportingStartsNoCallback`, `ReportingLosesNothing`, `HardLimitIsReached`).

## Model

| member | source | states |
|---|---|---|
| `Flow.AppendKeepsInv` | apps/api/pipeline/backpressure.py:122-141 | A put keeps depth equal to the queued weights, the item cap and the flag laws; it never uncorks, and is silent for a weightless item or on a closed queue. |
| `Flow.TakeKeepsInv` | apps/api/pipeline/backpressure.py:143-156 | A get keeps the same laws, its clamp of the depth at zero never changes anything, and the only notice it can give is an uncork. |
| `Flow.FlushKeepsInv` | apps/api/pipeline/backpressure.py:178-196 | A flush keeps the laws, never raises the depth, and the only notice it can give is an uncork. |
| `FlowHistory.RunKeepsInv` | apps/api/pipeline/backpressure.py:122-260 | After any sequence of put, get, flush, close and cancel sections the depth is the sum of the queued weights, the cap holds, and the flags agree with both watermarks and the hard limit. |
| `FlowHistory.FlagsAreTheDepthHistory` | apps/api/pipeline/backpressure.py:206-260 | The hysteresis law, both ways: corked exactly when the observed depth reached the high watermark and has stayed above the low one since; hard limited likewise for the hard limit. |
| `FlowHistory.SignalsFollowTheRounds` | apps/api/pipeline/backpressure.py:206-260 | The notices of any run are a prefix of rounds (cork, then perhaps hard, or hard alone; then uncork), and one uncork completes them exactly when the live queue is corked. |
| `FlowHistory.NothingAfterCancel` | apps/api/pipeline/backpressure.py:166-176 | After a cancel nothing is accepted, delivered or announced again, whatever is called. |
| `FlowHistory.RunConserves` | apps/api/pipeline/backpressure.py:136-196 | Every accepted item is delivered, flushed, discarded by a cancel or pending, exactly once, and delivered followed by pending is a subsequence of the acceptance order. |
| `FlowHistory.KeptAndRemoved` | apps/api/pipeline/backpressure.py:178-196 | A flush splits the queued items into those kept and those returned, none lost or doubled. |
| `FlowHistory.WaitingIsTold` | apps/api/pipeline/backpressure.py:107-160 | Who waits, after any run, told by what was done: once the queue was closed or cancelled nobody; before that a producer from the high watermark down to the low one and for a free slot, a consumer for an item. |
| `FlowControl.SplitMatching` | apps/api/pipeline/backpressure.py:180-191 | The flush loop computes the kept entries, the removed items in queue order, and the weight of what is kept. |
| `FlowControl.FlowControlledQueue.Create` | apps/api/pipeline/backpressure.py:81-105 | A queue is refused exactly when its watermarks are out of order. |
| `FlowControl.FlowControlledQueue.WaitUntilUncorked` | apps/api/pipeline/backpressure.py:201-204 | The gate opens on an uncorked, closed or cancelled queue and on no other. |
| `FlowControl.FlowControlledQueue.ObserveLocked` | apps/api/pipeline/backpressure.py:206-260 | The in-place comparison moves the flags and gives the notice of the specification. |
| `FlowControl.FlowControlledQueue.PutSection` | apps/api/pipeline/backpressure.py:122-141 | The whole new state of the object, in terms of the run of sections so far; a put waits exactly while the queue is full and open. |
| `FlowControl.FlowControlledQueue.GetSection` | apps/api/pipeline/backpressure.py:143-156 | A get waits, raises, or yields the oldest item, and the object is left as the specification says. |
| `FlowControl.FlowControlledQueue.FlushSection` | apps/api/pipeline/backpressure.py:178-196 | Returns the matching items in order and leaves the rest. |
| `FlowControl.FlowControlledQueue.CancelSection` | apps/api/pipeline/backpressure.py:166-176 | A cancel empties the queue and clears both flags. |
| `FlowControl.FlowControlledQueue.CloseSection` | apps/api/pipeline/backpressure.py:161-164 | A close only closes. |
| `Overshoot.OvershootIsBounded` | apps/api/pipeline/backpressure.py:122-141 | With N producers of items of at most W, in every interleaving the depth stays below the high watermark plus N times W; depth plus the share of each producer past the gate is inductive. |
| `Overshoot.HardLimitIsNeverReached` | apps/api/pipeline/backpressure.py:122-141 | When N times W fits between the high watermark and the hard limit, the hard limit is never reached. |
| `Overshoot.ManyProducersAreOneQueue` | apps/api/pipeline/backpressure.py:122-196 | However many producers there are, their queue is the one that the sections they ran make of it, in their order. |
| `Responses.ResponseController.Start` | apps/api/pipeline/stream_module.py:96-100 | Starting a response makes it active and remembers its turn. |
| `Responses.ResponseController.Cancel` | apps/api/pipeline/stream_module.py:102-108 | Says whether this call was the one that cancelled; afterwards the response is cancelled and not active. |
| `Responses.ResponseController.Finish` | apps/api/pipeline/stream_module.py:110-114 | Finishes exactly the active response. |
| `Session.FenceHolds` | apps/api/pipeline/stream_module.py:90-124 | After any run the active response is a known one that was never cancelled, and the session state names the same one as the controller. |
| `SessionFloor.ActiveIffItHoldsTheFloor` | apps/api/pipeline/stream_module.py:119-124 | A response is active for a turn exactly when it was started for that turn and has held the floor since some event took it: no cancel, no end of its playback and no other response's start or restore came after; one that holds it was never cancelled. |
| `SessionFloor.SentIsTold` | apps/api/pipeline/stream_module.py:1295-1314 | After any run what was sent is exactly the chunks whose response, by the events alone, held the floor for their turn when the transport looked, in that order. |
| `Session.CancelledStaysSilent` | apps/api/pipeline/stream_module.py:1281-1307 | A cancelled response stays cancelled, is never active again, and sends nothing more, whatever of it arrives later. |
| `Session.ConversationRemembers` | apps/api/pipeline/stream_module.py:1516-1549 | At most one interrupted entry for a response, no later entry for it, and its spoken text is a prefix of what was generated. |
| `SessionMemory.ConversationIsTold` | apps/api/pipeline/stream_module.py:1516-1549 | After any run the conversation is told by the events alone: an entry with everything generated for each started response that is done and was not interrupted, and one for the first interruption of a cancelled one, whose content is exactly the characters played. |
| `SessionMemory.SpokenCharsWerePlayed` | apps/api/pipeline/stream_module.py:1523-1526 | The characters counted as spoken are as many as the share of the estimated time that was played allows, held between none and all. |
| `SessionMemory.PlayedIsUnique` | apps/api/pipeline/stream_module.py:1523-1526 | There is one such number. |
| `Session.SpokenRatio` | apps/api/pipeline/stream_module.py:1516-1549 | The share played stays between nothing and everything. |
| `Session.Interruption` | apps/api/pipeline/stream_module.py:1516-1549 | The entry of an interrupted response keeps the generated text and a prefix of it as spoken. |
| `PipelineSafety.RunIsSafe` | apps/api/pipeline/stream_module.py:944-962 | In every interleaving of the three tasks, hard-limit callbacks and outside cancellations included, both queues keep their laws, the end marker is last in its queue and is there exactly between its put and its get, and the fence holds. |
| `PipelineSafety.SomeTaskCanRun` | apps/api/pipeline/stream_module.py:944-962 | Deadlock-freedom: until all three tasks have returned, one of them can run. |
| `PipelineSafety.FinishedIsDrained` | apps/api/pipeline/stream_module.py:944-962 | When all three have returned both queues are empty. |
| `PipelineSafety.CancelledSendsNothing` | apps/api/pipeline/stream_module.py:1297-1314 | Once the response is cancelled no send starts, even for a chunk that passed the producer's check before and was queued after the flush. |
| `PipelineSafety.RunYields` | apps/api/pipeline/stream_module.py:1319-1329 | In every run, whichever comes first, the end of the sending or the report that the playback is done: when both are there a response that is not cancelled is no longer active. |
| `PipelineFloor.FloorIsTold` | apps/api/pipeline/stream_module.py:1319-1390 | In every interleaving, told by the steps: which responses are cancelled (from outside, or for holding the floor when a hard limit was reacted to), which one holds the floor (it had or took it, and has not been cancelled, replaced or played out since), and since when the playback counts as done. |
| `PipelineCancel.CancelledIsIdle` | apps/api/pipeline/stream_module.py:1013-1051 | Once the response is cancelled, in every interleaving no token is taken, no phrase started or made longer and no chunk numbered. |
| `PipelineCancel.WithoutTheFloorIsIdle` | apps/api/pipeline/stream_module.py:1297-1307 | For as long as a response is without the floor, for whatever reason, nothing is made of it and nothing of it is sent. |
| `PipelineCancel.CancelledIsFlushed` | apps/api/pipeline/stream_module.py:1437-1466 | In every interleaving, once a cancelled response's flushes have run, at most the one token and the one chunk that had already passed their checks are queued or on their way. |
| `PipelineCancel.DepthsAreMilliseconds` | apps/api/pipeline/stream_module.py:1395-1399 | In every reachable state each queued token and chunk weighs its estimated length in milliseconds, end markers nothing, and the depths are the sums. |
| `PipelineDrain.EveryStepWorks` | apps/api/pipeline/stream_module.py:1013-1051 | Every step of every task lowers a lexicographic measure, with a cancel and flushes in the middle of a put included. |
| `PipelineDrain.EveryScheduleFinishes` | apps/api/pipeline/stream_module.py:944-962 | Every schedule that runs a task that can run finishes all three after finitely many steps. |
| `PipelineContent.RunIsFaithful` | apps/api/pipeline/stream_module.py:992-1024 | While the response keeps the floor, and after its transport returned, tokens are spoken, buffered, in flight or to come, in order, and so are the chunks of their phrases. |
| `PipelineContent.EveryWordIsSpoken` | apps/api/pipeline/stream_module.py:1113-1156 | A response that kept the floor until its transport returned: its phrases are its tokens but for a blank rest, and the chunks sent are all their speech, numbered from one. |
| `PipelinePhrases.PhrasesAreCutInTime` | apps/api/pipeline/stream_module.py:1113-1140 | Then the tokens were cut into phrases exactly where what was buffered first had 120 characters or ended in one of .?! and white space; what was left is one more phrase unless it is blank. |
| `PipelinePhrases.SplitIsUnique` | apps/api/pipeline/stream_module.py:1138-1140 | There is one way to cut tokens so: the split, and the phrases, are determined. |
| `PipelinePhrases.HelloIsOnePhrase` | apps/api/pipeline/stream_module.py:1138-1138 | Two tokens that end one sentence are one phrase. |
| `PipelineOrder.SentInOrder` | apps/api/pipeline/stream_module.py:1186-1232 | In every run, cancelled or not, the sequence numbers sent strictly increase. |
| `PipelineCalm.RunStaysCalm` | apps/api/pipeline/stream_module.py:1331-1390 | With no outside events, and items that fit between the high watermark and the hard limit or a policy that only reports, no hard-limit callback ever starts. |
| `PipelineCalm.EveryScheduleSpeaksEverything` | apps/api/pipeline/stream_module.py:901-962 | Then every schedule ends with every token spoken and every chunk sent in order. |
| `PipelinePolicy.ReportingStartsNoCallback` | apps/api/pipeline/stream_module.py:1384-1390 | Under a policy other than cancel_response no hard limit starts a callback in any run, whatever happens outside. |
| `PipelinePolicy.ReportingLosesNothing` | apps/api/pipeline/stream_module.py:1384-1390 | Under such a policy, and with no cancellation from outside, no step of any run flushes a queue or cancels a response. |
| `PipelinePolicy.HardLimitIsReached` | apps/api/pipeline/stream_module.py:1384-1390 | One run that reaches the hard limit under either kind of policy; under cancel_response, and only then, it starts the cancelling callback. |
| `Turns.OpenStep` | apps/api/pipeline/stages/vad.py:179-208 | One more frame opens a turn, keeps it open or closes it by its two trailing runs alone: what makes the fast form possible. |
| `Turns.EndedTurnIsLongEnough` | apps/api/pipeline/stages/vad.py:187-215 | A turn that ends had at least the minimum of speech and lasted at least that plus the ending silence. |
| `Turns.EventsAlternate` | apps/api/pipeline/stages/vad.py:179-208 | Starts and ends strictly alternate, and a turn is open exactly after an odd number of them. |
| `Turns.TurnsAreTold` | apps/api/pipeline/stages/vad.py:179-208 | In milliseconds: a turn ends with the frame that completes at least two frames and enough time of silence, if enough speech came before with no such silence since; it starts with the frame that completes enough speech when none is open. |
| `TurnDetector.SmoothedTurnDetector.Advance` | apps/api/pipeline/stages/vad.py:179-208 | The state machine starts and ends turns exactly when the whole frame history says so. |
| `TurnDetector.SmoothedTurnDetector.Update` | apps/api/pipeline/stages/vad.py:179-227 | The same, and the reported totals are the sums over the turn's frames, the ending frame included. |
| `TurnDetector.NextState` | apps/api/pipeline/stages/vad.py:179-208 | How the history's state, runs and events move with one more frame. |
| `TurnAudio.TurnAudioBuffer.HandleAudio` | apps/api/pipeline/stream_module.py:328-364 | When a turn ends, the audio forwarded for it is what the frame history says, less a repeated opening frame. |
| `TurnAudio.ForwardedIsTheTurnUnlessEchoed` | apps/api/pipeline/stream_module.py:328-353 | The forwarded audio is exactly the turn's frames, each once and in order, if and only if its opening frame does not equal one before it in its run. |
| `TurnAudio.EqualFramesLoseAudio` | apps/api/pipeline/stream_module.py:335-340 | Two equal frames that open a turn are forwarded as one. |
| `ExactlyOnce.RepeatsLeaveNoTrace` | apps/api/db/projector.py:163-197 | Projecting any deliveries has exactly the effect of the first delivery of each idempotency key, and fails exactly when that would. |
| `ExactlyOnce.TablesAreTheFirsts` | apps/api/db/projector.py:68-130 | However deliveries are repeated, split into transactions and rolled back, the tables are one plain pass over the first committed delivery of each key. |
| `ExactlyOnce.TransactionsAreOneProjection` | apps/api/db/projector.py:68-130 | Batch boundaries and aborted batches do not show. |
| `ExactlyOnce.FirstsAreDistinct` | apps/api/db/projector.py:173-186 | No key is applied twice. |
| `ExactlyOnce.CallLeavesRows` | apps/api/db/projector.py:222-336 | Projecting the call changes its status and its bill and no other table. |
| `LedgerSums.EveryBillBalances` | apps/api/db/projector.py:587-646 | After every transaction each call's provider cost is the sum of its usage rows and its total adds the platform fee; a call with rows has a bill. |
| `LedgerSums.RowsAreTheEvents` | apps/api/db/projector.py:381-471 | Events that name distinct types leave exactly one row of each table for each measurement, in order, one timeline entry and one outbox message each, and rollups equal to the rows' sums. |
| `LedgerSums.BillsPriceTheFirsts` | apps/api/db/projector.py:381-471 | Over any repeats, splits and rollbacks: bills price and rollups sum exactly what the first delivery of each key measured, and each of those has one outbox message. |
| `LedgerOutbox.TheFirstsAreAnnounced` | apps/api/db/projector.py:466-471 | Over any repeats, splits and rollbacks: the outbox is one message for each first usage event, in order, with its call's bill over the events up to it: what their usage cost, the fee on top, and the duration and finalization that the call's own events give. |
| `LedgerOutbox.NothingIsAnnouncedTwice` | apps/api/db/projector.py:648-683 | Of any deliveries whatever, even different events of one identifier, none is announced or entered in the timeline twice. |
| `LedgerSums.RepeatedTypesDrift` | apps/api/db/projector.py:554-585 | Exactly when one more measurement keeps the rollups equal to the rows: its row is new, its type has no column, or its quantity is zero. |
| `LedgerSums.SummedUpAre` | apps/api/db/projector.py:532-543 | Exactly which measurements are summed up in a column, by type and stage. |
| `LedgerSums.RepeatedTypeSplitsTheLedger` | apps/api/db/projector.py:381-464 | Applying one event that measures a type twice leaves one row of each table and a rollup that is not their sum. |
| `Projector.EventProjector.RecordMeasurements` | apps/api/db/projector.py:377-464 | The measurement loop records every measurement, or nothing when one of them has no price. |
| `Projector.EventProjector.CollectExpectations` | apps/api/db/projector.py:508-530 | The two loops collect every (turn, type) a barrier expects, skipping turns without a name. |
| `Projector.EventProjector.ProjectInto` | apps/api/db/projector.py:163-197 | One event inside the transaction, and whether its key was new. |
| `Projector.EventProjector.HighestOffsets` | apps/api/db/projector.py:78-91 | The batch's dictionary holds the highest offset of each of its partitions. |
| `Projector.EventProjector.UpsertWatermarks` | apps/api/db/projector.py:112-129 | Every partition of the batch is raised to the greater of the two offsets, and no other partition moves. |
| `Projector.EventProjector.Tally` | apps/api/db/projector.py:92-110 | Files a delivery under inserted, call ended, usage call, late usage or duplicate. |
| `Projector.EventProjector.ProjectBatch` | apps/api/db/projector.py:68-130 | One transaction over the batch changes tables and watermarks together, or nothing; the object always equals one projection of the history of committed batches. |
| `Projector.InsertedAreTheFirsts` | apps/api/db/projector.py:92-111 | What batches report as inserted is, over any history, exactly the first delivery of each key. |
| `Projector.EachIsReportedOnce` | apps/api/db/projector.py:92-111 | Each delivery of a batch is reported once, as inserted or as a duplicate. |
| `Projector.LateIsExact` | apps/api/db/projector.py:96-109 | Late usage is exactly the newly inserted usage of calls with a final record. |
| `Projector.EndsAreExact` | apps/api/db/projector.py:92-104 | The call ends reported are exactly the newly inserted ones. |
| `Projector.UsageCallsAreExact` | apps/api/db/projector.py:96-109 | The calls reported for another look at readiness are exactly those with newly inserted usage or a barrier. |
| `Projector.AdvanceMerges` | apps/api/db/projector.py:112-129 | Raising watermarks once for the batch equals raising them delivery by delivery. |
| `CallLaws.ACallIsItsOwnEvents` | apps/api/db/projector.py:222-336 | A call's status, start and end times, duration, fee and finalization are a fold over its own events in order: no event of another call shows in them. |
| `CallLaws.FinalizedMeans` | apps/api/db/projector.py:283-318 | A bill is finalized exactly when the call failed, or ended while it was known and had not failed. |
| `CallLaws.DurationIsTheLastEnds` | apps/api/db/projector.py:587-625 | The billed duration and fee are those of the last end event that took effect. |
| `CallLaws.NoDurationBeforeAnEnd` | apps/api/db/projector.py:587-625 | A call whose end events all had no effect is billed no duration and no fee. |
| `CallLaws.FailureSticks` | apps/api/db/projector.py:283-298 | A failed call stays failed, whatever follows, until it is started again. |
| `CallLaws.StartIsTheFirst` | apps/api/db/projector.py:222-282 | A call's start is the time of its first start event, whatever comes later. |
| `CallLaws.EndIsTheLast` | apps/api/db/projector.py:283-318 | Its end is the time of the last event that ended it: an end that took effect, or a failure once it was started. |
| `EventKeys.KeysTellEventsApart` | apps/api/events/schemas.py:84-103 | Default keys tell apart call, turn, type and number whenever turns have no colon in their names, whatever calls are named. |
| `EventKeys.ColonsCollide` | apps/api/events/schemas.py:99-101 | A colon in a turn's name makes its key another call's. |
| `EventKeys.DigitsAreDecimal` | apps/api/events/schemas.py:99-101 | The sequence number in a key is its decimal form: reading it back gives the number. |
| `EventKeys.KeyOfAnEvent` | apps/api/events/schemas.py:99-101 | What the key of one event looks like. |
| `Consumer.KafkaEventConsumer.Accept` | apps/api/events/kafka_consumer.py:68-84 | The buffer becomes a batch exactly when it is not empty and a barrier arrived, it is full or its time is up. |
| `Consumer.KafkaEventConsumer.CommitBatch` | apps/api/events/kafka_consumer.py:175-180 | The committed offset of each partition of the batch is one past its highest delivery, which is what its watermark reaches. |
| `DeliverySafety.FetchFollows` | apps/api/events/kafka_consumer.py:62-70 | Whatever a worker fetches from its positions or the committed offsets leaves no gap in its buffer. |
| `DeliverySafety.RunKeepsInv` | apps/api/events/kafka_consumer.py:57-114 | In every run of publishing, polling, projecting, lost replies, commits, crashes and rebalances of any number of workers, the ledger is one projection of the committed deliveries, which skip nothing. |
| `DeliveryLaws.WatermarksAreSound` | apps/api/events/kafka_consumer.py:105-106 | A record at or below a watermark was projected and its key is recorded; a committed offset is never past the watermark; a watermark is never past the log. |
| `DeliveryLaws.FirstsFollowTheLog` | apps/api/db/projector.py:112-129 | The first deliveries of a partition are the first record of every key in its log up to the watermark, in log order. |
| `DeliveryLaws.LedgerIsTheLogsOnce` | apps/api/events/kafka_consumer.py:57-114 | Exactly once, end to end: the tables are one plain pass over the first deliveries, and those are, for every partition, the first record of each key of its log up to the watermark. |
| `DeliveryLaws.BarriersDoNotWait` | apps/api/events/kafka_consumer.py:71-84 | A barrier is never left in a buffer by the poll that read it, and no batch exceeds its size. |
| `DeliveryLaws.ResetsReadFromTheCommit` | apps/api/events/kafka_consumer.py:56-104 | A worker that crashes, cannot project its batch or loses a partition reads it from the committed offset again; otherwise only its own polls move where it reads, and only forward. |
| `DeliveryProgress.FinishedIffAccepted` | apps/api/db/projector.py:68-130 | Exactly which partitions can be projected to their end, from any reachable world: those whose records are all accepted, that is readable, priced, and with references the database takes. |
| `DeliveryProgress.RejectedRecordsBlock` | apps/api/db/projector.py:222-282 | No watermark and no committed offset ever passes a record that is not accepted: unreadable, without a price, or a start whose tenant or agent is no known identifier. |
| `DeliveryProgress.AcceptedRecordsCanBeReached` | apps/worker/event_worker.py:130-147 | From every reachable world a partition whose remaining records are accepted can be projected and committed to its end. |
| `DeliveryProgress.DefaultTenantStopsThePartition` | apps/api/pipeline/stream_module.py:143-146 | A partition that begins with the start of a session under the default tenant never moves, whatever is done. |
| `Readiness.ManifestsAreBelowTheWatermark` | apps/api/db/projector.py:473-510 | A manifest is always a barrier of its call, at or below the watermark of its partition. |
| `Readiness.AlwaysCaughtUp` | apps/worker/activities.py:545-559 | The report's caught-up flag equals its manifest flag in every reachable world, so no call ever waits for the projection. |
| `Readiness.BillIsComplete` | apps/worker/activities.py:539-559 | Once a call has a manifest, every measurement of every usage event published before its barrier on that partition has its priced row. |
| `Readiness.ReadyMeans` | apps/worker/activities.py:560-607 | Ready exactly when there is a manifest, every expectation is measured, and every required type is a recorded column, except that audio minutes outside speech-to-text pass for its seconds. |
| `Readiness.CaughtUpMeans` | apps/worker/activities.py:538-559 | On any database, caught up means that the barrier is among the records counted as projected. |
| `ReadinessExpectations.ExpectedIffPublished` | apps/api/db/projector.py:508-530 | In every reachable world the table expects a type of a call's turn if and only if a barrier of that call which was projected names the turn and the type. |
| `ReadinessExpectations.ManifestIsExpected` | apps/api/db/projector.py:508-530 | So everything that the barrier at a manifest's offset expects of named turns is in the table. |
| `ReadinessExpectations.ReadyVouchesForTheBarrier` | apps/worker/activities.py:560-575 | A ready report vouches for the barrier: a measured row of the call for every turn and type that it expects. |
| `Readiness.PresentTypes` | apps/worker/activities.py:576-593 | The types found present, with that exception made explicit. |
| `ReadinessCases.SpeechPassesForTranscription` | apps/worker/activities.py:576-593 | A run after which a call is ready for required transcription seconds that no column of it holds. |
| `BillOfTheLog.BillIsAFunctionOfTheLog` | apps/api/db/projector.py:628-646 | A call's bill is its fee plus the price of the first record of each key of its partition's log up to the watermark: no crash, replay or worker shows in it. |
| `Feedback.NoticeDuplicates` | apps/worker/event_worker.py:109-125 | One notice, keyed by the event, for each duplicate that is not itself a notice, in order, and for no other. |
| `Feedback.AnswersWeighLess` | apps/worker/event_worker.py:75-125 | All the messages one message may be answered with, those of the workflows it starts included, together weigh less than it. |
| `Feedback.AnswersFollowTheProjection` | apps/worker/event_worker.py:63-108 | The answers are what a projection leads to: a billing message exactly if it put a row in the outbox, an adjustment exactly if the batch reports late usage, a finalization exactly if it reports a call's end. |
| `Feedback.MessagesAreConserved` | apps/worker/event_worker.py:63-125 | However messages are ordered and repeated: what is pending and what was read together are what there was, what came again and what was answered. |
| `Feedback.AnswersDieOut` | apps/worker/event_worker.py:64-125 | However messages are ordered, answered and redelivered, the number of reads is bounded by the weights put in. |
| `Outbox.OutboxPublisher.PublishBatch` | apps/api/db/outbox.py:34-74 | The oldest unpublished rows are sent in order, and each is marked only after it was sent. |
| `Outbox.HistoryMarksOnlySent` | apps/api/db/outbox.py:49-73 | Over any number of passes, whatever is refused or unrecorded and wherever a pass stops, published rows were sent and stay published. |
| `Outbox.NothingStaysInTheOutbox` | apps/api/db/outbox.py:23-74 | After any history, as many passes without failures as there are rows left publish every row there was. |
| `Outbox.SelectedAreTheOldest` | apps/api/db/outbox.py:34-46 | A pass selects the oldest unpublished rows: all of them, or as many as its limit, before all others. |
| `Outbox.PassIsTold` | apps/api/db/outbox.py:34-74 | For any failures: each row a pass came to counts an attempt, is sent unless the send was refused and is published exactly if it was marked; the row it stops at came as far as it came, and no other row is touched. |
| `Cents.NearestCent` | apps/api/tools/http_config.py:30-31 | Determines the rounding: the nearest cent, ties away from zero. |
| `Cents.RefundsMirrorCharges` | apps/api/tools/http_config.py:30-31 | A credit rounds like the charge it undoes. |
| `Cents.BucketsPartitionTheCost` | apps/worker/activities.py:104-117 | Each row is billed in one bucket and no other. |
| `Cents.ComponentsAre` | apps/worker/activities.py:97-118 | Which part of the bill a row goes to, by its stage and type, all four ways. |
| `Cents.PartsAreRounded` | apps/worker/activities.py:97-118 | Each of the four parts is the sum of its own rows to the nearest cent, rounded once. |
| `Cents.ComponentCosts` | apps/worker/activities.py:97-118 | The loop over the rows computes the four rounded bucket sums. |
| `Cents.BilledIsClose` | apps/worker/activities.py:653-665 | A bill is within two and a half cents of the exact cost. |
| `Cents.BilledCanBeThatFar` | apps/worker/activities.py:653-665 | And that bound is attained. |
| `Cents.BilledGrows` | apps/worker/activities.py:653-665 | More rows of non-negative cost never lower a bill. |
| `FinalBilling.BillingActivities.FinalizeCallBilling` | apps/worker/activities.py:635-733 | The final record written for a known call, the whole table of records after it, and the error for an unknown one. |
| `FinalBilling.BillingActivities.CreateBillingAdjustment` | apps/worker/activities.py:736-813 | Previous total plus delta is the recomputed total; a late event is adjusted for once; an error changes nothing. |
| `FinalBilling.RewrittenRecordSumsUp` | apps/worker/activities.py:686-697 | A rewritten record's total is the sum of its parts exactly when telephony did not change. |
| `BillingCases.LateTelephonyIsInNoPart` | apps/worker/activities.py:686-697 | Two finalizations of one ended call, with a cent of telephony projected between them: the cent is in the total and in no part. |
| `FinalBilling.FinalAgreesWithTheLedger` | apps/worker/activities.py:646-665 | For every ledger and call: what is billed finally is, to within two and a half cents of rounding, an exact amount that equals the ledger's total if and only if a duration is recorded and the rate is five cents a minute, or none is and no time passed between start and end; otherwise the two differ by exactly the difference of the two fees. |
| `BillingCases.AgreesIffFiveCents` | apps/worker/activities.py:646-665 | On calls with a recorded duration final totals agree with the ledger to within two and a half cents if and only if the projector's rate is five cents a minute. |
| `BillingCases.FailedCallIsBilled` | apps/worker/activities.py:651-653 | At every rate: a call that failed after a minute, and whose later end has no effect but is reported, has a finalized bill of nothing in the ledger and a final record of five cents. |
| `FinalBilling.DeltasAreFromTheFinal` | apps/worker/activities.py:767-793 | Every adjustment is measured against the same final total. |
| `FinalBilling.LateUsageIsChargedAgain` | apps/worker/activities.py:758-793 | Over growing ledgers, final total and adjustments together charge at least what the last recomputation asks for, and exactly that if and only if every ledger but the last recomputed to the final total. |
| `FinalBilling.EventsMakeLaterLedgers` | apps/api/db/projector.py:275-305 | Projecting more events of non-negative price and quantity makes such a growing ledger, if none ends the call again and, where no duration is recorded, none fails it again. |
| `BillingCases.TwoLateCentsChargeThree` | apps/worker/activities.py:767-793 | Two late cents of an ended call, adjusted for one by one, charge three cents for two. |
| `FinalBilling.LateDeltaIsNotNegative` | apps/worker/activities.py:758-768 | With the duration fixed, late usage of non-negative cost is never a credit. |
| `Finalization.RowsAreKept` | apps/api/db/projector.py:381-464 | Usage rows are only ever added, at the end. |
| `Finalization.ReadyLookIsBilled` | apps/worker/activities.py:545-607 | If a look at readiness was ready, the usage read at any later moment of the run holds the priced row of every measurement published before the barrier. |
| `Finalization.FinalizeCall` | apps/worker/durable_workflows.py:232-318 | From log to record in one run: unless its policy says so itself, a workflow that finalizes a call writes a total made of rows which hold every measurement published before the barrier of some look. |
| `ActionTrace.CancelIsSentOnce` | apps/worker/durable_workflows.py:139-153 | The cancel request is sent at most once, after the create request returned, and only with a cancel recorded. |
| `ActionTrace.EarlyCancelIsNeverActive` | apps/worker/durable_workflows.py:73-80 | An action cancelled before its create request returned is never active. |
| `ActionTrace.CancelIsSentIffSeenInTime` | apps/worker/durable_workflows.py:90-153 | Of an action that ended by itself the cancel is sent exactly when it was on record as the create request returned or at the head of a round with run time left, and the tool can cancel. |
| `ActionTrace.TimedOutMadeEveryRound` | apps/worker/durable_workflows.py:90-137 | The loop times out only after every round that fits the run time, none of which saw a cancel at its head. |
| `ActionTrace.TerminalFailsIffItRaises` | apps/worker/durable_workflows.py:81-88 | A terminal state gives way to the handler's exactly when persisting or announcing it raised. |
| `ActionTrace.StatusDecides` | apps/worker/durable_workflows.py:120-136 | What the status a round is left with does, in both directions: failed and rejected fail the action, cancelled and cannot_cancel say so, any other final status completes it, and nothing else ends it. |
| `ActionTrace.CancelReplyDecides` | apps/worker/durable_workflows.py:154-162 | The same for the reply to a cancel request, which every reply ends. |
| `ActionTrace.EndsForAReason` | apps/worker/durable_workflows.py:90-162 | No action ends by itself but for such a status, such a reply, a tool that cannot cancel, or its run time. |
| `ActionRun.RunIsLawful` | apps/worker/durable_workflows.py:55-88 | Whatever is answered, raised and signalled, the steps of a run are lawful, and it returns, in a terminal state, unless its first or its handler's transition raised. |
| `ActionRun.EveryRun` | apps/worker/durable_workflows.py:55-162 | Every run makes at most one round for each interval of the run time, sends exactly the cancels seen in time, and leaves a terminal state exactly when entering it raised. |
| `ActionRun.EveryStatusDecides` | apps/worker/durable_workflows.py:120-162 | Of every run of every tool: each status it is left with and each reply to a cancel request does exactly what it says. |
| `ActionRun.RoundSees` | apps/worker/durable_workflows.py:98-119 | A round is left with the status on record when its wait ends, if that is not empty, and otherwise with the answer to a status request, if the tool has one; the status on record is used up. |
| `ActionRun.WaitLasts` | apps/worker/durable_workflows.py:98-105 | How long the wait of a round lasts: no time if a status is on record, its interval if nothing is signalled, and otherwise until the first signal, within the interval. |
| `ActionRun.SignalsAreRecorded` | apps/worker/durable_workflows.py:197-204 | Signals are handled in order: a cancel is recorded for good, and the last status pushed is the one kept. |
| `ActionRun.GivesUpEarlyIffCut` | apps/worker/durable_workflows.py:90-137 | Of every run that its loop times out: it waited at most what it counted, and less than its run time if and only if signals cut its waits by more than the last round exceeded the run time. |
| `ActionTrace.WaitsFit` | apps/worker/durable_workflows.py:97-105 | There is one wait for each round, none longer than its interval, and one is cut short only where a signal woke it. |
| `ActionCases.LateCancelTimesOut` | apps/worker/durable_workflows.py:90-137 | A run of one round in whose wait the cancel arrives: it is not sent, and the action is timed out. |
| `ActionCases.TerminalBecomesFailed` | apps/worker/durable_workflows.py:81-88 | A run whose action cannot be cancelled, and whose saying so raises: it ends as failed. |
| `ActionCases.PushesUseUpTheRunTime` | apps/worker/durable_workflows.py:90-137 | For every tool, run time and status that is not final: pushes of that status lead to a time-out without any wait. |
| `DurableAction.DurableActionWorkflow.Transition` | apps/worker/durable_workflows.py:164-187 | The object after a transition is the specification's: the state is entered before anything can raise, and signals of both waits are kept. |
| `DurableAction.DurableActionWorkflow.CancelAfterCreate` | apps/worker/durable_workflows.py:139-162 | The object and the outcome are the specification's, for which the laws of every run are proved. |
| `DurableAction.DurableActionWorkflow.Conclude` | apps/worker/durable_workflows.py:120-136 | Ends the action exactly for the statuses the tool calls final, and otherwise changes nothing. |
| `DurableAction.DurableActionWorkflow.PollUntilTerminal` | apps/worker/durable_workflows.py:90-137 | The loop is the recursion over turns with their elapsed time. |
| `DurableAction.DurableActionWorkflow.Run` | apps/worker/durable_workflows.py:55-88 | The whole run is the specification's: its steps are lawful, its rounds fit the run time, and it returns only in a terminal state. |
| `BillingWorkflow.BillingFinalizationWorkflow.Look` | apps/worker/durable_workflows.py:248-283 | One turn of the loop raises, finds the call ready, or notes what it waits for and waits; a look that raised is not counted. |
| `BillingWorkflow.BillingFinalizationWorkflow.Conclude` | apps/worker/durable_workflows.py:284-318 | A record is written with the status, or nothing changes; the workflow ends in that status exactly unless the call is unknown or an activity raised. |
| `BillingWorkflow.BillingFinalizationWorkflow.AwaitReadiness` | apps/worker/durable_workflows.py:243-283 | The loop is the specification's, looks and waits included: it looks at most once at zero and once after each wait that ends by the deadline, only the last look may be ready, and the state is what the last unready one waits for. |
| `ReadinessWatch.GivesUpEarlyIffCut` | apps/worker/durable_workflows.py:243-283 | A loop that gives up waited at most what it counted, and no longer than its deadline if and only if updates cut its waits by at least what the count exceeds the deadline. |
| `ReadinessWatch.OnlyUpdatesCut` | apps/worker/durable_workflows.py:270-283 | Without projection updates no wait is cut. |
| `ReadinessWatch.UpdatesUseUpTheDeadline` | apps/worker/durable_workflows.py:243-283 | For every deadline and settle time: updates can make the loop give up without any wait. |
| `BillingWorkflow.BillingFinalizationWorkflow.Run` | apps/worker/durable_workflows.py:232-318 | A finalized status means the last look was ready, unless the missing-usage policy says finalized itself; the record it wrote is the activity's and says so, also when the reply to it was lost; the run fails without a call end, and after any activity that raised. |
| `Resample.BytesOfSamples` | apps/api/pipeline/audio.py:27-30 | Reading little-endian samples and writing them back gives the bytes. |
| `Resample.SamplesAreLittleEndian` | apps/api/pipeline/audio.py:27-30 | Samples are read little-endian and in two's complement. |
| `Resample.RoundIsNearest` | apps/api/pipeline/audio.py:42-42 | Determines the rounding: nearest, ties to even. |
| `Resample.OutputLiesBetween` | apps/api/pipeline/audio.py:37-43 | Every output sample lies between its two neighbours, so the clamp never acts, and is the rounded interpolation. |
| `Resample.OutputIsInterpolated` | apps/api/pipeline/audio.py:36-43 | Each output sample is the linear interpolation of its two neighbours at its position, to the nearest integer, ties to even; from the last input sample on it is that sample. |
| `Resample.LengthKeepsDuration` | apps/api/pipeline/audio.py:34-34 | The output lasts as long as the input to within half a sample, or is the forced single sample. |
| `Resample.UpsamplingKeepsSamples` | apps/api/pipeline/audio.py:37-43 | Upsampling by a whole factor keeps every input sample. |
| `Resample.UpAndDown` | apps/api/pipeline/audio.py:17-47 | Upsampling by a whole factor and back returns the samples. |
| `Resample.RoundTrip` | apps/api/pipeline/audio.py:17-47 | The same on bytes. |
| `Resample.InterpolateAll` | apps/api/pipeline/audio.py:36-43 | The loop that appends one interpolated sample after another. |
| `Resample.ResamplePcm16Mono` | apps/api/pipeline/audio.py:17-47 | For every chunk and all rates: both refusals, the early returns, the division by a target rate of zero, the single sample of a negative one, and the resampled audio. |
| `Resample.SplitPcm16Frames` | apps/api/pipeline/audio.py:50-61 | Whole frames whose concatenation is the chunk less a rest shorter than a frame; the error for other frame lengths. |
| `ClickHouse.AttemptsAreLogarithmic` | apps/api/analytics/clickhouse/consumer.py:97-119 | The number of attempts is logarithmic in the retry limit, bracketed between powers of two. |
| `ClickHouse.RepeatsIffLarger` | apps/api/analytics/clickhouse/consumer.py:97-119 | Some replies leave acknowledged rows to be sent again if and only if the batch is larger than the buffer. |
| `ClickHouse.FittingBatchesDoNotRepeat` | apps/api/analytics/clickhouse/consumer.py:97-119 | A batch that fits the buffer leaves nothing behind in any failed attempt. |
| `ClickHouse.BatchWriter.Add` | apps/api/analytics/clickhouse/writer.py:40-49 | A row that fills the buffer flushes it; a failed flush leaves nothing buffered. |
| `ClickHouse.BatchWriter.Flush` | apps/api/analytics/clickhouse/writer.py:62-71 | The buffer is emptied whether or not the insert succeeds. |
| `ClickHouse.BatchWriter.InsertAll` | apps/api/analytics/clickhouse/consumer.py:102-105 | One attempt acknowledges the whole batch, or whole buffers of it and not all, as its replies determine. |
| `ClickHouse.AnalyticsConsumer.InsertWithRetry` | apps/api/analytics/clickhouse/consumer.py:97-119 | Returns with every row acknowledged in order, or raises after exactly the limit of attempts; failed attempts leave only repeated shorter prefixes, and none when the rows fit the buffer. |
| `ClickHouse.AnalyticsConsumer.HandleBatch` | apps/api/analytics/clickhouse/consumer.py:64-95 | A batch is handled only once every row that could be normalized is acknowledged; one that fits the buffer is acknowledged once or not at all. |

## Left out

- Exact numbers: durations, weights, costs and rates are reals, and resampling is exact rational arithmetic, where the source uses floats, decimals and numeric columns; rounding is modelled only where the source asks for it (cents, output samples, output length).
- HTTP routes, authentication, dashboards, providers, WebSocket framing, metrics, tracing and logging: they change none of the modelled state.
- SQL: each statement is a map, set or sequence update with its conflict clause, and each transaction is one step; descriptive columns, pipeline metrics, timestamps and the events table's own columns are not kept.
- Kafka: a partition is a sequence that only grows and is read in order; the broker's group protocol is any crash or rebalance at any moment, and a commit takes effect whole or not at all. That a key stays on its partition, and that keys and identifiers name one event each, are premises where they are needed.
- ClickHouse: rows count as stored when the server says so; an insert that took effect although its reply was lost is not modelled.
- Temporal: replay is taken as given, and every await is any signals followed by any reply or failure; the retry policies of activities are part of the reply.
- The single-event path `project` of the projector, which shares its per-event code with the batch path.
- The `calls` row is created by the projected start event; the API's own inserts and updates of that table, its times included, are not modelled, so a start event is refused here for an organization or agent it names even where the API had stored the same row before.
- Values a column cannot hold and payloads without a needed field are one kind of unreadable event; a record that is no event at all stops its worker at the poll in the source, and here, as an unreadable one, in the projection. Both are read again after every restart.
- Provider failures, turn time-outs, the closing of both queues after them, oversize turns and a manual end of turn: the modelled responses and turns end by themselves or by a cancel.
- Providers that answer the same phrase differently: the token stream is a fixed list, and the speech of a phrase a function of the phrase.
- The windows of time in which a recent response may be restored, or an echo is ignored: a restore is possible at any moment.
- The barge-in coordinator, `classify_interruption`, template rendering, payload normalization and the event-to-topic table: string lookups, or state without a law worth stating.
- `CallWorkflow`, call completion and webhook delivery: their states obey no law beyond their own assignments.
- That every late usage event is adjusted for: finalization reads usage and writes its record on separate connections, and workflow starts follow the commit, so neither is claimed.
- The order in which partitions interleave: it is whatever the workers made it, and the columns that depend on it (a call's status) are fixed only by that order.
- Concurrent outbox publishers: the source takes its row locks outside a transaction, and one publisher is modelled.
- Playback reports of other responses: each is taken to come after its response was fully sent; only this response's may come before.
- Letter case: the statuses of a durable action are taken as the source lowers them.
- Waiting time: what the loops wait between rounds is timed, what activities take is not.
- Session.ConversationRemembers: a completed entry may be followed by an interrupted one for the same response, as in the source.
