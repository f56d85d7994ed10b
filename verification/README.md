# A verified model of the anime player's protocols

A Dafny 4.11 model of the concurrent protocols, event-driven state machines and ordering laws
inside the desktop anime player, with proofs of what they guarantee. `dafny verify dfyconfig.toml`
checks the whole project.

## How it is built

A protocol is a `State`, a `Label` for every atomic step between two lock releases, and a `Step`
function; a disabled step changes nothing, so a list of labels is any interleaving. Histories (what
was published, delivered, accepted, written) are fields of the state. The main results hold for
every list of labels. Accounts kept from the labels alone (`SessionAccount`, `SearchAccount`, the
readings, ledgers and logs) say what a state must be without naming the step functions; progress
theorems say that the goroutines' own steps lead to the end. Beside each protocol stands a class with the fields that the program updates
in place; its methods are proved to change them exactly as the steps do. Loops are methods with
invariants, proved equal to a declarative specification.

| file | what it models |
|---|---|
| `Session.dfy`, `Relay.dfy`, `Tracking.dfy` | the tracked playback session, its event relay, and both together |
| `SessionAccount.dfy`, `RelayDelivery.dfy`, `TrackingProgress.dfy` | the session against an account kept from the labels; what the relay loses and delivers; that what the session owes reaches the app |
| `PlaybackEvents.dfy` | the events they exchange |
| `CheckpointStore.dfy`, `StoredTime.dfy` | the two playback tables and the order-preserving time text |
| `Refresher.dfy`, `RefreshLedger.dfy`, `RefreshProgress.dfy` | the job scheduler with a slot reserved for the user; what its results count; that its runs end |
| `Transfer.dfy`, `ProxyServer.dfy`, `ProxyProgress.dfy`, `ByteRange.dfy` | the stream proxy: transfers, sessions and slots, who is served and that it comes to rest, range checks |
| `SettingsWriter.dfy` | the coalescing settings writer |
| `SeasonCache.dfy`, `SeasonProgress.dfy` | the single-flight season cache; what it keeps and that lookups return |
| `MetadataMatch.dfy`, `MatchHints.dfy` | ranking metadata candidates; the decision from the fields |
| `JsonScan.dfy` | the JSON structure check |
| `Engine.dfy`, `EngineReadings.dfy` | the mpv engine's load, seek and end flags; its reports told from what mpv said |
| `SearchModel.dfy`, `SearchAccount.dfy` | the search screen's model; the screen told from the calls |
| `Conversion.dfy` | longest-match conversion to Traditional Chinese |
| `Follow.dfy` | the follow star |
| `Release.dfy` | versions: parsing, printing, order |
| `Text.dfy`, `Sequences.dfy`, `Sorting.dfy`, `Options.dfy` | strings and decimals, lists, sorting, optional values |

## Where the code does not do what it says

Each of these has a lemma that says exactly when the code does what is meant, and one with a
concrete case in which it does not.

- The checkpoint write-back (`core/playback_tracking.go:386`) is not keyed on the owner. A commit
  between capture and write-back hands the old episode's completed flag to the new one
  (`Session.WriteBackMisplaced`, `Session.CommitWhileSavingMarksNextEpisode`).
- A failed load leaves no trace if and only if none of its events could be claimed by both episodes.
  While the playing episode is being reloaded its events go to the pending load, and a discard drops
  them (`Session.DiscardUndoesLoadExactly`, `Session.FailedReloadLosesEvents`).
- A file-loaded of a replaced file that mpv queues after the next load was issued, or its error after
  a start, ends the new load's waiting. After the file-loaded the new load reports progress before its
  file starts, never reports its start, and can have two terminal events; after the error it is
  reported as failed. A late start alone does no harm (`Engine.ReportsStayExactly`,
  `Engine.WaitingLoadReportedExactly`, `Engine.LateOpeningMisreports`).
- A follow-star read of an anime, answered before the list takes a change of it that was on its way,
  can show the old value until that change lands. It cannot if and only if the list has already
  taken or refused the change, or the change alters nothing (`Follow.LoadsTruthfulExactly`, `Follow.DisturbedLoadMisleads`).
- Candidate ranking is an order only where no text ID lies across two numeric ones of its provider
  (`MetadataMatch.IdsOrderedExactly`, `MetadataMatch.OrderMattersWhenCrossed`).
- Stage numbers of more than nine digits compare as text, unlike section 11 of Semantic Versioning
  2.0.0: the two orders agree up to ten digits and no further, and on a pair exactly where one is
  short, both are equally long, or the shorter is the smaller text (`Release.NumericOrderLimit`,
  `Release.NumericOrderAgreesExactly`, `Release.LongNumbersMisordered`).
- A refused seek also forgets an earlier seek that was still under way
  (`Engine.RefusedSeekUndoneExactly`, `Engine.RefusedSeekForgetsAnother`).

## Model

| member | source | states |
|---|---|---|
| `Tracking.AppReceivesInOrder` | core/playback_tracking.go:443-714 | for every interleaving of loads, player events, snapshots, checkpoints and the relay goroutine, the app receives a subsequence of what was published, owners never decreasing, nothing of an owner after its terminal event, both queues within 32 |
| `Tracking.NothingOfThePendingLoad` | core/playback_tracking.go:284-303 | no event of a pending load reaches the app before the load is committed |
| `TrackingProgress.RunsTogether` | core/playback_tracking.go:443-714 | over every interleaving the session and the relay are each a run of their own steps, and what enters the relay is what the session publishes: all that is proved of either holds of both together |
| `TrackingProgress.AppReceivesAll` | core/playback_tracking.go:443-714 | from every reachable state with the relay running, own steps alone hand all that the session owes to the relay and leave nothing there: each accepted event was delivered, or superseded, evicted, cleared or overtaken by a later one, counted with multiplicity |
| `Relay.DeliveryInOrder` | core/playback_tracking.go:597-714 | over every schedule of publish, run and deliverQueued with owners in order: what is delivered is, in order, a selection of the events whose owner had not ended; terminal last per owner; queues bounded |
| `Relay.RunKeepsInv` | core/playback_tracking.go:597-714 | the relay invariant, with no lost wake-up and the held event droppable exactly by its generation, in every reachable state |
| `Relay.RefusedExactlyWhenEnded` | core/playback_tracking.go:603-611 | the one remembered terminal owner refuses exactly the events whose owner already ended |
| `Relay.TerminalSurvives` | core/playback_tracking.go:597-714 | a queued terminal event is lost only when the relay stops |
| `Relay.TerminalClears` | core/playback_tracking.go:608-619 | a terminal event leaves only the held event and terminal events to deliver |
| `Relay.StaleEventDropped` | core/playback_tracking.go:698-714 | a dequeued event whose owner has ended meanwhile is dropped at the next generation check |
| `Relay.OnlyProgressIsLost` | core/playback_tracking.go:620-650 | a non-terminal event costs at most one queued event, only ever a progress event; it is itself lost only where the queue is full of others |
| `RelayDelivery.HeldDroppedExactly` | core/playback_tracking.go:698-714 | the generation check drops the dequeued event if and only if a terminal event was accepted since it was dequeued, as the labels tell; otherwise it is offered, and the next send delivers it |
| `RelayDelivery.NothingElseIsLost` | core/playback_tracking.go:597-714 | over every run the accepted events are exactly those delivered, held or queued and those that a later publish superseded, evicted or cleared, or that were overtaken; counted with multiplicity |
| `RelayDelivery.ProgressIsCoalesced` | core/playback_tracking.go:620-627 | no two adjacent queued progress events have the same owner |
| `RelayDelivery.EverythingIsDelivered` | core/playback_tracking.go:652-714 | from every reachable state that has not halted, the goroutine by its own steps delivers all that is held and queued, in order, but for a held event that a terminal event overtook |
| `Relay.EventRelay.Publish` | core/playback_tracking.go:597-636 | publish changes the relay exactly as the publish step |
| `Relay.EventRelay.Append` | core/playback_tracking.go:620-634 | queueing: coalesce, append or evict the oldest progress event |
| `Relay.EventRelay.DropProgress` | core/playback_tracking.go:642-650 | removes the first progress event, if any |
| `Relay.EventRelay.TakeNext` | core/playback_tracking.go:659-692 | priority first, then the queue with its generation, else sleep |
| `Relay.EventRelay.CheckGeneration` | core/playback_tracking.go:698-714 | an outdated event is dropped |
| `Relay.EventRelay.Deliver` | core/playback_tracking.go:659-714 | sends the held event |
| `Session.OwnersNeverDecrease` | core/playback_tracking.go:284-303 | the owners handed to publish never decrease |
| `Session.PendingEventsStayBack` | core/playback_tracking.go:443-458 | while a load is pending the relay is given events of the current episode only |
| `Session.CommitPublishesBuffer` | core/playback_tracking.go:284-303 | commit hands over exactly the buffered events, in order, under a larger owner |
| `Session.PromiseIsKept` | core/playback_tracking.go:284-303 | one step keeps what is promised to the relay, adding a commit's buffer or a forwarded event |
| `Session.PromisesAreKept` | core/playback_tracking.go:284-303 | over any run, what was promised stays a prefix of what is promised, and is published once nobody is publishing |
| `Session.CommittedEventsArePublished` | core/playback_tracking.go:284-303 | after any further run in which nobody is publishing any more, the relay was given, in order, what it had before the commit and then every buffered event |
| `Session.PendingBuffer` | core/playback_tracking.go:393-441 | the buffer: at most 32, an ordered selection of what arrived, no two adjacent progress events, the terminal event last |
| `Session.BufferLosesOnlyProgress` | core/playback_tracking.go:420-441 | what the buffer drops when an event is appended |
| `Session.AppendPendingEvent` | core/playback_tracking.go:420-441 | the slice editing equals the buffer function |
| `Session.LoadIsInvisible` | core/playback_tracking.go:257-282 | no concurrent step but a contested event can tell that a load is pending |
| `Session.DiscardUndoesLoad` | core/playback_tracking.go:257-282 | begin, any concurrent steps, discard, for another episode: the result is that of the concurrent steps alone |
| `Session.DiscardUndoesLoadExactly` | core/playback_tracking.go:257-282 | for any episode: the discarded load leaves no trace if and only if no event of the run could be claimed by both episodes |
| `Session.EventDuringLoad` | core/playback_tracking.go:393-418 | an event is treated as without the load if and only if not both episodes could claim it |
| `Session.FailedReloadLosesEvents` | core/playback_tracking.go:257-282 | a failed reload of the playing episode loses an event (counterexample) |
| `Session.SavedIsCurrent` | core/playback_tracking.go:344-391 | persisted never exceeds generation, and when they are equal the last saved checkpoint is the current request, snapshot and completed flag |
| `SessionAccount.SessionAgrees` | core/playback_tracking.go:284-458 | over every run the snapshot is that of the last thing that happened to the episode, told from the labels: its last event, else its last valid reading, else where it was to start; the completed flag, the terminal flag, the generation, the pending buffer and what the relay is owed likewise |
| `SessionAccount.SavedAsTold` | core/playback_tracking.go:344-391 | with nothing unsaved, the store has the episode, the snapshot and the completed flag that the labels tell |
| `SessionAccount.CheckpointDueExactly` | core/playback_tracking.go:393-418 | a load asks for a checkpoint if and only if one of its events was a pause or an end |
| `SessionAccount.AllIsGiven` | core/playback_tracking.go:284-458 | the holder of deliveryMu by its own steps hands the relay all that it is owed |
| `SessionAccount.SaveLeavesNothing` | core/playback_tracking.go:344-391 | a save that goes through leaves nothing unsaved if and only if that was so before, or the episode has its ids and no negative time is shown of it |
| `SessionAccount.StoredExactly` | core/playback_tracking.go:344-391 | the store holds the checkpoint of the last save that succeeded or reached it |
| `Session.TerminalFreezes` | core/playback_tracking.go:305-335 | after a terminal event snapshot and generation stay until the next commit |
| `Session.CompletedSticks` | core/playback_tracking.go:79-83 | an owner's completed flag never goes back |
| `Session.CompletedExactly` | core/playback_tracking.go:362-391 | completed if and only if the owner's own events or readings earned it, or a write-back of an earlier owner put it there |
| `Session.CompletedIsEarned` | core/playback_tracking.go:362-391 | with no commit between capture and write-back, completed if and only if earned |
| `Session.WriteBackMisplaced` | core/playback_tracking.go:382-389 | the write-back changes the flag wrongly if and only if the captured owner is an earlier one, completed, and the present one is not |
| `Session.CommitWhileSavingMarksNextEpisode` | core/playback_tracking.go:344-391 | without the premise the next episode is saved as watched (counterexample) |
| `Session.TrackedSession.BeginPending` | core/playback_tracking.go:270-274 | starts a pending load under the next owner number |
| `Session.TrackedSession.DiscardPending` | core/playback_tracking.go:276-282 | drops the pending load |
| `Session.TrackedSession.CommitPending` | core/playback_tracking.go:284-303 | the pending playback becomes current; reports whether a checkpoint is due |
| `Session.TrackedSession.RefreshSnapshot` | core/playback_tracking.go:305-335 | a valid, changed snapshot is a new generation |
| `Session.TrackedSession.ObserveEvent` | core/playback_tracking.go:393-418 | an event goes to the pending or the current playback, or nowhere |
| `Session.TrackedSession.ForwardObserved` | core/playback_tracking.go:443-458 | an observed event is published unless it belongs to the pending load |
| `Session.TrackedSession.CaptureCheckpoint` | core/playback_tracking.go:357-369 | the locked capture |
| `Session.TrackedSession.StoreCheckpoint` | core/playback_tracking.go:379-381 | the save, with no lock held |
| `Session.TrackedSession.WriteBackCheckpoint` | core/playback_tracking.go:382-389 | the write-back, not keyed on the owner |
| `CheckpointStore.JoinCommutes` | adapters/persistence/sqlite/playback.go:84-105 | merging is commutative |
| `CheckpointStore.JoinAssociates` | adapters/persistence/sqlite/playback.go:84-105 | merging is associative |
| `CheckpointStore.JoinIdempotent` | adapters/persistence/sqlite/playback.go:84-105 | merging is idempotent |
| `CheckpointStore.NoRowIsIdentity` | adapters/persistence/sqlite/playback.go:84-105 | a missing row is the identity |
| `CheckpointStore.TablesHoldLog` | adapters/persistence/sqlite/playback.go:114-182 | after any run both tables hold, per key, the join of the checkpoints since the last removal, and the latest play time |
| `CheckpointStore.SummaryUnique` | adapters/persistence/sqlite/playback.go:84-105 | what a row says is determined by the set of its checkpoints |
| `CheckpointStore.ArrivalOrderIrrelevant` | adapters/persistence/sqlite/playback.go:114-182 | two runs with the same checkpoints for a key, in any order, hold the same rows for it in both tables, last_played_at included |
| `CheckpointStore.LatestCheckpointWins` | adapters/persistence/sqlite/playback.go:114-182 | in terms of times: latest checkpoint, furthest position and longest duration of that time, completed once any was; both tables agree |
| `CheckpointStore.LastPlayedIsLatest` | adapters/persistence/sqlite/playback.go:107-112 | last_played_at is the latest play time |
| `CheckpointStore.CompletedNeverReverts` | adapters/persistence/sqlite/playback.go:114-182 | a completed row stays completed until it is removed |
| `CheckpointStore.RemoveClearsBoth` | adapters/persistence/sqlite/playback.go:235-256 | removing an anime clears its rows in both tables and no others |
| `CheckpointStore.AcceptedExactly` | adapters/persistence/sqlite/playback.go:193-208 | refused for an empty id, a negative time, a timestamp outside the years 1 to 9999 or an unknown anime, and for nothing else |
| `CheckpointStore.Store.SavePlaybackCheckpoint` | adapters/persistence/sqlite/playback.go:114-182 | the transaction: rejects invalid entries, else merges into both tables |
| `CheckpointStore.Store.RemoveHistory` | adapters/persistence/sqlite/playback.go:235-256 | the removal transaction |
| `StoredTime.DecodeEncode` | adapters/persistence/sqlite/time.go:9-29 | decoding what was encoded gives the time back |
| `StoredTime.EncodeKeepsOrder` | adapters/persistence/sqlite/time.go:9-18 | text order is time order, both directions |
| `Refresher.AtMostLimitJobs` | core/refresh.go:57-69 | at most limit jobs run, at most limit - 1 slots are held in the background |
| `Refresher.BackgroundLeavesASlot` | core/refresh.go:144-170 | with every slot taken one of the user's own jobs is among the holders |
| `Refresher.EverythingReturned` | core/refresh.go:100-170 | all tokens are back when no run is active |
| `Refresher.ResultsAddUp` | core/refresh.go:100-140 | failed plus succeeded is the total |
| `Refresher.CloseIsFinal` | core/refresh.go:174-180 | after Close returned no job runs or ever starts |
| `Refresher.LimitIsFixed` | core/refresh.go:57-69 | the limit is at least 2 and never changes |
| `Refresher.AutomaticRefreshesAreSpaced` | core/refresh.go:74-83 | an automatic refresh starts at least an interval after every earlier start of its kind |
| `RefreshLedger.ResultsExactly` | core/refresh.go:100-140 | over every run a returned refresh counts as failed exactly its jobs that ended with an error, and those that never started; the others as successes; counted from the labels |
| `RefreshLedger.RefusedExactly` | core/refresh.go:74-83 | an attempt is refused if and only if it is not forced and an earlier start of its kind is less than an interval ago |
| `RefreshProgress.UncancelledRunsAll` | core/refresh.go:100-170 | a refresh that was neither refused nor cancelled starts every one of its jobs |
| `RefreshProgress.NoneStartsCancelled` | core/refresh.go:142-170 | once its context or the refresher is cancelled, no job of a run starts but one that had passed the last check |
| `RefreshProgress.CancelledGivesUp` | core/refresh.go:144-163 | a waiting run may give up if and only if it was cancelled, and gives back its background token |
| `RefreshProgress.NoDeadlock` | core/refresh.go:100-170 | in every reachable state with an unreturned run some run or job can take a step, although background runs take two tokens |
| `RefreshProgress.RunsReturn` | core/refresh.go:100-170 | from every reachable state all runs return by their own steps, whatever the jobs answer |
| `RefreshProgress.CloseReturns` | core/refresh.go:174-180 | Close returns as soon as every run has |
| `Refresher.RefreshScheduler.Attempt` | core/refresh.go:74-83 | grants and records an attempt |
| `Refresher.RefreshScheduler.Begin` | core/refresh.go:100-110 | a closed refresher fails all jobs at once |
| `Refresher.RefreshScheduler.Acquire` | core/refresh.go:144-162 | background token, then slot; otherwise waits |
| `Refresher.RefreshScheduler.CheckContext` | core/refresh.go:164-169 | no job starts once a context has ended |
| `Refresher.RefreshScheduler.LaunchJob` | core/refresh.go:118-137 | starts the next job |
| `Refresher.RefreshScheduler.FinishJob` | core/refresh.go:131-135 | counts a failure |
| `Refresher.RefreshScheduler.ReleaseSlotOf` | core/refresh.go:163-163 | first half of release |
| `Refresher.RefreshScheduler.ReleaseBackgroundOf` | core/refresh.go:152-156 | second half of release |
| `Refresher.RefreshScheduler.ReturnResult` | core/refresh.go:118-139 | jobs that never started count as failed |
| `Refresher.RefreshScheduler.Close` | core/refresh.go:174-180 | closes the door, then cancels; its wait is AwaitRuns |
| `Refresher.RefreshScheduler.AwaitRuns` | core/refresh.go:174-180 | the wait of Close is over if and only if every run has returned |
| `Transfer.FinishedIsClean` | adapters/playback/proxy/proxy.go:448-501 | once finish returned the body was closed exactly once, the request cancelled, no deadline left |
| `Transfer.ClosedAtMostOnce` | adapters/playback/proxy/proxy.go:156-159 | the body is never closed twice |
| `Transfer.FinishedIsFinal` | adapters/playback/proxy/proxy.go:480-501 | nothing touches the transfer after finish returned |
| `Transfer.WaitIsBounded` | adapters/playback/proxy/proxy.go:461-501 | while finish waits, the interrupting goroutine needs at most four own steps, each enabled, delayed by nobody |
| `Transfer.FinishReturns` | adapters/playback/proxy/proxy.go:461-501 | letting it run makes finish return |
| `Transfer.InterruptTakesEffect` | adapters/playback/proxy/proxy.go:461-478 | once an interrupt has gone through, the request is cancelled, an attached body closed, and nothing can be written until finish has returned |
| `Transfer.AttachedExactly` | adapters/playback/proxy/proxy.go:448-459 | a body that arrives is attached if and only if no interrupt was called before; otherwise it is closed at once |
| `Transfer.TransferEnds` | adapters/playback/proxy/proxy.go:448-501 | from every reachable state the transfer ends by the steps of its own and the interrupting goroutine |
| `Transfer.ActiveTransfer.AttachBody` | adapters/playback/proxy/proxy.go:448-459 | a body that arrives too late is closed at once |
| `Transfer.ActiveTransfer.BeginInterrupt` | adapters/playback/proxy/proxy.go:461-472 | the locked part of interrupt |
| `Transfer.ActiveTransfer.ContinueInterrupt` | adapters/playback/proxy/proxy.go:472-478 | cancel, deadline, close, signal |
| `Transfer.ActiveTransfer.BeginFinish` | adapters/playback/proxy/proxy.go:480-492 | the locked part of finish; a repeated call returns at once |
| `Transfer.ActiveTransfer.ContinueFinish` | adapters/playback/proxy/proxy.go:492-501 | cancel, close, wait, clear the deadline |
| `ProxyServer.StreamsAccounted` | adapters/playback/proxy/proxy.go:580-671 | both stream semaphores hold exactly what requests in their stream phases took; with none there, all are free |
| `ProxyServer.RevokeWaits` | adapters/playback/proxy/proxy.go:387-440 | when revoke returns no request of the session is in flight, ever again |
| `ProxyServer.EveryTransferInterrupted` | adapters/playback/proxy/proxy.go:387-446 | no registered transfer slips past a revocation |
| `ProxyServer.CloseIsFinal` | adapters/playback/proxy/proxy.go:503-566 | after Close returned all requests are done, its sessions revoked, all streams free, nothing admitted |
| `ProxyProgress.AdmittedExactly` | adapters/playback/proxy/proxy.go:531-566 | a request is admitted if and only if its session is still registered, told from the labels, and has not expired |
| `ProxyProgress.StreamsGivenExactly` | adapters/playback/proxy/proxy.go:597-609 | a request gets its server stream if and only if fewer than the limit are held, and then its session stream likewise |
| `ProxyProgress.StreamsAreBounded` | adapters/playback/proxy/proxy.go:597-609 | never more streams than the limits |
| `ProxyProgress.AttachedExactly` | adapters/playback/proxy/proxy.go:432-440 | a transfer is registered if and only if revoke was not called for its session |
| `ProxyProgress.ListedAtRevoke` | adapters/playback/proxy/proxy.go:387-405 | revoke lists exactly the transfers registered with its session when it begins |
| `ProxyProgress.OnlyListedInterrupted` | adapters/playback/proxy/proxy.go:387-408 | and no other transfer is interrupted |
| `ProxyProgress.ComesToRest` | adapters/playback/proxy/proxy.go:387-671 | from every reachable state all requests end and all revocations return by their own steps |
| `ProxyProgress.CloseReturns` | adapters/playback/proxy/proxy.go:503-529 | and then Close returns |
| `ProxyProgress.CloseRevokesAll` | adapters/playback/proxy/proxy.go:503-529 | when Close has returned, every session that was registered when it was called is revoked |
| `ProxyProgress.MadeExactly` | adapters/playback/proxy/proxy.go:235-278 | a session is made unless the server was closed |
| `ProxyServer.StreamServer.Handle` | adapters/playback/proxy/proxy.go:531-566 | admits or refuses a request |
| `ProxyServer.StreamServer.AcquireStreams` | adapters/playback/proxy/proxy.go:597-609 | server slot, then session slot, or neither |
| `ProxyServer.StreamServer.AttachTransfer` | adapters/playback/proxy/proxy.go:432-440 | registers a transfer unless revoked |
| `ProxyServer.StreamServer.ReleaseStreams` | adapters/playback/proxy/proxy.go:608-609 | returns both slots |
| `ProxyServer.StreamServer.BeginRevocation` | adapters/playback/proxy/proxy.go:387-407 | marks the session and lists its transfers; a repeated revoke changes nothing |
| `ProxyServer.StreamServer.AwaitRevocation` | adapters/playback/proxy/proxy.go:387-395 | a repeated revoke may return if and only if the first one is done, and then nothing of the session is in flight |
| `ProxyServer.StreamServer.EndRevocation` | adapters/playback/proxy/proxy.go:412-420 | after the wait, clears the session |
| `ByteRange.AcceptsExactlyRanges` | adapters/playback/proxy/proxy.go:745-786 | a header is accepted as a range if and only if it is a text of that range |
| `ByteRange.NoRangeExactly` | adapters/playback/proxy/proxy.go:745-748 | exactly the missing header asks for no range |
| `ByteRange.ParsePrint` | adapters/playback/proxy/proxy.go:745-786 | parsing a printed closed, open or suffix range gives it back |
| `ByteRange.ContentRangeBounds` | adapters/playback/proxy/proxy.go:829-845 | a content range lies in its size, and its byte count does not overflow int64 |
| `ByteRange.AcceptsExactlyContentRanges` | adapters/playback/proxy/proxy.go:829-845 | a content range is accepted if and only if the text is "bytes " first "-" last "/" size with numbers of 1 to 19 digits in int64, first at most last and last below size |
| `ByteRange.ParsePrintContentRange` | adapters/playback/proxy/proxy.go:829-845 | parsing a printed content range gives it back |
| `ByteRange.MatchesMeans` | adapters/playback/proxy/proxy.go:812-827 | matches if and only if the bytes are wanted, from the first wanted one; a suffix whole |
| `ByteRange.PassesExactlyAnswers` | adapters/playback/proxy/proxy.go:788-810 | a 206 answer passes if and only if it answers the request with agreeing lengths |
| `ByteRange.PassedAnswerFitsHeader` | adapters/playback/proxy/proxy.go:745-810 | from the player's header to the answer it is given |
| `ByteRange.IntegersExactly` | adapters/playback/proxy/proxy.go:801-806 | a stated length is read exactly from an optional sign and digits whose value fits int64 |
| `ByteRange.WithoutRange` | adapters/playback/proxy/proxy.go:788-791 | without a requested range exactly a 200 answer without a content range passes |
| `SettingsWriter.WritesInOrder` | apps/desktop/fltkhome/settings.go:66-121 | written values are accepted ones in order, one worker at a time, a pending value has a worker, done closed once |
| `SettingsWriter.CloseReturnsLastResult` | apps/desktop/fltkhome/settings.go:81-94 | when close is past done the last accepted value is written and its error returned |
| `SettingsWriter.ClosedForGood` | apps/desktop/fltkhome/settings.go:66-94 | nothing is accepted or written afterwards |
| `SettingsWriter.AcceptedExactly` | apps/desktop/fltkhome/settings.go:66-78 | what is accepted is exactly the values saved before the first close, in order |
| `SettingsWriter.LastSaveIsWritten` | apps/desktop/fltkhome/settings.go:66-121 | the worker by its own steps, as many as it has left, writes the last accepted value and lets close return |
| `SettingsWriter.ErrorsAreTheWrites` | apps/desktop/fltkhome/settings.go:96-121 | the results are those of the writes, in order |
| `SettingsWriter.Writer.Save` | apps/desktop/fltkhome/settings.go:66-78 | accepts unless closed; starts a worker if none |
| `SettingsWriter.Writer.BeginClose` | apps/desktop/fltkhome/settings.go:81-94 | close before its wait |
| `SettingsWriter.Writer.TakePending` | apps/desktop/fltkhome/settings.go:96-109 | the locked top of the worker loop |
| `SettingsWriter.Writer.WriteValue` | apps/desktop/fltkhome/settings.go:111-111 | the write, with no lock held |
| `SettingsWriter.Writer.RecordError` | apps/desktop/fltkhome/settings.go:112-114 | keeps the error of the write |
| `SeasonCache.SingleFlight` | adapters/metadata/bangumi/bangumi.go:163-195 | at most one fetch per season in flight, known to the cache |
| `SeasonCache.NoFailureCached` | adapters/metadata/bangumi/bangumi.go:163-195 | a finished entry is never a failure |
| `SeasonCache.EvictionKeepsUnfinished` | adapters/metadata/bangumi/bangumi.go:163-195 | making room never removes an unfinished fetch |
| `SeasonCache.DropRemovesOwnEntry` | adapters/metadata/bangumi/bangumi.go:163-195 | the delete after a failure removes exactly its own entry |
| `SeasonCache.LookupsReturnTheirFetch` | adapters/metadata/bangumi/bangumi.go:141-159 | a lookup returns the outcome of a finished fetch of its season, or its own cancellation |
| `SeasonCache.WaiterReceivesItsFetch` | adapters/metadata/bangumi/bangumi.go:163-195 | a waiter gets the result of the fetch it joined |
| `SeasonProgress.EntryStays` | adapters/metadata/bangumi/bangumi.go:163-195 | an entry leaves the cache only when its fetch failed, or, finished, to make room for another season beside 16 or more |
| `SeasonProgress.SharedExactly` | adapters/metadata/bangumi/bangumi.go:163-185 | a lookup of a cached season joins its fetch and starts none; any other starts one, after making room |
| `SeasonProgress.LookupsReturn` | adapters/metadata/bangumi/bangumi.go:141-195 | from every reachable state all lookups return by their own steps once fetches end uncancelled: every unfinished fetch has an owner |
| `SeasonProgress.OutcomeExactly` | adapters/metadata/bangumi/bangumi.go:141-195 | owner and waiters answer with the outcome of their fetch, and ask again after somebody else was cancelled |
| `SeasonProgress.LookupsAreAsked` | adapters/metadata/bangumi/bangumi.go:141-195 | over every run there is a lookup for each that was asked for, with its season, ended exactly since its own context ended |
| `SeasonProgress.EndedMayLeave` | adapters/metadata/bangumi/bangumi.go:176-185 | a waiting lookup returns its own cancellation at once if and only if its context has ended |
| `SeasonCache.Client.ShareSeason` | adapters/metadata/bangumi/bangumi.go:163-185 | joins a fetch or starts one, making room first |
| `SeasonCache.Client.EvictFinished` | adapters/metadata/bangumi/bangumi.go:167-173 | in a full cache, removes every finished entry |
| `SeasonCache.Client.DropFailed` | adapters/metadata/bangumi/bangumi.go:187-192 | deletes a failed entry |
| `SeasonCache.Client.FinishFetch` | adapters/metadata/bangumi/bangumi.go:186-195 | publishes the result |
| `MetadataMatch.ArrivalOrderIrrelevant` | core/metadata_match.go:52-83 | with distinct refs and orderable IDs every permutation of the candidates gives the same decision and candidate |
| `MetadataMatch.IdsOrderedExactly` | core/metadata_match.go:170-191 | the ID order of a provider is a strict total order if and only if no text ID lies across two numeric ones |
| `MetadataMatch.OrderMattersWhenCrossed` | core/metadata_match.go:170-191 | otherwise the result can depend on the order ("9", "10", "1a") |
| `MetadataMatch.ProviderIdsOrdered` | adapters/metadata/internal/provider.go:78-92 | IDs that the providers accept meet the premise |
| `MetadataMatch.ProviderIdExactly` | adapters/metadata/internal/provider.go:78-92 | the provider IDs are exactly the positive int32 numbers as they are printed |
| `MetadataMatch.ParseId` | adapters/metadata/internal/provider.go:78-92 | accepts exactly the provider IDs and returns their value |
| `MetadataMatch.IdOrderIsNumeric` | core/metadata_match.go:183-187 | on provider IDs the order is the numeric one |
| `MetadataMatch.OlderEntryFirst` | core/metadata_match.go:170-187 | of equally scored records of one provider the smaller ID comes first |
| `MetadataMatch.RankingUnique` | core/metadata_match.go:58-64 | the ranking does not depend on the order of the candidates |
| `MetadataMatch.WinnerIsFirst` | core/metadata_match.go:52-83 | the chosen candidate comes before every other scored one |
| `MetadataMatch.FullMatchWinsCleanly` | core/metadata_match.go:32-41 | the only full match among weaker ones with no better hints is never in conflict: accepted if and only if its hints are not negative or another provider confirms it, else proposed, and dropped only below the medium score |
| `MatchHints.TextScoreExactly` | core/metadata_match.go:322-342 | 70, 60, 52 or 0 points, by what two names have in common |
| `MatchHints.TitleScoreExactly` | core/metadata_match.go:93-168 | what the names of a candidate score: 70 for the same name; 60 for nearly the same, an alias, or a name of the series as another candidate has it; 52 for a name within the other |
| `MatchHints.KeyExactly` | core/metadata_match.go:266-279 | a key is the words of the name, joined, without an x that stands between two words |
| `MatchHints.DecisionExactly` | core/metadata_match.go:52-83 | without the ranking: the decision on any candidates is that on the one no other comes before, by its points, its rivals within 8 points and its witnesses at other providers, from the fields and with every number written out |
| `MatchHints.OthersAreNotMatched` | core/metadata_match.go:52-91 | without a name, without candidates or with more than 100 nothing is chosen |
| `MatchHints.FirstExists` | core/metadata_match.go:52-83 | one candidate comes before all others whenever any is kept |
| `MatchHints.SoleCandidate` | core/metadata_match.go:52-83 | a single candidate is judged by its points alone |
| `MatchHints.YearsDecide` | core/metadata_match.go:344-374 | a single full match with years alone is accepted if they are equal, adjacent or unknown, and only proposed if they are more than one apart |
| `MatchHints.SeasonsDecide` | core/metadata_match.go:344-374 | with seasons alone it is accepted if and only if they are equal or both unknown |
| `MatchHints.EpisodesDecide` | core/metadata_match.go:344-374 | with episode counts alone it is accepted unless both are known and differ |
| `MatchHints.TwoAgainst` | core/metadata_match.go:344-374 | two fields against a full match rule it out, but for a season on one side with another episode count |
| `MatchHints.CloserYearFirst` | core/metadata_match.go:344-374 | of two candidates alike but for ref and year, the query's year ranks before an adjacent or unknown one, and that before one further off |
| `MatchHints.CloserSeasonFirst` | core/metadata_match.go:344-374 | the same for seasons: equal, none, one side only, different |
| `MatchHints.CloserEpisodesFirst` | core/metadata_match.go:344-374 | the same for episode counts: equal, unknown, different |
| `MatchHints.TwoOfOneProvider` | core/metadata_match.go:202-215 | two records of one provider that differ in episode count: the better is accepted only if the other's count is wrong, else neither |
| `MatchHints.PreferredProviders` | core/metadata_match.go:394-405 | of equal scores, Bangumi before AniList before any other |
| `MatchHints.TwoProvidersAgree` | core/metadata_match.go:193-215 | two providers' records alike in everything else confirm each other |
| `MatchHints.ArcsExactly` | core/metadata_match.go:202-229 | two arcs of a season at one provider are in conflict if and only if one is a recap or an extra |
| `MatchHints.SpecialExactly` | core/metadata_match.go:228-229 | which arcs are recaps or extras: those that contain one of the words, in any case |
| `MetadataMatch.TextScoreSymmetric` | core/metadata_match.go:283-342 | where no subtitle is blank, which of two names is the query does not matter |
| `MetadataMatch.TextScoreSymmetricExactly` | core/metadata_match.go:283-342 | of two nonempty names, which is the query matters if and only if their main titles differ in particles only, one has no subtitle and the other's is blank |
| `MetadataMatch.BlankSubtitleMisleads` | core/metadata_match.go:307-342 | a particle and a blank subtitle behind "X" score 60 as the query for "X", and 0 the other way round (counterexample) |
| `MetadataMatch.MatchMetadata` | core/metadata_match.go:52-83 | score, sort in place, decide |
| `MetadataMatch.ScoreCandidates` | core/metadata_match.go:93-115 | scores the candidates that have a ref and match |
| `MetadataMatch.CandidateTitleScore` | core/metadata_match.go:127-133 | a candidate named as the series scores at least a weak match |
| `MetadataMatch.SeriesNames` | core/metadata_match.go:141-158 | the names are exactly those of candidates with a matching alias, without repetition |
| `MetadataMatch.BestTitleScore` | core/metadata_match.go:249-262 | best of titles and aliases |
| `MetadataMatch.SeriesMatches` | core/metadata_match.go:161-168 | a candidate named as one of the series names |
| `MetadataMatch.HasConflict` | core/metadata_match.go:202-215 | found if and only if some other candidate conflicts |
| `MetadataMatch.HasCrossCheck` | core/metadata_match.go:193-200 | found if and only if some other provider confirms |
| `Sorting.SortStable` | core/metadata_match.go:62-64 | in-place insertion sort equals its specification |
| `Sorting.SortedStable` | core/metadata_match.go:62-64 | elements none of which comes before another keep their order |
| `Sorting.SortedAscending` | core/metadata_match.go:62-64 | distinct elements under a strict order come out ascending |
| `JsonScan.AcceptsExactlyObjects` | adapters/internal/jsonscan/jsonscan.go:18-79 | accepted if and only if the tokens encode one object with unique names throughout, nothing following, nothing too deep |
| `JsonScan.EncodingIsUnambiguous` | adapters/internal/jsonscan/jsonscan.go:26-79 | a token stream encodes at most one value |
| `JsonScan.Scan` | adapters/internal/jsonscan/jsonscan.go:26-79 | scanValue consumes exactly the value, with the mutual recursion shown to end |
| `JsonScan.ScanObject` | adapters/internal/jsonscan/jsonscan.go:42-64 | the member loop with its set of names seen |
| `JsonScan.ScanArray` | adapters/internal/jsonscan/jsonscan.go:65-74 | the item loop |
| `JsonScan.CheckObject` | adapters/internal/jsonscan/jsonscan.go:18-24 | one object and then the end of input |
| `Engine.EachLoadReportsOnce` | apps/desktop/fltkengine/engine_windows.go:593-687 | for every sequence of events: per load the start stages come in order, once each, and at most one failure |
| `Engine.FlagsImply` | apps/desktop/fltkengine/engine_windows.go:300-342 | pendingStarted implies pending, seekStarted implies seekPending |
| `Engine.PendingIsSilent` | apps/desktop/fltkengine/engine_windows.go:593-744 | while a load is pending nothing is reported for it and snapshots show its start; the step that ends this reports its opening, or its own failure after its start |
| `Engine.EndedStaysAtEnd` | apps/desktop/fltkengine/engine_windows.go:412-455 | after a normal end snapshots and ticks stay at the end until the next load |
| `Engine.ReportsStayWithTheirLoad` | apps/desktop/fltkengine/engine_windows.go:593-744 | where only its own file lets a waiting load go, every report of a load stems from its own file, and each load has one notice and one terminal event at most |
| `Engine.ReportsStayExactly` | apps/desktop/fltkengine/engine_windows.go:593-744 | in runs with nonzero generations nothing is ever misreported, now or with the next tick, if and only if every waiting load is let go by its own file |
| `Engine.StaleEventsHarmlessExactly` | apps/desktop/fltkengine/engine_windows.go:605-618 | events leave a load waiting, with nothing reported, if and only if there is no file-loaded among them and no error after a start |
| `Engine.WaitingLoadReportedExactly` | apps/desktop/fltkengine/engine_windows.go:593-744 | for every waiting load with a generation, events and a tick after them report something for it if and only if they do not leave it waiting |
| `Engine.LateOpeningMisreports` | apps/desktop/fltkengine/engine_windows.go:611-618 | a late file-loaded: progress before the start, no start reported, two terminal events (counterexample) |
| `Engine.TargetKeptExactly` | apps/desktop/fltkengine/engine_windows.go:510-572 | until the seek begins the cached target is never overwritten, and forgotten if and only if a pending load starts |
| `Engine.SeekLands` | apps/desktop/fltkengine/engine_windows.go:558-572 | through any events up to the seek event and any that move nothing up to the restart: the position kept is the target, unless a pending load started in between, and snapshots of a playing file show it |
| `Engine.RefusedSeekUndoneExactly` | apps/desktop/fltkengine/engine_windows.go:857-873 | a refused seek is undone if and only if no other was under way |
| `Engine.RefusedSeekForgetsAnother` | apps/desktop/fltkengine/engine_windows.go:857-873 | a refused seek forgets one that was under way (counterexample) |
| `EngineReadings.CourseIsKept` | apps/desktop/fltkengine/engine_windows.go:593-687 | over every run: whether a load waits, whether its start was seen and which stages are reported is what the labels tell |
| `EngineReadings.SeekIsKept` | apps/desktop/fltkengine/engine_windows.go:558-572 | over every run: whether a seek is asked for or begun is what the labels tell |
| `EngineReadings.ToldIsKept` | apps/desktop/fltkengine/engine_windows.go:510-556 | over every run: position, duration and pause are those mpv last gave, but for positions that predate a seek; a seek that mpv took goes to the named place, from the start or from here, within the file |
| `EngineReadings.ShownIsKept` | apps/desktop/fltkengine/engine_windows.go:689-744 | over every run: what is shown is what the last tick, snapshot or end told |
| `EngineReadings.MarksAreReported` | apps/desktop/fltkengine/engine_windows.go:593-687 | a load is marked as failed or ended if and only if that was reported |
| `EngineReadings.EofExactly` | apps/desktop/fltkengine/engine_windows.go:576-661 | an eof of the current file is a normal end if and only if its length is positive and at most 30 seconds are left by what mpv last told; else a failure, with a notice unless one was given |
| `EngineReadings.OtherEndsExactly` | apps/desktop/fltkengine/engine_windows.go:627-685 | any other end is a failure for an error and a stop for the rest |
| `EngineReadings.TickExactly` | apps/desktop/fltkengine/engine_windows.go:689-744 | what a tick reports, and that it reports nothing while the load waits or has failed |
| `EngineReadings.SnapshotExactly` | apps/desktop/fltkengine/engine_windows.go:412-455 | what a snapshot answers |
| `Engine.Engine.Reload` | apps/desktop/fltkengine/engine_windows.go:300-342 | Load, with the events it drains |
| `Engine.Engine.ChangeProperty` | apps/desktop/fltkengine/engine_windows.go:510-546 | applyProperty |
| `Engine.Engine.ProgressSeek` | apps/desktop/fltkengine/engine_windows.go:558-572 | advanceSeek |
| `Engine.Engine.HandleEvent` | apps/desktop/fltkengine/engine_windows.go:599-662 | one round of pollEvents |
| `Engine.Engine.CloseFile` | apps/desktop/fltkengine/engine_windows.go:627-659 | the locked part of the round for an end-file event |
| `Engine.Engine.JudgeEnd` | apps/desktop/fltkengine/engine_windows.go:576-591 | normal end or cut short |
| `Engine.Engine.HandleEnd` | apps/desktop/fltkengine/engine_windows.go:627-685 | what an end-file event reports |
| `Engine.Engine.Report` | apps/desktop/fltkengine/engine_windows.go:689-744 | tick after its polling |
| `Engine.Engine.SeekTo` | apps/desktop/fltkengine/engine_windows.go:857-873 | seek, with the restore when it is refused |
| `Engine.Engine.CacheSeekTarget` | apps/desktop/fltkengine/engine_windows.go:841-855 | the target: relative or absolute, clamped |
| `Engine.Engine.TakeSnapshot` | apps/desktop/fltkengine/engine_windows.go:412-455 | what a snapshot reads and stores |
| `SearchModel.LoadingExactly` | apps/desktop/fltkhome/search_model.go:140-152 | phase Loading if and only if the active request is current |
| `SearchModel.TakenExactly` | apps/desktop/fltkhome/search_model.go:207-248 | from begin to finish the answer is taken if and only if no call in between disturbed it |
| `SearchModel.UnwantedAnswerIgnored` | apps/desktop/fltkhome/search_model.go:154-222 | an unwanted answer changes nothing but that the request is over |
| `SearchModel.AnswersMatchTheScreen` | apps/desktop/fltkhome/search_model.go:172-205 | a taken search answer is for the query shown, a shown detail is the previewed item's |
| `SearchModel.CatalogExactly` | apps/desktop/fltkhome/search_model.go:293-327 | items are the latest of each ID of everything answered, strictly sorted; results exactly the shown part in order; the selection among them |
| `SearchModel.StaleForGood` | apps/desktop/fltkhome/search_model.go:220-248 | a request once stale is never taken |
| `SearchModel.ClosedForGood` | apps/desktop/fltkhome/search_model.go:231-237 | after close nothing begins and the items stay |
| `SearchModel.MoveToPageLands` | apps/desktop/fltkhome/search_model.go:258-264 | a page move lands on the first item of the page asked for, clamped |
| `SearchModel.PagesCover` | apps/desktop/fltkhome/search_model.go:266-284 | the pages partition the results |
| `SearchAccount.ScreenAgrees` | apps/desktop/fltkhome/search_model.go:51-248 | over every run of calls: whether a request is under way, what it asks, whether its answer is still wanted, what the screen says, shows and has queued, and what was answered, is what the calls tell |
| `SearchAccount.ListedExactly` | apps/desktop/fltkhome/search_model.go:293-316 | the list holds of every ID the item answered last, and nothing else; what counts as answered is told from the calls |
| `SearchAccount.ShownExactly` | apps/desktop/fltkhome/search_model.go:318-327 | an item is shown if and only if the trimmed query is empty or occurs in one of its names, in lower case |
| `SearchAccount.PageSelectionExactly` | apps/desktop/fltkhome/search_model.go:258-264 | moving by pages selects the first result of that page, or of the outermost one in that direction |
| `SearchAccount.SelectionExactly` | apps/desktop/fltkhome/search_model.go:250-256 | moving the selection stops at either end, a new query selects the first result, anything else leaves the selection as long as it exists |
| `SearchModel.Model.MergeItems` | apps/desktop/fltkhome/search_model.go:293-316 | merge through a map and a sort equals the sorted listing |
| `SearchModel.Model.FilterResults` | apps/desktop/fltkhome/search_model.go:318-327 | rebuilds the results and clamps the selection |
| `SearchModel.Model.ChangeQuery` | apps/desktop/fltkhome/search_model.go:62-76 | setQuery |
| `SearchModel.Model.BeginRequest` | apps/desktop/fltkhome/search_model.go:140-152 | begin |
| `SearchModel.Model.StartLibrary` | apps/desktop/fltkhome/search_model.go:78-83 | beginLibrary |
| `SearchModel.Model.StartSearch` | apps/desktop/fltkhome/search_model.go:85-90 | beginSearch |
| `SearchModel.Model.StartDetail` | apps/desktop/fltkhome/search_model.go:92-103 | beginDetail |
| `SearchModel.Model.QueueRemote` | apps/desktop/fltkhome/search_model.go:105-110 | queueSearch |
| `SearchModel.Model.QueuePreview` | apps/desktop/fltkhome/search_model.go:112-125 | queueDetail |
| `SearchModel.Model.TakeQueued` | apps/desktop/fltkhome/search_model.go:127-138 | takePending |
| `SearchModel.Model.FinishRequest` | apps/desktop/fltkhome/search_model.go:207-222 | finishRequest and current |
| `SearchModel.Model.EndLibrary` | apps/desktop/fltkhome/search_model.go:154-170 | finishLibrary |
| `SearchModel.Model.EndSearch` | apps/desktop/fltkhome/search_model.go:172-189 | finishSearch |
| `SearchModel.Model.EndDetail` | apps/desktop/fltkhome/search_model.go:191-205 | finishDetail |
| `SearchModel.Model.CancelRequest` | apps/desktop/fltkhome/search_model.go:224-229 | cancel |
| `SearchModel.Model.Shut` | apps/desktop/fltkhome/search_model.go:231-237 | close |
| `SearchModel.Model.SelectBy` | apps/desktop/fltkhome/search_model.go:250-256 | moveSelection |
| `SearchModel.Model.TurnPage` | apps/desktop/fltkhome/search_model.go:258-264 | movePage |
| `SearchModel.Model.VisibleResults` | apps/desktop/fltkhome/search_model.go:266-280 | the shown page holds the selected result |
| `Conversion.Convert` | adapters/metadata/bangumi/traditional.go:66-86 | convert equals the declarative rewriting |
| `Conversion.RewritesPieces` | adapters/metadata/bangumi/traditional.go:66-86 | the rewriting replaces the pieces of the one leftmost-longest cut of the text |
| `Conversion.PiecesAreLeftmostLongest` | adapters/metadata/bangumi/traditional.go:66-86 | that cut exists for every text |
| `Conversion.BoundHidesNothing` | adapters/metadata/bangumi/traditional.go:70-78 | looking only up to maxLength never hides a key |
| `Conversion.FirstLineWins` | adapters/metadata/bangumi/traditional.go:25-50 | exactly the usable keys are loaded, earlier lines and files winning |
| `Conversion.FirstValueExactly` | adapters/metadata/bangumi/traditional.go:25-50 | a key is rewritten as the first of its values, what is before the first space |
| `Conversion.LoadedIsBounded` | adapters/metadata/bangumi/traditional.go:40-44 | maxLength is the length of the longest key |
| `Conversion.LoadDictionary` | adapters/metadata/bangumi/traditional.go:25-50 | the scanning loops equal the specification |
| `Conversion.KeylessTextUnchanged` | adapters/metadata/bangumi/traditional.go:66-86 | a text without keys is unchanged |
| `Conversion.ToTraditional` | adapters/metadata/bangumi/traditional.go:54-63 | the chain of dictionaries, each over the whole text |
| `Follow.OddWhileChanging` | apps/desktop/player_follow.go:22-34 | changes is odd if and only if a toggle is in flight |
| `Follow.ShownIsStored` | apps/desktop/player_follow.go:38-79 | a shown star is the stored state, except while the list has a change the screen does not know of yet |
| `Follow.LandedChangeIsShown` | apps/desktop/player_follow.go:63-78 | that exception ends when the change lands |
| `Follow.PlayingExactly` | apps/desktop/player_follow.go:30-44 | over every run: which anime plays, and whether a read for it failed, is what the labels tell |
| `Follow.HiddenAtFirst` | apps/desktop/player_follow.go:30-44 | opening an anime hides the star and begins a read |
| `Follow.FailedReadChangesNothing` | apps/desktop/player_follow.go:30-44 | a failed read leaves the star as it is |
| `Follow.PressExactly` | apps/desktop/player_follow.go:46-76 | a press asks for the opposite of what is shown: if the list takes it, list and star have it; if not, both stay and the list is read again |
| `Follow.PressIgnored` | apps/desktop/player_follow.go:46-50 | while a change is on its way a press does nothing |
| `Follow.SettledStar` | apps/desktop/player_follow.go:38-79 | with nothing in flight the star shows the stored state, unless a read failed |
| `Follow.UndisturbedLoadIsTrue` | apps/desktop/player_follow.go:38-49 | a load that began with no change of its anime in flight never shows a wrong value, whatever answers are in hand |
| `Follow.LoadsTruthfulExactly` | apps/desktop/player_follow.go:38-79 | with an unanswered read of the playing anime and no wrong answer in hand, no run without the begin or end of a change can show a wrong value if and only if no change is in flight that the list has yet to take and that alters it |
| `Follow.DisturbedLoadMisleads` | apps/desktop/player_follow.go:38-49 | one that began during such a change can (counterexample) |
| `Follow.PlayerFollow.LoadStar` | apps/desktop/player_follow.go:38-41 | load |
| `Follow.PlayerFollow.Toggle` | apps/desktop/player_follow.go:52-57 | toggle begins unless one is in flight |
| `Follow.PlayerFollow.UpdateAfterLoad` | apps/desktop/player_follow.go:43-47 | the update that ends a load |
| `Follow.PlayerFollow.UpdateAfterChange` | apps/desktop/player_follow.go:65-78 | the update that ends a toggle |
| `Release.Parse` | internal/release/release.go:24-48 | succeeds if and only if the text has the documented form, and returns what is written there |
| `Release.ParseToString` | internal/release/release.go:52-58 | parsing the printed form of a parsed version gives that version and no other |
| `Release.OnlyReading` | internal/release/release.go:24-48 | a text has at most one reading |
| `Release.Compare` | internal/release/release.go:64-84 | -1, 0 or 1 if and only if older, same or newer |
| `Release.OlderTransitive` | internal/release/release.go:64-84 | older is transitive |
| `Release.OlderIrreflexive` | internal/release/release.go:64-84 | no version is older than itself |
| `Release.OlderTotal` | internal/release/release.go:64-84 | neither is older if and only if they are the same version |
| `Release.SameVersionCongruent` | internal/release/release.go:64-84 | same versions compare alike with every other |
| `Release.NumbersDecide` | internal/release/release.go:64-84 | different numbers decide, major first; a version with a stage is older than the same one without |
| `Release.StagesDecide` | internal/release/release.go:64-98 | the first identifiers that differ decide: numbers of at most nine digits by value, a number before a text, texts by their characters; a stage is older than one that continues it |
| `Release.SectionElevenExample` | internal/release/release.go:64-98 | the example chain of section 11.4 of Semantic Versioning 2.0.0 |
| `Release.SameStage` | internal/release/release.go:86-98 | stages are the same if and only if equal up to leading zeros in their numbers |
| `Release.CompareIdentifier` | internal/release/release.go:86-98 | numbers numerically and below text, text alphabetically |
| `Release.NumericOrderLimit` | internal/release/release.go:100-111 | numeric identifiers compare by value for all lengths up to n if and only if n is at most 10 |
| `Release.LongNumbersMisordered` | internal/release/release.go:86-111 | 10000000000 comes before 9999999999 (counterexample) |
| `Release.NumericOrderAgreesExactly` | internal/release/release.go:86-111 | two numeric identifiers compare by value if and only if one has at most nine digits, both are equally long, or the shorter one is also the smaller text |
| `Release.IdentifierCharExactly` | internal/release/release.go:113-123 | the characters of an identifier: digits, ASCII letters and the dash |
| `Release.ParseNumber` | internal/release/release.go:100-111 | accepts exactly 1 to 9 digits |
| `Release.ValidIdentifier` | internal/release/release.go:113-123 | accepts exactly the identifiers |

## Left out

- Widgets, drawing, focus, OpenGL, mpv and libmpv calls: foreign code with no law to state. Of mpv only the events remain.
- HTTP, DNS, redirects, cookies, tokens, HTML scraping and provider field mapping: not part of this model.
- SQL text, migrations and file locks: the store is two maps updated atomically per transaction, without corrupt rows; an identity is valid if it is not empty.
- Clocks, timeouts and contexts: they are labels that may happen at any time. That something ends is claimed as the existence of a run of the goroutines' own steps to the end.
- The closing of the tracked session and its run loop's tickers: stopping the relay is the label `Halt`.
- Floating point: the watched threshold is `10 * position >= 9 * duration`; mpv's seconds are integers, and the engine's positions count seconds.
- Errors of the raw player when a snapshot is read: the tracked session sees the absence of a reading.
- StoredTime.DecodeEncode: reading is for the fixed layout that is written; the standard parser also takes one-digit hours and a comma before the fraction. Times are UTC calendar fields.
- The proxy's session limit, the idle timer and the accept loop's own wait-group entry are not modelled; a `once.Do` that blocks is one atomic step.
- JsonScan.Scan: the standard decoder's own grammar errors are one `Bad` token; numbers and literals are opaque.
- The season and year checks before the season cache, and what a listing contains.
- MetadataMatch.MatchMetadata: titles, aliases and seasons arrive normalized (`core/metadata_normalize.go` is not part of this model). Case folding knows ASCII letters and the few other letters that fold to them.
- Sorting.SortStable: the standard library inserts up to 20 elements as here and merges longer lists; under the strict orders proved for its callers the result is the same. The counterexample has three elements.
- SearchModel.Model.MergeItems: lower case covers ASCII letters and the few others whose lower case is ASCII; every law holds for any such map.
- The search screen's own writes to the model's phase and preview when the service is missing, and its direct selection of a visible row.
- Conversion.Convert: texts are sequences of valid runes; invalid UTF-8 and failing file reads are not modelled.
- Engine.Engine.HandleEvent: handlers are taken to be set; video height and diagnostics properties are one `OtherChange`. The engine's closing is not modelled.
- The follow list is edited by the player only, and a change that fails leaves it as it was.
- Failure logging, DTO conversion, settings names and UI text: only easy members.
