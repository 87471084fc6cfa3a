# Reldex event protocol: a Dafny model

Reldex keeps stateful database sessions. Each session has one worker thread, and everything a session
has to say reaches the user interface through one outbound event queue. This project models that
protocol and what stands on both ends of it, and proves what its documentation promises over every
run: how many events can be waiting, that every accepted request gets one reply, that an end is
announced once and never missed, that a lost transaction is never reported as kept, that a wake-up is
never lost, and that what the grid and the browser show is what was fetched.

`dafny verify dfyconfig.toml` checks everything.

## How the model is laid out

Every mutex-protected section or atomic operation of the Rust core is one step; a run is any
interleaving of steps of any number of threads. Deciding under a lock and acting after it, and pushing
and waking, are separate steps. Code that works in place is a class whose methods are proved against a
function of the old state; the laws over whole runs are lemmas about those functions.

- **Event queue.** `Events` is the queue as a plain list: every decision is a search of the list.
  `EventQueues` is the queue as the core keeps it, with per-session counters and sequence numbers, and
  decides the same. `Events.PushIsLocal` says that a session only ever sees its own share.
- **One session.** `SessionProtocol` is the concurrent machine (callers reserving slots by
  compare-exchange and submitting, the worker, the consumer). `SessionInvariants` and `SessionHistory`
  hold what each step keeps, `SessionTheorems` what follows for every run, `SessionReadings` what its
  flags say of a run, `SessionAfterEnd` what a session can still say after its end, `SessionWitnesses`
  runs showing that the published bound is reached, and `SharedQueue` carries all of it to many sessions
  on one queue.
- **Session state.** `SessionShared` (lifecycle, transaction tracking, the record of the end),
  `TerminalEvent` (binding a sink against announcing the end), `Transactions` (tracking against what
  the server really holds), `OutputLog` (the completion path's bounded log), `Registry` (open, abandon,
  retire, teardown against a connect that cannot be interrupted).
- **Qt side.** `Wake` (the coalescing flag and the budgeted, re-entrant drain), `FetchSpec`,
  `FetchPipeline` and `FetchTheorems` (fetches in flight), `GridSpec` and `ResultGrid` (the grid and its
  window cache), `BrowserSpec`, `ObjectBrowser`, `BrowserTheorems`, `BrowserLoading` and
  `BrowserTree` (generation stamps, who is left loading, destroyed nodes),
  `ConnectionSpec`, `ConnectionManager`, `ConnectionTheorems` and `ConnectionStore` (saving profiles and
  passwords).
- **Name filter.** `NameFilter` gives the pattern its meaning under section 8.5 of ISO/IEC 9075-2.

The I/O, the clock, the drivers and the hub are parameters: a driver call's outcome, whether a request
is accepted, what a reply says, when a connection is lost. They may do anything their documented
contract allows.

## Where the code does less than it promises

Each item names a lemma with a concrete run and a lemma saying exactly when the promise holds.

- A statement whose results do not fit under the open-result limit returns before its transaction is
  noted (`crates/db-core/src/worker.rs:812-829`). A block that opened a transaction then leaves no trace
  of it: `Transactions.OverflowHidesATransaction`, `Transactions.TruthSurvivesExactlyWhen`.
- After a savepoint the driver is not asked about the transaction
  (`crates/db-core/src/worker.rs:636-647`). A savepoint that opens one after a commit is not tracked, and
  closing loses it while reporting success: `Transactions.SavepointHidesATransaction`,
  `Transactions.UntrackedSurvivesExactlyWhen`. Over whole runs these two, and a failed commit or rollback
  of a close that leaves open what was not tracked, are all that hides a transaction:
  `Transactions.NothingIsLostUnreported`, `Transactions.ReportedExactlyWhen`.
- The flag that stops fetching is cleared by `execute` and by nothing else. Two pipelined executes
  with the first result closed in between leave the second result unfetched
  (`ui/adapter/SessionController.cpp:298-308`): `FetchTheorems.PipelinedExecutesCanStall`,
  `FetchTheorems.NewResultIsFetchedExactlyWhen`, `FetchTheorems.NeverStalls`.
- Refreshing a node is said to supersede what is queued or in flight for that node. The generation it
  bumps is the whole tree's, so it also outdates every other queued node
  (`ui/adapter/ObjectBrowserModel.cpp:612-616`). Such a node is skipped and shows "Loading" until it is
  itself refreshed or filtered: `BrowserLoading.RefreshAbandonsANode`,
  `BrowserLoading.StepAbandonsExactlyWhen`, `BrowserLoading.LoadingEndsExactlyWhen`.
- Closing the browser's connection is meant to leave nothing showing "Loading". It clears the queued
  nodes only, so the node whose answer was under way stays so
  (`ui/adapter/ObjectBrowserModel.cpp:320-332`): `BrowserLoading.CloseAbandonsANode`,
  `BrowserLoading.CloseLeavesLoadingExactlyWhen`.
- Refreshing a node destroys the nodes below it, and neither the queue nor the active fetch is told
  (`ui/adapter/ObjectBrowserModel.cpp:409-417`). A destroyed node that was being fetched still passes the
  stamp comparison, and a close still writes to a queued one: `BrowserTree.RefreshDestroysAnAwaitedNode`,
  `BrowserTree.StaysSafeExactlyWhen`, `BrowserTree.DestroyedIsWrittenExactlyWhen`.
- After a create whose flag update is refused or fails, the list shows a saved password that the stored
  row does not claim (`ui/adapter/ConnectionManager.cpp:604-632`):
  `ConnectionTheorems.FlagUpdateCanBeMissed`, `ConnectionTheorems.CreateListsTheTruthExactlyWhen`.
- Switching away from a saved password drops the password first. If the save after it is refused or
  fails, the stored row goes on claiming it (`ui/adapter/ConnectionManager.cpp:686-700`):
  `ConnectionTheorems.SwitchAwayCanClaimADroppedPassword`,
  `ConnectionTheorems.SwitchAwayIsHonestExactlyWhen`.
- An update that types no password can claim one that was never stored
  (`ui/adapter/ConnectionManager.cpp:701-717`): `ConnectionTheorems.PlainSaveCanClaimAPassword`,
  `ConnectionTheorems.PlainSaveIsHonestExactlyWhen`.
- The ordering rules say that only a failure reply may follow a session's end. A lost session still
  says that a statement started, and still answers the close of a result or of a large object with
  success (`crates/db-core/src/worker.rs:621-632`): `SessionWitnesses.StartCanFollowEnd`,
  `SessionWitnesses.SuccessCanFollowEnd`, `SessionAfterEnd.StirsAfterEndExactlyWhen`. The exact condition
  covers one more success: a close that comes after a clean end is told that it succeeded, as the
  idempotent close promises.

Two more are worth knowing. A drain delivered by a nested event loop posts itself again at once; it
loses nothing, but it can go on for as long as that loop runs: `Wake.NestedDeliveryChangesNothing`. And
one hazard is not a failure of the code today: if a session refused one statement of the object browser
and accepted the next inside the same call, one node's error would be shown on another
(`ui/adapter/ObjectBrowserModel.cpp:667-681`): `BrowserTheorems.RefusalCanMisplaceAnError`,
`BrowserTheorems.RefusalIsHarmlessExactlyWhen`. The interface of `SessionController` does not rule it
out. The hub does: what makes it refuse changes only by draining on the same thread
(`crates/ffi/src/session.rs:308-328`), so a refusal lasts until its call returns, and then
`BrowserTheorems.NewestRequestWins` holds.

## Model

| member | source | states |
|---|---|---|
| EventQueues.RequestSlots.Reserve | crates/db-core/src/events.rs:728-750 | takes a slot exactly when fewer than the limit are taken, and refuses without change otherwise |
| EventQueues.RequestSlots.Release | crates/db-core/src/events.rs:759-776 | gives one slot back and never goes below zero |
| EventQueues.EventQueue.QueuedTransactionSlot | crates/db-core/src/events.rs:1033-1036 | subtracting sequence numbers finds the position a search of the list finds, or neither finds one |
| EventQueues.EventQueue.AdmitUnsolicited | crates/db-core/src/events.rs:978-1029 | coalesces in place, admits, admits without lines, or refuses and counts, exactly as the number of waiting events found by a search decides |
| EventQueues.EventQueue.StampUnsolicited | crates/db-core/src/events.rs:1041-1073 | records the event under its sequence number and folds the pending drop count into output |
| EventQueues.EventQueue.Push | crates/db-core/src/events.rs:884-925 | the indexed queue ends in the state, and gives the wake and kept answers, of the push that searches the list; refused events are counted |
| EventQueues.EventQueue.PushOutput | crates/db-core/src/events.rs:891-925 | the same for output, at the cap and below it |
| EventQueues.EventQueue.PushState | crates/db-core/src/events.rs:978-1002 | the same for a transaction state: replaced in place if one is queued |
| EventQueues.EventQueue.PushBack | crates/db-core/src/events.rs:909-925 | appends with the drop count folded in, keeps the index exact, and asks for a wake only on the empty to non-empty edge |
| EventQueues.EventQueue.Pop | crates/db-core/src/events.rs:947-955 | takes the oldest event, releases the slot it held and no other, and keeps the index exact |
| EventQueues.EventQueue.DrainInto | crates/db-core/src/events.rs:1210-1221 | takes the oldest events in order, at most the budget, and releases exactly the slots they held |
| EventQueues.EventQueue.Close | crates/db-core/src/events.rs:1333-1344 | nothing stays queued and every slot a queued reply held is free |
| EventQueues.OutputAtCap | crates/db-core/src/events.rs:1003-1029 | at the cap the records decide what the search decides: lines counted, only a failed read admitted, without its lines |
| EventQueues.IndexesAfterStamp | crates/db-core/src/events.rs:1041-1073 | counting and stamping keeps every per-session record equal to a scan of the list |
| EventQueues.IndexesAfterPop | crates/db-core/src/events.rs:947-955 | popping keeps every per-session record equal to a scan of the list |
| Events.PushIsLocal | crates/db-core/src/events.rs:75-76 | a push is the same push on its session's share of the queue and nothing at all on any other session's |
| Events.OutputIsAccountedFor | crates/db-core/src/events.rs:1014-1073 | pushing output accounts for exactly its lines, carried, reported or owed, if and only if no count clips and no refused event already carried one |
| Events.OtherPushKeepsAccounts | crates/db-core/src/events.rs:884-925 | no other push changes any session's account of lines |
| Events.PushAnswers | crates/db-core/src/events.rs:884-925 | a push asks for a wake exactly on the empty to non-empty edge, keeps the event exactly if the list grew, and turns away output of an open queue exactly if it did not |
| Events.StateIsReplaced | crates/db-core/src/events.rs:978-1002 | a pushed transaction state takes the place of the one queued for its session, or the end, and nothing else moves |
| SessionInvariants.StepKeepsTokens | crates/db-core/src/reply.rs:259-290 | each unanswered request's reply is held in exactly one place: a caller, the command channel or the worker |
| SessionInvariants.StepKeepsSlots | crates/db-core/src/shared.rs:379-399 | every step conserves slots: taken equals unanswered plus queued replies plus releases under way, within the limits, and no release finds zero |
| SessionInvariants.StepKeepsBalance | crates/db-core/src/events.rs:102-115 | in every suffix of the queue, starts and failed reads are outnumbered by execute replies, but for the one execute still running |
| SessionInvariants.StepKeepsClasses | crates/db-core/src/events.rs:104-118 | other outputs stay within the cap, one transaction state, one end |
| SessionHistory.StepKeepsView | crates/db-core/src/shared.rs:522-537 | every step keeps the queued transaction state, or the last one taken, equal to the flag once a change is announced |
| SessionHistory.StepKeepsAccount | crates/db-core/src/events.rs:1014-1087 | every step keeps offered lines equal to delivered plus accounted for |
| SessionHistory.StepKeepsLog | crates/db-core/src/events.rs:54-71 | every step keeps one answer per answered request, at most one start each, starts before answers, and one end |
| SessionHistory.StepKeepsFifo | crates/db-core/src/events.rs:38-43 | every step keeps the queued never-dropped events equal to the tail of what was produced |
| SessionHistory.StepKeepsOwed | crates/db-core/src/worker.rs:575-606 | every step keeps what was queued at the end answered before the end is announced |
| SessionTheorems.QueueIsBounded | crates/db-core/src/events.rs:78-128 | in every reachable state at most R+1 replies, R starts, R failed reads, U other outputs, one transaction state and one end are queued: 3R+U+3 |
| SessionTheorems.SlotsAreConserved | crates/db-core/src/events.rs:728-776 | in every reachable state slots taken are unanswered requests plus queued replies plus releases under way; when nothing is left all are back |
| SessionTheorems.ExactlyOneReply | crates/db-core/src/events.rs:54-61 | in every run an accepted request was answered once or is held in exactly one place, and nothing that was not accepted is ever answered |
| SessionTheorems.SucceedsExactlyWhen | crates/db-core/src/worker.rs:575-606 | in every run a request at the worker succeeds exactly if the worker says so, which needs the connection, the close of a result or large object, or the open; a request the worker never got to fails unless it is a close and a clean end is on record; nothing else changes what succeeded |
| SessionTheorems.NothingQueuedSucceeds | crates/db-core/src/worker.rs:588-600 | in every run nothing answered out of the command channel succeeds, except a close of a session that ended cleanly |
| SessionTheorems.DeliveredInOrder | crates/db-core/src/events.rs:38-43 | a start precedes its reply, and what is queued is the tail of what was produced, in order |
| SessionTheorems.EndIsAnnouncedOnce | crates/db-core/src/events.rs:68-71 | the end is announced at most once, by every worker that exits, after the answer of every request queued when it was observed |
| SessionTheorems.NothingRunsAfterEnd | crates/db-core/src/worker.rs:575-720 | after the end no output, transaction state or second end is produced; a start, or the success of closing a result or a large object, only on a lost session that holds no connection and still takes requests; the success of a close only after a clean end; no other success |
| SessionAfterEnd.StirsAfterEndExactlyWhen | crates/db-core/src/worker.rs:575-720 | from every reachable state whose end was announced, some continuation says a start or a success if and only if the session ended cleanly, or the receiver is still there and an execute or the close of a result or large object is running, is queued ahead of every close, or can still get a slot with no close queued |
| SessionAfterEnd.LostButNotClosedStirs | crates/db-core/src/events.rs:68-71 | in particular an idle lost session with no close under way can still say one, one with a request that needs the connection and then a close queued cannot, and one whose worker is gone can if and only if it ended cleanly |
| SessionTheorems.ViewIsNeverStale | crates/db-core/src/shared.rs:522-537 | whenever no change waits to be announced, the consumer's view or the queued state is the true one |
| SessionTheorems.OutputIsNeverSilentlyLost | crates/db-core/src/events.rs:1014-1087 | in every run lines offered are delivered, queued, reported as dropped or owed a report, unless a count saturated or the consumer went |
| SessionTheorems.ExitLeavesNothingOwed | crates/db-core/src/worker.rs:405-433 | once the worker is gone and no caller is mid-submit, every accepted request had its one reply and the end was announced |
| SessionReadings.FlagIsLastTracked | crates/db-core/src/shared.rs:522-537 | in every run the transaction flag is the last word on it, and a change waits to be announced exactly if that word differed and nothing was announced since |
| SessionReadings.ViewIsWhatWasRead | crates/db-core/src/shared.rs:522-537 | the consumer's view changes only by taking a transaction state or reading the flag, to what was taken or read |
| SessionReadings.FlagsAreTheirHistory | crates/db-core/src/shared.rs:426-433 | in every run a session is lost exactly if its connection was lost or its open failed, an end is on record exactly if one was recorded, and clean exactly if the first was |
| SessionReadings.QueuedIsOwed | crates/db-core/src/worker.rs:575-606 | when the worker turns to answering what is queued, everything queued then is owed an answer before the end |
| SessionReadings.RetryLooksAgain | crates/db-core/src/events.rs:728-750 | a caller that lost a race looks again and then gets its slot or is refused |
| SessionReadings.CloseFindsRoom | crates/db-core/src/session.rs:1296-1307 | at the limit a close, and nothing else, still gets a slot |
| SessionReadings.HangupEndsTheSession | crates/db-core/src/worker.rs:405-433 | a worker whose channel has ended drops it, records the end, announces it and is gone |
| SessionWitnesses.BoundIsAttained | crates/db-core/src/events.rs:118-128 | for every limit and cap some run that prints a line at a time fills the queue to exactly 3R+U+3 |
| SessionWitnesses.StartCanFollowEnd | crates/db-core/src/worker.rs:700-719 | for every limit and cap some run says that a statement started after the session announced its end |
| SessionWitnesses.SuccessCanFollowEnd | crates/db-core/src/worker.rs:621-632 | for every limit and cap some run answers a request with success after the session announced its end |
| SharedQueue.MoveIsSeen | crates/db-core/src/events.rs:75-76 | a move of the shared system is, for each session, one step of that session alone, or nothing |
| SharedQueue.EachSessionRunsAlone | crates/db-core/src/events.rs:75-76 | every run of the shared system is, seen by one session, a run of that session alone |
| SharedQueue.EverySessionIsBounded | crates/db-core/src/events.rs:78-128 | every invariant and the bound hold of each session's share, whatever the others do |
| SharedQueue.WholeQueueIsBounded | crates/db-core/src/events.rs:78-128 | N sessions never have more than N times the bound queued between them |
| Wake.NoWakeIsLost | crates/db-core/src/events.rs:884-942 | in every interleaving a non-empty queue has a producer between push and post, a posted drain, or a drain that will still look at the queue |
| Wake.OneDrainAtATime | ui/adapter/Bridge.cpp:17-51 | at most one drain is posted, a set flag always has a drain behind it, and only the outermost call walks the queue |
| Wake.QueueEmpties | ui/adapter/Bridge.cpp:337-411 | without new events or nested deliveries every continuation is finite and where it stops the queue is empty, whatever the budget |
| Wake.EveryEventIsDispatched | ui/adapter/Bridge.cpp:337-411 | in every run events pushed are events dispatched plus events queued, and where nothing but new events or nested deliveries can happen every event has been dispatched once |
| Wake.StoppedWalkComesBack | ui/adapter/Bridge.cpp:360-411 | a walk that hits its budget takes nothing more and posts itself again unless a drain is already coming |
| Wake.NestedDeliveryChangesNothing | ui/adapter/Bridge.cpp:348-358 | a drain delivered inside a walk posts itself again and leaves the state as it was |
| Wake.StepKeepsInv | ui/adapter/Bridge.cpp:322-411 | every step keeps the flag backed by exactly one drain and the queue watched |
| SessionShared.SessionShared.NoteStatement | crates/db-core/src/shared.rs:621-642 | afterwards the core suspects a transaction exactly if it did before or the statement may have opened one: a DML, a block, or anything an exact driver does not call inactive; answers with the flip to announce |
| SessionShared.SessionShared.NoteCommitOrRollback | crates/db-core/src/shared.rs:644-646 | the core's suspicion is gone, the driver's word stays; answers with the flip to announce |
| SessionShared.SessionShared.NoteDriverTransactionState | crates/db-core/src/shared.rs:649-651 | the driver's word is the new one, the core's suspicion stays; answers with the flip to announce |
| SessionShared.SessionShared.NoteError | crates/db-core/src/shared.rs:587-604 | the lifecycle never improves; lost afterwards exactly if lost before or the error says so, with the first loss keeping its reason; a usable session asked to be validated needs validation |
| SessionShared.SessionShared.MarkValidated | crates/db-core/src/shared.rs:558-563 | the need for validation is gone and nothing else: a closed or lost session stays so |
| SessionShared.SessionShared.MarkClosed | crates/db-core/src/shared.rs:569-574 | no longer usable afterwards, and lost afterwards exactly if lost before |
| SessionShared.SessionShared.MarkEnded | crates/db-core/src/shared.rs:426-433 | an end is on record afterwards, and one that was there stays, with the answer it gives to late closes |
| SessionShared.SessionShared.SettledClose | crates/db-core/src/shared.rs:456-461 | answers success exactly for a recorded clean end, the loss for an unresolved one, nothing while there is none |
| SessionShared.OnlyForward | crates/db-core/src/shared.rs:558-604 | over any operations the lifecycle only moves from usable to closed to lost, lost exactly when a reason is stored, and the end record never changes |
| SessionShared.RecordIsFirstEnd | crates/db-core/src/shared.rs:426-433 | over any operations the record is the first end recorded |
| SessionShared.LateCloseNeverLies | crates/db-core/src/reply.rs:352-377 | a close that finds the session over succeeds if and only if the first end recorded was clean, and otherwise gives the reason of the loss |
| SessionShared.LateClosesAgree | crates/db-core/src/session.rs:1510-1561 | once an end is recorded every later close gets the same verdict |
| SessionShared.TrackingIsItsHistory | crates/db-core/src/shared.rs:621-651 | after any operations the core suspects a transaction exactly if some statement since the last commit or rollback may have opened one, and the driver's state is what it said last |
| SessionShared.LifecycleIsItsHistory | crates/db-core/src/shared.rs:558-604 | after any operations the session is lost if ever lost, else closed if ever closed, else in need of validation if an error asked for it and no ping answered since, else usable; and a lost one gives the reason of its loss |
| SessionShared.LateErrorIsTheReason | crates/db-core/src/shared.rs:815-845 | a late request is told the reason of the loss, else that the open was given up, else that the session is closed |
| TerminalEvent.BoundSinkSeesTheEndOnce | crates/db-core/src/shared.rs:312-514 | in every interleaving a bound sink receives at most one end and never misses it, and the lifecycle it is told is one the session was in when the end was claimed or later; the session never gets better |
| TerminalEvent.LateBindIsRefused | crates/db-core/src/shared.rs:312-333 | after an end announced to nobody no bind ever succeeds |
| TerminalEvent.BindSucceedsExactlyWhen | crates/db-core/src/shared.rs:312-333 | an undisturbed bind gives the lock back and succeeds if and only if nothing was bound and no end claimed |
| TerminalEvent.EndTellsTheNewest | crates/db-core/src/shared.rs:487-514 | an undisturbed end tells a bound sink the lifecycle the session has come to |
| TerminalEvent.StepKeepsInv | crates/db-core/src/shared.rs:487-514 | every step keeps one lock holder, one claimer and one push |
| Transactions.NothingIsLostUnreported | crates/db-core/src/shared.rs:688-711 | in every run in which no step hides a transaction, an open transaction is tracked, the end says "nothing lost" only if nothing was, and a late close succeeds only if no work was lost |
| Transactions.EndSaysExactlyWhen | crates/db-core/src/shared.rs:688-711 | the step that ends a session makes its end say "nothing lost" if and only if it is a disposition that succeeded, or neither the core nor the driver counted a transaction as possible |
| Transactions.EndIsDecidedOnce | crates/db-core/src/worker.rs:405-433 | in every run the end is said exactly when there is no connection any more, and says what the step that ended the session decided in that way |
| Transactions.EndsExactlyWhen | crates/db-core/src/worker.rs:1408-1495 | a connected session is lost exactly by an error that says so, with that reason; its worker leaves exactly by hanging up, an abandon, a close that needs no decision or one whose disposition succeeded, and only the last two are recorded as clean |
| Transactions.ReportedExactlyWhen | crates/db-core/src/worker.rs:609-692 | from every connected state in which nothing is hidden yet, a step is followed by some run that hides nothing and yet ends in a false "nothing lost" if and only if the step hid a transaction |
| Transactions.OverflowHidesATransaction | crates/db-core/src/worker.rs:795-829 | for every result limit some run loses a transaction while the end says nothing was lost and a later close succeeds |
| Transactions.SavepointHidesATransaction | crates/db-core/src/worker.rs:636-647 | commit, a savepoint that opens a transaction, close: the transaction is lost, the end says nothing was, and a late close succeeds |
| Transactions.TruthSurvivesExactlyWhen | crates/db-core/src/worker.rs:754-849 | every conforming statement keeps tracking true if and only if its results fit, or the driver reports a possible transaction, or the core tracks one and the results are within the limit |
| Transactions.UntrackedSurvivesExactlyWhen | crates/db-core/src/worker.rs:621-683 | tracking stays true over a savepoint, or any other call after which the driver is not asked, whatever a conforming driver does, if and only if the session already reports a possible transaction |
| Transactions.ClosingKeepsInv | crates/db-core/src/worker.rs:1408-1495 | a close keeps the tracking true: decision required, failed dispositions leave the session open, only an explicit close ends cleanly |
| Transactions.StepKeepsInv | crates/db-core/src/worker.rs:532-606 | every command, savepoints included, keeps the tracking true unless it hides a transaction it opened |
| OutputLog.CollectedOutput.Push | crates/db-core/src/shared.rs:866-879 | the log stays the longest prefix that fits, with the rest counted |
| OutputLog.CollectedOutput.Collect | crates/db-core/src/shared.rs:769-793 | a whole read is pushed line by line with the same result |
| OutputLog.CollectedOutput.Take | crates/db-core/src/shared.rs:797-805 | hands over the summary of everything offered and starts again |
| OutputLog.OneMoreLine | crates/db-core/src/shared.rs:866-879 | one more line is kept exactly if nothing was refused and the whole output still fits |
| OutputLog.SummaryIsUnique | crates/db-core/src/shared.rs:752-758 | the log depends on the output alone, not on how it was cut into reads |
| OutputLog.KeptPlusDropped | crates/db-core/src/session.rs:212-217 | kept plus dropped is offered, exactly unless the 32-bit count saturated, within both bounds |
| OutputLog.KeepsEverythingExactlyWhen | crates/db-core/src/shared.rs:866-879 | everything offered is kept if and only if it is at most ten thousand lines and one megabyte |
| Registry.SessionRegistry.Open | crates/db-core/src/registry.rs:422-492 | an opening entry, or no entry and the duty to refuse by event; no other session changes |
| Registry.SessionRegistry.CompleteOpen | crates/db-core/src/registry.rs:248-353 | announces exactly a connect that succeeded for an entry still opening, refuses exactly one that failed for it, drops a tombstone, and leaves any other entry alone |
| Registry.SessionRegistry.Abandon | crates/db-core/src/registry.rs:595-643 | a connect still running is cancelled and leaves a tombstone, an open session is told and is ending, anything else stays; with the matching answer to the caller |
| Registry.SessionRegistry.Retire | crates/db-core/src/registry.rs:679-699 | the entry is gone; a connect still running is cancelled, an open or ending session told |
| Registry.SessionRegistry.Teardown | crates/db-core/src/registry.rs:761-785 | every entry is gone, every running connect cancelled once, every open session told once |
| Registry.OneOpenReplyFirst | crates/db-core/src/registry.rs:248-353 | in every interleaving the first event is the one reply of the open, `Opened` exactly when the connection was adopted |
| Registry.NeverOpenedSaysTwoThings | crates/db-core/src/registry.rs:712-740 | a session that never opens says `OpenFailed` and then `Terminal`, nothing else, `Cancelled` exactly when it was given up |
| Registry.NothingIsLeftBehind | crates/db-core/src/registry.rs:323-343 | no tombstone outlives its connect, and a worker that is gone leaves no connection |
| Registry.NeverAdoptedLate | crates/db-core/src/registry.rs:562-579 | once given up, no continuation adopts the connection or says `Opened` |
| Registry.HandleIsThereWhenOpened | crates/db-core/src/registry.rs:300-312 | the handle is registered before `Opened` is said and until somebody ends the session; the end is announced once, after `Opened`, and by every worker that is gone |
| Registry.OnlyAnswersFollowTheEnd | crates/db-core/src/worker.rs:575-606 | in every interleaving an opened session says after its end nothing but replies and, if it was lost, starts |
| Registry.CanSayExactly | crates/db-core/src/worker.rs:366-433 | exactly what an opened session can say next in every state: `Opened` first, replies always, starts while the worker runs, output and transaction states until the end is claimed, the end by the worker that claimed it |
| Registry.AfterTheEndItCanSay | crates/db-core/src/events.rs:68-71 | after the end it can say next exactly a reply, at any time, or a start while the worker of the lost session is still there |
| Registry.GivingUpTakesEffect | crates/db-core/src/registry.rs:595-699 | an abandon or a retire takes effect on the entry at once, and the session counts as given up |
| Registry.RefusalCompletes | crates/db-core/src/registry.rs:712-740 | from every such state a refused session says both its words in at most five steps of the thread that took it on |
| Registry.EndsAreAnnounced | crates/db-core/src/worker.rs:575-606 | a loss is announced by a worker that stays, and a worker that leaves has announced the end |
| Registry.StepKeepsInv | crates/db-core/src/registry.rs:248-353 | every step keeps the open's one reply in the entry, with one thread, or given, and of an opened session the order of what it says, with a worker that stays after a loss |
| FetchPipeline.SessionController.SubmitFetches | ui/adapter/SessionController.cpp:365-392 | the submit loop ends in the state of the recursive definition, refusals and used-up asks included |
| FetchPipeline.SessionController.Execute | ui/adapter/SessionController.cpp:228-279 | no result, no flag, no row limit and no ask left afterwards, and every fetch of the replaced result still counted: the counter stays the number of unanswered fetches |
| FetchPipeline.SessionController.CloseResult | ui/adapter/SessionController.cpp:298-308 | succeeds exactly for a current result whose close was accepted, then there is no result and the flag is set; otherwise nothing of the result changes |
| FetchPipeline.SessionController.FetchMoreRows | ui/adapter/SessionController.cpp:344-363 | without automatic fetching an ask becomes one fetch, now or later, and no more; with it every slot the hub accepts is filled; everything newly asked for is asked of the current result, and result and flag stay |
| FetchPipeline.SessionController.HandleExecuted | ui/adapter/SessionController.cpp:480-504 | the arriving result becomes current with the counter exact; if the flag was still set nothing is asked of it |
| FetchPipeline.SessionController.HandleFetched | ui/adapter/SessionController.cpp:506-558 | the counter stays exact whichever result the reply was for; only the current result's empty batch sets the flag and only its overflow the row limit, and then nothing is asked for |
| FetchSpec.SubmitAllKeeps | ui/adapter/SessionController.cpp:374-391 | submitting keeps the counter exact, uses up one ask for each fetch unless fetching is automatic, and stops only when full, out of reasons, or refused |
| FetchTheorems.PipelineIsBoundedAndFull | ui/adapter/SessionController.cpp:247-252 | until the end the counter is exactly the unanswered fetches, within the limit, and every slot is used while rows are wanted and no fetch of them failed or was refused since; earlier failures of other statements do not matter |
| FetchTheorems.EachFetchIsAskedFor | ui/adapter/SessionController.cpp:344-392 | in every run without automatic fetching, fetches submitted plus asks kept are at most the asks the view made |
| FetchTheorems.FetchingStops | ui/adapter/SessionController.cpp:365-373 | after the current result's empty batch, its overflow or its close nothing more is fetched until the next result, whatever is asked for |
| FetchTheorems.NewResultIsFetchedExactlyWhen | ui/adapter/SessionController.cpp:487-500 | whatever failed before, and whatever timely events and calls follow a new result, it never stalls, if and only if the flag was clear when it arrived |
| FetchTheorems.NeverStalls | ui/adapter/SessionController.cpp:510-524 | in every run in which no result arrives with the flag still set, a result with rows left and below the row limit, none of whose fetches failed or was refused since, has every slot in flight, whatever failed before it |
| FetchTheorems.UnpipelinedNeverStalls | ui/adapter/SessionController.cpp:228-279 | if executes are never pipelined, no result ever stalls |
| FetchTheorems.PipelinedExecutesCanStall | ui/adapter/SessionController.cpp:298-308 | for every limit some run with two pipelined executes leaves a result unfetched with no fetch in flight |
| GridSpec.OneBatchPerRow | ui/adapter/ResultTableModel.cpp:226-230 | a row is in exactly one batch |
| GridSpec.TableRow | ui/adapter/ResultTableModel.cpp:80-121 | a row of the appended table is that row of the batch that holds it |
| GridSpec.BatchIsAppended | ui/adapter/ResultTableModel.cpp:207-234 | appending a batch leaves every earlier row and adds its rows cell by cell: column by column, and nothing where the batch has no such column |
| GridSpec.ValueIsShownAs | ui/adapter/ResultTableModel.cpp:266-285 | NULL is shown as the text for it, text as it stands, anything else as the formatter makes it, and nothing where there is no value or the formatter refuses |
| ResultGrid.BatchForRow | ui/adapter/ResultTableModel.cpp:246-264 | the hint and the binary search find the same, only batch |
| ResultGrid.UpperBound | ui/adapter/ResultTableModel.cpp:257-258 | the first position beyond the row |
| ResultGrid.WindowHolds | ui/adapter/ResultTableModel.cpp:266-300 | a window holds exactly the batch's rows whose number falls in it, at most 1024 |
| ResultGrid.Hydrate | ui/adapter/ResultTableModel.cpp:287-341 | renders and remembers a window in front, bounds kept, refused windows included |
| ResultGrid.Touch | ui/adapter/ResultTableModel.cpp:343-348 | moves a window to the front and changes nothing else |
| ResultGrid.Evict | ui/adapter/ResultTableModel.cpp:350-370 | drops least recently used windows until both bounds hold and not one more; the window being read stays |
| ResultGrid.FormattedCell | ui/adapter/ResultTableModel.cpp:266-285 | the cell out of a cached or fresh window is the cell formatted by itself |
| ResultGrid.ReadCell | ui/adapter/ResultTableModel.cpp:80-121 | the cell read through the cache is the table's cell formatted directly |
| ResultGrid.ResultTableModel.Data | ui/adapter/ResultTableModel.cpp:80-121 | a cell shows what formatting it directly with the current options shows, and outside the grid there is nothing |
| ResultGrid.ResultTableModel.ApplyBatch | ui/adapter/ResultTableModel.cpp:170-234 | every earlier row stays; exactly the rows there is room for are added, each cell the batch's cell of that column and row, or nothing; says when some are refused and never exceeds the row ceiling |
| ResultGrid.ResultTableModel.BeginResult | ui/adapter/ResultTableModel.cpp:155-163 | an empty grid with new columns and nothing cached |
| ResultGrid.ResultTableModel.EvictIfNeeded | ui/adapter/ResultTableModel.cpp:350-370 | with no window being read both bounds hold afterwards |
| ResultGrid.ResultTableModel.SetMaxFormattedWindows | ui/adapter/ResultTableModel.cpp:406-415 | the clamped bound is in force at once and only old windows went |
| ResultGrid.ResultTableModel.SetMaxFormattedBytes | ui/adapter/ResultTableModel.cpp:417-426 | the clamped bound is in force at once and only old windows went |
| ResultGrid.ResultTableModel.SetMaxRows | ui/adapter/ResultTableModel.cpp:428-436 | the clamped ceiling for later batches; rows already there stay |
| ResultGrid.ResultTableModel.SetOptions | ui/adapter/ResultTableModel.cpp:458-466 | nothing formatted with other options stays cached |
| NameFilter.NameFilterPattern | crates/db-driver-api/src/metadata.rs:134-145 | the pattern is well formed and matches a name exactly when the filter occurs in it |
| NameFilter.PatternMeansContains | crates/db-driver-api/src/metadata.rs:115-124 | for every filter and name, `LIKE` holds if and only if the filter is a contiguous substring |
| NameFilter.PatternIsWellFormed | crates/db-driver-api/src/metadata.rs:134-145 | every escape is followed by a character it may escape |
| NameFilter.PatternIsInjective | crates/db-driver-api/src/metadata.rs:134-145 | different filters give different patterns |
| ObjectBrowser.ObjectBrowserModel.StartNextFetchIfIdle | ui/adapter/ObjectBrowserModel.cpp:578-616 | starts the oldest current node and skips superseded ones |
| ObjectBrowser.ObjectBrowserModel.StartFetch | ui/adapter/ObjectBrowserModel.cpp:617-681 | accepted, unprepared or refused, the refusal with its handler running inside the call |
| ObjectBrowser.ObjectBrowserModel.SettleActive | ui/adapter/ObjectBrowserModel.cpp:702-736 | a stale reply changes nothing shown; a current one is put on the active node under its filter, which then is loaded exactly if rows came, and touches no other; the next fetch may start |
| ObjectBrowser.ObjectBrowserModel.ExpandNode | ui/adapter/ObjectBrowserModel.cpp:425-489 | a forced expand leaves the fetch in flight for its node stale; a plain one of a loading or loaded node changes nothing |
| ObjectBrowser.ObjectBrowserModel.ChangeFilter | ui/adapter/ObjectBrowserModel.cpp:529-545 | the node has the new text and the fetch in flight for it is stale; the same text changes nothing |
| ObjectBrowser.ObjectBrowserModel.OnReply | ui/adapter/ObjectBrowserModel.cpp:744-791 | a stale answer is put nowhere, a current one first on the active node under its filter, and anything else put anywhere is an error of a queued node; a failure with nothing active gives the session up and a completion with nothing active changes nothing |
| ObjectBrowser.ObjectBrowserModel.CloseConnection | ui/adapter/ObjectBrowserModel.cpp:315-332 | afterwards nothing is queued or active, and exactly the queued nodes have stopped loading |
| ObjectBrowser.ObjectBrowserModel.FailEveryQueued | ui/adapter/ObjectBrowserModel.cpp:578-610 | the loop leaves nothing queued and fails exactly the queued nodes that are still current |
| BrowserTheorems.NewestRequestWins | ui/adapter/ObjectBrowserModel.cpp:425-461 | in every run, refused statements, a failed session and closed connections included, what is put on a node comes from a fetch for it, submitted with its filter at that moment; a refusal lasts until its call returns |
| BrowserTheorems.RefusalIsHarmlessExactlyWhen | ui/adapter/ObjectBrowserModel.cpp:667-681 | if the next statement inside the refused call were accepted: every later application is right if and only if no other queued node was current |
| BrowserTheorems.EachNodeIsQueuedOnce | ui/adapter/ObjectBrowserModel.cpp:572-574 | in every run, refusals included, a node is queued at most once |
| BrowserTheorems.RefusalCanMisplaceAnError | ui/adapter/ObjectBrowserModel.cpp:667-742 | with a session that refuses one statement and accepts the next inside one call, a run in which one node's error is shown on another |
| BrowserLoading.StepKeepsLists | ui/adapter/ObjectBrowserModel.cpp:554-616 | every step keeps queued nodes loading and distinct, and every loading node queued, awaiting its own answer, or outdated |
| BrowserLoading.StepAbandonsExactlyWhen | ui/adapter/ObjectBrowserModel.cpp:425-461 | a step leaves a node loading with no fetch to answer it if and only if it was so before, or was due and the step bumps the generation, and the step does not ask for that node; a close does so exactly to what is loading and not queued |
| BrowserLoading.LoadingIsServed | ui/adapter/ObjectBrowserModel.cpp:578-616 | in every run in which nothing is refreshed or filtered while another node is due, and no connection is closed while an answer is awaited, a loading node is due or its own answer is under way |
| BrowserLoading.AbandonedStaysLoading | ui/adapter/ObjectBrowserModel.cpp:612-616 | an abandoned node stays loading over every continuation, closed connections included, whatever the session answers, until it is itself refreshed or filtered or a close finds it queued |
| BrowserLoading.LoadingEndsExactlyWhen | ui/adapter/ObjectBrowserModel.cpp:578-616 | in every reachable state a loading node can come to its answer without being asked for again or the connection closed if and only if it is not abandoned |
| BrowserLoading.RowsAreShownExactlyWhen | ui/adapter/ObjectBrowserModel.cpp:425-461 | in every run, after a step a node shows its children if and only if rows just came for it, or it did before and was not refreshed or filtered |
| BrowserLoading.ReopensFresh | ui/adapter/ObjectBrowserModel.cpp:290-313 | after a close nothing is handed over until a new session opens, and then what was asked for is |
| BrowserLoading.RefreshAbandonsANode | ui/adapter/ObjectBrowserModel.cpp:440-461 | two nodes expanded and the first refreshed: the second is abandoned |
| BrowserLoading.CloseLeavesLoadingExactlyWhen | ui/adapter/ObjectBrowserModel.cpp:315-332 | in every reachable state a close leaves a node loading if and only if its answer was under way or it was abandoned and no longer queued, and then it stays loading until asked for again |
| BrowserLoading.CloseAbandonsANode | ui/adapter/ObjectBrowserModel.cpp:315-332 | one node expanded and the connection closed before the answer: the node stays loading |
| BrowserTree.StaysSafeExactlyWhen | ui/adapter/ObjectBrowserModel.cpp:409-461 | from a tree in which every queued or awaited node is there, a step leaves a destroyed one queued or awaited if and only if it refreshes or filters a node with one of them below it |
| BrowserTree.OnlyTreeNodesAreWritten | ui/adapter/ObjectBrowserModel.cpp:409-461 | in every run without such a refresh, every node a step writes to is in the tree |
| BrowserTree.DestroyedIsWrittenExactlyWhen | ui/adapter/ObjectBrowserModel.cpp:729-791 | in every run, some continuation writes to a destroyed node if and only if it is still queued or awaited |
| BrowserTree.RefreshDestroysAnAwaitedNode | ui/adapter/ObjectBrowserModel.cpp:409-461 | a group being fetched and its connection refreshed: the group is gone and its answer is still to be put on it |
| ConnectionManager.ConnectionManager.CreateProfile | ui/adapter/ConnectionManager.cpp:519-550 | an accepted create asks first to save the profile as prompting and is pending once; a refused one fails at once |
| ConnectionManager.ConnectionManager.UpdateProfile | ui/adapter/ConnectionManager.cpp:639-717 | asks first to store the typed password, to drop the saved one, or to save the edited fields, in that order of preference, each for this profile; pending once |
| ConnectionManager.ConnectionManager.DeleteProfile | ui/adapter/ConnectionManager.cpp:837-859 | drops the password before the profile |
| ConnectionManager.ConnectionManager.HandleReply | ui/adapter/ConnectionManager.cpp:959-976 | a reply moves its own conversation one step and touches no other |
| ConnectionTheorems.EveryConversationEndsOnce | ui/adapter/ConnectionManager.cpp:519-908 | for every reply sequence exactly one final signal, none before the end, after at most three requests |
| ConnectionTheorems.ContinueEndsOnce | ui/adapter/ConnectionManager.cpp:553-908 | a conversation goes on at a later stage or ends with one final signal |
| ConnectionTheorems.CreateNeverClaimsTooEarly | ui/adapter/ConnectionManager.cpp:533-537 | at every moment of a create the stored row claims a saved password only if the typed one was stored |
| ConnectionTheorems.UpdateFollowsThePassword | ui/adapter/ConnectionManager.cpp:719-752 | an update typing a password never makes an honest profile dishonest; when it reports the profile saved the row is the edited one and claims the password exactly if it was stored, and when it reports a failure the row is as it was |
| ConnectionTheorems.PlainSaveIsHonestExactlyWhen | ui/adapter/ConnectionManager.cpp:639-717 | over every honest store behind a listed row, a save without a credential step keeps it honest, whatever the reply, if and only if the new fields claim no password or the listed row already did |
| ConnectionTheorems.PlainSaveCanClaimAPassword | ui/adapter/ConnectionManager.cpp:701-717 | a prompting profile edited to use the credential store with nothing typed is saved claiming a password that was never stored |
| ConnectionTheorems.SwitchAwayIsHonestExactlyWhen | ui/adapter/ConnectionManager.cpp:686-791 | switching away from a saved password leaves a row claiming it if and only if the password went and the save after it was refused or failed |
| ConnectionTheorems.SwitchAwayCanClaimADroppedPassword | ui/adapter/ConnectionManager.cpp:686-791 | a saved profile edited to prompt, the password dropped and the save refused: the stored row goes on claiming it |
| ConnectionTheorems.CreateListsTheTruthExactlyWhen | ui/adapter/ConnectionManager.cpp:592-632 | after a create the list equals the store if and only if no flag update was refused or failed |
| ConnectionTheorems.FlagUpdateCanBeMissed | ui/adapter/ConnectionManager.cpp:604-632 | a create whose flag update fails: the list claims the saved password, the stored row prompts |
| ConnectionTheorems.UpdateListsTheTruth | ui/adapter/ConnectionManager.cpp:781-791 | an update is listed only when it is stored |
| ConnectionTheorems.DeleteRemovesEverywhere | ui/adapter/ConnectionManager.cpp:861-908 | a deleted profile is gone from list and store, a failed delete changes neither, and the password goes with the first reply |
| ConnectionStore.TypedUpdateLeaves | ui/adapter/ConnectionManager.cpp:665-791 | for every way the replies turn out: what an update with a typed password asks, signals and leaves in store, list and secrets, for its own profile and no other |
| ConnectionStore.SwitchingUpdateLeaves | ui/adapter/ConnectionManager.cpp:686-791 | the same for an update that switches away from a saved password |
| ConnectionStore.PlainUpdateLeaves | ui/adapter/ConnectionManager.cpp:701-791 | the same for any other update: the fields as edited, and no password touched |
| ConnectionStore.CreateLeaves | ui/adapter/ConnectionManager.cpp:519-636 | the same for a create, under the name the service gives it |
| ConnectionStore.DeleteLeaves | ui/adapter/ConnectionManager.cpp:837-908 | the same for a delete |

## Left out

- Drivers, the C ABI crate, the hub, the result store and the workspace service: parameters bound by their documented contracts.
- Fetching, reading large objects and savepoint names on the worker: in `SessionProtocol` every request that needs the connection, but execute and close, is one kind.
- Request ids chosen by callers: a request is named by its acceptance number, so two requests with the same id are not told apart by name.
- Numbers that would take a 64-bit counter to overflow: sequence numbers, request ids and generations are unbounded.
- Blocking waits on the queue (`wait_timeout`), the condition variable, timers, deadlines, cancellation, panics, poisoned locks and failed allocations.
- Registry.AfterTheEndItCanSay: `Life` lets a caller's thread say a reply at any time after the open, where the code does so only once the command channel is gone; `SessionProtocol` has the exact timing.
- Sessions opened through a blocking caller: only sessions opened by the registry, which bind their sink before the worker exists, are followed over a whole run; `TerminalEvent` covers late binding.
- The worker thread is a state machine on values, not a class, because its steps interleave with other threads; the same holds for `Bridge::drain` in `Wake` and for the registry's threads in `Registry`.
- `Bridge` exceptions: a post that throws clears the flag again; that path, the hub going away and event dispatch are not modelled.
- ResultGrid: the batches' columns, the formatter and its refusals are a fixed table, so a formatter that fails once and then works is not modelled; signals, headers, the NULL role and the one-time warning are left out.
- ResultGrid.ResultTableModel: the list with its node index is kept as a sequence of keys and a map, so iterator stability under splicing is not modelled.
- ResultGrid.Touch: the position of the node is found by its key instead of an iterator.
- FetchPipeline.SessionController.HandleExecuted: calls made by application code from inside a signal are not modelled; changing the limit or automatic fetching during a result is not either, and both are constants.
- BrowserTheorems.NewestRequestWins: stated for refusals that last until their call returns, and for connections whose session is gone before anything else is asked; calls made while a session is still closing are left out.
- BrowserTree.OnlyTreeNodesAreWritten: nodes are numbered and a number is never used again, so a new node at the address of a destroyed one is not modelled; rows arriving at a node that already has children are not either, since asking for it has removed them.
- ConnectionTheorems.UpdateFollowsThePassword: one conversation per profile at a time; overlapping operations on one profile are not covered.
- FetchTheorems.NeverStalls: says nothing of a result while a fetch of its own has failed or was refused and no later reply has filled its slots again; the controller's display state is left out.
- Metrics, scrolling, settings, dialogs, display strings, error texts and message keys: each is settled by reading one branch.
- Test-connect, opening a session from a profile and listing profiles: they would only add easy members.
