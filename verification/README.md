# A verified model of the Proton C++ client runtime

Apache Qpid Proton is an AMQP 1.0 library. This project models, in Dafny 4.11, the parts of
its C++ binding that keep state across calls, callbacks and threads, and two of its
concurrent example programs, and proves what they promise over every input and every run.

`dafny verify dfyconfig.toml` checks all of it.

## How the model is built

Each component has the same two layers.

* A **value model**: a datatype for the state, a function or relation for each step, and a
  definition of a run. A step is one critical section, one event, or the stretch of
  library code between two callbacks, so an arbitrary sequence of steps covers every
  interleaving of threads and every re-entrant call from a handler.
* The **code in its own form**: a class whose methods update their fields, or a method
  that works in place on an array, proved to do exactly what the value model says.

| modules | component |
|---|---|
| `Heap`, `Scheduler`, `SchedulerRuns`, `SchedulerProgress` | `container::schedule`, `cancel`, `run_timer_jobs` |
| `WorkQueue` | the job queues of connections and of the container |
| `Transactions`, `TransactionRuns`, `TransactionDeliveries`, `TransactionEffects`, `TransactionReports`, `TransactionExample`, `TransactionAdapter` | local transactions on sessions (sections 4.2 to 4.4 of OASIS AMQP 1.0 Part 4) |
| `UrlCodec`, `Url`, `UrlForms`, `UrlParser` | percent-encoding, the in-place URL parser, printing, copying |
| `Reconnect`, `ReconnectLimits` | reconnect and failover, back-off, replacing options while running |
| `PropertyMap`, `MessageProperties`, `MessageObject` | the lazily decoded map, and the message it is aliased to |
| `ReceiverCredit`, `ReceiverDeliveries`, `ReceiverWindow`, `ReceiverAdapter` | receiver credit, the automatic window, drain, and what becomes of incoming deliveries (section 2.6.7 of OASIS AMQP 1.0 Part 2) |
| `BoundedSender`, `BoundedReceiver` | the thread-safe sender and receiver of `multithreaded_client_flow_control.cpp` |
| `BrokerVector`, `BrokerQueue` | the queue of the C broker |

The C engine enters only as the state these components touch: a link with its credit and
its ordered deliveries, a collector of events, a proactor with one timeout, a data object.
The clock, the random source, the peer and the application are arbitrary: their choices are
parameters of the steps.

## What turned out not to hold

Where the code does less than its comments, its documentation or a first reading promise,
the model follows the code, a lemma gives a failing run or value, and another gives the
exact condition.

* **A cancel can strand a container work-queue job.** `add` arms the proactor timeout, and
  a later `cancel` that leaves no live task disarms it; a later `schedule` can put it off
  (`CancelStrandsAJob`, `JobsAwakeIff`).
* **A commit can report a message that was rolled back.** The abort paths do not forget the
  recorded trackers (`CommitReportsARolledBackMessage`, `CommitReports`,
  `CommitReportsItsOwnIff`).
* **A copied URL can differ from its original**, for example when the port defaults to a
  scheme that contains `@` (`CopyCanFail`, `CopyPreservesIff`).
* **Assigning an empty standard map to received properties can leave the old ones to be
  shown and sent** (`AssigningEmptyCanBeLost`, `AssignmentIsFaithfulIff`). The note at
  `cpp/src/map.cpp:35` does not hold after `cpp/src/map.cpp:67-70`.
* **A map object moved into a message is not sent**, and an empty one does not replace what
  the message holds (`MovedMapCanBeLost`, `MovedEmptyMapCanBeLost`, `MoveIsFaithfulIff`).
  Copying back the map object that was moved from loses its entries, because the data is
  cleared and copied from itself (`CopyBackIff`).
* **Properties of an earlier message can survive decoding a new one**, or copying a message
  over it, once a map object has been moved in: they are sent in place of the new ones
  (`StaleEntriesSurvive`, `DecodeIsFaithfulIff`, `MessageCopyIff`). The library itself clears
  the message it decodes into, and then they do not (`ReuseIsFaithful`). Over whole histories
  the exact condition is that of `HistoryAgreesIff`.
* **Credit added during a drain can stay on hold after the drain**, although
  `cpp/include/proton/receiver.hpp:65-68` says it waits only until the drain completes, and
  the next `drain()` then never finishes by itself (`DrainCanStall`, `ReleasedIff`,
  `DrainStallsIff`, `DispositionEndsStall`).
* **A message that arrives together with an aborted delivery is passed over.** The aborted
  branch advances the link twice (`MessageIsPassedOver`, `ReceivedExactlyIff`,
  `LawfulIff`).
* **`max_attempts` limits rounds, not attempts**, although
  `cpp/include/proton/reconnect_options.hpp:73-75` calls it the number of attempts: with
  failover URLs more are made (`LimitExceeded`, `LimitAsDocumentedIff`,
  `OpenedAttemptsExactly`).
* **The back-off multiplier loses its fraction**, because `duration` is multiplied by an
  integer (`FractionIsDropped`, `DocumentedIff`).
* **A thread in `close()` of the thread-safe sender can be left waiting**, because opening
  notifies nobody (`CloserCanBeOverlooked`, `CloserOverlookedIff`).
* **The thread-safe sender can lose a message it has let through**, because it ignores that a
  finished work queue refuses the job (`LetThroughAndLost`, `NoneLostIff`).
* **Closing one link of a connection can make the broker forget another** that waits for
  the same queue (`SiblingCanBeForgotten`, `RememberedIff`).

## Model

| member | source | states |
|---|---|---|
| `Heap.FrontIsEarliest` | cpp/src/proactor_container_impl.hpp:129-139 | under the reversed order the front of any heap has the earliest deadline of all |
| `Heap.PushHeap` | cpp/src/proactor_container_impl.cpp:461-462 | appending to a heap and rising restores the heap over the same contents |
| `Heap.PopHeap` | cpp/src/proactor_container_impl.cpp:524 | the earliest task goes behind a heap of the remaining ones; nothing behind it moves and the contents stay the same |
| `Scheduler.PopExtendsSortedPart` | cpp/src/proactor_container_impl.cpp:512-526 | after one more pop the prefix is still a heap, the popped tail is due, latest first, and no later than what is left |
| `Scheduler.SortDue` | cpp/src/proactor_container_impl.cpp:510-526 | the loop is a partial heap sort: it stops exactly when the rest is in the future, having moved every due task, sorted, to the back |
| `Scheduler.SplitDue` | cpp/src/proactor_container_impl.cpp:528-541 | the swap branch, the copy branch and the early return divide the vector in the same way |
| `Scheduler.SplitIsExtraction` | cpp/src/proactor_container_impl.cpp:528-541 | what the loop leaves behind splits into all and only the due tasks, latest first, and a heap of the future ones, nothing lost or duplicated |
| `Scheduler.TakeDue` | cpp/src/proactor_container_impl.cpp:510-541 | loop and split together divide any heap in that way |
| `Scheduler.Container.Schedule` | cpp/src/proactor_container_impl.cpp:454-470 | the object schedules as the model does and its vector stays a heap |
| `Scheduler.Container.Cancel` | cpp/src/proactor_container_impl.cpp:472-479 | the object cancels as the model does: the entry stays in the heap, the timeout goes if no task is live |
| `Scheduler.Container.ExtractDue` | cpp/src/proactor_container_impl.cpp:507-542 | the critical section takes exactly the due tasks, latest first, keeps a heap of the future ones and arms the timeout for the earliest of them |
| `Scheduler.Container.TakeTurn` | cpp/src/proactor_container_impl.cpp:547-559 | a task runs if its handle is still live, and the handle is no longer live afterwards |
| `SchedulerRuns.RefinesPlainMap` | cpp/src/proactor_container_impl.cpp:454-560 | every step of every interleaving is a step of a plain map from live handle to deadline and task |
| `SchedulerRuns.RunsIffNotCancelled` | cpp/src/proactor_container_impl.cpp:501-560 | in every run a task whose turn comes runs if and only if it was not cancelled since it was scheduled, even by an earlier task of its batch, and never before its deadline |
| `SchedulerRuns.TurnsInOrderNeverTwice` | cpp/src/proactor_container_impl.cpp:543-559 | in every run no handle has two turns, and the turns of one batch are in deadline order |
| `SchedulerRuns.NothingIsLost` | cpp/src/proactor_container_impl.cpp:454-560 | in every run each scheduled handle is in the heap, in a batch, has had its turn or was cancelled |
| `SchedulerRuns.NoLostWakeUp` | cpp/src/proactor_container_impl.cpp:454-541 | in every run, for each live task in the heap a timeout event is outstanding or the timeout is armed in time, late at most by the age of the oldest clock sample used; delays of 2^32 ms and more only wake earlier |
| `SchedulerRuns.ArmedForEarliest` | cpp/src/proactor_container_impl.cpp:464-468 | in every run, nor is a wake-up early: scheduling and extracting arm the timeout for the earliest deadline of all, or for now, if it is less than 2^32 ms ahead |
| `SchedulerRuns.FreshSamplesLeaveNoSlack` | cpp/src/proactor_container_impl.cpp:501-508 | with the clock sampled inside the critical section no wake-up is late |
| `SchedulerProgress.EveryLiveTaskCanRun` | cpp/src/proactor_container_impl.cpp:501-560 | from every reachable state, for every live handle, the clock, the proactor and the threads running timer jobs alone can go on so that its task has its turn and runs |
| `SchedulerProgress.DivisionExists` | cpp/src/proactor_container_impl.cpp:507-541 | any tasks, at any time, can be divided as the critical section requires, so an extraction is always possible |
| `SchedulerRuns.JobsAwakeIff` | cpp/src/proactor_container_impl.cpp:128-136 | throughout a run queued jobs of a container work queue have a thread on its way if and only if, while none is under way, no cancel leaves no live task and no schedule puts the timeout off beyond now, and no last thread finds the queue busy |
| `SchedulerRuns.CancelStrandsAJob` | cpp/src/proactor_container_impl.cpp:472-479 | a run in which a queued job has lost its wake-up |
| `WorkQueue.JobsRunOnceInOrder` | cpp/src/proactor_container_impl.cpp:79-99 | in every run the jobs run so far are the first ones added, in order, each once, and at most one thread runs jobs of a queue |
| `WorkQueue.AwakeIff` | cpp/src/proactor_container_impl.cpp:79-118 | throughout a run queued jobs have a wake-up pending if and only if no event uses it up while another thread is still running its batch |
| `WorkQueue.SerialisedEventsKeepJobsAwake` | cpp/src/proactor_container_impl.cpp:101-118 | when a connection's events go to one thread at a time no job is ever stranded |
| `WorkQueue.FinishedIff` | cpp/src/proactor_container_impl.cpp:110-118 | in every run a job is taken if and only if the queue has not been told to finish |
| `WorkQueue.Queue.Add` | cpp/src/proactor_container_impl.cpp:110-118 | a job is appended and the connection woken, or refused after the end; what was added stays what was handed out followed by what is queued |
| `WorkQueue.Queue.Begin` | cpp/src/proactor_container_impl.cpp:82-89 | the whole batch is taken, so that everything added has been handed out, or nothing at all if a thread is running |
| `WorkQueue.Queue.End` | cpp/src/proactor_container_impl.cpp:94-97 | only the running mark is cleared, so jobs added meanwhile stay |
| `TransactionRuns.ConversationsConform` | cpp/src/session.cpp:174-251 | in every run, with handlers free to declare inside callbacks, each conversation with a coordinator keeps to the protocol automaton and ends at a protocol error |
| `TransactionRuns.DischargeFollowsItsDeclare` | cpp/src/session.cpp:185-195 | in a conforming conversation each discharge directly follows the declare outcome whose id it carries |
| `TransactionRuns.OneControlOutstanding` | cpp/src/session.cpp:174-251 | in every run a coordinator link has at most one control message outstanding, and no control message is ever enlisted in a transaction |
| `TransactionRuns.IdOnlyInsideTransaction` | cpp/src/messaging_adapter.cpp:222-291 | in every run, outside the callbacks that end a transaction, an id is set only while declared or discharging, and no error is set |
| `TransactionRuns.NoUnexpectedOutcome` | cpp/src/messaging_adapter.cpp:215-300 | in every run an outcome comes for the last control message sent and finds the session declaring or discharging |
| `TransactionRuns.InvKept` | cpp/src/messaging_adapter.cpp:112-437 | every step by application, peer or library keeps the agreement of each context with its conversation, its control messages and its recorded trackers |
| `TransactionDeliveries.OutgoingCarryTheId` | cpp/examples/tx_send.cpp:95-109 | for every client that sends only when declared, each unsettled outgoing message carries the current id while declared or discharging, and there is none while declaring |
| `TransactionDeliveries.AbortSettlesOnlyItsOwn` | cpp/src/messaging_adapter.cpp:152-174 | for such a client an abort settles, without a disposition, all and only the messages of its own transaction |
| `TransactionDeliveries.CommitExact` | cpp/src/messaging_adapter.cpp:176-191 | a commit settles the unsettled incoming deliveries of its session as they stand, and no other delivery of the connection changes |
| `TransactionDeliveries.AbortExact` | cpp/src/messaging_adapter.cpp:152-213 | an abort settles the outgoing deliveries of its session bare and, if asked, the incoming ones as modified and failed; the coordinator link, settled deliveries and other sessions do not change |
| `TransactionDeliveries.DisposeIsProvisional` | cpp/src/delivery.cpp:40-49 | an outcome given while declared is provisional: recorded under the id, the delivery not settled |
| `TransactionDeliveries.ProvisionalFate` | cpp/src/messaging_adapter.cpp:238-291 | in every run a delivery with a provisional outcome, left alone, stays unsettled until its session's first sweep, which settles it with that outcome at a commit and as modified and failed at an abort |
| `TransactionDeliveries.SettledStays` | cpp/src/messaging_adapter.cpp:176-213 | in every run a settled incoming delivery left alone never changes again, through any number of later transactions |
| `TransactionEffects.DisposeIsFinal` | cpp/src/delivery.cpp:50-56 | an outcome given outside a declared transaction settles the delivery with that very outcome, failed only if it was modified, and changes nothing else |
| `TransactionEffects.FinalOutcomeStays` | cpp/src/delivery.cpp:50-56 | in every run that outcome is the delivery's for the rest of the run, through any transactions |
| `TransactionEffects.ProvisionalElsewhere` | cpp/src/delivery.cpp:40-49 | an outcome given in a declared transaction leaves the delivery unsettled and every other one alone |
| `TransactionEffects.CallsAcceptedIff` | cpp/src/session.cpp:185-251 | in every run a declare is accepted if and only if its conversation is at rest and no message sent on the session is unsettled, a discharge if and only if a transaction is active; a refused call changes nothing |
| `TransactionEffects.DeclareEffect` | cpp/src/session.cpp:227-251 | a declare touches its own session only, and takes over the choice to modify on abort, or keeps the earlier one, or yes at first |
| `TransactionEffects.AbortModifiesIff` | cpp/src/messaging_adapter.cpp:244-247 | in every run an abort modifies the unsettled incoming deliveries of its session if and only if the last declare that said so asked for it |
| `TransactionEffects.CallbackFollowsTheTalk` | cpp/src/messaging_adapter.cpp:215-300 | in every run the callback for an outcome, its id and its error are those for the control message sent last; any answer the protocol does not provide for, and no other, drops the context |
| `TransactionEffects.SendEffect` | cpp/src/sender.cpp:72-97 | a message sent is settled from the start exactly on a pre-settled link and enlisted exactly while declared; nothing else changes |
| `TransactionEffects.ArriveEffect` | c/src/core/transport.c:1517 | a delivery that arrives is added without a state |
| `TransactionEffects.SettleEffect` | c/src/core/engine.c:2347-2363 | settling keeps the dispositions, and touches no other delivery |
| `TransactionEffects.OpenLinkEffect` | cpp/src/messaging_adapter.cpp:527-539 | a link opened has the properties asked for and leaves the others alone |
| `TransactionEffects.TrackerUpdateEffect` | cpp/src/messaging_adapter.cpp:302-324 | the peer's disposition is kept with the delivery, and the tracker is recorded exactly if it names the current transaction |
| `TransactionEffects.AfterOutcome` | cpp/src/messaging_adapter.cpp:428-431 | a settlement is announced exactly if the peer settled and no discharge of the session is under way |
| `TransactionEffects.AfterAnnouncement` | cpp/src/messaging_adapter.cpp:431-434 | after the announcement the tracker is settled exactly if it was, or its link settles by itself |
| `TransactionEffects.ReportEffect` | cpp/src/messaging_adapter.cpp:125-148 | a report settles its tracker exactly if the peer has and its link settles by itself, and no other |
| `TransactionEffects.ReportedIsSettled` | cpp/src/messaging_adapter.cpp:142-147 | in every run such a tracker is settled from then on |
| `TransactionReports.CommitReports` | cpp/src/messaging_adapter.cpp:121-150 | in every run a commit sets out to report exactly the trackers recorded since the previous commit; for a peer that names its transactions they are those of the committed transaction if and only if every roll-back since then found nothing recorded that an earlier one had not found, or had the same id |
| `TransactionReports.CommitReportsItsOwnIff` | cpp/src/messaging_adapter.cpp:241-256 | with ids that are not used again, a commit reports its own trackers if and only if every roll-back since the previous commit found none recorded |
| `TransactionReports.AccountOnRuns` | cpp/src/messaging_adapter.cpp:302-324 | in every run no tracker is recorded under two ids, what a roll-back has found is settled and stays so, and what none has found was recorded under the current id |
| `TransactionReports.EachReportedOnce` | cpp/src/messaging_adapter.cpp:125-149 | whatever handlers do in between, each of these trackers is reported exactly once, and afterwards none is recorded |
| `TransactionReports.UndisturbedCommitReportsItsOwn` | cpp/src/messaging_adapter.cpp:251-258 | in particular a commit with no roll-back before it on the session reports exactly its own trackers |
| `TransactionReports.AbortKeepsMarks` | cpp/src/messaging_adapter.cpp:241-250 | an abort does not forget what was recorded under its transaction |
| `TransactionExample.CommitReportsARolledBackMessage` | cpp/src/messaging_adapter.cpp:280-290 | a run in which the commit of a second transaction, which sent nothing, reports a message of the first, which was rolled back |
| `TransactionAdapter.SweepDeliveries` | cpp/src/messaging_adapter.cpp:165-171 | the inner loop, along the unsettled deliveries of a link, reaches each of them |
| `TransactionAdapter.Connection.SweepSession` | cpp/src/messaging_adapter.cpp:152-213 | the nested loops do on every link and delivery what the sweep of the model does |
| `TransactionAdapter.Connection.HasUnsettledOutgoingDeliveries` | cpp/src/session.cpp:208-221 | the loop finds an unsettled delivery on a sender of the session other than the coordinator link if and only if there is one |
| `TransactionAdapter.Connection.SendMessage` | cpp/src/sender.cpp:72-97 | a message is appended, settled on a pre-settled link, and enlisted exactly while declared |
| `TransactionAdapter.Connection.TransactionDeclare` | cpp/src/session.cpp:227-251 | refused exactly when a transaction is under way or an outgoing delivery is unsettled; otherwise the step of the model |
| `TransactionAdapter.Connection.TransactionDischarge` | cpp/src/session.cpp:185-195 | refused exactly unless declared; otherwise the step of the model |
| `TransactionAdapter.Connection.SettleDelivery` | cpp/src/delivery.cpp:40-56 | a provisional outcome under the id while declared; otherwise final and settled, with the outcome given |
| `TransactionAdapter.Connection.RollBack` | cpp/src/messaging_adapter.cpp:241-250 | the abort path up to its callback is the model's abort |
| `TransactionAdapter.Connection.Commit` | cpp/src/messaging_adapter.cpp:251-255 | the commit path up to its first report is the model's commit |
| `TransactionAdapter.Connection.CoordinatorOutcome` | cpp/src/messaging_adapter.cpp:215-300 | all branches of the outcome handling, including the fall-through of a rejected roll-back, agree with the model |
| `TransactionAdapter.Connection.TrackerOutcome` | cpp/src/messaging_adapter.cpp:302-347 | a transactional disposition is recorded exactly when it names the current id |
| `TransactionAdapter.Connection.AfterTracker` | cpp/src/messaging_adapter.cpp:428-431 | after the callbacks about an outcome the settlement is announced exactly if the peer settled and no discharge is under way then |
| `TransactionAdapter.Connection.AfterTrackerSettle` | cpp/src/messaging_adapter.cpp:431-434 | after that announcement the message is settled on a link that settles by itself, even if the callback asked for a discharge |
| `TransactionAdapter.Connection.ReportOne` | cpp/src/messaging_adapter.cpp:125-148 | one report settles its tracker exactly if the peer did and the link settles automatically |
| `TransactionAdapter.Connection.EndReports` | cpp/src/messaging_adapter.cpp:149 | the recorded trackers are forgotten after the last report |
| `TransactionAdapter.Connection.AfterControl` | cpp/src/messaging_adapter.cpp:248-291 | after the last callback the id and the error are cleared and the control message is settled |
| `UrlCodec.DecodeEncode` | cpp/src/url.cpp:37-90 | decoding inverts encoding for every string |
| `UrlCodec.EncodedHasNoDelimiter` | cpp/src/url.cpp:37-53 | encoded text contains no delimiter except the percent sign, and no NUL that was not there |
| `UrlCodec.UrlEncode` | cpp/src/url.cpp:37-53 | the find-and-copy loop computes the character-wise encoding |
| `UrlForms.EscapedIff` | cpp/src/url.cpp:37-53 | exactly the eight delimiters are escaped, as a percent sign and two upper-case digits |
| `UrlForms.EscapeIsByte` | cpp/src/url.cpp:62-74 | a percent sign and two hex digits of either case are read as the byte they stand for, for every byte |
| `UrlForms.EscapeIsStrtoul` | cpp/src/url.cpp:70-71 | the two characters of any escape, digits or not, are read as a general `strtoul` reads them, cut to a byte |
| `UrlForms.PlainIsRead` | cpp/src/url.cpp:83-88 | text without a percent sign is read as it is |
| `UrlForms.ShortEscapeIsRead` | cpp/src/url.cpp:76-81 | so is a percent sign with fewer than two characters behind it |
| `UrlParser.UrlDecode` | cpp/src/url.cpp:56-90 | decoding a string over itself leaves what the pure decoder gives, and touches nothing outside it |
| `UrlParser.ParseUrl` | cpp/src/url.cpp:92-149 | after the in-place parse the six pointers read, in the overwritten buffer, exactly the fields of the pure parse, null for absent ones |
| `UrlParser.CutUser` | cpp/src/url.cpp:117-131 | user and password are cut off and decoded over themselves without reaching the host |
| `UrlParser.CutHost` | cpp/src/url.cpp:133-148 | host and port, with brackets removed, are those of the pure split |
| `UrlParser.NewBuffer` | cpp/src/url.cpp:166-172 | the constructor's buffer reads as the text up to its first NUL |
| `UrlParser.PrintUrl` | cpp/src/url.cpp:180-215 | the text put together part by part is the printed form |
| `Url.FromStringIsWellFormed` | cpp/src/url.cpp:174-178 | every URL built from a string has a scheme, a host and a port, free of the delimiters that end them |
| `Url.CopyPreservesIff` | cpp/src/url.cpp:229 | for every string the URL built from it survives copying, field by field and with absent apart from empty, if and only if no `@` in the port can end a user name and no bracket in the port can close the host |
| `Url.OrdinaryUrlsCopy` | cpp/src/url.cpp:174-229 | copying preserves every URL whose scheme has no `@` and whose host does not start with a bracket |
| `Url.UserComesBack` | cpp/src/url.cpp:117-131 | a printed user and password, in front of any host and port, are read back |
| `Url.HostComesBackIff` | cpp/src/url.cpp:133-148 | a printed host and port are read back unless the host starts with a bracket that the port closes |
| `Url.DefaultPortLosesCopy` | cpp/src/url.cpp:177 | a family of URLs that copying changes: the port defaults to a scheme with an `@` |
| `Url.CopyCanFail` | cpp/src/url.cpp:229 | one member of that family |
| `UrlForms.ParsesAsWritten` | cpp/src/url.cpp:92-149 | every text put together from its parts, with a scheme, with leading slashes or with neither, with or without user, password, brackets, port and path, is read as those parts |
| `UrlForms.EveryTextHasParts` | cpp/src/url.cpp:92-149 | every text can be put together in that way, so nothing else is left to say about the parser |
| `UrlForms.BuiltAsWritten` | cpp/src/url.cpp:174-178 | a URL built from a text has the scheme written or `amqp`, the host written or `localhost`, the port written or else its scheme |
| `UrlForms.SlashesMeanAmqp` | cpp/src/url.cpp:107-110 | two leading slashes mean the same as `amqp://`, for every text behind them |
| `UrlForms.ShortForm` | cpp/src/url.cpp:133-148 | texts without scheme and user, with any of host, port and path missing |
| `UrlForms.HostAlone` | cpp/src/url.cpp:133 | a host alone gets the scheme and the port `amqp` |
| `UrlForms.PortAlone` | cpp/src/url.cpp:144-148 | a port alone gets the host `localhost` |
| `UrlForms.PathAlone` | cpp/src/url.cpp:112-115 | a path alone gets host, scheme and port |
| `UrlForms.PrintsAsWritten` | cpp/src/url.cpp:180-215 | a text written the way the printer writes, once read, is printed again just as it was |
| `UrlForms.InfoEndsInAt` | cpp/src/url.cpp:186-194 | whatever the URL, an at sign is printed exactly if it has a user or a password |
| `Reconnect.IndexAlwaysValid` | cpp/src/proactor_container_impl.cpp:225-265 | in every run, whatever options are replaced when, each attempt uses the original URL or an existing failover |
| `Reconnect.RoundsInOrder` | cpp/src/proactor_container_impl.cpp:241-253 | while attempts fail, each round tries the original URL and then every failover once, in order |
| `Reconnect.AttemptMovesOn` | cpp/src/proactor_container_impl.cpp:243-253 | an attempt uses the URL of its position and moves to the next position, across the end of a round |
| `Reconnect.InstalledListComesFirst` | cpp/src/connection_options.cpp:127-131 | the first attempt after a failover list is installed uses its first element |
| `Reconnect.AttemptsAreBounded` | cpp/src/proactor_container_impl.cpp:335-339 | from every reachable state with no options waiting to be transferred, without a reset, an option change or a stop, at most max_attempts rounds of attempts are made, less the position already reached |
| `Reconnect.OpenedAttemptsAreBounded` | cpp/src/proactor_container_impl.cpp:225-265 | a connection opened with any options and failover list makes, without those, at most max_attempts * (failovers + 1) attempts after its first failure |
| `Reconnect.LimitedOnRuns` | cpp/src/proactor_container_impl.cpp:335-339 | in every run without a stop, whatever options are replaced when, the completed rounds never exceed the limit in force, none is under way once it is reached, and the connection waits to reconnect only below it |
| `Reconnect.AttemptTransfers` | cpp/src/connection_options.cpp:117-133 | an attempt leaves no option waiting to be transferred |
| `ReconnectLimits.GivesUpIff` | cpp/src/proactor_container_impl.cpp:306-341 | in every run of a container that does not stop, a failed connection is given up if and only if authentication failed or all rounds allowed have been made |
| `ReconnectLimits.FailEffect` | cpp/src/proactor_container_impl.cpp:306-326 | without reconnect or after a close a failure is given up in any case; while the container stops it otherwise seems to wait |
| `ReconnectLimits.AttemptsExactly` | cpp/src/proactor_container_impl.cpp:225-341 | from every reachable state with no options waiting, a connection that keeps failing makes exactly the attempts still allowed and is then given up, or never without a limit |
| `ReconnectLimits.OpenedAttemptsExactly` | cpp/src/proactor_container_impl.cpp:225-341 | opened with any options, it makes exactly max_attempts rounds of attempts, one less with a failover list, whose first attempt skips the original URL |
| `ReconnectLimits.LimitAsDocumentedIff` | cpp/include/proton/reconnect_options.hpp:73-75 | that is max_attempts attempts if and only if there are no failover URLs, or one and a limit of one |
| `ReconnectLimits.LimitExceeded` | cpp/include/proton/reconnect_options.hpp:73-75 | two attempts under a limit of one |
| `ReconnectLimits.FireEffect` | cpp/src/proactor_container_impl.cpp:225-265 | an attempt is made exactly when a wait is over |
| `ReconnectLimits.CloseEffect` | cpp/src/proactor_container_impl.cpp:312-314 | after a close the next failure is given up, even while the container stops |
| `ReconnectLimits.OpenStartsOver` | cpp/src/proactor_container_impl.cpp:295-304 | a connection that opens starts its rounds again, at the original URL and without delay |
| `ReconnectLimits.OptionsTakeEffect` | cpp/src/connection_options.cpp:117-133 | in every run the options, URL and failover list in force are those last set before the last attempt, and what was set since waits for the next |
| `ReconnectLimits.TransferEffect` | cpp/src/connection_options.cpp:91-101 | an attempt takes over what waits; new options start the rounds again, a new list is tried from its first element |
| `ReconnectLimits.UrlsTurnReconnectOn` | cpp/src/connection_options.cpp:117-121 | a URL or a failover list turns reconnect on, with the default options |
| `ReconnectLimits.OpenedWith` | cpp/src/connection_options.cpp:91-101 | a connection starts with the options it was opened with, or the defaults if only URLs were given |
| `Reconnect.WaitsOnlyBetweenRounds` | cpp/src/proactor_container_impl.cpp:275-289 | in every run a failed connection waits only when a round is complete, and then at most the back-off of that round |
| `Reconnect.BackoffIsCappedPower` | cpp/src/proactor_container_impl.cpp:282-288 | capping at every round equals capping once: the back-off of round r is min(max_delay, delay * multiplier^(r-1)) |
| `Reconnect.BackoffIsMonotone` | cpp/src/proactor_container_impl.cpp:282-288 | back-offs never shrink from one round to the next |
| `Reconnect.IntervalNeverEmptyIff` | cpp/src/proactor_container_impl.cpp:268-288 | the random interval is non-empty in every round if and only if delay is at most max_delay and the multiplier is at least one (or delay is zero) |
| `Reconnect.DocumentedIff` | cpp/src/proactor_container_impl.cpp:282-288 | the back-off follows min(max_delay, delay * multiplier^(r-1)) in every round, with the multiplier as the real number configured, if and only if there is no delay, the multiplier is whole, or the second round already reaches the cap |
| `Reconnect.FractionIsDropped` | cpp/include/proton/duration.hpp:73 | with a multiplier from one to below two the delay never grows |
| `Reconnect.Reconnector.Attempt` | cpp/src/proactor_container_impl.cpp:225-265 | the object tries the URL the model says and moves to the model's next state |
| `Reconnect.Reconnector.ApplyReconnectUrls` | cpp/src/connection_options.cpp:117-133 | pending URLs are transferred once, and an empty list stays pending |
| `Reconnect.Reconnector.SetupReconnect` | cpp/src/proactor_container_impl.cpp:343-360 | the delay bound and the new back-off are the model's |
| `Reconnect.Reconnector.MayReconnect` | cpp/src/proactor_container_impl.cpp:306-341 | the tests in their order decide as the model does |
| `Reconnect.Reconnector.ResetReconnect` | cpp/src/proactor_container_impl.cpp:295-304 | a successful open starts the rounds and the back-off again |
| `PropertyMap.AgreesWithPlainMap` | cpp/src/map.cpp:110-202 | every sequence of operations on the two-representation map returns what one plain map would, and stands for it afterwards |
| `PropertyMap.ReadsLastWrite` | cpp/src/map.cpp:154-180 | after every history, `get`, `exists` and `erase` of a key find what was last written to it, whatever was done to other keys |
| `PropertyMap.SizeCountsKeys` | cpp/src/map.cpp:182-202 | after every history `size` is the number of keys that exist, and `empty` says that there are none |
| `PropertyMap.PutGrowsIff` | cpp/src/map.cpp:162-165 | `put` makes the map larger by one if and only if the key did not exist |
| `PropertyMap.ValueRoundTrip` | cpp/src/map.cpp:123-152 | what `value()` encodes, given to any other map object, makes it stand for the same map |
| `PropertyMap.BadValueThrowsOnce` | cpp/src/map.cpp:111-121 | a value that is not a map makes the first reading operation throw, and afterwards the object is an empty map, its encoded value still there |
| `MessageProperties.OperationAgreesIff` | cpp/src/message.cpp:241-253 | on every message that decodes, an operation through the accessor returns what it would on one plain map, and that map is what the next access shows if and only if it is not empty or nothing below the map object comes back |
| `MessageProperties.EncodeIsFaithfulIff` | cpp/src/message.cpp:283-299 | for every message the section sent is what the accessor shows if and only if the map object is attached to the data or that holds the same, and an empty one covers no second version |
| `MessageProperties.EncodeIsFaithful` | cpp/src/message.cpp:283-299 | a message with one representation in charge sends exactly its properties, shows them afterwards, and stays so |
| `MessageProperties.AlignedKeptIff` | cpp/src/map.cpp:66-70 | an operation keeps one representation in charge if and only if it does not assign a standard map over data not yet decoded |
| `MessageProperties.AssignmentIsFaithfulIff` | cpp/src/map.cpp:66-70 | for every message an assigned standard map is shown if and only if it is not empty or nothing lies below, and sent if and only if it is not empty on an attached map object, or the message holds the same anyway |
| `MessageProperties.HiddenMapComesBack` | cpp/src/message.cpp:59-64 | an empty decoded map over encoded data shows and sends the encoded entries |
| `MessageProperties.AssigningEmptyCanBeLost` | cpp/src/map.cpp:66-70 | a received message whose properties are assigned an empty map shows and sends them still |
| `MessageProperties.CopyInIsFaithfulIff` | cpp/src/map.cpp:85-92 | for every message and every map object copied in, exactly when it is shown and when it is sent |
| `MessageProperties.MoveIsFaithfulIff` | cpp/src/map.cpp:98-105 | for every message a map object moved in is shown if and only if it is not empty or nothing lies below, and what is sent is what the message holds without it |
| `MessageProperties.MovedMapCanBeLost` | cpp/src/map.cpp:98-105 | a blank message into which a map with one entry is moved shows the entry and sends none |
| `MessageProperties.MovedEmptyMapCanBeLost` | cpp/src/map.cpp:98-105 | a message with properties into which an empty map object is moved shows and sends them still |
| `MessageProperties.MoveBackRestores` | cpp/src/map.cpp:98-105 | moving back a map object that refers to the message's data restores the link, so that its entries are shown and sent |
| `MessageProperties.CopyBackIff` | c/src/core/codec.c:2199-2205 | for every message, copying back such a map object shows what it stood for if and only if that does not rest on data copied from itself after being cleared |
| `MessageProperties.DecodeIsFaithfulIff` | cpp/src/message.cpp:307-312 | for every message exactly when the properties received are shown, and when they are sent on: on a detached map object older data survives |
| `MessageProperties.ReuseIsFaithful` | cpp/src/messaging_adapter.cpp:98-111 | a message cleared before it is decoded into, as the library does for each delivery, shows and sends exactly what was received, whatever it held |
| `MessageProperties.StaleEntriesSurvive` | cpp/src/message.cpp:307-312 | after a move, entries of an earlier message are shown when the new one has none and sent whatever it has |
| `MessageProperties.MessageCopyIff` | cpp/src/message.cpp:101-109 | for every message copied and every target, the copy shows, and sends, what the original sends, exactly under the conditions of decoding into the target |
| `MessageProperties.BadPropertiesAreSentOn` | cpp/src/message.cpp:241-253 | received properties that are not a map throw every time they are looked at through the message, and are sent on as they came |
| `MessageProperties.EventAgreesIff` | cpp/src/message.cpp:241-312 | on a message that shows and sends one map, every use, send, receive, clearing, copy or move has the plain map's result, and the message still shows and sends that map if and only if the event is careful |
| `MessageProperties.HistoryAgreesIff` | cpp/src/message.cpp:241-312 | a whole history of them agrees throughout with one plain map, in every result, every section sent and all that is shown, if and only if every event in it is careful |
| `MessageProperties.OrdinaryHistoryAgrees` | cpp/src/message.cpp:241-312 | in particular every history from a blank message that assigns no standard map over undecoded data and moves nothing in |
| `MessageObject.Map.Load` | cpp/src/map.cpp:111-121 | decoding fills the cache, empties the shared data object, and on failure leaves an empty cache |
| `MessageObject.Map.Flush` | cpp/src/map.cpp:123-134 | the data object holds the encoded map, and the cache is gone |
| `MessageObject.Map.Get` | cpp/src/map.cpp:154-160 | the result and the new representation are those of the model |
| `MessageObject.Map.Exists` | cpp/src/map.cpp:176-179 | true exactly for a key of the map the object stands for |
| `MessageObject.Map.Size` | cpp/src/map.cpp:181-184 | the number of entries of that map |
| `MessageObject.Map.Put` | cpp/src/map.cpp:162-165 | the entry is in the cache and the data object is empty, or the decoding error is thrown |
| `MessageObject.Map.Erase` | cpp/src/map.cpp:167-174 | the count and the new representation are those of the model |
| `MessageObject.Map.Assign` | cpp/src/map.cpp:66-70 | the cache is replaced and the data object left as it is |
| `MessageObject.Map.SetValue` | cpp/src/map.cpp:136-146 | a bad value throws and changes nothing |
| `MessageObject.Map.CopyFrom` | cpp/src/map.cpp:85-92 | the decoded map and the encoded value are those of the other object, except that data both refer to is lost |
| `MessageObject.Message.Access` | cpp/src/message.cpp:241-253 | an empty map object is pointed at the message's own data object; after a decoding error the map object is an empty map and the rest is as before |
| `MessageObject.Message.Encode` | cpp/src/message.cpp:283-299 | the section written and the new state are those of the model, under the aliasing of map and message, also after a decoding error |
| `MessageObject.Message.Decode` | cpp/src/message.cpp:307-312 | the message holds the received section and the map object is cleared |
| `MessageObject.Message.MoveIn` | cpp/src/map.cpp:98-105 | a move takes the other object's data object in place of the message's, which attaches again a map object that refers to the message's data |
| `MessageObject.Message.CopyIn` | cpp/src/map.cpp:85-92 | a copy does what the model says for a map object of its own and for one that refers to the message's data |
| `MessageObject.Message.Clear` | cpp/src/message.cpp:111-116 | the map object, the data and the raw section are all emptied |
| `ReceiverCredit.CreditIsConserved` | cpp/src/messaging_adapter.cpp:349-400 | in every run without a window, link credit plus held-back credit is all credit added and refunded less deliveries advanced past and credit drained, and covers every delivery that waits |
| `ReceiverCredit.LawfulIff` | cpp/src/messaging_adapter.cpp:357-361 | throughout a run credit is what was added less messages received and credit drained, if and only if each aborted delivery is handled as the last to have arrived, or after it was passed over with another waiting |
| `ReceiverCredit.OneFinishPerDrain` | cpp/src/receiver.cpp:71-86 | in every run each accepted drain has at most one finish callback and none comes without one |
| `ReceiverCredit.FinishAtZeroCredit` | cpp/src/messaging_adapter.cpp:86-91 | a finish callback is made only while draining and only at zero link credit |
| `ReceiverCredit.FinishIff` | cpp/src/messaging_adapter.cpp:86-91 | a step makes the finish callback if and only if it is one of the three checks, with a drain under way and no credit left |
| `ReceiverCredit.MessageCallbackIff` | cpp/src/messaging_adapter.cpp:362-375 | the application is given a message exactly when the event of a complete, current delivery is handled on an open link |
| `ReceiverCredit.DrainEffect` | cpp/src/receiver.cpp:71-86 | `drain()` asks the peer exactly when credit is reported, and otherwise queues the event that finishes it |
| `ReceiverCredit.TransferEffect` | c/src/core/transport.c:1487-1517 | a transfer continues the last delivery if that is unfinished, else starts one, and its event is the latest |
| `ReceiverCredit.PutEffect` | c/src/core/event.c:137-179 | an event put is the latest afterwards, and nothing else is added or lost |
| `ReceiverCredit.QueueOnRuns` | c/src/core/event.c:137-179 | in every run no event is queued twice in a row, and a link is closed by whoever has closed it |
| `ReceiverCredit.HeldExactly` | cpp/src/receiver.cpp:63-69 | in every run exactly the credit added during drains since the last release is on hold |
| `ReceiverCredit.HeldBack` | cpp/src/receiver.cpp:63-69 | while draining, the link gains credit only by the refund of an aborted delivery already passed, or the release after an earlier finish |
| `ReceiverCredit.DrainHoldsBack` | cpp/src/receiver.cpp:63-69 | in every run, as long as one drain lasts the link gains no credit and all credit added meanwhile is on hold, given that refunds fit and the drain was not started in the releasing callback |
| `ReceiverCredit.OnHoldUntilReleased` | cpp/src/messaging_adapter.cpp:378-398 | in every run held-back credit stays on hold until the releasing callback returns, whatever drains begin and end meanwhile |
| `ReceiverCredit.ReleasedIff` | cpp/src/messaging_adapter.cpp:389-398 | held-back credit is released when the finish callback at the end of the delivery handling returns, and by no other step of any kind |
| `ReceiverCredit.ReleasingFinishIff` | cpp/src/messaging_adapter.cpp:378-398 | the finish callback is that one exactly when the drain ends in the final check, not right after a message and not by a flow event |
| `ReceiverCredit.DrainStallsIff` | cpp/src/receiver.cpp:71-86 | on a quiet link `drain()` leads to a stall if and only if all the credit it reports is on hold |
| `ReceiverCredit.StalledStays` | cpp/src/receiver.cpp:63-86 | a stalled link stays so through everything but a flow or disposition frame of the peer's own accord: credit stays on hold, drains are refused, no message can arrive |
| `ReceiverCredit.DispositionEndsStall` | c/src/core/transport.c:1703-1716 | a disposition for an earlier delivery ends the stall: the drain finishes and the credit on hold is released, unless the delivery was aborted, which gives one credit back again |
| `ReceiverCredit.DrainCanStall` | cpp/src/messaging_adapter.cpp:378-383 | a run in which a drain ended by a message leaves credit on hold and the next drain stalls |
| `ReceiverDeliveries.EventsRunOut` | cpp/src/messaging_adapter.cpp:349-400 | from every reachable state the library alone comes to the end of its events in finitely many steps: no event is ever stuck |
| `ReceiverDeliveries.NothingLeftBehind` | cpp/src/messaging_adapter.cpp:349-400 | in every run, when no event is left each complete delivery was read or passed over and each aborted one dropped or passed over |
| `ReceiverDeliveries.HandledIsNotAhead` | c/src/core/transport.c:1517 | an event is never handled for a delivery still to be reached, so a message is never left unread because its event came too early |
| `ReceiverDeliveries.ReceivedExactlyIff` | cpp/src/messaging_adapter.cpp:357-383 | when all events of a run are handled the deliveries read are exactly the complete ones, each once and in order, if and only if no aborted delivery was handled with one of them next in line |
| `ReceiverDeliveries.MessageIsPassedOver` | cpp/src/messaging_adapter.cpp:357-361 | a run in which a message that arrives with an aborted delivery is never given to the application |
| `ReceiverWindow.WindowIsRefilled` | cpp/src/messaging_adapter.cpp:56-63 | with a window the credit of the link is the window whenever the library has finished with an event |
| `ReceiverWindow.CreditIsTheWindow` | cpp/src/messaging_adapter.cpp:399 | in every run with a window, between events the credit is the window and what the application has added, less what the peer has given back, since the last event, however many deliveries there were |
| `ReceiverWindow.WindowAdmits` | cpp/src/messaging_adapter.cpp:56-63 | in every run, when all events are handled and nothing was given back since, the peer can send |
| `ReceiverAdapter.Receiver.AfterOpen` | cpp/src/messaging_adapter.cpp:531-534 | after the open callback the credit is the window |
| `ReceiverAdapter.Receiver.AddCredit` | cpp/src/receiver.cpp:63-69 | credit goes to the link, or on hold during a drain |
| `ReceiverAdapter.Receiver.Drain` | cpp/src/receiver.cpp:71-86 | refused exactly during a drain; otherwise the peer is asked, or a flow event is queued when nothing is reported |
| `ReceiverAdapter.Receiver.LinkAdvance` | c/src/core/engine.c:2244-2284 | one credit is used for the delivery advanced past, and none if there is none |
| `ReceiverAdapter.Receiver.PutEvent` | c/src/core/event.c:137-179 | an event equal to the latest one of the connection, of whichever link, is left out |
| `ReceiverAdapter.Receiver.OnLinkFlow` | cpp/src/messaging_adapter.cpp:66-95 | the flow handling up to its callback is the step of the model |
| `ReceiverAdapter.Receiver.OnDelivery` | cpp/src/messaging_adapter.cpp:355-373 | the delivery handling up to `on_message` is the step of the model |
| `ReceiverAdapter.Receiver.AfterMessage` | cpp/src/messaging_adapter.cpp:374-383 | the check right after a message is the step of the model |
| `ReceiverAdapter.Receiver.AtEndOfDelivery` | cpp/src/messaging_adapter.cpp:389-399 | the final check and the top-up are the step of the model, and unless a drain ends the credit is the window |
| `ReceiverAdapter.Receiver.AfterEndFinish` | cpp/src/messaging_adapter.cpp:394-399 | held-back credit is released after the final finish callback |
| `BoundedReceiver.BufferIsBounded` | cpp/examples/multithreaded_client_flow_control.cpp:175-223 | under any number of threads, while open, link credit, the message being handed in, buffered messages and queued credit returns add up to MAX_BUFFER, and the buffer never exceeds it |
| `BoundedReceiver.ReturnedInOrder` | cpp/examples/multithreaded_client_flow_control.cpp:175-188 | messages are returned in the order of arrival, each once, to one thread |
| `BoundedReceiver.NoLostNotify` | cpp/examples/multithreaded_client_flow_control.cpp:175-217 | a thread that waits without having been notified could not proceed |
| `BoundedReceiver.ReceiveDecides` | cpp/examples/multithreaded_client_flow_control.cpp:175-188 | in every run `receive()` throws if and only if the receiver has been closed, else waits if and only if it is not open or all messages handed in were returned, else returns the next one in order of arrival |
| `BoundedReceiver.CloseEffect` | cpp/examples/multithreaded_client_flow_control.cpp:191-200 | the first close notifies all and queues the closing exactly if the queue is known and takes jobs; a later one does nothing |
| `BoundedReceiver.NothingQueuedAfterEnd` | cpp/examples/multithreaded_client_flow_control.cpp:186 | after the end of the connection no credit is returned any more |
| `BoundedReceiver.Receiver.Receive` | cpp/examples/multithreaded_client_flow_control.cpp:175-188 | blocks, throws or takes the oldest message exactly as the model says; the account of places and the bound on the buffer are kept |
| `BoundedReceiver.Receiver.Close` | cpp/examples/multithreaded_client_flow_control.cpp:191-200 | the first close notifies all and queues the closing of the connection if the queue is known |
| `BoundedSender.SentWithCredit` | cpp/examples/multithreaded_client_flow_control.cpp:124-138 | so then every message is sent with link credit at least one |
| `BoundedSender.CoveredIff` | cpp/examples/multithreaded_client_flow_control.cpp:90-138 | throughout a run, under any number of threads and across the unlocked gaps, the link has credit for every place held if and only if the peer never withdraws credit that the sender has counted on |
| `BoundedSender.SentWithoutCredit` | cpp/examples/multithreaded_client_flow_control.cpp:132-138 | a run with one withdrawal in which a message is sent without credit |
| `BoundedSender.EachSentOnceInOrder` | cpp/examples/multithreaded_client_flow_control.cpp:90-99 | each thread's messages are sent in its order, none twice, and each one let through has been sent, is queued, is about to be queued, or was refused by a finished work queue |
| `BoundedSender.NoneLostIff` | cpp/examples/multithreaded_client_flow_control.cpp:97-98 | in every run no message let through is lost if and only if no thread adds one after the connection has ended |
| `BoundedSender.AllSentIff` | cpp/examples/multithreaded_client_flow_control.cpp:90-138 | in every run all messages let through have been sent if and only if none is queued, none is being added and none was added after the connection had ended; what is queued then is never sent |
| `BoundedSender.PlacesLeakedByRefusal` | cpp/examples/multithreaded_client_flow_control.cpp:90-99 | in every run the count of reserved places exceeds the messages on their way by exactly the refused ones |
| `BoundedSender.LetThroughAndLost` | cpp/examples/multithreaded_client_flow_control.cpp:97-98 | a run in which the connection ends between the two halves of `send`, and the message is lost with its place |
| `BoundedSender.NoSenderOverlooked` | cpp/examples/multithreaded_client_flow_control.cpp:90-138 | a thread that waits in `send` without having been notified would wait again |
| `BoundedSender.LetThroughIff` | cpp/examples/multithreaded_client_flow_control.cpp:90-97 | in every run `send` lets a thread through if and only if the sender is open and fewer messages are in flight than the credit last seen; otherwise it waits and nothing else changes |
| `BoundedSender.CreditOnRuns` | cpp/examples/multithreaded_client_flow_control.cpp:132-138 | in every run the link's credit is what the peer has left granted, less one for each message sent |
| `BoundedSender.CloseWaitsIff` | cpp/examples/multithreaded_client_flow_control.cpp:107-115 | in every run a thread in `close` waits exactly until the open |
| `BoundedSender.CloserOverlookedIff` | cpp/examples/multithreaded_client_flow_control.cpp:107-122 | in every run a thread in `close` has been notified if and only if `on_sendable` or the end of a `do_send` has come, which both come only after the open |
| `BoundedSender.CloserCanBeOverlooked` | cpp/examples/multithreaded_client_flow_control.cpp:117-122 | a run in which the work queue is known and a thread in `close` has not been notified |
| `BoundedSender.Sender.Reserve` | cpp/examples/multithreaded_client_flow_control.cpp:90-97 | a place is taken exactly when one is free, otherwise the thread waits; every place stays covered by credit |
| `BoundedSender.Sender.DoSend` | cpp/examples/multithreaded_client_flow_control.cpp:132-133 | the oldest message is sent, and there is credit for it |
| `BoundedSender.Sender.Release` | cpp/examples/multithreaded_client_flow_control.cpp:134-137 | the place is given up, the cached credit brought up to date and every waiting thread notified |
| `BrokerVector.Vector.Push` | c/examples/broker.c:80-88 | the element is appended, through any growth of the storage |
| `BrokerVector.Vector.Pop` | c/examples/broker.c:90-94 | the first element goes and the others keep their order; an empty vector stays empty |
| `BrokerQueue.WaitingOnlyWhenEmpty` | c/examples/broker.c:131-193 | in every run the waiting list has no duplicates and is empty while there are messages |
| `BrokerQueue.LeaveInOrder` | c/examples/broker.c:131-193 | in every run messages leave in the order they came, each once, with tags 1, 2, 3 and so on |
| `BrokerQueue.UnsubscribedExactly` | c/examples/broker.c:255-266 | swap-and-shift removes exactly one occurrence of the connection, wherever it stands |
| `BrokerQueue.UnsubscribedOrder` | c/examples/broker.c:255-266 | the connection at the front takes the place of the one removed, and the others move up |
| `BrokerQueue.AllWaitingAreWoken` | c/examples/broker.c:180-193 | in every run a message that arrives wakes every waiting connection once and leaves none waiting |
| `BrokerQueue.RememberedIff` | c/examples/broker.c:255-266 | throughout a run every link that found the queue empty and was not woken has its connection on the list, if and only if no link closed while a sibling on its connection was waiting |
| `BrokerQueue.HungryOnlyWhenEmpty` | c/examples/broker.c:131-193 | in such a run a link left waiting means that there is no message |
| `BrokerQueue.SiblingCanBeForgotten` | c/examples/broker.c:268-277 | a run in which one of two links of a connection closes, a message comes, and nobody is woken |
| `BrokerQueue.Queue.Send` | c/examples/broker.c:131-157 | the object hands out the oldest message with the next tag, or records the connection once |
| `BrokerQueue.Queue.Receive` | c/examples/broker.c:180-193 | the message is queued, and exactly the waiting connections are woken if the queue was empty |
| `BrokerQueue.Queue.Unsubscribe` | c/examples/broker.c:255-266 | the in-place search, swap and shift do what the model says |

## Left out

- The C engine, the proactor, TLS, SASL and the codec: only the state named above is modelled, and encoding and decoding a map are inverse by assumption of the value type.
- Thread creation, the quiescent callback, and the ordering of stop and disconnect in `container::impl::thread` and `stop`; `setup_reconnect` is one step.
- Reference counts, object lifetimes and allocation failure.
- Overflow of 64-bit clocks and durations, and of the 32-bit credit counters, which are unbounded integers here.
- When the engine forgets a settled delivery: a disposition frame may name any delivery that has arrived here, so the runs are at least those that can occur.
- Deliveries with no bytes, for which message decoding throws, and an application that settles deliveries before they are handed to it.
- The drain logic on the sender's side (`sender::return_credit`, `on_sender_drain_start`).
- Annotations and instructions of a message, which repeat the pattern of the properties.
- Several container work queues: one stands for them.
- A peer that sends a transactional state without an id, for the question whose trackers a commit reports.
- Failing job bodies: the queue ignores their exceptions, and a job is only a name here.
- The account of all credit ever added is stated without a window; with one the library overwrites the credit at every event, and the account is the one since the last event.
- The local and the remote open event of a link, which both top up, are one step around `on_receiver_open`.
- Which of the handler functions is called for the outcome of an outgoing message: accepted, rejected or released.
- Named lookup of broker queues, and reading message bytes from deliveries in the broker.
- `compare` in `cpp/src/value.cpp` and `tryToSend` in `cpp/examples/broker.cpp`.
- Option setters, JSON configuration, tracing, SSL options, the other language bindings and the remaining examples: thin wrappers.
