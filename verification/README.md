# Timers, events and queries of RTI-DDS-SmartSoft

This project models the concurrent core of RTI-DDS-SmartSoft, the SmartSoft communication
patterns on top of a DDS middleware, and proves what holds in every run of it. Run
`dafny verify dfyconfig.toml` to check it.

## What is modelled

**Timer manager** (`TimerQueue`, `TimerModel`, `TimerManager`, `TimerRuns`, `TimerDrift`,
`TimerBacklog`). The service thread gives up the mutex while a handler runs and reschedules
from a copy of the timer's entry afterwards. `TimerModel.Next` therefore splits the service of
one event into `FireBegin` and `FireEnd`, between which any API call may happen. The class
`TimerManager.TimerManager` has the original's fields and loops; every method is proved to
perform one step of `Next`. What the runs keep is proved about `Next`.

**Event protocol** (`ConnectionId`, `Prescale`, `CorrelationIdFilter`, `EventResults`,
`EventServer`, `Connectors`, `EventClient`, `EventSystem`, `EventProofs`, `EventTheorems`,
`EventRuns`, `EventDelivery`, `EventWitness`).
The classes carry the fields and loops of the client, its per-activation cells, the server's
activation list and the content filter, and are proved against functions on values.
`EventSystem` composes those functions into one transition system of any number of clients,
one server and the channels between them: each step is what one thread does while it holds one
mutex, `activate` is split into lock, write and insert, a blocking call into enter, wake and
finish, and `put` into its loop turns. `EventSystem.System.records` remembers for every
activation what was written, what reached its cell and what was returned.

**Query protocol** (`QueryServer`, `QueryClient`, `QuerySystem`, `QueryTheorems`,
`QueryRuns`, `QueryDelivery`). The same scheme, with the different locking of the query client: a request is written under one mutex
and its cell inserted under another, so a reply may overtake the insertion.

## Assumptions

- The middleware is an environment: topics are channels that may lose samples (a KeepLast
  reader overwrites) but do not duplicate them, and deliver the event samples of one writer in
  order. Activations, requests and replies may overtake each other even from one writer; where
  that matters the result says what order gives (`EventDelivery.DeactivationEnds`). Sample ids and the
  connection identity of a writer are unique.
- A guard condition is a boolean, and `WaitSet.wait` returns any list of conditions that are
  true at that moment, in any order; the empty list is a timeout. That a `getNextEvent` guard
  was raised is remembered in the cell (`triggered`).
- Clock readings, the user's event test, which writes throw, and whether the steps of a
  connection succeed are parameters. The test may rewrite the stored activation parameters,
  which it is handed by reference, and may keep state of its own, so that its verdict depends
  on how far the list has been tested.
- Time points, timer ids and sequence numbers are unbounded integers; the prescale factor is a
  32-bit C `int`, bytes are bytes. `std::map` and `std::set` are Dafny maps and sets.
- No two receiving query calls use the same id at the same time, as the query client
  documents; a discard may come during a wait.

## Where the code does not do what its documentation says

- `blocking(false)` is documented to abort blocked calls; the guard is set to the argument
  itself, so a blocked call can be cancelled exactly while the last argument was true
  (`EventRuns.BlockingReleasesIff`, `NoCancelAfterBlockingFalse`, and the same in `QueryRuns`).
- Concurrent `getEvent` calls are documented to all return the event; a call released by the
  event returns OK exactly if a value arrived since the last OK on that id
  (`EventRuns.SecondGetEventIff`, `NoSecondOk`), and in `EventWitness.SecondGetEventIsPassive`
  two calls wait for the same event and the second one returns PASSIVE.
- A reset from inside the timer's own callback leaves two schedules behind, exactly when the
  copied entry is periodic (`TimerRuns.ResetLeavesOneScheduleIff`).
- A prescale factor above the largest `int` is silently replaced by it
  (`Prescale.FactorIsFaithfulIff`).
- The fired mark is set before the write, so a single-mode event whose write throws is lost
  for good (`EventTheorems.SingleShotIsFinal`).
- A query answer that overtakes the insertion of its cell never arrives
  (`QueryTheorems.TakenReplyIsGoneIff`, `OvertakenAnswerIsGone`, `GoneAnswerNeverComes`).

## Model

| member | source | states |
|---|---|---|
| TimerRuns.MonotoneExpiry | RTI-DDS-SmartSoft/TimerManagerThread.cpp:98-126 | Every interleaving of API calls with the two halves of the service, clock not going back, durations not negative: the wake-up times handed to handlers never decrease and no handler is called early. |
| TimerRuns.MonotoneExpiryFrom | RTI-DDS-SmartSoft/TimerManagerThread.cpp:98-126 | The same from any reachable state, above any floor that all pending work respects. |
| TimerRuns.NextKeepsInv | RTI-DDS-SmartSoft/TimerManagerThread.cpp:89-304 | One step keeps: queue sorted, pending ids registered, ids below the next id, at most two tokens per timer, no periodic timer lost. |
| TimerRuns.RunKeepsInv | RTI-DDS-SmartSoft/TimerManagerThread.cpp:89-304 | The same for every run. |
| TimerRuns.NextCount | RTI-DDS-SmartSoft/TimerManagerThread.cpp:118-190 | How many pending events each step leaves for each timer. |
| TimerRuns.PeriodicNeverLost | RTI-DDS-SmartSoft/TimerManagerThread.cpp:104-127 | In every reachable state a registered timer with positive interval has a pending event, or its running callback will leave one. |
| TimerRuns.OneTokenUnlessResetInCallback | RTI-DDS-SmartSoft/TimerManagerThread.cpp:162-190 | Pending events plus running callback stay at one in every run that never resets the timer from its own callback. |
| TimerRuns.ResetLeavesOneScheduleIff | RTI-DDS-SmartSoft/TimerManagerThread.cpp:165-190 | After a reset and the end of the running callback the timer has one schedule if and only if the reset was not made inside its own periodic callback, and two otherwise. |
| TimerRuns.ResetInCallbackDoublesWitness | RTI-DDS-SmartSoft/TimerManagerThread.cpp:118-126 | A concrete run that ends with two schedules for one timer. |
| TimerRuns.UnregisteredIsSilent | RTI-DDS-SmartSoft/TimerManagerThread.cpp:145-154 | An issued id that is not registered never becomes registered again and never expires, in any continuation. |
| TimerRuns.CancelledMeansSilent | RTI-DDS-SmartSoft/TimerManagerThread.cpp:195-296 | A step unregisters a registered timer if and only if it is one of the three cancelling calls that name it, its handler, or all; then no expiry of that timer begins afterwards. |
| TimerRuns.CancelledExactly | RTI-DDS-SmartSoft/TimerManagerThread.cpp:195-296 | Besides: a cancelled timer has no pending event left, and every step but its own reset leaves the entry of a remaining timer as it was. |
| TimerRuns.OwnerKept | RTI-DDS-SmartSoft/TimerManagerThread.cpp:150-168 | In every run handler and token of a timer stay the same while it is registered. |
| TimerRuns.ScheduledForHandler | RTI-DDS-SmartSoft/TimerManagerThread.cpp:150-263 | In every continuation in which a scheduled timer is still registered, `cancelTimersOf(h)` removes it with its events if and only if h scheduled it, and cancelling it hands back its token. |
| TimerRuns.OnlyScheduleRegisters | RTI-DDS-SmartSoft/TimerManagerThread.cpp:106 | The table lookup on expiry never inserts a default entry: only scheduling adds an id, and a new one. |
| TimerRuns.IdsInOrder | RTI-DDS-SmartSoft/TimerManagerThread.cpp:145 | In every run the next id is the number of timers scheduled so far. |
| TimerDrift.NoDrift | RTI-DDS-SmartSoft/TimerManagerThread.cpp:112-126 | Expiry number k of a timer that is never reset is exactly at schedule time + oneshot + k * interval, and calls the scheduling handler with its token, however late the thread runs; a one-shot timer expires at most once. |
| TimerDrift.ResetRestartsGrid | RTI-DDS-SmartSoft/TimerManagerThread.cpp:165-185 | A reset outside the callback restarts the grid at reset time + new interval, for the same handler and token. |
| TimerDrift.GridRun | RTI-DDS-SmartSoft/TimerManagerThread.cpp:118-126 | From any state on the grid, the k-th expiry of the run lies k intervals further. |
| TimerDrift.OneShotRun | RTI-DDS-SmartSoft/TimerManagerThread.cpp:118 | A timer without a positive interval expires no more often than it has pending events. |
| TimerBacklog.BacklogConserved | RTI-DDS-SmartSoft/TimerManagerThread.cpp:98-127 | Expiries performed up to a horizon plus the remaining backlog always equal the initial backlog. |
| TimerBacklog.StarvationBound | RTI-DDS-SmartSoft/TimerManagerThread.cpp:98-127 | Without API calls, fewer expiries than the backlog at an event's own time are performed while that event waits. |
| TimerBacklog.NothingOvertakes | RTI-DDS-SmartSoft/TimerManagerThread.cpp:98-101 | While an event waits, everything served has a wake-up time no later than its own. |
| TimerBacklog.FrozenClockExact | RTI-DDS-SmartSoft/TimerManagerThread.cpp:98-131 | With the clock at most `now`, the thread performs at most the backlog, and all of it exactly when nothing is due any more. |
| TimerManager.TimerManager.constructor | RTI-DDS-SmartSoft/TimerManagerThread.h:56-78 | Starts in the initial state of the machine. |
| TimerManager.TimerManager.ScheduleTimer | RTI-DDS-SmartSoft/TimerManagerThread.cpp:136-160 | Performs the schedule step and returns the new id. |
| TimerManager.TimerManager.EraseEventsOf | RTI-DDS-SmartSoft/TimerManagerThread.cpp:205-214 | The erase loop removes exactly the events of one timer and keeps the order of all others. |
| TimerManager.TimerManager.ResetTimerInterval | RTI-DDS-SmartSoft/TimerManagerThread.cpp:162-193 | Performs the reset step; 0 exactly if the id was registered, -1 without any change otherwise. |
| TimerManager.TimerManager.CancelTimer | RTI-DDS-SmartSoft/TimerManagerThread.cpp:195-237 | Performs the cancel step, hands back the token and notifies the timer's handler once; or -1 without any change or notification. |
| TimerManager.TimerManager.CancelTimersOf | RTI-DDS-SmartSoft/TimerManagerThread.cpp:239-283 | The nested erase loops remove exactly the handler's timers and exactly their events, in one step of the machine, count the timers, and notify the handler exactly once. |
| TimerManager.TimerManager.DeleteAllTimers | RTI-DDS-SmartSoft/TimerManagerThread.cpp:285-304 | Clears everything and notifies the handlers of exactly the former timers with their tokens, once each, in id order. |
| TimerManager.TimerManager.FireBegin | RTI-DDS-SmartSoft/TimerManagerThread.cpp:98-112 | Pops the front event, copies its entry and calls the handler with its wake-up time. |
| TimerManager.TimerManager.FireEnd | RTI-DDS-SmartSoft/TimerManagerThread.cpp:115-127 | Reschedules if the id is still registered and the copied interval is positive. |
| TimerManager.TimerManager.ServeUntil | RTI-DDS-SmartSoft/TimerManagerThread.cpp:91-133 | With a frozen clock the loop terminates after exactly the backlog, in wake-up order, leaving only later events. |
| TimerManager.ServeRound | RTI-DDS-SmartSoft/TimerManagerThread.cpp:98-127 | One full round takes exactly one off the backlog and leaves nothing earlier behind. |
| TimerManager.WithoutOneMore | RTI-DDS-SmartSoft/TimerManagerThread.cpp:245-263 | Cancelling a set of timers one by one is removing the set at once. |
| TimerQueue.InsertSplits | RTI-DDS-SmartSoft/TimerManagerThread.cpp:126 | A new event lands behind all events not later than it and in front of all later ones; nothing else moves. |
| TimerQueue.EraseTwice | RTI-DDS-SmartSoft/TimerManagerThread.cpp:255-263 | Erasing two id sets one after the other is erasing their union. |
| TimerQueue.EraseMembers | RTI-DDS-SmartSoft/TimerManagerThread.cpp:206-214 | Exactly the events of other ids remain. |
| ConnectionId.ToString | RTI-DDS-SmartSoft/ConnectionId.cpp:108-116 | The loop prints two lower-case hex digits for each byte. |
| ConnectionId.FromString | RTI-DDS-SmartSoft/ConnectionId.cpp:56-65 | The loop parses sixteen pairs or reports which exception ends it. |
| ConnectionId.FromVector | RTI-DDS-SmartSoft/ConnectionId.cpp:66-74 | Sixteen bytes are copied; any other length gives the unknown id. |
| ConnectionId.PrintParse | RTI-DDS-SmartSoft/ConnectionId.cpp:56-116 | Every sixteen-byte id survives print and parse. |
| ConnectionId.PrintInjective | RTI-DDS-SmartSoft/ConnectionId.cpp:108-116 | Two ids print alike if and only if they are equal. |
| ConnectionId.ParsePrintIff | RTI-DDS-SmartSoft/ConnectionId.cpp:56-116 | A text is reproduced by parse and print if and only if it is 32 lower-case hex digits. |
| ConnectionId.PairPrintsBackIff | RTI-DDS-SmartSoft/ConnectionId.cpp:61-63 | Two characters survive conversion and printing if and only if both are lower-case hex digits. |
| ConnectionId.ParseTakesBytes | RTI-DDS-SmartSoft/ConnectionId.cpp:59-64 | What every byte of a parsed id is, for all texts that parse. |
| ConnectionId.ParsesIff | RTI-DDS-SmartSoft/ConnectionId.cpp:56-65 | A text parses if and only if it has all sixteen pairs, the last possibly of one character, and each reads as a number. |
| ConnectionId.AliasesOfDigit | RTI-DDS-SmartSoft/ConnectionId.cpp:61-63 | Which other one- and two-character texts read as a digit or its negative, and which do not read. |
| ConnectionId.UpperDigit | RTI-DDS-SmartSoft/ConnectionId.cpp:63 | The digits above nine also read in upper case. |
| CorrelationIdFilter.Isolation | RTI-DDS-SmartSoft/CorrelationIdFilter.cpp:49-105 | Through print, filter expression, parse and compare, the reader of one connection passes a sample if and only if it relates to that connection. |
| CorrelationIdFilter.Filter.Compile | RTI-DDS-SmartSoft/CorrelationIdFilter.cpp:56-83 | Adds one reader in front with id, counter zero and optional factor; a malformed expression adds nothing. |
| CorrelationIdFilter.Filter.Evaluate | RTI-DDS-SmartSoft/CorrelationIdFilter.cpp:85-106 | The verdict from the counter before the increment, or the id comparison; no other reader changes. |
| CorrelationIdFilter.Filter.Finalize | RTI-DDS-SmartSoft/CorrelationIdFilter.cpp:108-112 | Removes exactly that reader. |
| CorrelationIdFilter.PrescaleRun | RTI-DDS-SmartSoft/CorrelationIdFilter.cpp:90-97 | Under any interleaving with other readers, evaluation j passes if and only if counter + j is a multiple of the factor. |
| CorrelationIdFilter.MultiplesCount | RTI-DDS-SmartSoft/CorrelationIdFilter.cpp:95 | The multiples of f among n evaluations are n / f rounded up. |
| CorrelationIdFilter.PrescaleEndToEnd | RTI-DDS-SmartSoft/CorrelationIdFilter.cpp:67-112 | A subscription with factor k, printed and parsed, accepts exactly its evaluations 0, k, 2k, ..., so n / k rounded up of n. |
| Prescale.FactorIsFaithfulIff | RTI-DDS-SmartSoft/CorrelationIdFilter.cpp:71-77 | The factor used is the factor subscribed if and only if it fits an int; a larger one becomes the largest int. |
| Prescale.OtherParameters | RTI-DDS-SmartSoft/CorrelationIdFilter.cpp:71-77 | Leading white space and plus are passed over; a minus, no number, zero or no parameter give no factor. |
| Prescale.ReadPrinted | RTI-DDS-SmartSoft/PushClientPattern.h:321 | Reading back a printed number continues with exactly that number. |
| EventResults.EventResult.SetNewEvent | RTI-DDS-SmartSoft/EventResult.h:83-91 | Stores the value, raises the flags and exactly the registered next-event guards. |
| EventResults.EventResult.ConsumeEvent | RTI-DDS-SmartSoft/EventResult.h:93-101 | Returns the value, clears the flag, lowers the event guard only in continuous mode. |
| EventResults.EventResult.AddNextEventGuard | RTI-DDS-SmartSoft/EventResult.h:114-117 | Registers the guard behind the others. |
| EventResults.EventResult.ConsumeNextEvent | RTI-DDS-SmartSoft/EventResult.h:118-122 | Removes every occurrence of the guard and consumes. |
| EventResults.EventResult.DeactivateEvent | RTI-DDS-SmartSoft/EventResult.h:103-105 | Raises the deactivation guard and nothing else. |
| EventResults.ReplayFlags | RTI-DDS-SmartSoft/EventResult.h:83-101 | Over every history: the new flag means an unconsumed value, the event guard means fired (single) or equals the flag (continuous), and the stored value is the last one set. |
| EventResults.TryClassifies | RTI-DDS-SmartSoft/EventClientPattern.h:489-499 | Over every history `tryEvent` is OK iff an unconsumed value exists, PASSIVE iff single mode fired and consumed, else ACTIVE. |
| EventServer.EventServer.OnDataAvailable | RTI-DDS-SmartSoft/EventServerPattern.h:84-122 | Applies each valid sample in order to the list; nothing while shutting down. |
| EventServer.EventServer.EraseById | RTI-DDS-SmartSoft/EventServerPattern.h:105-108 | Find and erase removes the first entry with the id, if any. |
| EventServer.EventServer.Put | RTI-DDS-SmartSoft/EventServerPattern.h:188-216 | For every test handler, also one that rewrites parameters: writes, in order, for exactly the continuous or unfired entries whose test holds, up to the first failing write; that entry is marked although nothing was sent. |
| EventServer.EventServer.TestEntry | RTI-DDS-SmartSoft/EventServerPattern.h:197-200 | Tests an eligible entry by reference and marks it if it fires; any other entry and an ineligible one stay as they are. |
| EventServer.ListRefinesHistory | RTI-DDS-SmartSoft/EventServerPattern.h:93-121 | However receptions and puts interleave, the list is, in arrival order and without duplicates, the activations received and not deactivated. |
| EventServer.ModesRefineHistory | RTI-DDS-SmartSoft/EventServerPattern.h:98-115 | In every history each entry has the mode of the activation sample it was made from. |
| EventServer.EntryContributes | RTI-DDS-SmartSoft/EventServerPattern.h:196-206 | A put that reaches an entry sends for it exactly one sample, with its id and the event of its test, if the activation is continuous, fired or not, or single and unfired, and the test fires; nothing otherwise; in list order. |
| EventServer.StandingMembers | RTI-DDS-SmartSoft/EventServerPattern.h:102-115 | The standing activations are distinct and were all received. |
| EventServer.StandingAppend | RTI-DDS-SmartSoft/EventServerPattern.h:102-115 | What one more sample does to the standing activations. |
| EventServer.PutOnlyMarks | RTI-DDS-SmartSoft/EventServerPattern.h:196-213 | A put never changes the id or mode of an entry; it raises exactly the fired marks of the entries that fire, and parameters change only where the test rewrote them. |
| EventServer.FirstAt | RTI-DDS-SmartSoft/EventServerPattern.h:105-108 | The position where the search stops is the one whose removal the specification describes. |
| Connectors.DDSWriterConnector.Reconnect | RTI-DDS-SmartSoft/DDSWriterConnector.cpp:96-137 | A writer exists afterwards if and only if the status is OK; when each status arises. |
| Connectors.DDSReaderConnector.Reconnect | RTI-DDS-SmartSoft/DDSReaderConnector.cpp:86-130 | The same for the reader, where the first reported condition decides. |
| Connectors.ConnectCases | RTI-DDS-SmartSoft/EventClientPattern.h:249-281 | Case by case through topics, writer, filter and reader: the one status that connect may answer. |
| EventClient.EventClient.Connect | RTI-DDS-SmartSoft/EventClientPattern.h:232-284 | All or nothing: OK exactly if every step went well, then both endpoints exist and the client is connected; otherwise neither does; earlier activations are released in both cases. |
| EventClient.EventClient.ConnectEndpoints | RTI-DDS-SmartSoft/EventClientPattern.h:249-281 | The try block of connect from the disconnected state: the same outcome table. |
| EventClient.EventClient.Disconnect | RTI-DDS-SmartSoft/EventClientPattern.h:300-325 | Deactivates every cell, empties the cache, drops both endpoints. |
| EventClient.EventClient.Blocking | RTI-DDS-SmartSoft/EventClientPattern.h:338-344 | The guard becomes the argument. |
| EventClient.EventClient.OnLivelinessChanged | RTI-DDS-SmartSoft/EventClientPattern.h:104-112 | The client is connected exactly while a remote writer is alive. |
| EventClient.EventClient.Activate | RTI-DDS-SmartSoft/EventClientPattern.h:362-396 | Only OK sends the activation, in its own mode, and adds a cell, a fresh one under the id of the written sample. |
| EventClient.EventClient.Deactivate | RTI-DDS-SmartSoft/EventClientPattern.h:417-453 | Only OK removes the entry, after raising its guard, and the deactivation of that id is sent exactly while the client is connected; a failed write leaves all as it was. |
| EventClient.EventClient.TryEvent | RTI-DDS-SmartSoft/EventClientPattern.h:477-500 | The classification of the cached cell, WRONGID without one. |
| EventClient.EventClient.GetEventEnter | RTI-DDS-SmartSoft/EventClientPattern.h:563-591 | When getEvent answers at once and which cell it waits on. |
| EventClient.EventClient.GetEventFinish | RTI-DDS-SmartSoft/EventClientPattern.h:596-631 | The status from the active conditions; only OK consumes, and it returns the cell's value. |
| EventClient.EventClient.GetNextEventEnter | RTI-DDS-SmartSoft/EventClientPattern.h:690-730 | When getNextEvent answers at once; otherwise its guard is registered with the cell. |
| EventClient.EventClient.GetNextEventFinish | RTI-DDS-SmartSoft/EventClientPattern.h:735-767 | The status from the active conditions; only OK consumes and unregisters the guard. |
| EventClient.EventClient.OnDataAvailable | RTI-DDS-SmartSoft/EventClientPattern.h:113-143 | Every cached cell receives exactly its own valid samples, in order. |
| EventClient.DeliverAllPerCell | RTI-DDS-SmartSoft/EventClientPattern.h:121-142 | Delivering a batch one sample at a time, as the system does, changes exactly the cached cells, each as the upcall does. |
| EventClient.OkMeansNewEvent | RTI-DDS-SmartSoft/EventClientPattern.h:604-757 | OK means that an unconsumed value is there and the call's own condition released it. |
| EventTheorems.NextKeepsInv | RTI-DDS-SmartSoft/EventClientPattern.h:113-768 | Every step of clients, server and channels keeps the system invariant. |
| EventTheorems.RunKeepsInv | RTI-DDS-SmartSoft/EventClientPattern.h:113-768 | The same for every run. |
| EventTheorems.EndToEnd | RTI-DDS-SmartSoft/EventClientPattern.h:596-757 | In every run: the events returned are a subsequence of those that reached the cell, and these of those written; in single mode at most one is written. |
| EventTheorems.PutEntryAgreesWithPut | RTI-DDS-SmartSoft/EventServerPattern.h:196-213 | One loop turn of the system marks and writes what `put` of the server object does for that entry. |
| EventTheorems.WriteIsIsolated | RTI-DDS-SmartSoft/EventServerPattern.h:202-206 | A write can change only the node of the client whose live connection made the activation, by exactly that sample. |
| EventTheorems.TakenEventFindsItsCell | RTI-DDS-SmartSoft/EventClientPattern.h:364-388 | A taken event finds its cell if and only if its activation was not deactivated or disconnected, however early it arrives, and the cell then holds it as its new event. |
| EventTheorems.NextEventIsFresh | RTI-DDS-SmartSoft/EventClientPattern.h:724-758 | getNextEvent with OK returns the latest value, which was set after the call registered its guard, whatever other callers did. |
| EventTheorems.OkConsumes | RTI-DDS-SmartSoft/EventClientPattern.h:614-618 | OK takes an unconsumed value and leaves none; the returned values stay a subsequence of those set. |
| EventRuns.SecondGetEventIff | RTI-DDS-SmartSoft/EventClientPattern.h:596-622 | In every run a getEvent or getNextEvent returns OK only if a value arrived since the last OK of any call on this id; one released by the event alone returns OK if and only if that is so, otherwise PASSIVE or ERROR by mode. |
| EventRuns.NoSecondOk | RTI-DDS-SmartSoft/EventClientPattern.h:614-618 | After an OK, in every continuation, no other call on this id returns OK before another value reached the cell. |
| EventRuns.UnreturnedIsHasNew | RTI-DDS-SmartSoft/EventResult.h:83-101 | In every run the new-event flag of a cell says exactly that a value arrived since the last OK on its id. |
| EventDelivery.GetEventWaitsIff | RTI-DDS-SmartSoft/EventClientPattern.h:565-576 | In every reachable state getEvent waits if and only if the client is connected and has the activation; else DISCONNECTED or WRONGID. |
| EventDelivery.GetNextEventWaitsIff | RTI-DDS-SmartSoft/EventClientPattern.h:692-715 | getNextEvent waits if and only if, besides, no value arrived yet for a single-mode activation; else PASSIVE. |
| EventDelivery.WokenStatus | RTI-DDS-SmartSoft/EventClientPattern.h:598-631 | The documented statuses: TIMEOUT for no active condition, else by the first condition that settles it, ERROR if none does. |
| EventDelivery.ReleasedIff | RTI-DDS-SmartSoft/EventResult.h:83-91 | In every run a blocked getNextEvent can be woken by its own guard if and only if a value arrived since it entered, a blocked getEvent if and only if an unreturned value is there or, in single mode, one ever arrived. |
| EventDelivery.WaiterGetsValue | RTI-DDS-SmartSoft/EventClientPattern.h:614-618 | A value that arrives releases every call blocked on its activation, and the released call, whenever it gets the mutex, returns OK with the latest value unless another call returned one before. |
| EventDelivery.ReleasedGetsOk | RTI-DDS-SmartSoft/EventClientPattern.h:753-758 | A call released by its event finds OK and returns the latest value while one is unreturned. |
| EventDelivery.ReturnedGuardLeaves | RTI-DDS-SmartSoft/EventResult.h:118-122 | A getNextEvent that returns takes exactly its own guard out of the cell, and only on OK. |
| EventDelivery.LivelinessReleasesIff | RTI-DDS-SmartSoft/EventClientPattern.h:104-112 | After a liveliness change every blocked call of the client can be woken with DISCONNECTED if and only if no remote writer is alive. |
| EventDelivery.DisconnectReleases | RTI-DDS-SmartSoft/EventClientPattern.h:300-310 | A disconnect releases every blocked call of the client, with DISCONNECTED. |
| EventDelivery.PutWritesIff | RTI-DDS-SmartSoft/EventServerPattern.h:196-213 | A turn of put writes the event if and only if the entry is continuous or unfired, its test fires and the write does not throw; the sample goes to the connection that made the activation and no other; exactly the due entries are marked. |
| EventDelivery.ActivationIsSent | RTI-DDS-SmartSoft/EventClientPattern.h:370-382 | An activation is sent in its own mode with its parameters and, once received, stands last in the server list, unfired. |
| EventDelivery.DeactivationIsSent | RTI-DDS-SmartSoft/EventClientPattern.h:430-445 | A deactivation of the id is sent exactly while the client is connected, and the activation leaves the cache unless the write throws. |
| EventDelivery.DeactivationEnds | RTI-DDS-SmartSoft/EventServerPattern.h:102-108 | A received deactivation takes the entry out of the list in whatever order samples arrive, and ends the activation if and only if its activation sample is not still on its way, in particular when the samples of one writer arrive in order. |
| EventDelivery.DeactivatedIsSilent | RTI-DDS-SmartSoft/EventServerPattern.h:102-108 | Then no continuation writes for it, in either mode. |
| EventDelivery.EndedIsSilent | RTI-DDS-SmartSoft/EventServerPattern.h:196-206 | An activation with nothing on its way and no entry stays so, and nothing is written for it, in every continuation. |
| EventDelivery.OvertakenActivationStands | RTI-DDS-SmartSoft/EventServerPattern.h:102-115 | A deactivation that overtakes its activation is lost: the entry stands once the activation arrives. |
| EventDelivery.EntryStands | RTI-DDS-SmartSoft/EventServerPattern.h:102-115 | Only its own deactivation takes an entry out of the server list. |
| EventWitness.SecondGetEventIsPassive | RTI-DDS-SmartSoft/EventClientPattern.h:596-622 | For every activation and event a run in which two getEvent calls wait, the event releases both, the first returns OK and the second PASSIVE. |
| EventTheorems.NoStrandedWaiter | RTI-DDS-SmartSoft/EventClientPattern.h:442-445 | A blocked call whose activation left the cache can wake up, and then returns NOTACTIVATED. |
| EventTheorems.NeverStrandedLater | RTI-DDS-SmartSoft/EventClientPattern.h:307-310 | This stays so in every continuation. |
| EventTheorems.RemovedStays | RTI-DDS-SmartSoft/EventClientPattern.h:307-310 | No step brings a removed activation back. |
| EventRuns.BlockingReleasesIff | RTI-DDS-SmartSoft/EventClientPattern.h:338-344 | In every run a blocked call can be woken by the non-blocking guard, and then returns CANCELLED, if and only if the last `blocking` of its client had argument true. |
| EventRuns.NoCancelAfterBlockingFalse | RTI-DDS-SmartSoft/EventClientPattern.h:310-344 | No call still blocked, or begun, after `blocking(false)` returns CANCELLED before a later `blocking(true)`. |
| EventTheorems.OpenNeverGrows | RTI-DDS-SmartSoft/EventServerPattern.h:196-200 | No step gives an activation a further chance of a first write. |
| EventTheorems.NoChanceNoWrite | RTI-DDS-SmartSoft/EventServerPattern.h:196-206 | Without a chance left, nothing is written for a single-mode activation in any continuation. |
| EventTheorems.SingleShotIsFinal | RTI-DDS-SmartSoft/EventServerPattern.h:200-210 | Once the test of a single-mode activation came out true, its writes in every continuation are that event, or none if the write threw. |
| QueryServer.QueryServer.OnLivelinessChanged | RTI-DDS-SmartSoft/QueryServerPattern.h:83-101 | The handle list follows arrivals and departures without duplicates; other handles are untouched. |
| QueryServer.QueryServer.OnRequest | RTI-DDS-SmartSoft/QueryServerPattern.h:117-128 | Each request gets an id object of its own in the cache. |
| QueryServer.QueryServer.Answer | RTI-DDS-SmartSoft/QueryServerPattern.h:204-248 | OK exactly if a reply was sent and the request left the cache; every failure keeps it answerable. |
| QueryServer.QueryServer.ServerInitiatedDisconnect | RTI-DDS-SmartSoft/QueryServerPattern.h:146-155 | Both lists are emptied, and reader and writer are gone. |
| QueryServer.WithoutHandleMembers | RTI-DDS-SmartSoft/QueryServerPattern.h:98-99 | Removing a handle removes exactly it and keeps the list free of duplicates. |
| QueryClient.QueryClientAnswerTrigger.TriggerNewAnswerData | RTI-DDS-SmartSoft/QueryClientAnswerTrigger.h:65-68 | Stores the answer and raises the result guard only. |
| QueryClient.QueryClientAnswerTrigger.TriggerDiscard | RTI-DDS-SmartSoft/QueryClientAnswerTrigger.h:74-76 | Raises the discard guard only. |
| QueryClient.QueryClient.Connect | RTI-DDS-SmartSoft/QueryClientPattern.h:213-265 | All or nothing, as for the event client. |
| QueryClient.QueryClient.Disconnect | RTI-DDS-SmartSoft/QueryClientPattern.h:281-308 | Discards every pending query and drops both endpoints. |
| QueryClient.QueryClient.QueryRequest | RTI-DDS-SmartSoft/QueryClientPattern.h:368-397 | Only OK adds a cell, a fresh one under the id of the written request. |
| QueryClient.QueryClient.Blocking | RTI-DDS-SmartSoft/QueryClientPattern.h:321-327 | The guard becomes the argument. |
| QueryClient.QueryClient.OnLivelinessChanged | RTI-DDS-SmartSoft/QueryClientPattern.h:91-98 | The client is connected exactly while a remote writer is alive. |
| QueryClient.QueryClient.InsertRequest | RTI-DDS-SmartSoft/QueryClientPattern.h:386-390 | A fresh cell under the id of the written request. |
| QueryClient.QueryClient.OnAnswer | RTI-DDS-SmartSoft/QueryClientPattern.h:107-116 | Only the cell of the reply's own query changes. |
| QueryClient.QueryClient.QueryReceive | RTI-DDS-SmartSoft/QueryClientPattern.h:424-453 | Status from connection and cell; only OK returns the answer and drops the entry. |
| QueryClient.QueryClient.QueryReceiveWaitEnter | RTI-DDS-SmartSoft/QueryClientPattern.h:485-515 | When queryReceiveWait answers at once and which cell it waits on. |
| QueryClient.QueryClient.QueryReceiveWaitFinish | RTI-DDS-SmartSoft/QueryClientPattern.h:520-553 | The first active condition decides; only OK returns the answer and drops the entry. |
| QueryClient.QueryClient.QueryDiscard | RTI-DDS-SmartSoft/QueryClientPattern.h:579-597 | Raises the discard guard before dropping the entry; WRONGID changes nothing. |
| QueryTheorems.NextKeepsInv | RTI-DDS-SmartSoft/QueryClientPattern.h:99-597 | Every step of clients, server and channels keeps the system invariant. |
| QueryTheorems.RunKeepsInv | RTI-DDS-SmartSoft/QueryClientPattern.h:99-597 | The same for every run. |
| QueryTheorems.QueryAtMostOnce | RTI-DDS-SmartSoft/QueryServerPattern.h:204-248 | In every run a query gets at most one reply and at most one OK, and the OK returns exactly what the server passed to `answer` for a request of that id. |
| QueryTheorems.RequestsConserved | RTI-DDS-SmartSoft/QueryServerPattern.h:118-241 | In every run received requests = pending + answered + dropped by server disconnects. |
| QueryTheorems.AnsweredOnce | RTI-DDS-SmartSoft/QueryServerPattern.h:214-241 | An answered request can never be answered again, and its answer never changes. |
| QueryTheorems.ReplyReaches | RTI-DDS-SmartSoft/QueryClientPattern.h:244-250 | A reply reaches exactly the connection its request was written on. |
| QueryTheorems.NoStrandedWaiter | RTI-DDS-SmartSoft/QueryClientPattern.h:287-291 | A call waiting on a query that left the cache can wake up, by its discard guard or by its answer. |
| QueryDelivery.RequestIsSent | RTI-DDS-SmartSoft/QueryClientPattern.h:379-383 | A written request is in the channel, and once it arrives the server holds it pending under its id. |
| QueryDelivery.AnswerIsSent | RTI-DDS-SmartSoft/QueryServerPattern.h:211-241 | A pending request of a live client can be answered; the reply goes to the connection that asked and to no other, and only that request leaves the pending ones. |
| QueryDelivery.ArrivedIsPending | RTI-DDS-SmartSoft/QueryServerPattern.h:117-123 | An arrived request is pending under its own id; no other request changes. |
| QueryDelivery.LivenessFollows | RTI-DDS-SmartSoft/QueryServerPattern.h:92-100 | A client counts as live from its arrival to its departure; others are untouched. |
| QueryDelivery.ServerDisconnectDrops | RTI-DDS-SmartSoft/QueryServerPattern.h:146-155 | A server disconnect drops every pending request: no continuation answers it. |
| QueryDelivery.TakenAnswer | RTI-DDS-SmartSoft/QueryClientPattern.h:107-116 | A taken reply is the answer in its own cached cell; nothing else changes. |
| QueryDelivery.ReceiveDelivers | RTI-DDS-SmartSoft/QueryClientPattern.h:424-453 | DISCONNECTED, WRONGID, NODATA and OK each exactly in its case; OK is possible whenever the answer is there, returns what the server answered and drops the entry. |
| QueryDelivery.WaitsIff | RTI-DDS-SmartSoft/QueryClientPattern.h:487-500 | queryReceiveWait waits if and only if the client is connected and the query pending; else DISCONNECTED or WRONGID. |
| QueryDelivery.WokenStatus | RTI-DDS-SmartSoft/QueryClientPattern.h:523-547 | TIMEOUT for no active condition, else the status of the first one. |
| QueryDelivery.WaiterGetsAnswer | RTI-DDS-SmartSoft/QueryClientPattern.h:517-546 | A blocked wait can be woken by the result if and only if its cell has an answer; whenever it gets the mutex it then returns OK, and for the first and only time the answer the server gave. |
| QueryDelivery.ReleasedGetsAnswer | RTI-DDS-SmartSoft/QueryClientPattern.h:542-545 | A wait released by the result returns OK with the server's answer, and the entry is gone. |
| QueryDelivery.LivelinessReleasesIff | RTI-DDS-SmartSoft/QueryClientPattern.h:91-98 | After a liveliness change every waiting call of the client can be woken with DISCONNECTED if and only if no remote writer is alive. |
| QueryDelivery.WithoutEndpoints | RTI-DDS-SmartSoft/QueryClientPattern.h:294-305 | Without its endpoints a client takes no reply, writes no request, and no answer is sent to it. |
| QueryDelivery.DisconnectReleases | RTI-DDS-SmartSoft/QueryClientPattern.h:281-291 | Disconnecting releases every call that waits on a pending query, with DISCONNECTED. |
| QueryRuns.NeverStrandedLater | RTI-DDS-SmartSoft/QueryClientPattern.h:287-291 | Once a query left the cache this stays so in every continuation. |
| QueryRuns.DiscardReleases | RTI-DDS-SmartSoft/QueryClientPattern.h:591-594 | A discard during a wait releases the waiter for good: it can wake up in every continuation and then returns CANCELLED, or DISCONNECTED if the client is disconnected. |
| QueryRuns.BlockingReleasesIff | RTI-DDS-SmartSoft/QueryClientPattern.h:321-327 | In every run a blocked receive can be woken by the non-blocking guard, and then returns CANCELLED, if and only if the last `blocking` of its client had argument true. |
| QueryRuns.NoCancelAfterBlockingFalse | RTI-DDS-SmartSoft/QueryClientPattern.h:310-327 | After `blocking(false)` and before a later `blocking(true)`, only a discard lets a receive return CANCELLED. |
| QueryTheorems.TakenReplyIsGoneIff | RTI-DDS-SmartSoft/QueryClientPattern.h:107-116 | A taken reply reaches its cell, or its answer is gone, and it is gone if and only if the query is not cached at that moment. |
| QueryTheorems.OvertakenAnswerIsGone | RTI-DDS-SmartSoft/QueryClientPattern.h:381-389 | For every id and answer a run without losses in which the reply overtakes the insertion and the answer is gone. |
| QueryTheorems.GoneAnswerNeverComes | RTI-DDS-SmartSoft/QueryClientPattern.h:381-389 | A gone answer stays gone in every continuation: no OK for that query, and no wait on it is released by a result. |

## Left out

- Starting and joining the timer thread, and the liveness of the shutdown: the running flag is read outside the mutex and the wait has no predicate.
- The order of `timerCancelled` and `timerDeleted` upcalls relative to other threads: they happen after unlocking; only who is notified, and in which list order, is modelled.
- Wrap-around of timer ids, time points and 64-bit sequence numbers: integers are unbounded.
- Serialization, type decorators, quality-of-service settings, discovery and identity generation of the middleware.
- The push, send, parameter and other patterns, component signals and tasks; of the push client only how its prescale factor travels.
- Reuse of an existing filtered topic that has the same name: every filtered topic is created with its own filter.
- The input handlers notified by an incoming event or activation, and the query handler called for a request.
- The byte-wise order of ids that `std::map` uses, and `toVector`: map keys are compared by equality.
- Server-initiated disconnect of the event server, and liveliness upcalls that race with a disconnect on the same connection.
- Ids of another implementation, which the code rejects by a failed cast: they are a missing id (`None`) in the class methods; `QueryServer.QueryServer.Answer` takes only its own id objects.
- Exceptions thrown by a wait set: the blocking calls return ERROR_COMMUNICATION then, which is not among the modelled statuses of a finish.
- QueryClient.QueryClient.QueryReceiveWaitFinish: the source erases by an iterator saved before the wait; the model erases by id if the entry is still there, so it does not capture what erasing does after a disconnect or discard during the wait.
- QueryClient.QueryClient.Connect: proved for a connect that no request insertion interrupts; under interleaving the cache need not be empty, since a request is inserted after its write.
- Query samples that an upcall has already taken when its reader is reset count as lost.
- QueryClient.QueryClient.QueryRequest: the method runs without interruption; that the write and the insertion are separate is modelled by two steps of `QuerySystem`, which may also write after the connection flag has changed.
