# Verified model of the GPS and power HAL protocols

This project models the stateful core of an Android device tree in Dafny and proves what
that core promises over every input, every run and every interleaving. It covers

* the **timer service** (`gps/utils/LocTimer.cpp` on `gps/utils/LocHeap.cpp`): client
  threads, a poll thread and a FIFO message task that share two timer heaps;
* the **AGPS data-connection machine** (`gps/gnss/Agps.cpp`): four states, a subscriber
  list, and events from modem and framework;
* the **tracking multiplexer** (`gps/gnss/GnssAdapter.cpp`): many client sessions, one engine
  that is restarted incrementally;
* **response correlation** (`gps/location/LocationAPIClientBase.cpp` composed with the
  adapter's message queue): asynchronous responses and the requests that caused them;
* **network-initiated requests** (`gps/gnss/GnssAdapter.cpp`): each owned by a waiter thread;
* the **interaction handler** (`power-libperfmgr/InteractionHandler.cpp`): mutex, condition
  variable and eventfd around a performance hint, with timespec arithmetic;
* three loop and array refinements: the bounded **report lists**
  (`gps/core/SystemStatus.cpp`), the compacting **adapter array** (`gps/core/LocApiBase.cpp`)
  and the in-place **property loader** (`init/init_ocn.cpp`).

`dafny verify dfyconfig.toml` checks everything. Proofs are cut into small lemmas,
to stay below a resource limit of 2,000,000.

## How the model is built

A protocol between threads is a step system: a state, a `Step` datatype, `Enabled`, `Do` and
`Run`. Theorems quantify over all sequences of enabled steps. The granularity is one step per
message, per critical section, and per action where the source acts without a lock:

* timer: one `LocMsg::proc` for push and remove; for expire one step per pop, per forced stop of a
  delegate and per callback, so that clients run in between; `start` and `stop` are one critical
  section each;
  the poll thread's disarm, removePoll and sendMsg are three steps;
* interaction handler: one step per critical section of Acquire, Release and Init, and of Routine
  up to its wait; Exit takes three, its critical section, the join and the closing of the files;
* NI: the check of a user response, each locked record of it, a waiter's decision under the
  lock and its unlocked tail are separate steps;
* correlation: a client call is one step (it holds the client's mutex throughout), processing
  a message and delivering its response are two.

Code that updates an object in place is also a class whose methods are proved against the
functions of the step system: `PointerHeap`, `TimerContainer`, `TimerObjects`, `AgpsMachine`,
`TrackingAdapter`, `RequestQueues`, `SessionIds`, `NiObjects`, `InteractionObject`,
`ReportCache`, `AdapterArray` and `PropertyLoader`.

| files | content |
|---|---|
| `HeapTree`, `Rankings`, `PointerHeap` | the heap as a value, its ranks, and as nodes updated in place |
| `TimeOrder`, `TimerBox`, `TimerContainer`, `TimerObjects` | time ranks, one container, its objects |
| `TimerService`, `TimerSafety`, `TimerTheorems`, `TimerMessages`, `TimerCallbacks`, `TimerDrains` | the timer step system, its invariant, its theorems |
| `Agps`, `AgpsSafety`, `AgpsAccounts`, `AgpsTheorems`, `AgpsRerequests`, `AgpsNotices`, `AgpsMachine` | the AGPS machine |
| `Tracking`, `TrackingSafety`, `TrackingModes`, `TrackingAdapter` | the multiplexer |
| `SessionIds`, `Correlation`, `CorrelationSafety`, `RequestQueues` | requests and responses |
| `NiRequests`, `NiSafety`, `NiTheorems`, `NiResponses`, `NiObjects` | network-initiated requests |
| `Interaction`, `InteractionSafety`, `InteractionObject` | the interaction handler |
| `ReportCache`, `AdapterArray`, `Properties`, `PropertyLoader` | the loop and array refinements |

## Where the code does not do what one would expect

Each of these is a lemma about the code as it is, with the exact condition.

* **A timer can time out early.** The first pop of an expiry is unconditional, and `stop` does
  not disarm the timerfd when the heap becomes empty, so a stale expiry pops a timer that is
  not due (`TimerTheorems.TimeoutCanBeEarly`). In every run it happens iff no timer of the
  container is due when the message is taken up (`TimerDrains.ExpiryIsEarlyIff`).
* **A timeout callback can run on a destroyed client.** An expiring delegate stops its client's
  timer under the lock and calls the client after letting it go. In every run a dead client is
  touched iff it was dead when its callback ran (`TimerCallbacks.DanglesIff`), which is so iff it was
  closed between the two (`CallbackDanglesIff`, with a run in `CallbackCanDangle`).
* **A re-request can be ignored.** An AGPS handle that asks again keeps its old subscriber, so after
  every run the request makes it an active subscriber iff it was not listed as inactive
  (`AgpsRerequests.RequestIsActiveIff`). Otherwise a grant does not reach it, the end of a release
  drops it, and the connection is released under it when the active handles leave
  (`RequestIsServedIff`, `ReleasedUnderInactive`, with runs in `RerequestIsIgnored` and
  `AgpsTheorems.RerequestIsSwallowed`).
* **A failed restart leaves sessions without an engine.** A modem restart closes and opens the
  engine's API, and `restartSessions` ignores the answer of its one call. After any run the engine
  fails its sessions iff there are sessions and no call to the engine has succeeded since it was
  lost (`TrackingSafety.EngineFailsSessionsIff`); `LostUntilCalledIff` says which messages call it,
  `RestartSyncsIff` when a restart is survived, and `RestartCanFail` is a run.
* **The engine's mode can belong to nobody.** The multiplexer compares intervals only, so
  stopping or updating one of two sessions with equal intervals can leave the engine in the
  mode of a session that is gone (`TrackingModes.StopKeepsOwnerIff`, `UpdateKeepsOwnerIff`, with a
  run in `RunCanOrphanMode`). The interval of a running engine is always right.
* **A start without interface sticks.** `startTracking` returning 0 leaves the client tracking
  a session 0 that it can neither stop nor restart. In every run that is so iff some start of the
  client came while it was not tracking and found no interface (`CorrelationSafety.ClientSticksIff`,
  `StartWithoutInterfaceSticks`, with a run in `ClientCanStick`).
* **An answer can reach the wrong NI request.** A response recorded after its waiter timed out
  answers the next request. In every run a reply carries the answer to its own request iff that
  answer was recorded before the waiter decided (`NiTheorems.RepliesAnswerTheirRequestsIff`, with a
  run in `WrongRequestIsAccepted`).
* **An NI request can become unanswerable.** A waiter clears the id outside the lock, possibly
  that of the next request. In every reachable state a request can be answered iff no waiter has
  cleared its session since it was accepted (`NiTheorems.AnswerableIff`, `ClearedIff`, with a run in
  `SecondRequestIsOrphaned`).
* **Exit leaks the hint.** `Exit` never ends the hint, so a new Init and Acquire issue DoHint
  twice in a row (`InteractionSafety.ExitLeaksHint`, `HintsAlternateIff`).
* **Init is not safe while an Exit is under way.** `Exit` joins its thread and closes its files after
  it has let go of the lock. An Init before the join replaces a thread object that is still joinable
  (`InteractionSafety.InitDuringExitTerminates`); one between join and close loses its new files to
  that close (`ExitClosesNewFiles`). An Init can be spoiled iff it comes in one of these two windows
  (`InitIsUnsafeIff`).
* **A duration can overflow.** Adding 650 to one of the longest 650 durations is undefined in C++;
  with the usual wrap-around, which the model assumes, they get the shortest hint
  (`InteractionSafety.DurationIsClampedIff`).

One limit concerns the function `ranks` alone: two due times whose seconds differ by 2^31 or more
can rank the wrong way round (`TimeOrder.WideGapRanksWrongly`, `EarlierSecondRanksHigherIff`). The
service does not get there within the boot time its theorems cover
(`TimerTheorems.RanksAreHeapOrder`).

Where comments and code disagree the model follows the code: the comment at
`gps/utils/LocTimer.cpp:281-309` speaks of disarming when the tree becomes empty, but an
update with no prior top and an empty heap does nothing; `gps/utils/LocHeap.h` describes
removal by rank, but `gps/utils/LocHeap.cpp:170-193` removes by address.

## Model

| member | source | states |
|---|---|---|
| TimerTheorems.NoTimerIsLost | gps/utils/LocTimer.cpp:281-383 | In every reachable state between messages, a running timer whose push was handled is in its heap, and the timerfd is polled and armed at exactly the soonest time, or the poll thread is in expire(), or an expire message is queued |
| TimerTheorems.NoHeapIsLost | gps/utils/LocTimer.cpp:281-383 | The same for every container whose heap is not empty, whether its timers are running or stopped |
| TimerTheorems.TimerLifetime | gps/utils/LocTimer.cpp:329-351 | No step touches a deleted delegate or lock, and none but the callback a dead client; heap entries are live delegates; client and delegate point at each other or not at all; the lock count is live client plus live delegates; a delegate is deleted at most once |
| TimerTheorems.StartEndsOnce | gps/utils/LocTimer.cpp:576-589 | A successful start has no end while it runs and afterwards exactly one: a stop by its client that returned true or one by its expiry |
| TimerCallbacks.CalledBackOnce | gps/utils/LocTimer.cpp:524-536 | A started timer that no longer runs was stopped by its client, was called back or is being called back: exactly one of these, once |
| TimerCallbacks.DanglesIff | gps/utils/LocTimer.cpp:529-535 | In every run a callback has touched a dead client iff the destructor of the client had begun when its callback ran |
| TimerCallbacks.CallbackDanglesIff | gps/utils/LocTimer.cpp:543-549 | From every reachable state in which a running timer is about to expire, its callback touches a dead client iff the client closes between the forced stop and the callback |
| TimerCallbacks.CallbackCanDangle | gps/utils/LocTimer.cpp:524-549 | A run from the start that does |
| TimerMessages.PushBeforeRemove | gps/utils/LocTimer.cpp:311-351 | Of all messages ever sent in a run, two about one delegate are its push and then its remove, and then it no longer runs |
| TimerMessages.StartedTimersArePushed | gps/utils/LocTimer.cpp:477-505 | In every run exactly the started delegates were pushed, and no running one was sent for removal |
| TimerDrains.ExpiryIsEarlyIff | gps/utils/LocTimer.cpp:361-378 | In every run the timer handed to its client was not yet due, in the earlier state of the run that took up the expire message, iff no timer of its container was |
| TimerDrains.ExpiryIsExact | gps/utils/LocTimer.cpp:356-383 | For every finished expiry there is the earlier state of the run that took up its message; popped, in time order, were exactly the timers its heap then held that were due by its clock, or only the soonest if none was, and none of them that was due is left |
| TimerDrains.EmptyExpiryDoesNothing | gps/utils/LocTimer.cpp:361-378 | An expire message for an empty container leaves everything as it is |
| TimerDrains.TimersAreDueAsAsked | gps/utils/LocTimer.cpp:555-568 | In every run each live delegate was made by some start of its client, which had no timer then, in the container asked for, and is due exactly the timeout after the clock at that start |
| TimerDrains.StartTakesEffectIff | gps/utils/LocTimer.cpp:551-574 | In every reachable state a start makes and pushes one delegate iff its client has no timer and there is a container, and else changes nothing |
| TimerTheorems.RanksAreHeapOrder | gps/utils/LocTimer.cpp:507-521 | For any two live delegates the computed int rank agrees with the order of their due times |
| TimerTheorems.NowRanksInHeapOrder | gps/utils/LocTimer.cpp:385-392 | The same for the rank of any time up to now against a live delegate, as the expiry loop asks for it |
| TimerTheorems.TimeoutCanBeEarly | gps/utils/LocTimer.cpp:361-378 | A concrete run in which a one-hour timer times out after two seconds |
| TimerSafety.RunKeeps | gps/utils/LocTimer.cpp:281-589 | Every run of enabled steps keeps the invariant of queue, heaps, armed times, poll thread, delegates, clients and locks |
| TimerBox.DrainExact | gps/utils/LocTimer.cpp:356-392 | Draining a heap at a time pops in time order exactly the due timers (or the soonest), and the rest holds none that is due |
| TimerBox.FirstPopIsEarlyIff | gps/utils/LocTimer.cpp:368-372 | The first timer popped is not due iff no timer in the heap is due |
| TimerBox.UpdateTellsKernelIff | gps/utils/LocTimer.cpp:281-309 | After another top: disarmed and not polled without timers, armed and polled iff the new top is sooner, else left alone |
| TimerBox.PushTellsKernelIff | gps/utils/LocTimer.cpp:318-324 | A push arms and polls the timerfd, at the new timer's time, iff that timer is sooner than all others |
| TimerBox.RemoveTellsKernelIff | gps/utils/LocTimer.cpp:335-347 | A remove arms and polls the timerfd, at the next soonest time, iff it takes out the soonest timer and leaves others; taking out the only timer leaves it armed |
| TimerBox.UpdateFromNoneTellsKernelIff | gps/utils/LocTimer.cpp:361-375 | The update at the end of an expiry arms and polls for the soonest timer, and leaves an empty container as it is |
| TimerBox.PushWatches | gps/utils/LocTimer.cpp:318-324 | Handling a push keeps the container watching its soonest timer |
| TimerBox.RemoveWatches | gps/utils/LocTimer.cpp:335-347 | Handling a remove keeps the container watching its soonest timer |
| TimerBox.UpdateFromNoneWatches | gps/utils/LocTimer.cpp:281-309 | An update with no prior top arms and polls for the soonest timer whatever was armed before |
| TimerContainer.LocTimerContainer.updateSoonestTime | gps/utils/LocTimer.cpp:281-309 | The new armed time and poll registration are those of the container function; heap unchanged |
| TimerContainer.LocTimerContainer.procPush | gps/utils/LocTimer.cpp:318-324 | In-place push of a timer and update equals the container function |
| TimerContainer.LocTimerContainer.procRemove | gps/utils/LocTimer.cpp:335-347 | In-place removal and update equals the container function |
| TimerContainer.LocTimerContainer.popIfOutRanks | gps/utils/LocTimer.cpp:385-392 | Pops the top iff it is due at or before the bound |
| TimerContainer.LocTimerContainer.procExpire | gps/utils/LocTimer.cpp:361-378 | The expiry loop hands out exactly the drained timers, in order, and updates the timer |
| TimerObjects.LocSharedLock.drop | gps/utils/LocSharedLock.h:52-52 | One user less; the last one deletes the lock |
| TimerObjects.LocTimerDelegate.destroyLocked | gps/utils/LocTimer.cpp:489-505 | The delegate forgets its client and asks for removal the first time only |
| TimerObjects.LocTimer.start | gps/utils/LocTimer.cpp:551-574 | Succeeds iff no timer runs and a container exists; the new delegate is due exactly the timeout from now, shares the lock and is sent once; failure changes nothing |
| TimerObjects.LocTimer.stop | gps/utils/LocTimer.cpp:576-589 | Succeeds iff a timer runs; it is detached from its client and sent for removal once |
| TimeOrder.RankIsTimeOrder | gps/utils/LocTimer.cpp:507-521 | For normalised times whose seconds fit, the rank is positive, zero or negative as the first time is earlier, equal or later |
| TimeOrder.EarlierSecondRanksHigherIff | gps/utils/LocTimer.cpp:507-521 | An earlier second ranks higher iff the truncated difference does not wrap |
| TimeOrder.WideGapRanksWrongly | gps/utils/LocTimer.cpp:512-516 | Two times 2^31 seconds apart rank the wrong way round |
| TimeOrder.FutureTimeIsNowPlusTimeout | gps/utils/LocTimer.cpp:555-562 | The carried timespec is normalised and is now plus the timeout to the nanosecond |
| Rankings.KeysRepresentRanking | gps/utils/LocHeap.cpp:107-124 | Every ranking of finitely many objects that is a total preorder orders them as integer keys do, which is how the heap is modelled |
| Rankings.ItemsRankAlike | gps/utils/LocHeap.cpp:107-124 | Heap items with those keys outrank each other exactly as the objects do |
| HeapTree.PushKeepsOrder | gps/utils/LocHeap.cpp:107-124 | Push keeps the consistency check true |
| HeapTree.PushInserts | gps/utils/LocHeap.cpp:107-124 | Push inserts one element into the multiset of contents |
| HeapTree.PopKeepsOrder | gps/utils/LocHeap.cpp:134-164 | Pop keeps the consistency check true |
| HeapTree.PopDeletesTop | gps/utils/LocHeap.cpp:134-164 | Pop deletes exactly the top from the contents |
| HeapTree.TopRanksHighest | gps/utils/LocHeap.cpp:237-243 | Nothing in a consistent heap outranks its top |
| HeapTree.SizeCountsContents | gps/utils/LocHeap.cpp:197-220 | In a consistent heap the stored size is the number of elements |
| HeapTree.RemoveFindsIffPresent | gps/utils/LocHeap.cpp:170-193 | Although it prunes subtrees by rank, remove by address succeeds iff the object is in the heap |
| HeapTree.RemoveIsDelete | gps/utils/LocHeap.cpp:170-193 | Remove keeps the heap consistent and deletes exactly the given object, or leaves the heap as it is |
| HeapTree.TiesAreBroken | gps/utils/LocHeap.cpp:107-164 | Among equals a pushed object stays below the old one and a pop moves the right child up |
| HeapTree.PushKeepsBalance | gps/utils/LocHeap.cpp:107-124 | Push keeps left size minus right size at 0 or 1 at every node |
| HeapTree.PushAllInserts | gps/utils/LocHeap.cpp:228-235 | Any number of pushes builds a consistent heap of exactly those elements |
| HeapTree.PushOnlyHeapHeight | gps/utils/LocHeap.cpp:107-124 | A heap built by n pushes has height floor(log2 n) + 1, whatever the ranks |
| PointerHeap.LocHeapNode.push | gps/utils/LocHeap.cpp:107-124 | Pushing into linked nodes in place yields the tree of the value-level push |
| PointerHeap.LocHeapNode.pop | gps/utils/LocHeap.cpp:134-164 | Popping linked nodes in place yields the tree of the value-level pop and the old top |
| PointerHeap.LocHeapNode.remove | gps/utils/LocHeap.cpp:170-193 | Removing from linked nodes in place yields the tree of the value-level remove |
| PointerHeap.LocHeap.push | gps/utils/LocHeap.cpp:228-235 | The heap stays consistent and gains exactly the element |
| PointerHeap.LocHeap.peek | gps/utils/LocHeap.cpp:237-243 | Returns an element that nothing outranks, none iff the heap is empty |
| PointerHeap.LocHeap.pop | gps/utils/LocHeap.cpp:245-254 | Returns the top and deletes exactly it |
| PointerHeap.LocHeap.remove | gps/utils/LocHeap.cpp:256-267 | Found iff present; then exactly that element goes, otherwise nothing changes |
| AgpsTheorems.StateMatchesSubscribers | gps/gnss/Agps.cpp:72-290 | In every run without modem restart: RELEASED iff no subscribers, PENDING and ACQUIRED have an active one, RELEASING an inactive one, inactive ones wait for close, handles are distinct |
| AgpsTheorems.ConnectionCallsAlternate | gps/gnss/Agps.cpp:296-314 | In every run with restarts too: RELEASED implies no subscribers, a connection is requested only when none is outstanding and released only when one is |
| AgpsTheorems.NotificationsAreConserved | gps/gnss/Agps.cpp:316-386 | Subscribers added equal terminal notifications plus subscribers listed; a handle is listed iff it has an unanswered request; in ACQUIRED all active ones are granted; no handle is granted more often than it asked |
| AgpsNotices.OpeningFailsIff | gps/gnss/Agps.cpp:262-285 | In every run a handle is told that opening failed iff it was listed at a denial in PENDING |
| AgpsNotices.DenyTells | gps/gnss/Agps.cpp:262-285 | A denial in PENDING records the lost connection, tells every subscriber in list order that opening failed, and empties the list |
| AgpsNotices.ForcedReleaseTells | gps/gnss/Agps.cpp:214-226 | A release in ACQUIRED records the lost connection, tells every subscriber in list order that it closed, and empties the list |
| AgpsNotices.FinishedReleaseTells | gps/gnss/Agps.cpp:227-242 | A release or denial in RELEASING tells exactly the inactive subscribers in list order that it closed, keeps exactly the active ones in order, and asks for a new connection iff there are any |
| AgpsNotices.GrantTells | gps/gnss/Agps.cpp:180-201 | A grant in PENDING tells exactly the active subscribers in list order that it is open |
| AgpsNotices.UnsubscribeTells | gps/gnss/Agps.cpp:116-178 | A leaving subscriber is told closed at once unless it waits for the close; which list, state and connection call follow |
| AgpsNotices.SubscribeTells | gps/gnss/Agps.cpp:72-114 | A request asks for a connection in RELEASED, is told open in ACQUIRED and told nothing otherwise; which list and state follow |
| AgpsNotices.OtherwiseNothingHappens | gps/gnss/Agps.cpp:180-290 | Every other pair of event and state changes nothing, and a modem restart empties the list only |
| AgpsRerequests.RequestIsActiveIff | gps/gnss/Agps.cpp:398-417 | After every run a request makes its handle an active subscriber iff the handle was not listed as inactive |
| AgpsRerequests.RequestIsServedIff | gps/gnss/Agps.cpp:180-290 | After every run, what the next grant, release or denial does for the requester: in PENDING it is granted iff it was not listed as inactive and told of a denial in either case; in RELEASING it stays iff it was not, else it is told closed; in ACQUIRED it is told of the loss in either case |
| AgpsRerequests.ReleasedUnderInactive | gps/gnss/Agps.cpp:116-178 | After every run, the connection is released when the last active handle leaves, under a handle that asked again while inactive |
| AgpsRerequests.RerequestIsIgnored | gps/gnss/Agps.cpp:99-105 | A run from the start in which a handle that asked again before the grant is told nothing while another is granted |
| AgpsTheorems.RerequestSurvivesReleaseIff | gps/gnss/Agps.cpp:203-239 | In RELEASING a handle that asks again is still listed after the release iff it was not listed as inactive |
| AgpsTheorems.RerequestIsSwallowed | gps/gnss/Agps.cpp:203-239 | A run from the start in which a handle asks again before the close and ends up neither listed nor served |
| AgpsTheorems.RunKeeps | gps/gnss/Agps.cpp:40-70 | Every sequence of events keeps list shape, connection state and accounts |
| AgpsSafety.EraseSpec | gps/gnss/Agps.cpp:419-436 | Erasing a handle leaves exactly the other subscribers, one fewer iff it was listed |
| AgpsMachine.AgpsStateMachine.addSubscriber | gps/gnss/Agps.cpp:398-417 | A handle that is already listed is not added again |
| AgpsMachine.AgpsStateMachine.deleteSubscriber | gps/gnss/Agps.cpp:419-436 | Erasing while walking the list leaves the list without the handle |
| AgpsMachine.AgpsStateMachine.anyActiveSubscribers | gps/gnss/Agps.cpp:438-448 | True iff some subscriber is active |
| AgpsMachine.AgpsStateMachine.getSubscriber | gps/gnss/Agps.cpp:472-485 | The first position of the handle, none iff it is not listed |
| AgpsMachine.AgpsStateMachine.eraseMatching | gps/gnss/Agps.cpp:316-349 | The loop that notifies and erases tells exactly the matching subscribers in order and keeps exactly the others |
| AgpsMachine.AgpsStateMachine.notifyAllSubscribers | gps/gnss/Agps.cpp:316-349 | The matching subscribers are told in order, and erased if asked |
| AgpsMachine.AgpsStateMachine.processAgpsEventSubscribe | gps/gnss/Agps.cpp:72-114 | State, list and calls after a subscribe event are those of the machine function |
| AgpsMachine.AgpsStateMachine.processAgpsEventUnsubscribe | gps/gnss/Agps.cpp:116-178 | The same for an unsubscribe event |
| AgpsMachine.AgpsStateMachine.processAgpsEventGranted | gps/gnss/Agps.cpp:180-201 | The same for a granted event |
| AgpsMachine.AgpsStateMachine.processAgpsEventReleased | gps/gnss/Agps.cpp:203-248 | The same for a released event |
| AgpsMachine.AgpsStateMachine.processAgpsEventDenied | gps/gnss/Agps.cpp:250-290 | The same for a denied event |
| AgpsMachine.AgpsStateMachine.dropAllSubscribers | gps/gnss/Agps.cpp:502-513 | The list is emptied and the state is left as it is |
| AgpsMachine.AgpsManager.requestATL | gps/gnss/Agps.cpp:770-796 | The machine for the type gets a subscribe event; without one the request fails at once |
| AgpsMachine.AgpsManager.releaseATL | gps/gnss/Agps.cpp:798-830 | The machine that lists the handle gets an unsubscribe event; without one the handle is told closed |
| AgpsMachine.AgpsManager.handleModemSSR | gps/gnss/Agps.cpp:887-903 | Every machine drops its subscribers |
| TrackingSafety.EngineRunsAtLeastInterval | gps/gnss/GnssAdapter.cpp:1376-1421 | After any run of starts, updates, stops and client removals without modem restart, with any engine failures, the engine is stopped iff there is no session and otherwise runs at the least interval |
| TrackingSafety.EngineFailsSessionsIff | gps/core/LocApiBase.cpp:96-99 | After any run, modem restarts included, this fails iff there are sessions and no call to the engine has succeeded since it was lost |
| TrackingSafety.LostUntilCalledIff | gps/gnss/GnssAdapter.cpp:1376-1400 | A lost engine stays lost over a start, update, stop or restart iff that message does not call it with success; which messages call it is said by comparing intervals |
| TrackingSafety.StopEachFindsIff | gps/gnss/GnssAdapter.cpp:1033-1048 | A lost engine stays lost over a sequence of stops iff none of them calls it with success, and which sessions are then left |
| TrackingSafety.RemovalFindsIff | gps/gnss/GnssAdapter.cpp:1033-1048 | The same for removing a client |
| TrackingSafety.RestartSyncsIff | gps/gnss/GnssAdapter.cpp:1103-1124 | A modem restart ends with the engine at the least interval iff the restart call succeeds or there is no session |
| TrackingSafety.RestartCanFail | gps/gnss/GnssAdapter.cpp:1121-1123 | A run from no sessions in which a failed restart leaves a session without an engine |
| TrackingSafety.StartKeepsSync | gps/gnss/GnssAdapter.cpp:1353-1400 | A start under a fresh key keeps the engine at the least interval, whether it succeeds or fails |
| TrackingSafety.UpdateKeepsSync | gps/gnss/GnssAdapter.cpp:1501-1561 | An update keeps the engine at the least interval |
| TrackingSafety.StopKeepsSync | gps/gnss/GnssAdapter.cpp:1602-1634 | A stop keeps the engine at the least interval, and stops it with the last session |
| TrackingSafety.EngineUpKeepsSync | gps/gnss/GnssAdapter.cpp:1103-1124 | A successful restart call puts the engine at the least interval whatever it was doing; a failed one leaves a lost engine lost |
| TrackingSafety.RemovedClientIsGone | gps/gnss/GnssAdapter.cpp:1033-1048 | Removing a client touches no other client and leaves none of its sessions whose stop succeeds |
| TrackingSafety.ReusedKeyKeepsSyncIff | gps/gnss/GnssAdapter.cpp:1362-1365 | A start under a key in use breaks this iff it lengthens the only session at the engine's interval |
| TrackingModes.EngineServesSomeSession | gps/gnss/GnssAdapter.cpp:1376-1421 | If sessions of equal interval always share a mode, a running engine runs as some live session asked, in every run, modem restarts included |
| TrackingModes.StopKeepsOwnerIff | gps/gnss/GnssAdapter.cpp:1625-1629 | After a stop the engine runs as some live session asked iff another session asked the same or none ties with the stopped one |
| TrackingModes.UpdateKeepsOwnerIff | gps/gnss/GnssAdapter.cpp:1548-1556 | The same for an update |
| TrackingModes.RunCanOrphanMode | gps/gnss/GnssAdapter.cpp:1625-1629 | A run from no sessions after which the engine's mode belongs to no session |
| TrackingAdapter.GnssAdapter.smallestInterval | gps/gnss/GnssAdapter.cpp:1385-1391 | The search loop ends with a session of least interval, unset iff there is none |
| TrackingAdapter.GnssAdapter.startTrackingMultiplex | gps/gnss/GnssAdapter.cpp:1376-1400 | The engine is restarted iff the new interval is below all others |
| TrackingAdapter.GnssAdapter.updateTrackingMultiplex | gps/gnss/GnssAdapter.cpp:1524-1561 | The engine is restarted with the new or the next smallest options as the multiplexer relation says; a key that is no session changes nothing unless there is exactly one session |
| TrackingAdapter.GnssAdapter.stopTrackingMultiplex | gps/gnss/GnssAdapter.cpp:1602-1634 | The engine is stopped when there is one session left, whatever the key, or restarted with the next smallest options |
| TrackingAdapter.GnssAdapter.procStart | gps/gnss/GnssAdapter.cpp:1353-1368 | Callback missing, invalid parameter and general failure, each with its condition, change nothing; success saves the session; the engine follows the multiplexer relation |
| TrackingAdapter.GnssAdapter.procUpdate | gps/gnss/GnssAdapter.cpp:1501-1518 | No response without a session; invalid parameter and general failure, each with its condition, change nothing; success saves the options |
| TrackingAdapter.GnssAdapter.procStop | gps/gnss/GnssAdapter.cpp:1582-1596 | No response without a session; general failure changes nothing; success erases the session |
| TrackingAdapter.GnssAdapter.stopClientSessions | gps/gnss/GnssAdapter.cpp:1033-1048 | The loop tries to stop every session of the client exactly once |
| TrackingAdapter.GnssAdapter.restartSessions | gps/gnss/GnssAdapter.cpp:1103-1124 | The engine is started with some session of least interval; nothing happens without sessions |
| SessionIds.IdsRepeatIff | gps/core/LocAdapterBase.cpp:55-61 | Ids are never 0 nor 0xFFFFFFFF, and two calls return the same id iff they are a multiple of 0xFFFFFFFE calls apart |
| SessionIds.IdGenerator.generateSessionId | gps/core/LocAdapterBase.cpp:53-61 | The n-th call returns the n-th id of the cycle and the counter never overflows |
| CorrelationSafety.ResponsesMeetRequests | gps/location/LocationAPIClientBase.cpp:866-929 | In every interleaving before session ids wrap: a response for the current session pops exactly the request that caused it, a late one pops nothing, and the k-th response pops the k-th request |
| CorrelationSafety.LiveSessionsAreAnswered | gps/gnss/GnssAdapter.cpp:1353-1368 | When the adapter has nothing left to do for a live session, all its requests have been answered |
| CorrelationSafety.OverSessionsStaySilent | gps/gnss/GnssAdapter.cpp:1582-1596 | A session that failed to start or was stopped gets no further response, so responses answer a prefix of the requests |
| CorrelationSafety.ClientTracksIff | gps/location/LocationAPIClientBase.cpp:303-359 | In every run a client is tracking iff it was started and not stopped with a session since |
| CorrelationSafety.StartTakesEffectIff | gps/location/LocationAPIClientBase.cpp:308-318 | A start by a tracking client changes nothing at all; any other takes the next id and queues one message |
| CorrelationSafety.NothingIsSentWithoutSession | gps/location/LocationAPIClientBase.cpp:328-359 | A start without interface sends nothing and uses no id; updates and stops are sent for the session, and without one change nothing |
| CorrelationSafety.TagsTellRequestsApart | gps/location/LocationAPIClientBase.cpp:303-359 | In every run the requests of a session are told apart, so that popping the request that caused a response is a statement about one request |
| CorrelationSafety.ClientSticksIff | gps/location/LocationAPIClientBase.cpp:303-326 | In every run a client is tracking without a session iff some start of it came while it was not tracking and found no interface |
| CorrelationSafety.ClientCanStick | gps/location/LocationAPIClientBase.cpp:311-318 | A run of one step that gets there |
| CorrelationSafety.StartWithoutInterfaceSticks | gps/location/LocationAPIClientBase.cpp:303-343 | Such a client stays exactly as it is whatever it or the adapter does |
| CorrelationSafety.RunKeepsInv | gps/location/LocationAPIClientBase.cpp:303-359 | Every run keeps each client's queue equal to what the adapter still has to answer while its session is live |
| CorrelationSafety.ProcessesLikeMultiplexer | gps/gnss/GnssAdapter.cpp:1501-1518 | The message task of the correlation model answers, and changes the sessions, exactly as the multiplexer model does |
| CorrelationSafety.RestartBeginsAnew | gps/location/LocationAPIClientBase.cpp:303-343 | After a stop a start gets a new session id and a queue with this start alone; the stop of the old session is sent before it |
| RequestQueues.RequestQueue.reset | gps/location/LocationAPIClientBase.h:81-89 | The queue is empty and has the session |
| RequestQueues.RequestQueue.pop | gps/location/LocationAPIClientBase.h:93-100 | Takes the oldest request, none iff the queue is empty |
| RequestQueues.LocationAPIClientBase.locAPIStartTracking | gps/location/LocationAPIClientBase.cpp:303-326 | Unless a session is in progress, the queue is reset to the new session with this request alone |
| RequestQueues.LocationAPIClientBase.locAPIStopTracking | gps/location/LocationAPIClientBase.cpp:328-343 | With a session the request is queued and sent for it; without one nothing happens |
| RequestQueues.LocationAPIClientBase.locAPIUpdateTrackingOptions | gps/location/LocationAPIClientBase.cpp:345-359 | With a session the request is queued and sent for it; without one nothing happens; tracking stays as it was |
| RequestQueues.LocationAPIClientBase.getRequestBySession | gps/location/LocationAPIClientBase.cpp:908-929 | Pops the first queue in use for the session and no other |
| NiSafety.RequestsAreConserved | gps/gnss/GnssAdapter.cpp:2222-2353 | In every interleaving each accepted raw request is in exactly one place: with a session, with a decided waiter, in the message queue, sent, or freed; each request offered was accepted, refused or found no client; a session has one undecided waiter for a request at hand, plus one for each request without data that no decision has used up |
| NiSafety.AllAreDisposedOf | gps/gnss/GnssAdapter.cpp:2261-2278 | When all waiters and messages are done, each accepted request has been sent or freed exactly once |
| NiSafety.RunKeeps | gps/gnss/GnssAdapter.cpp:1741-1780 | Every run of message task and waiters keeps conservation and the waiter count |
| NiResponses.RepliesSayWhatUsersSaid | gps/gnss/GnssAdapter.cpp:2238-2266 | In every run a reply after a timeout says no response, and any other says what the user said, in some step of the run, to the request whose answer was recorded |
| NiResponses.RequestOutcome | gps/gnss/GnssAdapter.cpp:2289-2328 | A request is dropped without a client, freed while one is in progress for its kind, and else put into its session with the next id and one more waiter |
| NiResponses.OrdinaryIsIgnoredIff | gps/gnss/GnssAdapter.cpp:1748-1759 | A response to the emergency request makes the ordinary one ignored iff it is an accept and there is one |
| NiTheorems.RepliesAnswerTheirRequestsIff | gps/gnss/GnssAdapter.cpp:2238-2266 | In every run a reply with a user's response carries the answer to that very request iff it was recorded before the waiter it was meant for decided |
| NiTheorems.WrongRequestIsAccepted | gps/gnss/GnssAdapter.cpp:1748-1772 | A run from the start in which the user accepts request 1 and request 2 is accepted for it |
| NiTheorems.LateAnswerReachesNextRequest | gps/gnss/GnssAdapter.cpp:2238-2266 | From any state with a late response, the next request is answered with it |
| NiTheorems.AnswerCanComeLate | gps/gnss/GnssAdapter.cpp:1748-1772 | From any idle state a response can come late, when the waiter times out between check and record |
| NiTheorems.EmergencyDropsOrdinary | gps/gnss/GnssAdapter.cpp:1748-1759 | Accepting an emergency request makes the ordinary request's waiter free it without a reply |
| NiTheorems.AnswerableIff | gps/gnss/GnssAdapter.cpp:1748-1763 | In every reachable state a response under the id given out for the request at hand is passed on to it iff the session has not been cleared since (or the id is 0), and for an ordinary request iff also the emergency request at hand has another id |
| NiTheorems.ClearedIff | gps/gnss/GnssAdapter.cpp:2271-2274 | Over any run that keeps the request at hand, its session is cleared iff the tail of some waiter of that session runs |
| NiTheorems.TailOrphansRequest | gps/gnss/GnssAdapter.cpp:2323-2335 | From any state with a waiter that has yet to clear, a request accepted before it does loses its id |
| NiTheorems.SecondRequestIsOrphaned | gps/gnss/GnssAdapter.cpp:2271-2274 | A run from the start after which no response reaches the second request |
| NiObjects.NiSession.decide | gps/gnss/GnssAdapter.cpp:2238-2271 | The answer is no response after a timeout and else the recorded one; the raw request is handed out unless that is ignore, and is taken out in either case |
| NiObjects.NiData.requestNiNotify | gps/gnss/GnssAdapter.cpp:2283-2353 | False without a listening client; the data is freed iff a request is in progress for its kind; else the session takes it and the client is told its new id |
| NiObjects.NiData.checkResponse | gps/gnss/GnssAdapter.cpp:1741-1778 | Which sessions get which response, in which order: the emergency session first, ignoring the other on accept |
| InteractionSafety.HintFollowsState | power-libperfmgr/InteractionHandler.cpp:117-183 | In every run the hint is held iff the handler is busy or an Exit leaked it; in runs in which no Init came while an Exit had yet to close files, every wait starts with the eventfd at zero and Release never reads an empty or closed one |
| InteractionSafety.HintsAlternateIff | power-libperfmgr/InteractionHandler.cpp:77-107 | DoHint and EndHint alternate iff no hint call followed an Exit that found the handler busy |
| InteractionSafety.EveryHintIsAccountedFor | power-libperfmgr/InteractionHandler.cpp:93-107 | In every run DoHints equal EndHints plus the hint in force plus the Exits that found the handler busy |
| InteractionSafety.AcceptedAcquireSurvivesRelease | power-libperfmgr/InteractionHandler.cpp:146-175 | An Acquire accepted during a wait keeps that wait's Release from ending the hint, whatever happens in between |
| InteractionSafety.RequestsAreCovered | power-libperfmgr/InteractionHandler.cpp:126-147 | Since leaving Idle recorded deadlines strictly grow, and every deadline asked for is less than 1 ms past the recorded one |
| InteractionSafety.CoverIsTight | power-libperfmgr/InteractionHandler.cpp:137-145 | From any idle state a skipped request can end 999999 ns after the recorded deadline |
| InteractionSafety.ExitLeaksHint | power-libperfmgr/InteractionHandler.cpp:77-91 | From any idle state: Acquire, Exit, Init, Acquire issue DoHint twice in a row |
| InteractionSafety.InitIsUnsafeIff | power-libperfmgr/InteractionHandler.cpp:51-91 | In every reachable state an Init can be spoiled before any further Exit, by termination or by losing its files, iff an earlier Exit has yet to join its thread or to close its files |
| InteractionSafety.ExitClosesNewFiles | power-libperfmgr/InteractionHandler.cpp:86-90 | From any idle state, an Init between the join and the close of an Exit leaves the handler in use with closed files |
| InteractionSafety.InitDuringExitTerminates | power-libperfmgr/InteractionHandler.cpp:83-91 | From any initialised reachable state, Exit and an Init before its join terminate the process |
| InteractionSafety.DiffErrorBelowOneMs | power-libperfmgr/InteractionHandler.cpp:109-115 | The truncating millisecond difference is off by less than 1 ms in either direction |
| InteractionSafety.DiffRoundsTowardZeroOfNanos | power-libperfmgr/InteractionHandler.cpp:109-115 | It is rounded down iff the end is not earlier within its second than the start, and else up |
| InteractionSafety.SkipsIff | power-libperfmgr/InteractionHandler.cpp:137-145 | In nanoseconds, a request is skipped iff the handler is not idle, the duration is no longer, and it ends no later than the recorded deadline, or less than 1 ms later where the difference is rounded down |
| InteractionSafety.DurationIsClampedIff | power-libperfmgr/InteractionHandler.cpp:126-133 | The duration is within its bounds, and is the clamped input iff the addition does not overflow, where overflow is taken to wrap around |
| InteractionSafety.RunKeeps | power-libperfmgr/InteractionHandler.cpp:51-244 | Every run keeps the invariant of hint calls, eventfd and deadlines |
| InteractionObject.InteractionHandler.Init | power-libperfmgr/InteractionHandler.cpp:51-75 | True iff initialised before or both files open, unless it terminates the process; the new state is that of the step |
| InteractionObject.InteractionHandler.Exit | power-libperfmgr/InteractionHandler.cpp:77-84 | The critical section: the new state is that of the step; no hint call is made |
| InteractionObject.InteractionHandler.CloseFiles | power-libperfmgr/InteractionHandler.cpp:89-90 | The end of Exit closes whatever files the handler holds by then |
| InteractionObject.InteractionHandler.Acquire | power-libperfmgr/InteractionHandler.cpp:117-159 | The new state, eventfd and hint calls are those of the step, for skipped and accepted requests |
| InteractionObject.InteractionHandler.Release | power-libperfmgr/InteractionHandler.cpp:161-175 | Ends the hint iff still waiting, otherwise empties the eventfd |
| InteractionObject.InteractionHandler.RoutineWake | power-libperfmgr/InteractionHandler.cpp:234-239 | Starts a wait, or returns iff the handler has exited |
| ReportCache.ReportList.setReport | gps/core/SystemStatus.cpp:1244-1256 | After any history the list is the last 5 entries of the history with runs of equal reports collapsed |
| ReportCache.ReportList.setDefaultReport | gps/core/SystemStatus.cpp:1695-1757 | The same; a default report always starts an entry |
| ReportCache.ReportList.getReport | gps/core/SystemStatus.cpp:1588-1686 | Returns those entries, or only the last entry of the whole collapsed history |
| ReportCache.AppendReport | gps/core/SystemStatus.cpp:1539-1558 | Deduplicating against the back and dropping the front does to the list what one more event does to the collapsed history |
| ReportCache.RunStart | gps/core/SystemStatus.cpp:1247-1250 | The start of the run an event belongs to: all events since report the same and none of them starts a run |
| AdapterArray.LocApiBase.addAdapter | gps/core/LocApiBase.cpp:161-171 | A new adapter goes to the end of the hole-free prefix; a registered one or an eleventh changes nothing |
| AdapterArray.LocApiBase.removeAdapter | gps/core/LocApiBase.cpp:173-207 | Exactly the given adapter goes, the array stays a duplicate-free prefix, close iff the last one went, otherwise reopen with the remaining mask |
| AdapterArray.LocApiBase.getEvtMask | gps/core/LocApiBase.cpp:139-146 | An event is in the mask iff some registered adapter asks for it and it is not excluded |
| AdapterArray.LocApiBase.broadcast | gps/core/LocApiBase.h:50-53 | The loop that stops at the first null visits every registered adapter once, in order |
| AdapterArray.SwapOutRemovesOne | gps/core/LocApiBase.cpp:186-196 | Moving the last adapter into the hole removes exactly one adapter and keeps the rest distinct |
| Properties.LoadUndoesPrint | init/init_ocn.cpp:72-109 | Loading the printed lines of clean pairs applies exactly those pairs in order |
| Properties.LineRoundTripsIff | init/init_ocn.cpp:86-105 | A printed pair parses back to itself iff key and value are clean |
| Properties.PaddedLineParses | init/init_ocn.cpp:86-105 | A clean pair parses back from a line with any spaces before and after its key, '=' and value |
| Properties.LineSetsNothingIff | init/init_ocn.cpp:90-97 | A line sets nothing iff its first character that is no space is '#' or it has no '=' |
| Properties.LoadsLineByLine | init/init_ocn.cpp:84-106 | A text is loaded as its first line and then the rest |
| Properties.UnterminatedLineIsIgnored | init/init_ocn.cpp:85-85 | What follows the last newline sets nothing |
| Properties.ParsedPairsAreClean | init/init_ocn.cpp:90-103 | Whatever a line parses to has a trimmed key without '=' or leading '#' and a trimmed value |
| Properties.LastPairWins | init/init_ocn.cpp:55-63 | The last pair for a key decides its value |
| Properties.OthersStay | init/init_ocn.cpp:55-63 | Properties that no pair names stay as they were |
| PropertyLoader.PropertyStore.load_properties | init/init_ocn.cpp:72-109 | For every text the pointer loop applies exactly the pairs of the per-line specification, within its buffer, and terminates |
| PropertyLoader.loadLine | init/init_ocn.cpp:86-105 | The in-place trimming and splitting of a line equals the specification and writes only within the line |
| PropertyLoader.trimBack | init/init_ocn.cpp:93-94 | Overwriting trailing spaces leaves exactly the right-trimmed string |
| PropertyLoader.skipSpaces | init/init_ocn.cpp:90-90 | Ends at the left-trimmed string |
| PropertyLoader.strchr | init/init_ocn.cpp:85-85 | The index of the first occurrence, -1 iff there is none |

## Left out

- Interleavings below the step granularity stated above: unlocked reads of `mClient`, `reqID` and `mDurationMs`, a client destroyed between an expiry's read of it and the forced stop, and the order of the unlocked writes of `requestNiNotify` and of a waiter's tail.
- `LocTimerWrapper`, the C interface of the timers: a thin wrapper.
- Failure of `new`, `pthread_create`, `timerfd_create` and `epoll_ctl`; delegates are known by ids that are not reused while they are in use.
- The timer step system keeps delegates and clients in maps; `TimerObjects` has them as objects, without the threads.
- TimerTheorems.NoTimerIsLost: bounds the boot time so that due times in seconds fit an int, as the rank needs.
- Pointer ownership inside `deleteSubscriber`: subscribers are values known by handle.
- AgpsMachine.AgpsManager.requestATL: does not route SUPL_ES to an emergency data service machine, which is left out with `DSStateMachine`.
- AgpsMachine.AgpsManager.releaseATL: does not search the emergency data service machine.
- AgpsMachine.AgpsManager.handleModemSSR: leaves out the emergency data service machine and the reinitialisation of its client.
- `DSStateMachine`, its place in `AgpsManager` and its fallback and retry: it depends on foreign return codes and the base invariants do not apply to it.
- The APN and bearer fields of AGPS, which no decision depends on.
- The ULP entry points of the adapter, which bypass the multiplexer on purpose, and the FLP adapter, which is not part of the repository.
- The key order of the session map: the multiplexer is proved for every order of the walk.
- TrackingSafety.EngineRunsAtLeastInterval: a modem restart is a separate step, see `EngineFailsSessionsIff`; a start uses a key that is not in use, as the ids guarantee until they wrap; `TrackingSafety.ReusedKeyKeepsSyncIff` says what happens otherwise.
- CorrelationSafety.ResponsesMeetRequests: holds for runs that generate at most 0xFFFFFFFE session ids, tracking requests only; beyond that ids repeat (`SessionIds.IdsRepeatIff`).
- RequestQueues.LocationAPIClientBase.getRequestBySession: leaves out the `BiDict` fallback to the session queue.
- Destruction of a client while responses are under way; batching and geofence requests; NI response ids, which come from another counter.
- InteractionSafety.HintFollowsState: its eventfd clauses leave out runs in which an Init came while an Exit had yet to close files, where they fail (`InitIsUnsafeIff`).
- The old files that such an Init loses track of, and an Init that fails in that window.
- `WaitForIdle`, which only decides when a wait ends: the model lets it end at any time. Failed hint calls, which are only logged.
- ReportCache.ReportList.setReport: models `equals` as equality of the compared fields, one list for the thirteen that share the pattern; float comparison and parsing are not modelled.
- InteractionSafety.DurationIsClampedIff: signed overflow, undefined in C++, is taken to wrap around.
- AdapterArray.LocApiBase.getEvtMask: represents the mask as the set of its bits.
- PropertyLoader.PropertyStore.property_override: keeps a map; limits of the property area of the platform are not modelled. Characters outside ASCII and failure of malloc are not modelled.
- `SystemStatusOsObserver`, `bthost_ipc`, NMEA and location conversion, HIDL wrappers, lights, vibrator and the other plumbing; the tables in the init headers are data only.
