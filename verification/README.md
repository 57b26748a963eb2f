# Positioning and fingerprint services: a verified model

A model, in Dafny, of the parts of a device tree that keep state and promise something about it:
the GNSS location service under `gps/`, the fingerprint service under `aidl/fingerprint/`, and the
script that sorts file lists.

What is modelled, module by module:

- **Agps**: the connection state machine with its subscriber list, and the manager that drives two
  of them. `AgpsModel` has the transitions, `AgpsNotices` what they do, event by event, `AgpsRuns`
  and `AgpsManagerRuns` what all runs keep, `Agps` the classes.
- **Observer**: who subscribes to which data item, in two maps that ought to be inverse
  (`ObserverModel`, `Observer`, and the container below them, `SetMap`), who is called with what
  (`ObserverCalls`), and the modules turned on and off on request (`ActionRequests`).
- **Tracking**: many time-based sessions on the one session of the engine, which may refuse what it is
  asked (`TrackingModel`, `Tracking`): `TrackingSessions` has the maps and loops, `TrackingSteps` the
  single operations, `TrackingPlaces` where sessions are after a command, `TrackingRuns` who is
  served, `TrackingPace` at which interval, `TrackingPower` at which power, `TrackingLosses` which
  updates lose a session, and `TrackingLimits` where it falls short.
- **Trips**: distances of many trips counted in 32 bits across restarts of the engine, and
  when and how often it reports (`TripModel`, `Trips`): `TripRuns` has the law of all accounts,
  `TripAccounts` single ones, `TripSessions` who is there, `TripTiming` and `TripPunctuality` when
  reports come, and `TripIntervals` how often.
- **NI requests**: two slots in which requests of the network wait for the user (`NiModel`,
  `NiRequests`, `NiRuns`, `NiSlots`).
- **SvMask**: satellites to avoid, as masks and as lists (`Bits`, `SvMask`).
- **Estimator**: the time of a fix since boot. **Adapters**: the array of registered adapters.
  **NetworkTable**, **NetworkTypes**, **NetworkReports**: the table of connected networks, their mask
  of types, and the states kept.
  **NmeaFields**: taking sentences apart.
- **Geofence**: fences by engine id and by client key.
- **Lockout**, **Enumeration**: failed fingerprints and their timer, and the listing of fingers.
- **PathOrder**, **PathText**, **PathSort**: the comparator of the script, and sorting with it.

The program handles one message at a time on one thread, and a message is one atomic step here. What
comes from outside (clients, engine, modem, clocks, timers) is an event with free parameters, and what
is sent there is a log. An answer of the engine is handled before the next message. Where the program
changes objects in place the model has classes with the same fields, loops and branches, proved
against a transition function; the properties are proved of every run of that function. Where a
property one would expect does not hold of the code, the condition under which it does is proved, in
both directions where that could be had, and a run, or an input, is given on which it fails.

Where code and comments disagree the code is followed. `LocUnorderedSetMap::update` says that it returns
the values that go (gps/utils/LocUnorderedSetMap.h:186-188) and returns those that stay, and the
observer relies on the former: `ObserverModel.StepReachesIff` says when that is harmless, and
`ObserverModel.UpdateLosesKeptItem` shows a subscriber who is not told.

The threshold `TRACKING_TBM_THRESHOLD_MILLIS`, `Util::hasElapsed` and `loc_nmea_is_debug` are not part
of this model: what they say is a parameter.

## Model

| member | source | states |
|---|---|---|
| AgpsRuns.EveryRunIsSound | gps/gnss/Agps.cpp:73-308 | On every run, modem restarts included: a RELEASED machine has no subscribers, handles are unique, and an inactive subscriber is one that waits for close |
| AgpsRuns.RestartFreeRunIsTight | gps/gnss/Agps.cpp:73-283 | On runs without a modem restart: RELEASED exactly when nobody is listed, an active subscriber in PENDING and ACQUIRED, an inactive one in RELEASING |
| AgpsRuns.EveryJoinIsAccountedFor | gps/gnss/Agps.cpp:109-283 | Conservation per handle, on every run: insertions equal terminal notices (close, or open refused) plus silent drops plus one if still listed |
| AgpsRuns.NoDropsWithoutRestart | gps/gnss/Agps.cpp:495-506 | Only a modem restart drops a subscriber without a notice |
| AgpsRuns.RestartStrandsIff | gps/gnss/Agps.cpp:495-506 | A modem restart keeps a machine in order if and only if nobody is listed; otherwise the state outlives its subscribers |
| AgpsRuns.FirstRestartStrandsIff | gps/gnss/Agps.cpp:495-506 | The same over runs: no machine is left with a connection for nobody before the first restart, and then exactly those with subscribers |
| AgpsRuns.OrdersBalance | gps/gnss/Agps.cpp:289-308 | On every run: requests sent to the framework equal releases sent plus connections the framework took away, plus one while connected |
| AgpsRuns.LastOrderMatchesState | gps/gnss/Agps.cpp:73-308 | On every run the last framework command is REQUEST in PENDING and ACQUIRED, RELEASE in RELEASING |
| AgpsRuns.NoSecondReleaseWithoutRequest | gps/gnss/Agps.cpp:109-172 | Between any two RELEASEs there is a REQUEST |
| AgpsRuns.NoSecondRequestWithoutCause | gps/gnss/Agps.cpp:73-108 | Between any two REQUESTs there is a RELEASE, a refusal in PENDING or a forced release in ACQUIRED |
| AgpsRuns.ActiveSubscribersWereTold | gps/gnss/Agps.cpp:173-195 | Every active subscriber of an ACQUIRED machine was told of the open connection at a step since which it has been listed |
| AgpsNotices.StepTellsIff | gps/gnss/Agps.cpp:109-283 | Of every event in every state, whoever is listed: a handle is told of a refused open exactly if the framework refuses a pending request while it is listed; of an open connection exactly if it is granted while the handle is active, or was there when it joined; of a close exactly if it leaves without waiting, or the connection closes under it or, with it waiting, after being given back |
| AgpsNotices.OutputsAre | gps/gnss/Agps.cpp:109-308 | What leaves the machine with an event: the notices, and after them the order to the framework |
| AgpsNotices.StepTellsOnce | gps/gnss/Agps.cpp:310-342 | With unique handles no event sends a notice twice |
| AgpsNotices.StepTellsInOrder | gps/gnss/Agps.cpp:310-342 | The notices of an event are in the order of the list |
| AgpsNotices.StepListsIff | gps/gnss/Agps.cpp:109-283 | Of every event: who is listed afterwards, with which flags, told from who was before |
| AgpsNotices.StepKeepsOrder | gps/gnss/Agps.cpp:392-430 | A subscriber that joins is the last, and the others never change places |
| AgpsNotices.StepStateIs | gps/gnss/Agps.cpp:73-283 | Of every event: the state afterwards, told from who was listed and active before |
| AgpsNotices.EveryNoticeHasItsCause | gps/gnss/Agps.cpp:173-380 | On every run each kind of notice is sent to a handle exactly as often as there was cause |
| AgpsNotices.EveryJoinEndsAsItShould | gps/gnss/Agps.cpp:109-283 | Conservation with the two ends apart: insertions equal closes plus refusals, each for its cause, plus silent drops plus one if still listed |
| AgpsNotices.RefusalIsTold | gps/gnss/Agps.cpp:275-277 | A refusal that is told as a refusal, not as a close |
| AgpsManagerRuns.SlotsRunLegally | gps/gnss/Agps.cpp:563-675 | Whatever calls the manager gets, each of its machines goes through a run of the kind the theorems above are about |
| AgpsManagerRuns.NoSubscriberDroppedOrClosedTwice | gps/gnss/Agps.cpp:563-675 | On every run of manager calls without a modem restart, for each machine and handle: insertions equal terminal notices plus one if still listed |
| AgpsManagerRuns.ManagerKeepsMachines | gps/gnss/Agps.cpp:514-675 | The machine invariants hold on every run of manager calls |
| AgpsManagerRuns.ManagerDrivesFramework | gps/gnss/Agps.cpp:563-675 | The framework commands and the notices of active subscribers fit the state, on every run of manager calls |
| AgpsManagerRuns.FirstRestartStrandsMachinesIff | gps/gnss/Agps.cpp:664-675 | A first modem restart leaves a machine with a connection for nobody if and only if it has subscribers then |
| AgpsManagerRuns.RestartDropsSilently | gps/gnss/Agps.cpp:664-675 | A run in which a modem restart drops a subscriber without notice and leaves the machine in PENDING for nobody, as those conditions say |
| AgpsManagerRuns.OneSlotStep | gps/gnss/Agps.cpp:563-626 | A manager call steps at most one machine, and by the event that fits the call |
| AgpsManagerRuns.CallsAreRouted | gps/gnss/Agps.cpp:514-675 | Of every call: which machine takes which event: SUPL, emergency SUPL and invalid types go to the AGNSS machine, all others to the Internet one; a release to the machine that lists the handle, the AGNSS one first, with the flag it is listed with |
| AgpsNotices.RequestIsListed | gps/gnss/Agps.cpp:563-597 | After a request the handle is listed in the machine of its type, which is not RELEASED; nobody else changes anywhere |
| AgpsNotices.AnswersSettle | gps/gnss/Agps.cpp:627-662 | A granted request has the connection acquired; a refused one, and a close, leave the machine RELEASED with nobody listed |
| Agps.AgpsStateMachine.GetSubscriber | gps/gnss/Agps.cpp:465-478 | Finds the subscriber with the handle, or none |
| Agps.AgpsStateMachine.AnyActiveSubscribers | gps/gnss/Agps.cpp:432-442 | True exactly if an active subscriber is listed |
| Agps.AgpsStateMachine.AddSubscriber | gps/gnss/Agps.cpp:392-411 | Appends a copy unless the handle is listed |
| Agps.AgpsStateMachine.DeleteSubscriber | gps/gnss/Agps.cpp:413-430 | The list loses exactly the entries with the handle |
| Agps.AgpsStateMachine.NotifyEventToSubscriber | gps/gnss/Agps.cpp:345-380 | Sends the notice of the event to one handle and deletes it if asked |
| Agps.AgpsStateMachine.NotifyAllSubscribers | gps/gnss/Agps.cpp:310-342 | The sweep that erases while it iterates: notices in list order, and those notified gone |
| Agps.AgpsStateMachine.RequestOrReleaseDataConn | gps/gnss/Agps.cpp:289-308 | Sends exactly one framework command |
| Agps.AgpsStateMachine.DropAllSubscribers | gps/gnss/Agps.cpp:495-506 | Empties the list, tells nobody, leaves the state |
| Agps.AgpsStateMachine.ProcessAgpsEventSubscribe | gps/gnss/Agps.cpp:73-107 | New state, list, notices and command are those of the transition |
| Agps.AgpsStateMachine.ProcessAgpsEventUnsubscribe | gps/gnss/Agps.cpp:109-171 | The same, with inactivation or immediate close, and the release when nobody active is left |
| Agps.AgpsStateMachine.ProcessAgpsEventGranted | gps/gnss/Agps.cpp:173-194 | The same, for a granted connection |
| Agps.AgpsStateMachine.ProcessAgpsEventReleased | gps/gnss/Agps.cpp:196-241 | The same, for a released connection, including the new request for those still active |
| Agps.AgpsStateMachine.ProcessAgpsEventDenied | gps/gnss/Agps.cpp:243-283 | The same, for a refused connection |
| Agps.AgpsManager.CreateAgpsStateMachines | gps/gnss/Agps.cpp:514-535 | Machines exist for the capabilities given, once |
| Agps.AgpsManager.RequestAtl | gps/gnss/Agps.cpp:563-597 | Steps the machine of the type, or refuses at once without one |
| Agps.AgpsManager.ReleaseAtl | gps/gnss/Agps.cpp:599-625 | Steps the machine that lists the handle, the AGNSS one first, with the flags of that subscriber |
| Agps.AgpsManager.ReportAtlOpenSuccess | gps/gnss/Agps.cpp:627-644 | Steps the machine of the type with GRANTED |
| Agps.AgpsManager.ReportAtlOpenFailed | gps/gnss/Agps.cpp:646-653 | Steps the machine of the type with DENIED |
| Agps.AgpsManager.ReportAtlClosed | gps/gnss/Agps.cpp:655-662 | Steps the machine of the type with RELEASED |
| Agps.AgpsManager.HandleModemRestart | gps/gnss/Agps.cpp:664-675 | Drops the subscribers of both machines |
| ObserverModel.StepAgreesOnIff | gps/core/SystemStatusOsObserver.cpp:91-293 | Of every message and client, whatever others do: the two tables go on agreeing on the client if and only if it does not replace a subscription it has: the code removes it from the items it keeps, not from those it drops |
| ObserverModel.RunsAgreeOn | gps/core/SystemStatusOsObserver.cpp:91-293 | On every run client-to-item and item-to-client agree on every client that never does that |
| ObserverModel.StepReachesIff | gps/core/SystemStatusOsObserver.cpp:148-197 | Of every message in every state: a client is on the list of every item it wants after an update if and only if it keeps none of its items |
| ObserverModel.RunsReach | gps/core/SystemStatusOsObserver.cpp:91-341 | On every run, from the beginning or the last time it left: a client is notified as it should of every report until it replaces a subscription and keeps some of it |
| ObserverModel.FirstKeptIsMissed | gps/core/SystemStatusOsObserver.cpp:148-197 | The first time it does, a report of an item it wants misses it |
| ObserverModel.NotifyIsExactIff | gps/core/SystemStatusOsObserver.cpp:308-341 | Of every report in every state: a client is called exactly if it wants updated items, with exactly their last values, if and only if it wants none of them or is on the list of some |
| ObserverModel.AlwaysNotifiedIff | gps/core/SystemStatusOsObserver.cpp:308-341 | It is so of every report if and only if the client is on the list of every item it wants |
| ObserverModel.RunsKeepNoEmpty | gps/core/SystemStatusOsObserver.cpp:91-293 | On every run neither table has an entry for nothing |
| ObserverModel.UpdateLosesKeptItem | gps/core/SystemStatusOsObserver.cpp:148-197 | A run after which a client is subscribed to an item and is not told of it |
| ObserverModel.DisagreementIsSilent | gps/core/SystemStatusOsObserver.cpp:308-341 | Where the tables disagree, a report does not reach the subscriber |
| ObserverModel.CacheHoldsLast | gps/core/SystemStatusOsObserver.cpp:552-578 | After a batch the cache holds for each item the last value recorded, or what it held |
| ObserverCalls.SubscriptionCallsIff | gps/core/SystemStatusOsObserver.cpp:91-208 | Of every subscription message in every state: a client is called exactly if items come in for it that the cache has a value of, by an update only if it did not want them, and is sent exactly those; nobody else is called |
| ObserverCalls.SubscriberIsSentLast | gps/core/SystemStatusOsObserver.cpp:524-550 | On every run what it is sent is the last accepted value of each |
| ObserverCalls.ReportCallsIff | gps/core/SystemStatusOsObserver.cpp:308-341 | Of every report in every state: a client is called exactly if it is listed under an updated item and wants one, and is sent exactly the last values of those it wants |
| ObserverCalls.CacheIsLastValue | gps/core/SystemStatusOsObserver.cpp:552-578 | On every run the cache holds exactly the last accepted value of every item |
| ObserverCalls.StepKeepsRest | gps/core/SystemStatusOsObserver.cpp:59-341 | Only a report changes the cache, and only its message sets the subscription object |
| ObserverCalls.StepAsksIff | gps/core/SystemStatusOsObserver.cpp:59-293 | Of every message in every state, item by item: what the framework is asked for afterwards |
| ObserverCalls.SubscriberIsCalled | gps/core/SystemStatusOsObserver.cpp:107 | A client that subscribes to an item of which the cache has a value is sent it at once |
| ObserverModel.StepFitsFrameworkIff | gps/core/SystemStatusOsObserver.cpp:59-293 | Of every message: the items asked of the framework stay those of the item table if and only if it is not a request that brings in a new item |
| ObserverModel.FrameworkFollowsSubscriptions | gps/core/SystemStatusOsObserver.cpp:59-293 | On every run they are among those of the item table, and all of them from the beginning, or the last time the subscription object was set, until such a request |
| ObserverModel.FirstNewItemIsNotAsked | gps/core/SystemStatusOsObserver.cpp:102-136 | The first such request ends that |
| ObserverModel.RequestIsNotAsked | gps/core/SystemStatusOsObserver.cpp:102-136 | A run with such a request |
| Observer.SystemStatusOsObserver.SetSubscriptionObject | gps/core/SystemStatusOsObserver.cpp:59-88 | All items of the item table are subscribed at the framework |
| Observer.SystemStatusOsObserver.SubscribeTo | gps/core/SystemStatusOsObserver.cpp:91-136 | Both tables, the framework and the cached values sent are those of the transition |
| Observer.SystemStatusOsObserver.UpdateSubscriptionTo | gps/core/SystemStatusOsObserver.cpp:139-208 | The same, for a replaced subscription |
| Observer.SystemStatusOsObserver.UnsubscribeFrom | gps/core/SystemStatusOsObserver.cpp:211-249 | The same, for items dropped |
| Observer.SystemStatusOsObserver.UnsubscribeFromAll | gps/core/SystemStatusOsObserver.cpp:252-293 | The same, for a client that leaves |
| Observer.SystemStatusOsObserver.OnNotify | gps/core/SystemStatusOsObserver.cpp:296-369 | The same, for a batch of data items |
| Observer.SystemStatusOsObserver.SendCachedDataItems | gps/core/SystemStatusOsObserver.cpp:524-550 | A client is sent the cached values of the items, if there are any |
| Observer.SystemStatusOsObserver.UpdateCache | gps/core/SystemStatusOsObserver.cpp:552-578 | The cache takes the item if the status recorder does |
| SetMap.ReportsAreDifferences | gps/utils/LocUnorderedSetMap.h:135-199 | The keys and values that trimming and adding report are exactly those that differ before and after; an update hands back those that stay |
| SetMap.RemoveAndReturnInterset | gps/utils/LocUnorderedSetMap.h:64-78 | Returns the intersection and leaves the two differences |
| SetMap.LocUnorderedSetMap.TrimOrRemove | gps/utils/LocUnorderedSetMap.h:135-153 | The entries lose the values, empty ones go; reports exactly the keys and values that went |
| SetMap.LocUnorderedSetMap.AddAll | gps/utils/LocUnorderedSetMap.h:155-184 | The entries gain the values; reports exactly the keys that are new |
| SetMap.LocUnorderedSetMap.Update | gps/utils/LocUnorderedSetMap.h:189-199 | Replaces the entry and hands back the values that stay, where the comment says those that go |
| ActionRequests.EveryRunBalances | gps/core/SystemStatusOsObserver.cpp:375-446 | On every run, per item: the count is that of the requests not taken back, and the framework was asked to turn it on once more than off exactly while there are any |
| ActionRequests.SystemStatusOsObserver.TurnOn | gps/core/SystemStatusOsObserver.cpp:375-412 | Counts the request, and asks the framework for the first |
| ActionRequests.SystemStatusOsObserver.TurnOff | gps/core/SystemStatusOsObserver.cpp:414-446 | Takes one back, and asks the framework with the last |
| TrackingRuns.EveryRunServesIff | gps/gnss/GnssAdapter.cpp:2888-3393 | On every run of start, update, stop, suspend/restart and nHz changes, whatever the engine answers: nobody waits at any time up to a command if and only if none before it harms |
| TrackingRuns.NobodyWaitsIff | gps/gnss/GnssAdapter.cpp:2888-3393 | That nobody waits means: the engine runs while there are time-based sessions, at least as fast as each asks, and at 100 ms while nHz is needed |
| TrackingRuns.StepServedIff | gps/gnss/GnssAdapter.cpp:2912-3320 | Of every command and answer: everybody goes on being served if and only if it is none of four told from what is there before: the first start under a flag left up by a refused one, a refused restart or change to nHz that was needed, or a switch to a distance that is not supported |
| TrackingRuns.RestartMends | gps/gnss/GnssAdapter.cpp:2601-2656 | Suspending and restarting with an engine that obeys serves everybody again, however many waited |
| TrackingRuns.StepIsProperIff | gps/gnss/GnssAdapter.cpp:3377-3393 | And the engine goes on running only while there are sessions if and only if besides it does not refuse to stop for the last one |
| TrackingRuns.EveryRunIsProperIff | gps/gnss/GnssAdapter.cpp:2888-3393 | The same over every run whose starts are given new keys |
| TrackingRuns.ObedientRunServes | gps/gnss/GnssAdapter.cpp:2888-3393 | With an engine that does what it is asked and distances tracked, it serves all sessions and runs exactly while there are any |
| TrackingSteps.SwitchFailsIff | gps/gnss/GnssAdapter.cpp:3140-3154 | When the switch to a distance that is not supported fails, told from sessions and engine |
| TrackingSteps.RestartServesIff | gps/gnss/GnssAdapter.cpp:2659-2691 | A restart serves all sessions if and only if it is obeyed, or they were served; without nHz clients at exactly the smallest interval |
| TrackingSteps.UpdateIsExactIff | gps/gnss/GnssAdapter.cpp:3210-3271 | An update, refused or not, leaves the engine at the minimum if and only if it does not slow down a sole pace-setter behind another session without asking for more power |
| TrackingPace.StepIsExactIff | gps/gnss/GnssAdapter.cpp:2912-3393 | Of every command without nHz: the engine goes on at exactly the smallest interval if and only if the command does not stray, told from the sessions: a pace-setter that slows down; a refusal to stop, slow down or restart; or a switch to a distance that is not supported, of a session faster than the others |
| TrackingPace.EveryRunIsExactIff | gps/gnss/GnssAdapter.cpp:2888-3393 | On every run without nHz whose starts are given new keys: the engine runs at exactly the minimum at any time up to a command if and only if none before it strays |
| TrackingPace.StopIsExactIff | gps/gnss/GnssAdapter.cpp:3326-3374 | A session taken off leaves it so if and only if the engine does not refuse to stop for the only one, or to slow down to the others |
| TrackingLosses.UpdateLosesIff | gps/gnss/GnssAdapter.cpp:3113-3202 | An update loses the session if and only if it changes its kind, the engine is asked to start for the others that stay or the one that comes, and refuses: the answer erases the session from the map it has just been saved in |
| TrackingPlaces.OthersStay | gps/gnss/GnssAdapter.cpp:2912-3320 | Of every command in every state, whatever becomes of its own session: all other sessions stay in the map they are in, with their options |
| TrackingPlaces.StepMoves | gps/gnss/GnssAdapter.cpp:2912-3320 | Of every start, update and stop: in which map its session is afterwards, or in none, and with which options, from where it was and what the engine answers |
| TrackingPlaces.OptionsAreKept | gps/gnss/GnssAdapter.cpp:2917-2943 | What is kept of the options a session asks for, whichever limit is applied first: the interval at least 100 ms, and mode 4 with a long time between measurements taken down to 2 |
| TrackingPower.StepIsStrongIff | gps/gnss/GnssAdapter.cpp:2912-3374 | Of every command without nHz, sessions naming their power modes: the engine goes on at exactly the highest power asked for, and only while there are sessions, if and only if the command is none of those told from sessions and engine before: a start or update that only sets the pace while the pace-setter before it does not ask for the highest power, an update that gives up the highest power silently, a switch without distances, or a refusal |
| TrackingPower.EveryRunIsStrongIff | gps/gnss/GnssAdapter.cpp:2888-3393 | On every such run: the engine runs at exactly the highest power asked for at any time up to a command if and only if none before it is one of those |
| TrackingPower.ThirdStartIsWeak | gps/gnss/GnssAdapter.cpp:2980-3012 | A run of three starts, all obeyed, after which the engine runs at the power of the second, and the first asks for more |
| TrackingPower.StartIsStrongIff | gps/gnss/GnssAdapter.cpp:2965-3018 | A session that comes leaves the engine at the highest power if and only if it does not only set the pace where the pace-setter before it does not ask for the highest power |
| TrackingPower.UpdateIsStrongIff | gps/gnss/GnssAdapter.cpp:3209-3271 | The same for a session that changes what it asks for, which may also have been the only one to ask for the highest power |
| TrackingPower.StopIsStrongIff | gps/gnss/GnssAdapter.cpp:3326-3374 | A session that goes leaves it there if and only if the engine does not refuse to stop for the only one, or to save power for the others |
| TrackingPower.SwitchIsStrongIff | gps/gnss/GnssAdapter.cpp:3138-3154 | A switch to a distance, supported or not |
| TrackingPower.StartAsks | gps/gnss/GnssAdapter.cpp:2973-3018 | What the engine is asked for one session more: the options of the first of the fastest there are, with the smaller interval, and with the new power mode where that is better than all |
| TrackingPower.UpdateAsks | gps/gnss/GnssAdapter.cpp:3225-3271 | The same for an updated session and the others |
| TrackingPower.StopAsks | gps/gnss/GnssAdapter.cpp:3340-3372 | And for one that goes: the options of the first of the fastest others, with the best power mode of all others |
| TrackingPower.RestartAsks | gps/gnss/GnssAdapter.cpp:2659-2691 | What a restart asks: the options of the first session with the highest power, with interval and distance of the first of the fastest |
| TrackingPower.MuxIsFirst | gps/gnss/GnssAdapter.cpp:3341-3358 | The loop over the sessions finds the options of the first of the fastest it looks at |
| TrackingPower.SomebodySetsPace | gps/gnss/GnssAdapter.cpp:3341-3358 | And there is such a session whenever there is one to look at |
| TrackingLimits.SwitchToDistanceLosesSession | gps/gnss/GnssAdapter.cpp:3140-3154 | A run on which a switch to distance loses the session |
| TrackingLimits.SwitchToTimeLosesSession | gps/gnss/GnssAdapter.cpp:3155-3172 | A run on which a switch to time loses it |
| TrackingLimits.UnsupportedSwitchIsSlow | gps/gnss/GnssAdapter.cpp:3140-3154 | A run after which an engine that obeys is slower than a session asks |
| TrackingLimits.RefusedNHzStartIsNotRepeated | gps/gnss/GnssAdapter.cpp:218-240 | A run on which the refused first start of an nHz client leaves the flag up, and the next session waits whatever the engine would answer |
| TrackingLimits.RefusedNHzStartIsMended | gps/gnss/GnssAdapter.cpp:218-240 | A run on which a restart comes first, and nobody waits at any time |
| TrackingLimits.SlowedDownIsNotExact | gps/gnss/GnssAdapter.cpp:3210-3271 | A run on which a pace-setter slows down and the engine stays at its old interval |
| TrackingSessions.MuxPowerIsLeast | gps/gnss/GnssAdapter.cpp:3227-3245 | The loop finds the smallest power mode of the sessions it looks at after the last that names none; what came before, it forgets |
| TrackingLimits.ModeIsForgotten | gps/gnss/GnssAdapter.cpp:3227-3245 | Three sessions of which it forgets the first |
| TrackingSessions.RestartPicksHighestPowerIff | gps/gnss/GnssAdapter.cpp:2665-2684 | Where some session names a power mode, restarting picks the highest power if and only if the first session names one |
| TrackingLimits.NoModeIsKept | gps/gnss/GnssAdapter.cpp:2665-2684 | A run on which the first names none, and the engine is restarted without one |
| TrackingSessions.MuxOfOthers | gps/gnss/GnssAdapter.cpp:3341-3358 | The loop that skips a session finds the exact minimum of the others |
| Tracking.GnssAdapter.CheckAndSetSPEToRunForNHz | gps/gnss/GnssAdapter.cpp:218-240 | Whether the engine already runs at the nHz interval; else the options to run with |
| Tracking.GnssAdapter.StartTimeBasedTrackingMultiplex | gps/gnss/GnssAdapter.cpp:2965-3018 | Engine and flag are those of the transition, found by the loop over all sessions |
| Tracking.GnssAdapter.UpdateTrackingMultiplex | gps/gnss/GnssAdapter.cpp:3209-3271 | The same, for an updated session, the loop skipping it |
| Tracking.GnssAdapter.StopTimeBasedTrackingMultiplex | gps/gnss/GnssAdapter.cpp:3326-3374 | The same, for a session that stops |
| Tracking.GnssAdapter.CheckAndRestartTimeBasedSession | gps/gnss/GnssAdapter.cpp:2659-2691 | The same, for a restart: options of the highest power, interval of the fastest |
| Tracking.GnssAdapter.SaveTrackingSession | gps/gnss/GnssAdapter.cpp:2797-2809 | Saved as distance-based only where that is supported |
| Tracking.GnssAdapter.EraseTrackingSession | gps/gnss/GnssAdapter.cpp:2811-2825 | Erased from the map that has it |
| Tracking.GnssAdapter.StartTracking | gps/gnss/GnssAdapter.cpp:2912-2955 | Sessions and engine after a start command, with its checks and clamps; erased on a refusal |
| Tracking.GnssAdapter.UpdateTrackingOptions | gps/gnss/GnssAdapter.cpp:3113-3202 | After an update, in all four switches between time and distance; erased or given back on a refusal |
| Tracking.GnssAdapter.StopTrackingSession | gps/gnss/GnssAdapter.cpp:3292-3320 | After a stop; a distance-based session stays if the engine refuses |
| Tracking.GnssAdapter.SuspendAndRestartSessions | gps/gnss/GnssAdapter.cpp:2601-2656 | After suspending and restarting in one go |
| Tracking.GnssAdapter.SetNHzNeeded | gps/gnss/GnssAdapter.cpp:6629-6632 | After the need for nHz changes |
| TripAccounts.StepKeepsAccountIff | gps/batching/BatchingAdapter.cpp:662-1025 | Of every event and session, whatever becomes of others: its account (distance at the last restart plus counter less base equals the distance travelled since joining, modulo 2^32) stays right if and only if the event is fair to it: the counter is current where the session is rebased on it or joins with it, a forced restart finds it as it should be, the engine does not come up anew having counted |
| TripAccounts.EveryRunKeepsAccountIff | gps/batching/BatchingAdapter.cpp:662-1025 | On every run: the account of one session is right at any time up to an event if and only if every event before is fair to it |
| TripAccounts.ForcerStartsRight | gps/batching/BatchingAdapter.cpp:833-855 | A session that has the engine start again, and the engine obeying, starts right, whatever it makes of the others |
| TripAccounts.FaithfulIsFairToAll | gps/batching/BatchingAdapter.cpp:662-1025 | The law below goes on exactly if the event is fair to all |
| TripRuns.StepKeepsLawIff | gps/batching/BatchingAdapter.cpp:662-1025 | Of every event: it keeps all accounts right if and only if counters are current where they are used, a forced restart finds the sessions as it should, and the engine does not come up anew having counted |
| TripRuns.EveryRunKeepsLaw | gps/batching/BatchingAdapter.cpp:662-1025 | On every run of such events, whatever the engine answers, all accounts are right |
| TripRuns.FirstFaultEndsLaw | gps/batching/BatchingAdapter.cpp:662-1025 | The first event of a run that is not of that kind ends that |
| TripRuns.RestartKeepsLawIff | gps/batching/BatchingAdapter.cpp:1010-1024 | A restart keeps the law if and only if it does not happen or the captured counter was current |
| TripRuns.ReportKeepsLawIff | gps/batching/BatchingAdapter.cpp:662-701 | The same for a report with its sweep |
| TripRuns.LateReportLosesDistance | gps/batching/BatchingAdapter.cpp:662-701 | A run on which the counter is not current, and the session that stays loses what it has come in between |
| TripRuns.LeaveKeepsLawIff | gps/batching/BatchingAdapter.cpp:887-909 | The same for a session that stops |
| TripRuns.ForcedRestartKeepsLawIff | gps/batching/BatchingAdapter.cpp:833-855 | The restart that a new session forces keeps the law if and only if, obeyed, every session happened to be up to date; refused, every session was as it started and nothing counted for the new one |
| TripRuns.ForcedRestartLosesDistance | gps/batching/BatchingAdapter.cpp:833-844 | A run on which it loses distance |
| TripRuns.RefusedRestartCreditsDistance | gps/batching/BatchingAdapter.cpp:833-855 | A run on which a refused one credits a session with distance it has not travelled |
| TripRuns.QuietJoinKeepsLawIff | gps/batching/BatchingAdapter.cpp:803-831 | A join without restart keeps the law if and only if the counter it starts from is current |
| TripRuns.NewDistanceIs | gps/batching/BatchingAdapter.cpp:794-831 | A new session has the engine restarted if and only if it asks for positions more often, or its end is nearer than what is left to count; then the lesser of both is asked for |
| TripRuns.JoinAsks | gps/batching/BatchingAdapter.cpp:833-855 | What the engine runs for after a join: the lesser distance and interval if restarted and obeying, else what it did |
| TripRuns.EngineUpKeepsLawIff | gps/batching/BatchingAdapter.cpp:211-246 | An engine that comes up anew keeps the law if and only if it had counted nothing: the loop resets copies |
| TripPunctuality.EngineUpMakesLate | gps/batching/BatchingAdapter.cpp:211-246 | A run on which it had counted, and the session loses distance and is late |
| TripRuns.ReportCompletesExactly | gps/batching/BatchingAdapter.cpp:668-693 | If the account of a trip is right, whatever those of others are: a report completes it if and only if it has travelled its distance, modulo 2^32; otherwise leaves it, with what it has travelled; and reports no trip twice |
| TripSessions.StepTripIs | gps/batching/BatchingAdapter.cpp:662-1025 | Of every event and session: whether it is there afterwards, with what it asked for, and the distance it is said to have come |
| TripSessions.EngineUpAsks | gps/batching/BatchingAdapter.cpp:211-246 | An engine that comes up anew is asked for what the loop over the sessions finds; if it refuses, the program asks for nothing any more although they are there |
| TripSessions.LastOneStops | gps/batching/BatchingAdapter.cpp:932-946 | When the last session goes the program asks for nothing any more, and the engine stops if it obeys |
| TripSessions.IdleWithoutTrips | gps/batching/BatchingAdapter.cpp:932-946 | On every run on which it obeys then, the engine does not run while nobody is there |
| TripTiming.NearestIsLeastIff | gps/batching/BatchingAdapter.cpp:948-957 | The zero-sentinel scan finds the smallest remaining distance if and only if no session is exactly at its end, or the last one is |
| TripTiming.QuickestIsLeastIff | gps/batching/BatchingAdapter.cpp:959-962 | And the smallest interval if and only if no session asks for 0, or the last one does |
| TripTiming.SessionLeftAtItsEnd | gps/batching/BatchingAdapter.cpp:948-963 | A run, lawful throughout, that leaves a session exactly at its end, and the scan missing it |
| TripPunctuality.StepPunctualIff | gps/batching/BatchingAdapter.cpp:662-1025 | Of every event and session, whatever counters and accounts are: a session that is punctual (the engine will report before it gets past its end) goes on so if and only if the event does not start the engine for more than it still has to go, nor fail to start it for one that joins and needs it, nor lose the engine |
| TripPunctuality.EveryRunIsPunctualIff | gps/batching/BatchingAdapter.cpp:662-1025 | On every run: one session is punctual at any time up to an event if and only if no event before delays it |
| TripPunctuality.NewcomerIsPunctualIff | gps/batching/BatchingAdapter.cpp:794-855 | A session that joins others is punctual if and only if the engine is started again for it and obeys, or as it runs will report in time |
| TripPunctuality.NewcomerIsPunctual | gps/batching/BatchingAdapter.cpp:794-855 | So it is with a current counter, an engine that runs for the distance held, has not counted past it, and obeys |
| TripPunctuality.NearerSessionRestarts | gps/batching/BatchingAdapter.cpp:817-845 | A run on which a session that is sooner at its end has the engine restarted |
| TripPunctuality.RefusedJoinIsLate | gps/batching/BatchingAdapter.cpp:833-855 | A run on which the engine refuses to start for a session, which is late from the beginning |
| TripTiming.LeaveInTimeIff | gps/batching/BatchingAdapter.cpp:887-1024 | With the law, a stop leaves all sessions punctual if and only if a restart asks for no more than any unfinished session has to go, or without one all the others were punctual before |
| TripTiming.StaleStopIsLate | gps/batching/BatchingAdapter.cpp:944-988 | A run, lawful throughout, on which a stop asks for a distance that is not up to date, and makes a session late |
| TripTiming.QuickStopIsLate | gps/batching/BatchingAdapter.cpp:994-1024 | Another, on which all distances are up to date, and the engine is started again for the interval alone with the whole distance from zero |
| TripTiming.ReportInTimeIff | gps/batching/BatchingAdapter.cpp:662-701 | With the law, a report that completes trips leaves all sessions punctual if and only if a restart counts distances anew, or keeps one no longer than the nearest end, or without one the unfinished were punctual before |
| TripTiming.ReportAsksForNearestIff | gps/batching/BatchingAdapter.cpp:981-1024 | A report that restarts the engine asks for exactly the nearest end if and only if it counts distances anew, or the distance it keeps is that |
| TripPunctuality.ReportMakesLate | gps/batching/BatchingAdapter.cpp:981-1024 | A run on which it does neither, and makes a session late |
| TripTiming.NearerIff | gps/batching/BatchingAdapter.cpp:981-993 | Distances are counted anew if and only if the one asked for is reached, its session gone, or an end nearer |
| TripIntervals.StepIsQuickIff | gps/batching/BatchingAdapter.cpp:944-1002 | Of every event: the interval the program holds stays no longer than that of any session if and only if it is not set by a scan that misses an interval of 0 |
| TripIntervals.EveryRunIsQuickIff | gps/batching/BatchingAdapter.cpp:944-1002 | On every run, whatever the engine answers: it is so at any time up to an event if and only if none before misses one |
| TripIntervals.PositiveRunIsQuick | gps/batching/BatchingAdapter.cpp:944-1002 | On every run of sessions with positive intervals it is so |
| TripIntervals.ForgottenIntervalIsSlow | gps/batching/BatchingAdapter.cpp:959-962 | A run on which the scan forgets a session that asks for 0, and one before it |
| TripIntervals.EngineIsQuickIff | gps/batching/BatchingAdapter.cpp:782-1029 | Of every event: the engine itself stays quick enough for all sessions if and only if it is not lost, does not go on as it was for a session that wants more, and is not started with an interval from such a scan |
| TripIntervals.EngineIsQuickSince | gps/batching/BatchingAdapter.cpp:782-1029 | On every run it is quick enough from any start it has obeyed until one of those |
| TripIntervals.RefusedStartIsSlow | gps/batching/BatchingAdapter.cpp:833-855 | A run on which the program holds the quick interval and the engine runs at the slow one |
| TripIntervals.SweptFlags | gps/batching/BatchingAdapter.cpp:677-690 | A report puts the dropped flags up if and only if it completes a session of the interval, or distance, asked for |
| TripIntervals.LeaveFlags | gps/batching/BatchingAdapter.cpp:892-900 | And a stop if and only if it stops one |
| TripIntervals.SlowsDownAgain | gps/batching/BatchingAdapter.cpp:995-1002 | Once such a session has gone, an obeyed restart leaves program and engine at exactly the least interval of those that stay, longer or not |
| TripIntervals.ReportSlowsDown | gps/batching/BatchingAdapter.cpp:662-701 | So after a report that completes one |
| TripIntervals.LeaveSlowsDown | gps/batching/BatchingAdapter.cpp:887-909 | And after a stop of one |
| Trips.BatchingAdapter.ReportCompletedTrips | gps/batching/BatchingAdapter.cpp:662-701 | Completed ids, sessions kept, flags and restart are those of the transition |
| Trips.BatchingAdapter.ScanTrips | gps/batching/BatchingAdapter.cpp:944-963 | The scan over all sessions |
| Trips.BatchingAdapter.Rebase | gps/batching/BatchingAdapter.cpp:1010-1021 | Every session counts on from the captured counter |
| Trips.BatchingAdapter.RestartTripBatching | gps/batching/BatchingAdapter.cpp:925-1029 | Whether and for what the engine is started again, by remaining distance, interval and dropped flags |
| Trips.BatchingAdapter.StartTripBatchingMultiplex | gps/batching/BatchingAdapter.cpp:750-858 | The first trip, or another one with or without a forced restart |
| Trips.BatchingAdapter.StopTripBatchingMultiplex | gps/batching/BatchingAdapter.cpp:861-909 | The session goes, and the others are restarted as needed |
| Trips.BatchingAdapter.RestartSessions | gps/batching/BatchingAdapter.cpp:193-246 | The engine is started anew, the sessions stay as they are |
| NiRuns.EveryRunConserves | gps/gnss/GnssAdapter.cpp:4533-4679 | On every run every request admitted to a slot has left it exactly once, handed to the engine or freed, or is still there |
| NiRuns.OccupiedIsKept | gps/gnss/GnssAdapter.cpp:4626-4652 | An occupied slot keeps its request and id until its thread takes them out |
| NiRuns.ShownOnlyWhenFree | gps/gnss/GnssAdapter.cpp:4626-4645 | No request is shown while an emergency waits, and none but an emergency while any waits |
| NiRuns.EveryRunIsSound | gps/gnss/GnssAdapter.cpp:4533-4592 | A pending response means an occupied slot, and an occupied slot has a thread |
| NiRuns.EveryRunRefines | gps/gnss/GnssAdapter.cpp:3423-3462 | The slots refine a life that starts unanswered with each request: what an earlier one left in the response and id fields is never seen |
| NiRuns.StepRefines | gps/gnss/GnssAdapter.cpp:4533-4679 | The same, for each event |
| NiRuns.EveryAnswerWasPosted | gps/gnss/GnssAdapter.cpp:4548-4589 | What the engine is told is NO_RESPONSE on a time-out, else the response posted to that very request with none posted after it; freed only if that was to ignore it |
| NiRuns.TimeOutEmpties | gps/gnss/GnssAdapter.cpp:4548-4580 | After a time-out the slot is free |
| NiRuns.AcceptedEmergencyIgnores | gps/gnss/GnssAdapter.cpp:3433-3441 | A request over which an emergency is accepted is to be ignored from then on |
| NiRuns.IgnoreStepIff | gps/gnss/GnssAdapter.cpp:3423-3462 | Of every event: a request to be ignored stays so or is freed if and only if the event is not another answer of the user to it, nor its time-out |
| NiRuns.IgnoredUntilFreed | gps/gnss/GnssAdapter.cpp:4548-4580 | Over every run: unless one of those comes first, the request is still to be ignored, or has been freed |
| NiRuns.OverrideEndsIgnore | gps/gnss/GnssAdapter.cpp:3423-3462 | The first of those ends that |
| NiRuns.LateAnswerWins | gps/gnss/GnssAdapter.cpp:3433-3455 | A run on which a late answer of the user overrides it and is handed over |
| NiRuns.NoDenialInEmergency | gps/gnss/GnssAdapter.cpp:4429-4468 | In an emergency no request is denied on arrival |
| NiRequests.RequestIsAnswered | gps/gnss/GnssAdapter.cpp:4429-4468 | Of every request in every state: exactly when it is denied, accepted, shown, or refused for want of a slot, told from request, configuration and slots |
| NiRequests.RequestTakesSlot | gps/gnss/GnssAdapter.cpp:4595-4679 | Both slots after a request: shown, it waits unanswered under a new id; accepted for want of a user, the other is ignored; else nothing changes |
| NiRequests.AnswerReaches | gps/gnss/GnssAdapter.cpp:3423-3462 | An answer of the user reaches exactly the waiting request with its id, the emergency first, and accepting that has the other ignored |
| NiRequests.ThreadsBalance | gps/gnss/GnssAdapter.cpp:4548-4680 | On every run each request shown in a slot starts a thread, which returns once: as many are waiting as were shown and have not returned |
| NiRequests.PlainRequestIsShown | gps/gnss/GnssAdapter.cpp:4429-4468 | A request that is shown to the user |
| NiSlots.GnssAdapter.GnssNiResponse | gps/gnss/GnssAdapter.cpp:3423-3462 | Both slots after a user response |
| NiSlots.GnssAdapter.RequestNiNotifyEvent | gps/gnss/GnssAdapter.cpp:4429-4468 | Slots and what is sent after a request, by configuration and emergency |
| NiSlots.GnssAdapter.RequestNiNotify | gps/gnss/GnssAdapter.cpp:4595-4679 | The same once the user is to be asked, or there is none to ask |
| NiSlots.GnssAdapter.NiThreadProc | gps/gnss/GnssAdapter.cpp:4548-4592 | Slots and what is sent when a thread returns |
| SvMask.RoundTrip | gps/gnss/GnssAdapter.cpp:1739-1929 | Mask to list to mask is the identity, for all 64-bit masks of all six constellations, SBAS in two ranges and all ones in short form included |
| SvMask.ToConfigBits | gps/gnss/GnssAdapter.cpp:1757-1819 | A bit is set exactly if it was, or a source of the list blocks its satellite |
| SvMask.OrderDoesNotMatter | gps/gnss/GnssAdapter.cpp:1757-1819 | Lists with the same sources give the same masks, in whatever order and however often |
| SvMask.FromConfigBlocks | gps/gnss/GnssAdapter.cpp:1843-1888 | The list of a configuration blocks exactly the satellites of its bits, with ids that can be converted back |
| SvMask.SbasBits | gps/gnss/GnssAdapter.cpp:1868-1881 | The shifts cut out exactly the bits below 39, and those from 39 on |
| SvMask.ConvertToGnssSvIdConfig | gps/gnss/GnssAdapter.cpp:1739-1841 | The masks after the loop, and true exactly for an empty list or a mask that is not empty |
| SvMask.ConvertGnssSvIdMaskToList | gps/gnss/GnssAdapter.cpp:1891-1929 | The list, by the loop that shifts the mask out |
| Estimator.EveryResult | gps/core/LocApiBase.cpp:934-984 | What every call of every run returns: after the sixth steady fix k, boot time at k less the initial travel time plus the difference of the data times, whatever the wall clock and untrusted or failed calls do |
| Estimator.FieldsMean | gps/core/LocApiBase.cpp:961-977 | What the fields hold after any calls: the clock differences telescope to the calibration |
| Estimator.DifferenceWaits | gps/core/LocApiBase.cpp:956-977 | Until the sixth of a steady row, and on fixes not trusted, the difference of the clocks stays what it was |
| Estimator.AnchorIsSixth | gps/core/LocApiBase.cpp:956-977 | The calibration is at a usable fix since which there was neither jump nor reset |
| Estimator.SixthIsAnchor | gps/core/LocApiBase.cpp:956-977 | And any such fix that is the sixth of a steady row is where it is |
| Estimator.ElapsedRealtimeEstimator.GetElapsedRealtimeEstimateNanos | gps/core/LocApiBase.cpp:934-984 | Fields and result of one call |
| Estimator.ElapsedRealtimeEstimator.ResetState | gps/core/LocApiBase.cpp:986-992 | All fields but the initial travel time start over |
| Adapters.EveryRunRefinesSet | gps/core/LocApiBase.cpp:231-276 | After every run of registrations and removals the array holds, without duplicates, exactly a set of at most ten adapters |
| Adapters.RemovedFacts | gps/core/LocApiBase.cpp:242-276 | Removing takes out exactly that adapter; the one moved into its place stays |
| Adapters.PlacesHold | gps/core/LocApiBase.cpp:231-276 | In the array of ten an adapter has exactly one place if it is registered and none if not, and the empty places come last |
| Adapters.WantedBySome | gps/core/LocApiBase.cpp:168-175 | A bit is in the union of masks exactly if a registered adapter wants it |
| Adapters.LocApiBase.AddAdapter | gps/core/LocApiBase.cpp:231-240 | Appended if new and there is room, with an Open message then and only then |
| Adapters.LocApiBase.RemoveAdapter | gps/core/LocApiBase.cpp:242-276 | Swap removal in an array without holes; Close exactly when the last adapter goes |
| Adapters.LocApiBase.GetEvtMask | gps/core/LocApiBase.cpp:168-175 | The union of all registered masks, less the excluded bits |
| Adapters.LocApiBase.ToAllAdapters | gps/core/LocApiBase.h:101-104 | Reaches every registered adapter exactly once |
| Adapters.LocApiBase.ToFirstHandlingAdapter | gps/core/LocApiBase.h:106-107 | Reaches adapters in order up to the first that handles the call |
| NetworkTable.EveryRunRefinesSet | gps/core/SystemStatus.h:531-604 | On every run of reports: the table has no holes and no duplicates, holds exactly a set that connect adds to and disconnect takes the exact entry from, and at most five reports are kept |
| NetworkTable.ReportIsSetStep | gps/core/SystemStatus.cpp:1384-1401 | Every report but the first does to the table what it does to the set |
| NetworkTable.ConnectAdds | gps/core/SystemStatus.h:545-561 | Connecting adds the network if its handle is new and there is room, and nothing else |
| NetworkTable.DisconnectRemoves | gps/core/SystemStatus.h:563-595 | Disconnecting removes exactly the entry of that type and handle; all others survive the swap |
| NetworkTable.FirstReportIsExactIff | gps/core/SystemStatus.h:511-518 | The first report leaves what it should if and only if it is of a connection, stored under the type it names |
| NetworkTable.FirstDisconnectionIsKept | gps/core/SystemStatus.h:511-518 | A first report of a disconnection, whose network stays in the table as if connected |
| NetworkReports.EveryRunKeepsLast | gps/core/SystemStatus.cpp:1384-1402 | On every run the list kept is the last five of all states the reports have led to, each collated with the one before |
| NetworkReports.NeighboursDiffer | gps/core/SystemStatus.cpp:1384-1402 | Each report in the list differs from the one before it |
| NetworkTypes.ReportCarries | gps/core/SystemStatus.h:531-604 | What every report but the first makes of the mask of types and of the access point name, told from the networks in the table |
| NetworkTypes.MaskFitsIff | gps/core/SystemStatus.h:531-604 | The mask goes on being that of the connected networks if and only if, of a connection, its type is in the table then; of a disconnection, nothing of the type is left or nothing of another |
| NetworkTypes.ForgetsOthers | gps/core/SystemStatus.h:563-602 | A disconnection of which another of the type is left: the mask keeps nothing but that type |
| NetworkTypes.DisconnectionForgetsOthers | gps/core/SystemStatus.h:563-602 | A run on which it forgets a network that is still connected |
| NetworkTypes.NameIsKept | gps/core/SystemStatus.h:537-541 | On every run the name of a mobile network stays until the next report of one |
| NetworkTable.SystemStatusNetworkInfo.Collate | gps/core/SystemStatus.h:531-604 | The report after collation, table updated in place |
| NetworkTable.SystemStatusNetworkInfo.AddHandle | gps/core/SystemStatus.h:545-561 | The loop that stops at a duplicate or at the first free place |
| NetworkTable.SystemStatusNetworkInfo.RemoveHandle | gps/core/SystemStatus.h:563-602 | The loop that finds entry, last entry and others of the type, and the swap |
| NetworkTable.NetworkInfoReports.SetItemInReport | gps/core/SystemStatus.cpp:1384-1401 | The reports kept, and whether anything changed |
| Lockout.PermanentIffTwentyFailures | aidl/fingerprint/LockoutTracker.cpp:14-43 | On every run the lockout is permanent exactly from twenty failures on since the last success or reset, timed only from five to nineteen, and at most one timer is pending |
| Lockout.PermanentIsTold | aidl/fingerprint/Session.cpp:269-285 | A permanent lockout is told on every attempt and said to be cleared only by a reset |
| Lockout.TimeLeftIsRest | aidl/fingerprint/LockoutTracker.cpp:45-57 | While a timed lockout lasts, the time told is what is left of it, to the millisecond |
| Lockout.TimeLeftElse | aidl/fingerprint/LockoutTracker.cpp:45-57 | With the clock set back to before the lockout, it is the whole of it and the time until it begins; without one, nothing |
| Lockout.AttemptIsTold | aidl/fingerprint/Session.cpp:269-285 | On every run in time: an attempt is told of a lockout exactly if it is locked out then, of a timed one how much of its ten seconds is left, rounded up to the millisecond; a timer then runs |
| Lockout.TimerIsSet | aidl/fingerprint/Session.cpp:277-300 | The timer an attempt starts is due when the lockout ends, and less than a millisecond later |
| Lockout.ModeAfter | aidl/fingerprint/LockoutTracker.cpp:14-43 | Of every event: the mode after it |
| Lockout.StartAfter | aidl/fingerprint/LockoutTracker.cpp:22-32 | A lockout keeps the start of the failure it began with |
| Lockout.LockoutLasts | aidl/fingerprint/Session.cpp:269-307 | On every run in time: a timed lockout whose pending timer is not due before its end, or is aborted, lasts its ten seconds, unless there is a success or a reset or it becomes permanent |
| Lockout.LockoutLastsIff | aidl/fingerprint/Session.cpp:269-307 | A lockout that has just begun lasts its ten seconds on every run in time without a success or a reset if and only if it did not begin under an old timer, due before its end and not aborted |
| Lockout.ResetSavesNextLockout | aidl/fingerprint/Session.cpp:119-124 | A run on which it begins under an old timer that a reset has aborted, and lasts |
| Lockout.EndsEarlyIff | aidl/fingerprint/Session.cpp:302-353 | Of every event before its time: it ends a timed lockout if and only if it is a success, a reset, or a pending timer that is not aborted |
| Lockout.TimerFitsIff | aidl/fingerprint/Session.cpp:277-300 | Of every event: the timer goes on to fit if and only if no lockout begins under an old timer that is due before its end |
| Lockout.CutShortIff | aidl/fingerprint/Session.cpp:277-307 | A lockout that has just begun can be ended by a timer before its time if and only if it began under such a timer, not aborted |
| Lockout.OldTimerCutsShort | aidl/fingerprint/Session.cpp:344-353 | A run on which a success leaves the timer, and it ends the next lockout early |
| Lockout.ExpiryEndsNothingIff | aidl/fingerprint/Session.cpp:302-307 | A timer that expires under a timed lockout ends nothing if and only if there was an abort since the last timer expired, with or without a timer then |
| Lockout.AbortedIff | aidl/fingerprint/Session.cpp:119-124 | The mark of an abort is there exactly if there was one since a timer last expired |
| Lockout.AbortedWithoutTimer | aidl/fingerprint/Session.cpp:269-276 | An abort comes to be without a timer exactly by an attempt under a permanent lockout |
| Lockout.AbortOutlivesReset | aidl/fingerprint/Session.cpp:119-124 | A run in which such an abort outlives the reset and the next timer ends nothing |
| Lockout.LockoutTracker.Reset | aidl/fingerprint/LockoutTracker.cpp:14-20 | The lockout is over, the count kept or cleared |
| Lockout.LockoutTracker.AddFailedAttempt | aidl/fingerprint/LockoutTracker.cpp:22-32 | Count, mode and start after one more failure |
| Lockout.LockoutTracker.GetMode | aidl/fingerprint/LockoutTracker.cpp:34-43 | The mode, a timed lockout over by the clock having ended |
| Lockout.LockoutTracker.GetLockoutTimeLeft | aidl/fingerprint/LockoutTracker.cpp:45-57 | What is left of ten seconds from the start, to the millisecond and never too little; 0 without a start |
| Lockout.Session.CheckSensorLockout | aidl/fingerprint/Session.cpp:269-285 | State and callbacks of a check |
| Lockout.Session.LockoutTimerExpired | aidl/fingerprint/Session.cpp:302-307 | State and callbacks of an expiry |
| Lockout.Session.ResetLockout | aidl/fingerprint/Session.cpp:119-124 | State and callbacks of a reset |
| Lockout.Session.NotifyAuthenticated | aidl/fingerprint/Session.cpp:338-353 | State and callbacks of a success or a failure |
| Lockout.Session.StartAuthentication | aidl/fingerprint/Session.cpp:63-74 | State and callbacks of an attempt |
| Enumeration.EnumerationsNeverMix | aidl/fingerprint/Session.cpp:354-366 | However often fingers are enumerated, each enumeration gives its own report |
| Enumeration.ReplayMakesOneReport | aidl/fingerprint/Session.cpp:354-366 | With nothing collected, a replay gives one report of the non-zero ids in order and leaves nothing |
| Enumeration.NothingIsLost | aidl/fingerprint/Session.cpp:354-366 | Whatever messages come, no id is lost, doubled or reordered, and each last message makes a report |
| Enumeration.OppoDevice.Enumerate | aidl/fingerprint/OppoDevice.cpp:195-210 | The messages of the service, or if it stays quiet those of a replay |
| Enumeration.RbsEnumerate | aidl/fingerprint/RbsDevice.cpp:179-203 | One message per finger, or one for none, if there is a group and the answer is good |
| Enumeration.EnumerationSession.Notify | aidl/fingerprint/Session.cpp:354-366 | What is collected and reported with one message |
| Geofence.EveryRunAgrees | gps/geofence/GeofenceAdapter.cpp:644-686 | On every run in which the engine gives no id that is in use: every key leads to a fence that carries it, and no two fences carry the same key |
| Geofence.StepAgreesIff | gps/geofence/GeofenceAdapter.cpp:644-661 | Of every event: it keeps the maps in agreement if and only if the engine gives no id that is in use by a fence with a key, and none twice in a restart |
| Geofence.RestartAgreesIff | gps/geofence/GeofenceAdapter.cpp:141-176 | A restart keeps them in agreement if and only if the engine gives no id twice |
| Geofence.ChangeIsLocal | gps/geofence/GeofenceAdapter.cpp:688-724 | A pause, resumption or modification changes the one fence of its key, and no other |
| Geofence.AdditionIsExact | gps/geofence/GeofenceAdapter.cpp:247-260 | An added fence has the key, options and place it was given and is not paused; a refused one changes nothing, and none changes another |
| Geofence.RemovalIsExact | gps/geofence/GeofenceAdapter.cpp:340-370 | A granted removal takes out exactly the key and its fence, a refused one nothing |
| Geofence.ClientGoneIsExact | gps/geofence/GeofenceAdapter.cpp:50-78 | A client that goes takes all its keys with it, and exactly those fences the engine removes; others lose nothing |
| Geofence.AddedThenRemoved | gps/geofence/GeofenceAdapter.cpp:340-370 | Removing what has just been added leaves everything as it was |
| Geofence.ReusedIdDisagrees | gps/geofence/GeofenceAdapter.cpp:644-661 | A run on which the engine gives an id that is in use, and a key leads to the fence of another |
| Geofence.OrphanedIff | gps/geofence/GeofenceAdapter.cpp:50-78 | Of every event: a client gets a fence without a key if and only if it goes and the engine refuses to remove one of its |
| Geofence.EveryRunOrphansIff | gps/geofence/GeofenceAdapter.cpp:50-78 | On every run, whatever orphans others have: a client has none at any time up to an event if and only if it never went with a removal refused |
| Geofence.RestartKeepsFences | gps/geofence/GeofenceAdapter.cpp:141-176 | Without orphans, a restart whose adds succeed keeps the keys and every fence but for its pause |
| Geofence.PausesAreExact | gps/geofence/GeofenceAdapter.cpp:141-176 | A restart asks to pause exactly the fences that were paused, under their new ids |
| Geofence.SecondRestartPausesNothing | gps/geofence/GeofenceAdapter.cpp:644-661 | But a second restart pauses none: the flag is saved as false |
| Geofence.RestartRevivesIff | gps/geofence/GeofenceAdapter.cpp:141-176 | Of every fence, orphan or not: its client has its key after a restart if and only if the engine has added it |
| Geofence.BreachIsExact | gps/geofence/GeofenceAdapter.cpp:787-817 | A client is told of exactly its own fences among those reported, by its own ids, and of its orphans |
| Geofence.BreachOfClientIsExact | gps/geofence/GeofenceAdapter.cpp:787-817 | So a client without orphans is told of exactly its own, whatever has become of the fences of others |
| Geofence.GoneClientIsTold | gps/geofence/GeofenceAdapter.cpp:50-78 | A run on which a client that is gone is told of a fence the engine refused to remove, and gets its key back with a restart |
| Geofence.GeofenceAdapter.SaveGeofenceItem | gps/geofence/GeofenceAdapter.cpp:644-661 | Both maps after a fence is saved |
| Geofence.GeofenceAdapter.RemoveGeofenceItem | gps/geofence/GeofenceAdapter.cpp:663-686 | Both maps after a fence is removed |
| Geofence.GeofenceAdapter.AddGeofence | gps/geofence/GeofenceAdapter.cpp:247-260 | After an add and its answer |
| Geofence.GeofenceAdapter.RemoveGeofence | gps/geofence/GeofenceAdapter.cpp:340-370 | After a removal and its answer |
| Geofence.GeofenceAdapter.PauseGeofence | gps/geofence/GeofenceAdapter.cpp:688-698 | After a pause and its answer |
| Geofence.GeofenceAdapter.ResumeGeofence | gps/geofence/GeofenceAdapter.cpp:700-710 | After resuming and its answer |
| Geofence.GeofenceAdapter.ModifyGeofence | gps/geofence/GeofenceAdapter.cpp:712-724 | After new options and the answer |
| Geofence.GeofenceAdapter.StopClientSessions | gps/geofence/GeofenceAdapter.cpp:50-78 | After a client goes, by the loop that erases while it iterates |
| Geofence.GeofenceAdapter.RestartGeofences | gps/geofence/GeofenceAdapter.cpp:141-176 | After the engine comes up, and the pauses asked for |
| Geofence.GeofenceAdapter.GeofenceBreach | gps/geofence/GeofenceAdapter.cpp:787-817 | The ids one client is told |
| PathOrder.CompareIsKeyOrderIff | reorder-libs.py:21-52 | The comparator is lexicographic order on a key with a maximal sentinel after the directory if and only if neither line, without slashes, has the other deep under it |
| PathOrder.PathsAgree | reorder-libs.py:35-52 | On paths it always is: same directory, subdirectory and other directory |
| PathOrder.BareAgrees | reorder-libs.py:35-52 | Between a line without slashes and a path, and which way round it is where it is not |
| PathSort.CompareSwap | reorder-libs.py:21-52 | The other way round gives the opposite, on all lines |
| PathText.CompareByText | reorder-libs.py:21-52 | Of any two lines, told from their text: behind one leading dash at most, a line in a directory below the other's comes first, else text order; an empty line before all |
| PathText.ReadOneWay | reorder-libs.py:26-36 | Every line has exactly one such reading, and one directory |
| PathText.DashIsIgnored | reorder-libs.py:26-29 | A dash in front makes no difference to a line that has none |
| PathText.SecondDashCounts | reorder-libs.py:26-29 | A second one does |
| PathSort.CompareZero | reorder-libs.py:28-33 | Equal exactly for equal lines, or where one is the other behind a dash |
| PathSort.TransitiveIff | reorder-libs.py:21-52 | The comparator is transitive on a section if and only if no line of it comes, in key order, between two of which one is deep under the other |
| PathSort.CompareTransitive | reorder-libs.py:21-52 | On such lines it is transitive, and strictly so |
| PathSort.CompareIsCyclic | reorder-libs.py:35-49 | Three lines, otherwise, of which each comes before the next in a circle |
| PathSort.CompareIsKeyOrderTurned | reorder-libs.py:35-49 | On all lines the comparator is key order, turned round where one line is deep under the other |
| PathSort.SortSorts | reorder-libs.py:63-66 | On such lines sorting orders them and rearranges them stably |
| PathSort.OrderedRearrangementIsUnique | reorder-libs.py:63-66 | There is only one such arrangement, so that any stable sort gives it |
| PathSort.ResortingIsIdentity | reorder-libs.py:63-66 | Sorting again changes nothing |
| PathSort.OrderSections | reorder-libs.py:63-66 | Every section is ordered by itself and stays where it is |
| NmeaFields.FieldsAreTheText | gps/core/SystemStatus.cpp:93-121 | The fields, a comma after each, are the text up to its last comma, the first star being one; no field has a comma |
| NmeaFields.FieldsRoundTrip | gps/core/SystemStatus.cpp:93-121 | Fields without commas and stars, put together and taken apart again, are the same, if no comma follows the star |
| NmeaFields.TokensOfTerminated | gps/core/SystemStatus.cpp:109-119 | The only fields with that text are the ones found |
| NmeaFields.Tokenize | gps/core/SystemStatus.cpp:93-121 | The loop ends, with exactly those fields |
| NmeaFields.ParsePqwp7 | gps/core/SystemStatus.cpp:705-725 | For any number of fields: every read is within them, and what each entry is |

## Left out

- AGPS: name, bearer and type of an access point in the callbacks, which the machine passes through.
- AGPS: a report for a type that has no machine, which the source dereferences unchecked; the methods
  require the machine, the runs pass over such a report.
- AGPS: subscribers freed by one function and read by its caller; objects here outlive their use.
- SetMap.RemoveAndReturnInterset: visits each element once, although the source goes on with an
  iterator to an element it has erased.
- Observer: the requests for a connection to the backhaul, a counter per client like that of `ActionRequests`.
- Observer: items that the factory cannot create.
- Tracking: answers to clients; the one answer of the engine to a command is a parameter, and one that
  comes after the next command is not modelled.
- Tracking: commands put aside until the capabilities of the engine are known; they are handled
  like new ones later.
- TrackingPower.StepIsStrongIff: without nHz clients, for which the engine is not asked again once it
  runs at 100 ms; and with sessions that all name a power mode, since the loops forget modes before
  one that names none (`TrackingSessions.MuxPowerIsLeast`).
- TrackingPace.StepIsExactIff: without nHz clients; with them the interval is at most 100 ms, as
  `TrackingRuns.StepServedIff` says.
- Tracking: the mode field of the options and the position mode sent to the engine hub.
- Trips: the batching sessions beside the trips, and the event bits that depend on both.
- TripTiming.ReportInTimeIff: below 2^32 units of distance, beyond which the 32 bits of the
  program cannot tell; `TripPunctuality.StepPunctualIff` has no such limit.
- Trips: the sweep reads a session it has erased; the values are taken first here.
- NI: two threads of one slot at the same time between unlocking and clearing the id; a thread's end is one step.
- NiRuns.StepRefines: a request without data leaves its slot unoccupied with a thread waiting, which the
  refinement has as no request at all.
- SvMask.ToConfigBits: SBAS ids 208 to 246 are required not to occur, because the source shifts a
  64-bit word by 64 or more for them, which has no meaning.
- Estimator: numbers are not limited to 64 bits; the time from the hardware counter is floating point.
- Adapters: messages to the engine's thread are sent, and what it does with them is not modelled.
- Geofence: a failure to allocate, and arrays that are null.
- Geofence.GeofenceAdapter.RestartGeofences: fences are added again in any given order, of which that of
  the map is one.
- Lockout: a count of failures beyond 31 bits; whether the lockout's time is over by the clock is free,
  but for not being so too early where time is spoken of.
- PathSort.SortSorts: Python's sort is an insertion sort here; on lines on which the comparator
  is not transitive its result is not determined by the comparator, and nothing is claimed.
- PathSort: splitting the file into sections and lines, and stripping the lines.
- NmeaFields: what the fields mean as numbers, and the other parsers, which read fixed positions.
- Not modelled at all: the ODCPI request and its timer, sentence generation, power, camera, start-up
  scripts, transport and logging, and everything that copies fields.
