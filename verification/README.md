# HedgieMate notifier: a verified model

The notifier listens to TeslaMate's MQTT topics, keeps one record per car, and turns changes into
push events and Live Activity updates for a relay. This project models the whole path in Dafny and
proves what the program promises about it: no event is lost, none is sent twice, the events tell
what the car does, tickers never leak, and a relay can tune the notifier but not break it.

The model has two levels.

- **Objects.** `CarState`, `Manager`, `EventEmitter` with its `AfterFunc` timers, `Store`,
  `CarNameCache`, `Client` and, for the wiring, `Notifier` are classes whose methods update fields,
  maps, lists and timers in place, with the loops the program has. Each mutex-protected input of the
  manager is one method.
- **Values.** The same behaviour as functions: `Engine` for one car, `Debounce` for the emitter's
  protocol (a timer is armed, then its callback waits for the lock, then it has sent), `World` for
  everything together: any interleaving of messages, goroutines waking up, debounce timers, ticks,
  configuration deliveries, reconnects and the passing of time. What is promised is proved about
  these, for every run.

The methods of `Manager` are proved to take exactly the steps of `World` (`Steps`, `StepsIsTake`), and
`Notifier`, which routes the callbacks as `main.go` and `mqtt/client.go` do, is proved to be in a
state of some run after any calls in any order. So the theorems about runs hold of the objects in
memory; `Notifier.NamesOnDisk`, `Notifier.TickersInMemory` and `Notifier.NothingIsLost` spell three
of them out.

What an input must lead to is also stated without the functions that compute it: as tables and
formulas over the messages received so far, with every constant written out (`Decisions.CalledFor`,
`Memory.Knowledge`, `Payloads.Tells`, `Tuning.KnobsMean`, `Handover.OnTheSecond`), and proved of every
history.

Two conventions. Every lemma switches automatic induction off, so inductions are written out. And
some predicates over the heap (`InStep`, `Valid` and others of `Manager`) are stated under a guard
`Look(...)`: methods pass them on whole, and they unfold only where a proof asserts that `Look`.

| file | what it models |
|---|---|
| `GoValues.dfy`, `Models.dfy` | int64, `strconv`, event types, payloads, the debounce key |
| `Topics.dfy` | `mqtt/topics.go`: topic printer, parser, known fields |
| `RemoteConfig.dfy`, `Tuning.dfy` | `remotecfg/store.go` and the manager's accessors over it |
| `Engine.dfy`, `CarState.dfy`, `Manager.dfy` | `state/machine.go` on values and as objects |
| `Debounce.dfy`, `EventEmitter.dfy` | `state/events.go` as a protocol and as objects |
| `NameCache.dfy`, `World.dfy` | `state/namecache.go`; all cars and goroutines together |
| `Deferral.dfy`, `Handover.dfy` | deferred events: conservation, waiting, the 30 s bound, no loss |
| `Replay.dfy`, `Battery.dfy`, `Redelivery.dfy` | what events mean, hysteresis, repeated messages |
| `Memory.dfy`, `Decisions.dfy`, `Payloads.dfy` | what a car remembers, which events a message calls for, what payloads say, each read off the messages alone |
| `Tickers.dfy`, `Pace.dfy`, `RawFields.dfy` | ticker life cycle, pacing, the raw field map |
| `Independence.dfy`, `Relay.dfy`, `Notifier.dfy` | cars apart, the retry loop, the program as a whole |

Where code and documentation disagree the model follows the code: the debounce window is the 1 s of
state/events.go:14, not the 5 s of README.md:158.

Four promises do not hold without a condition. For each the exact condition is proved (if and only
if), with a concrete input on the other side of it.

- *A ready event never waits.* It does wait after a first `battery_level` that does not parse:
  `Deferral.NoReadyEventWaits`, `Deferral.StrandedEvent`.
- *Duration is a clamp.* Its nanoseconds wrap above 9223372036 s: `RemoteConfig.DurationExact`,
  `RemoteConfig.DurationWraps`.
- *Re-delivery is silent.* It can raise battery alerts, and nothing else, and does so exactly if a
  level is repeated that was never put through the threshold check, as the first one is not:
  `Redelivery.RedeliveryIsSilent`, `Redelivery.RepeatedAlerts`, `Redelivery.FirstReadingAlertsOnRepeat`.
- *One send per burst.* Payloads are dropped within their bursts and only there exactly if each emit
  found a timer to stop just when the last emit's window was still open:
  `Debounce.OneSendPerBurst`. A callback that lost the race for the lock deletes a newer timer's entry
  and breaks that guard: `Debounce.RaceSendsBoth`. Prompt callbacks keep it
  (`Debounce.PromptRunsAreTimely`), and then the times are right as well (`Debounce.RefinesReference`).

## Model

| member | source | states |
|---|---|---|
| Handover.NoSilentLoss | state/machine.go:703-775 | end to end, in every run: once the goroutines and timers of a car and type are done, each event raised for them became exactly one debounce timer, which was sent or dropped for a later one; the last one was sent, none twice |
| Handover.EventsAreConserved | state/machine.go:703-775 | in every run, for every car and type: raised = handed to the emitter + still pending |
| Handover.EveryEntryIsCovered | state/machine.go:703-720 | in any firing order, a car never has more pending entries of a type than sleeping goroutines for them |
| Handover.OwnTimerOutstanding | state/machine.go:746-775 | if goroutines of a type wake in deadline order, every pending entry's own goroutine is still asleep, although stale ones may take newer entries |
| Handover.TimersInOrder | state/machine.go:722-775 | then the pending entries are, in order, the latest of the sleeping goroutines: flush and removal keep first-in first-out order |
| Handover.PendingAtMostThirtySeconds | state/machine.go:703-775 | with goroutines that wake on time, every pending entry is due within the next 30 s: nothing stays pending longer |
| Handover.PunctualIsOrdered | state/machine.go:746-747 | goroutines that wake on time wake in deadline order |
| Handover.DebouncerTrace | state/events.go:35-57 | in every run of the program the debouncer makes a run of the debounce protocol without Stop, and one with prompt callbacks if no due callback was overtaken by another callback, by time or by a hand-over |
| Handover.BurstsAreSentOnce | state/events.go:14-57 | in every run of the program with prompt callbacks, at every moment, for every car and type: what went out and what the newest timer is still to send is one payload per burst of hand-overs, its last, 1 s after it |
| Handover.EventsApart | state/events.go:14-57 | and two sends of one car and type are at least 1_000_000_000 ns apart |
| Handover.TimersAreHandOvers | state/events.go:35-56 | in every run the debounce timers of a car and type are its hand-overs, in order, each from the moment of the hand-over |
| Handover.SentAfterOneSecond | state/events.go:14-57 | in every run with prompt callbacks, in nanoseconds: a hand-over with no other of its car and type in the 1_000_000_000 after it is sent exactly then; one that is followed inside them is never sent |
| Debounce.AtMostOnce | state/events.go:35-57 | under every interleaving, even across Stop, each timer sends at most once, and the sends are exactly the timers marked sent |
| Debounce.NewestNeverDropped | state/events.go:35-57 | absent Stop, in every race: the map entry is the key's newest timer, a payload is dropped only if a later one was emitted under its key, and once a key's timers have run out its newest has been sent |
| Debounce.OwnKeysOnly | state/events.go:35-36 | in every run, even across Stop, every timer carries a payload of its own key |
| Debounce.OneSendPerBurst | state/events.go:41-56 | in every run without Stop, under every race and delay, for every key: a payload is dropped exactly if the next emit came inside its window, if and only if every emit of the key found a timer to stop exactly when the last emit's window was still open |
| Debounce.TimelyPayloads | state/events.go:41-56 | then, once the key's timers have run out, its sends carry the last payload of each burst, in order, however late the callbacks were |
| Debounce.PromptRunsAreTimely | state/events.go:41-56 | callbacks that run at their deadlines are enough for that guard |
| Debounce.RefinesReference | state/events.go:14-57 | with callbacks that run at their deadlines, at every moment and for every key: what it has sent, and the one payload its newest timer is still to send, are one send per maximal burst with gaps under 1 s, at last emit + 1 s, with the last payload |
| Debounce.AtRestAllIsSent | state/events.go:14-57 | so once the key's newest timer has run out, all of them have been sent, whatever other keys do |
| Debounce.SendsApart | state/events.go:14-57 | then two sends of one key are at least 1 s apart |
| Debounce.RaceSendsBoth | state/events.go:46-49 | a concrete interleaving in which a stale callback breaks the guard, and both of two emits inside one window go out |
| Debounce.StopTimer | state/events.go:41-43 | only an armed timer is cancelled; its payload and all other timers stay as they are |
| Events.EventEmitter.constructor | state/events.go:25-31 | no timers, in the protocol's initial state |
| Events.EventEmitter.Emit | state/events.go:35-57 | the real map and timers move as the protocol's Emit does |
| Events.EventEmitter.StopExisting | state/events.go:41-43 | the key's present timer is stopped, all others are untouched |
| Events.EventEmitter.Install | state/events.go:47-56 | a new armed timer becomes the key's entry |
| Events.EventEmitter.Expire | state/events.go:47-48 | a due timer's callback starts and waits for the lock |
| Events.EventEmitter.Callback | state/events.go:47-55 | the callback deletes its key's entry, whoever owns it, and sends its own payload |
| Events.EventEmitter.Stop | state/events.go:71-79 | all entries go, armed timers are cancelled, timers whose callback has started are not |
| Events.AfterFunc.Stop | state/events.go:42 | stopping a timer has no effect once its callback has started |
| Models.KeyInjective | state/events.go:36 | a debounce key determines its car and event type, because no event type contains a colon, whatever the car ID contains |
| Deferral.NoReadyEventWaits | state/machine.go:678-742 | between inputs no pending event is ready, in every life, exactly when no unparsable first battery level strands one |
| Deferral.ReadyWaitsStep | state/machine.go:305-318 | the same for one input: the only input that leaves a ready event waiting is that one |
| Deferral.ParsedLevelsStrandNothing | state/machine.go:305-310 | battery levels that parse strand nothing |
| Deferral.EnrichedHoldsUpdatesOnly | state/machine.go:686-694 | in every life that strands nothing, an enriched car holds software updates only, and only while the version is unknown |
| Deferral.StrandedEvent | state/machine.go:305-310 | a concrete history that leaves a ready event waiting |
| Deferral.InputBalanced | state/machine.go:703-775 | one input: raised + pending before = handed over + pending after, per type, and only this car's payloads are handed over |
| Deferral.InputDues | state/machine.go:703-775 | one input: a message appends its entries, due in exactly 30 s, and may then clear all of a type; a wake-up takes the oldest entry of its type |
| Deferral.FlushSifts | state/machine.go:722-742 | a flush hands over exactly the ready events, oldest first, and keeps the others in order |
| Deferral.DefersExactly | state/machine.go:678-716 | an event waits 30 s exactly if it is no charging update and the car lacks a name or a battery level, or, for a software update, its version |
| Replay.EventStreamIsFaithful | state/machine.go:275-351 | after every history, replaying the raised events from what each field's first message silently set tells whether the car is driving, sleeping, charging and plugged in, and its exact geofence |
| Replay.StrictAlternation | state/machine.go:457-475 | drive_started and drive_ended strictly alternate, and so do the charger events |
| Replay.SleepBetweenWakes | state/machine.go:464-474 | between two vehicle_woke events there is a falling-asleep or asleep event |
| Replay.MessageInitializes | state/machine.go:270-272 | a message initialises exactly its own field |
| Memory.CarRemembers | state/machine.go:263-455 | after every history the record holds, field by field, the last value received that could be read; the previous geofence is the one received before the last |
| Decisions.EveryEventIsCalledFor | state/machine.go:275-527 | in every history every input raises exactly the events that a table over the earlier messages, with all values written out, calls for, in order, noted at the place of the last geofence message |
| Decisions.RaisesWhatIsCalledFor | state/machine.go:275-527 | so each event type is raised as often as that table lists it |
| Decisions.FirstChargingState | state/machine.go:284-299 | the first charging_state opens the charging ticker exactly if it is "Charging", raises charging_started exactly if also there was no connection or one at least 90 s ago, and raises and switches nothing else |
| Payloads.PayloadsAreTrue | state/machine.go:1214-1271 | every payload of every life, handed over or sent as an update, tells at its moment: car, time, name by cases, the last values of all fields, the place before, the way and time since the drive was entered, the raw fields, and no location |
| Payloads.InputPayloadsAreTrue | state/machine.go:579-656 | the same for one input; an update of a kind is of that kind's event type |
| Payloads.TripsAreTimed | state/machine.go:457-463 | after every history a drive is timed exactly if it was entered from another known state, with the odometer of that moment |
| Payloads.RaisedIsAnswered | state/machine.go:703-716 | every event raised is at once handed over, with the place it was noted at, or deferred |
| Payloads.HandedStreamIsFaithful | state/machine.go:703-716 | when nothing was deferred, replaying the payloads handed over tells what the car does and its exact geofence |
| Battery.BatteryHysteresis | state/machine.go:532-567 | after every history each latch says whether its latest reading outside the open band was on the alert side, alerts are its rising edges, and no other message touches it |
| Battery.MessageLatches | state/machine.go:301-318 | one message: only a checked level moves the latches, and an alert is raised exactly on a rising edge |
| Battery.AlertsForceVariation | state/machine.go:529-567 | n alerts of one kind mean that the checked levels travelled at least 6(n-1) percent |
| Redelivery.RedeliveryIsSilent | state/machine.go:270-351 | after every life, any sequence repeating the current values of initialised fields raises battery alerts at most and touches no ticker; it raises nothing exactly if the level has been through the threshold check or is not repeated, and then changes no fact; what was waiting for data keeps waiting |
| Redelivery.RepeatedAlerts | state/machine.go:301-318 | for any car whatever, such a sequence raises each battery alert at most once, and exactly when it repeats a level at or past that threshold whose alert is not latched |
| Redelivery.BatteryRepeat | state/machine.go:545-567 | a repeated battery level raises no alert exactly if that level has been through the threshold check |
| Redelivery.FirstReadingAlertsOnRepeat | state/machine.go:311-317 | a concrete first reading that alerts when repeated |
| Redelivery.LatchesStayPlausible | state/machine.go:545-567 | in every life a latch that is set has its level on the alert side of the re-arm bound |
| Tickers.LifeCycle | state/machine.go:569-670 | after every history: charging ticker live iff the state is Charging; driving ticker live iff the drive is timed iff the car drives and was once seen in another state; no tick ever meets a nil ticker |
| Tickers.ChannelsAreOrderly | state/machine.go:607-670 | stop channels of each kind are opened and closed in strict turns, so at most one is open and it belongs to the running ticker |
| Tickers.ClosedOnce | state/machine.go:607-670 | no stop channel is closed twice |
| Pace.UpdatesKeepPace | state/machine.go:579-660 | with ideal tickers and under every configuration, each update follows the start or update before it by exactly the period that configuration and readings called for then, which is 5 to 120 s |
| Pace.UpdatesApart | state/machine.go:579-660 | two updates of a kind are at least 5 s apart across any stops and restarts |
| Pace.ExactlyEveryPeriod | state/machine.go:143-169 | a car for which one period is due all along, such as one above the threshold, is updated exactly every such period |
| Pace.PeriodsAreConfigured | state/machine.go:143-169 | in every life, ideal tickers or not, a ticker that is opened or has just fired has the period due at the last speed or charging power |
| Pace.DueMeans | state/machine.go:117-169 | that period is the value under drive.tick_fast_s (else 15 s) above drive.fast_above_kmh (else 80), otherwise under drive.tick_s (else 30 s); for charging 30 s above 11 kW, otherwise 60 s |
| Tuning.KnobsMean | state/machine.go:117-177 | all seven values of a configuration, key by key, with their defaults and bounds written out |
| Tuning.KnobsAreSafe | state/machine.go:143-169 | every configuration whatsoever leaves every period between 5 and 120 s |
| Tuning.EmptyConfigIsDefault | state/machine.go:117-124 | an empty configuration is the same as no store at all |
| RawFields.RawAgreesWithHistory | state/machine.go:198-216 | after every history the raw map holds exactly the first 64 distinct fields accepted since it was dropped, each with its last value cut to 256 bytes |
| Independence.CarsAreIndependent | state/machine.go:263-268 | for every interleaving, one car's record, pending goroutines, cached names and debounced timers are those of the run restricted to that car |
| World.EveryCarLeadsALife | state/machine.go:232-268 | in every run each car is the result of its own inputs, from a fresh record with its cached names |
| World.CacheAgreesWithMemory | state/machine.go:1206-1212 | after every run, from a file in any format, the stored names are those in memory |
| World.RestartKeepsNames | state/machine.go:1190-1204 | so a restart calls every car by the same name |
| World.EnvIsHistory | state/machine.go:478-489 | in every run an input meets the time that has passed, the last connection made, and the greatest usable configuration delivered |
| NameCache.RewriteKeepsOthers | state/namecache.go:32-56 | updating one car keeps all others; the first rewrite of a legacy file keeps all its non-empty names |
| NameCache.CarNameCache.constructor | state/namecache.go:24-30 | the cache starts from what is stored |
| NameCache.CarNameCache.Load | state/namecache.go:32-52 | the stored cars, or the migrated non-empty names of a legacy file, or none |
| NameCache.CarNameCache.Save | state/namecache.go:54-56 | the file is replaced, in the current format |
| NameCache.CarNameCache.CacheCar | state/machine.go:1206-1212 | load, change one entry, save |
| RemoteConfig.Convergence | remotecfg/store.go:84-102 | if each version determines its values, any permutation and duplication of deliveries leaves the same version and values, those of the greatest usable one |
| RemoteConfig.FinalIsGreatest | remotecfg/store.go:84-102 | after any deliveries the store holds the greatest positive version with non-nil values, or nothing |
| RemoteConfig.OneComplaintPerVersion | remotecfg/store.go:182-191 | at most one complaint per key and applied version, and the latches are the keys already complained about |
| RemoteConfig.DurationInBounds | remotecfg/store.go:113-133 | the result stays inside the bounds even when the nanoseconds wrap int64 |
| RemoteConfig.DurationExact | remotecfg/store.go:113-133 | it is the true clamp exactly if the seconds are at most 9223372036 or the wrapped product is still above the ceiling |
| RemoteConfig.DurationWraps | remotecfg/store.go:123-131 | one second more comes out as the floor instead of the ceiling |
| Tuning.DurationUnder | remotecfg/store.go:113-133 | a duration is the positive whole seconds under its key, as wrapped nanoseconds, kept between 5 and 120 s, or the default |
| Tuning.CadenceMeans | remotecfg/store.go:113-155 | a threshold is the number under its key, kept between 0 and 400, or the default |
| Tuning.FlagMeans | remotecfg/store.go:159-170 | a flag is on exactly for the six true spellings |
| RemoteConfig.Store.constructor | remotecfg/store.go:70-76 | version 0, no values, no complaints |
| RemoteConfig.Store.Apply | remotecfg/store.go:84-102 | accepts exactly newer positive versions with values, copies them and resets the complaints |
| RemoteConfig.Store.Duration | remotecfg/store.go:113-133 | the configured duration, and a complaint exactly when the value is unusable or clamped |
| RemoteConfig.Store.Float | remotecfg/store.go:136-155 | the same for numbers |
| RemoteConfig.Store.Bool | remotecfg/store.go:159-170 | the same for flags |
| RemoteConfig.Store.Warn | remotecfg/store.go:182-191 | one line per key until the next version |
| Topics.TopicRoundTrip | mqtt/topics.go:69-98 | a printed topic parses back to its car and field exactly when car ID and namespace contain no slash |
| Topics.ParseTopicAccepts | mqtt/topics.go:84-98 | the parser accepts exactly teslamate/cars/a/b and teslamate/x/cars/a/b with slash-free parts, and returns a and b |
| Topics.SplitJoin | mqtt/topics.go:85 | splitting undoes joining exactly when no part contains the separator |
| Topics.TopicsForCar | mqtt/topics.go:69-79 | one topic per known field, in order |
| Topics.KnownFields | mqtt/topics.go:59-65 | the table knows every field by its name, and nothing else |
| Relay.Client.SendEvent | relay/client.go:86-157 | every attempt carries one id and one body; another follows one of the first two exactly if that got no answer, or a status that is neither 2xx nor a 4xx other than 429; the first 2xx after such attempts delivers; every answer's configuration reaches the store; it sleeps 0, 1 or 3 s |
| Relay.AttemptsAreRight | relay/client.go:106-156 | no attempt follows a 2xx or a non-429 4xx; a nil error means exactly that some attempt got a 2xx; exhausted means exactly that none was final |
| Relay.RetriesExactly | relay/client.go:106-156 | the same, of the relay's answers |
| Relay.EveryBlockIsApplied | relay/client.go:65-84 | the configuration of every answer is applied, in order, whatever its status |
| Relay.Client.ReadConfig | relay/client.go:65-84 | a block goes to the store, its absence changes nothing |
| Relay.SendersRunSendEvent | relay/client.go:106-156 | a sender of the concurrent model steps as the method loops |
| Relay.SendersRetryExactly | relay/client.go:106-156 | over any interleaving, every sender posts again exactly after an attempt that got no answer, 429, or a status outside 2xx and 4xx, at most three times, and is delivered exactly on a 2xx |
| Relay.RetriesAreIdempotent | relay/models.go:15-21 | over any interleaving of senders and any losses and delays: one id and body per event, at most three attempts, and a relay that drops repeated ids acts on each id at most once |
| Relay.ExactlyOnceIfDelivered | relay/models.go:15-21 | an event whose SendEvent returned nil took effect exactly once, every other at most once |
| Relay.NothingAfterDone | relay/client.go:135-153 | a sender that is done transmits nothing more, whatever happens |
| Relay.FinalReplySettles | relay/client.go:135-153 | a final answer received in time makes its sender done |
| Engine.FirstPending | state/machine.go:757-765 | the index of the first pending entry of a type, or the length of the list |
| GoValues.Wrap64 | remotecfg/store.go:123 | an int64 product keeps its value when it fits and stays in range when not |
| GoValues.AtoiRoundTrip | remotecfg/store.go:118 | the decimal text of a number parses back to it exactly if it fits int64 |
| GoValues.AtoiExactly | remotecfg/store.go:118 | exactly the non-empty texts of digits, with or without a sign, whose value fits int64 are numbers |
| Machine.Manager.constructor | state/machine.go:232-260 | the manager starts in the initial state for its cache file |
| Machine.Manager.GetOrCreate | state/machine.go:1273-1282 | the car's record, or a new one, and no other record changes |
| Machine.Manager.HandleMessage | state/machine.go:263-455 | the step Message of the transition system, for every field and value |
| Machine.Manager.HandleUnknownMessage | state/machine.go:183-190 | the step UnknownMessage |
| Machine.Manager.DeferredEmit | state/machine.go:746-775 | the step WakeUp: the goroutine ends and takes the first pending event of its type |
| Machine.Manager.ChargingTick | state/machine.go:579-604 | the step TickerFires for charging; an update goes out exactly if the recheck passes, and the ticker is there |
| Machine.Manager.DrivingTick | state/machine.go:631-656 | the same for driving |
| Machine.NoNilTicker | state/machine.go:579-656 | a goroutine whose recheck passes finds its ticker |
| Machine.Manager.MarkConnected | state/machine.go:478-482 | the step Connect |
| Machine.Manager.SetRemoteConfig | state/machine.go:134-138 | only the configuration changes |
| Machine.Manager.ApplyConfig | relay/client.go:83 | the step Configure |
| Machine.Manager.TimerExpires | state/events.go:47-48 | the step Expire |
| Machine.Manager.TimerCallback | state/events.go:47-55 | the step Callback |
| Machine.Manager.Stop | state/machine.go:1285-1294 | both tickers of every car stop, nothing else changes |
| Machine.Manager.Emit | state/machine.go:703-716 | hands over or defers exactly as the operation Raise, with emitter and goroutines following |
| Machine.Manager.FlushPendingIfEnriched | state/machine.go:722-742 | the operation Flush: ready entries are handed over in order, the others stay in order |
| Machine.Manager.BuildPayload | state/machine.go:1214-1271 | the payload of the event for the car as it is now: every data field but the metric flag, with the drive's distance and duration, and without the location of the route's destination |
| Machine.Manager.StartLiveActivity | state/machine.go:569-605 | the operation StartCharge, stopping first |
| Machine.Manager.StartDrivingLiveActivity | state/machine.go:618-657 | the operation StartDrive, stopping first |
| Machine.Manager.HandleStateTransition | state/machine.go:457-475 | performs exactly the operations of a state change, in order |
| Machine.Manager.HandleChargingStateTransition | state/machine.go:514-527 | performs exactly the operations of a charging state change, in order |
| Machine.Manager.SinceConnected | state/machine.go:484-489 | an hour if never connected |
| Machine.Manager.CheckBatteryThresholds | state/machine.go:534-538 | raises the alerts in order |
| Machine.Manager.DrivingInterval | state/machine.go:143-154 | the configured driving period at the car's speed |
| Machine.Manager.ChargingInterval | state/machine.go:158-169 | the configured charging period at the charger's power |
| Machine.Manager.RawEnabled | state/machine.go:172-177 | the configured flag, off without a store |
| Machine.Manager.RecordRaw | state/machine.go:198-216 | stores the cut value unless the flag is off or the map is full |
| Machine.Manager.IsEnriched | state/machine.go:678-681 | agrees with the car's value |
| Machine.Manager.IsReadyFor | state/machine.go:686-694 | agrees with the car's value |
| Cars.CarState.BatteryThresholdEvents | state/machine.go:545-567 | moves the latches and returns the alerts by the thresholds and their band |
| Cars.CarState.StopLiveActivity | state/machine.go:607-616 | stops the ticker and closes its channel, which was open |
| Cars.CarState.StopDrivingLiveActivity | state/machine.go:659-670 | the same, and the drive is no longer timed |
| Cars.CarState.RawSnapshot | state/machine.go:221-230 | a copy of the raw map, nil when empty |
| Cars.CarState.FindPending | state/machine.go:757-760 | the first pending event of the type |
| Cars.CarState.RemovePending | state/machine.go:760 | all others keep their order |
| Cars.CarState.Measure | state/machine.go:354-415 | overwrites the field if the value parses |
| Cars.CarState.MeasureRoute | state/machine.go:428-454 | an error clears route and location, a route without a location keeps the last one, anything undecodable changes nothing |
| Program.Notifier.OnMessage | mqtt/client.go:141-164 | routes a topic to the right handler, or nowhere, and the program stays in a run |
| Program.Notifier.OnWake | state/machine.go:746-747 | a woken goroutine keeps the program in a run |
| Program.Notifier.OnChargingTick | state/machine.go:579-604 | a tick keeps the program in a run; nothing but the run so far is needed for the ticker to be there |
| Program.Notifier.OnDrivingTick | state/machine.go:631-656 | the same for driving |
| Program.Notifier.OnTimerDue | state/events.go:47-48 | a due debounce timer keeps the program in a run |
| Program.Notifier.OnTimer | state/events.go:47-55 | a debounce callback keeps the program in a run |
| Program.Notifier.OnConfig | relay/client.go:83 | a configuration keeps the program in a run |
| Program.Notifier.OnConnect | mqtt/client.go:114-117 | a reconnect keeps the program in a run |
| Program.Notifier.constructor | main.go:52-80 | the program starts in a run of no steps |
| Program.Notifier.NamesOnDisk | state/machine.go:1206-1212 | at any time the stored names are those of the records in memory |
| Program.Notifier.TickersInMemory | state/machine.go:569-670 | at any time a record has a charging ticker iff it says Charging, and a driving ticker iff its drive is timed |
| Program.Notifier.NothingIsLost | state/machine.go:703-775 | at any time raised = handed over + pending, for the objects in memory |

## Left out

- Paho, TLS, subscription, HTTP, HMAC signing, JSON encoding, logging, environment parsing, heartbeats: library plumbing; messages and responses are arbitrary.
- Go strings are byte strings: a Dafny `char` stands for one byte.
- RemoteConfig.Store.Float: `strconv.ParseFloat` is an oracle from strings to optional reals, here and wherever a message is parsed: no rounding, NaN or infinities.
- Machine.Manager.BuildPayload: leaves out the server ID, the metric flag and what buildNotification (state/machine.go:777-1183) writes: titles, bodies and typed arguments, a flat case table.
- Machine.Manager.HandleMessage: decoding the JSON of an `active_route` message is an oracle, like ParseFloat; what its result does to the route and the location is modelled (state/machine.go:428-454).
- Durations in payloads are nanoseconds, not minutes as a float.
- int overflow: a battery threshold plus or minus 3 is exact; parsed levels are bounded by Atoi.
- Tickers: the select loops re-read the ticker and stop channel outside the mutex (state/machine.go:579-600, 631-652); a tick is one atomic step over the locked region, with one goroutine per start. The ticker and its channel are fields of the car record, the channel named by a counter, not heap objects.
- Machine.Manager.Stop: ends no run; messages after it (main.go:129-131 disconnects later) may restart tickers, and the ticker theorems are about runs before it.
- Debounce.NewestNeverDropped: excludes the emitter's Stop, which drops what is armed.
- A debounce callback's delete and its SendEvent are one step; the calls of SendEvent themselves are the concurrent model of Relay.
- The configuration a single input reads is one snapshot, although each getter locks on its own; complaints are part of Store, not of World.
- jsonStore file mechanics: a file is absent, garbage, legacy or current, and saves succeed.
- Raw snapshots are immutable values, so that a later message cannot change a payload is immediate in the model; the copy loop is there, aliasing is not.
- The relay server, beyond one that drops repeated ids and answers 2xx only after acting; ids are assumed distinct.
