# Smart-plug power balancer — a Dafny model

This project models the decision core of a device service that watches the
power drawn by a household behind a power monitor. The household's
appliances sit behind Shelly and Tasmota smart plugs. The service switches
them off and on so that the total stays under a configured limit.

The model covers six parts of the service:

- **The balancer** (`BalancingService`). Each power-monitor reading starts one pass with these steps:
  - pick the effective limit (the power-save limit in vacation mode or during a grid outage);
  - in power-save mode, shed every non-essential appliance;
  - on overload, shed appliances in priority order until the excess is covered;
  - force back on "prevent downtime" appliances whose allowed downtime is over, sacrificing others all or nothing;
  - after the overload cooldown, greedily restore appliances the balancer switched off.
- **The realtime status cache** (`DeviceRealtimeStateCache`). It maps each device id to its last telemetry and its control state.
- **The system state cache** (`SystemStateCache`). For each power-monitor scope it keeps:
  - the settings and the roster;
  - an index from each device's prefix to its monitor;
  - the grid flag;
  - the open blackout session and its energy accounting.
- **The Shelly adapter.** It builds subscription topics, reads the device prefix back from a topic, builds toggle commands and classifies messages.
- **The Tasmota adapter.** It does the same for Tasmota, and also rewrites Tasmota payloads into the Shelly shape.
- **The MQTT gateway** (`ShellyService`). It does the following:
  - resolves the device behind a topic, trying the Tasmota reading first;
  - dispatches to the adapters;
  - feeds readings to the caches and the balancer;
  - turns the balancer's decisions into outgoing messages;
  - keeps the subscription bookkeeping and the device cache.

Files and modules:

| file | module | contents |
|---|---|---|
| `Types.dfy` | `Types` | devices, settings, system state, status records, the status JSON as a record of optional fields |
| `Strings.dfy` | `Strings` | Java string operations the adapters use: `endsWith`, `indexOf`, `lastIndexOf`, `split`, `equalsIgnoreCase` |
| `Sorting.dfy` | `DeviceOrder` | the three comparators and a stable sort |
| `RealtimeCache.dfy` | `RealtimeCache` | the realtime status cache |
| `SystemStateCache.dfy` | `SystemStateCache` | the system state cache |
| `Balancing.dfy` | `Balancing` | the balancer |
| `ShellyStrategy.dfy` | `ShellyStrategy` | the Shelly adapter |
| `TasmotaStrategy.dfy` | `TasmotaStrategy` | the Tasmota adapter |
| `Gateway.dfy` | `Gateway` | the MQTT gateway |

The stateful parts are classes whose methods update fields and are proved
against specification functions over values:

- The balancer's state is `Engine`. It holds the status map, the overload timestamps and the action trace.
- Each step of a pass is a function from one `Engine` to the next.
- Each class method ensures `Snapshot() == F(old(Snapshot()), …)`.
- The lemmas about `F` state what the balancer promises.

The balancer records every switch it makes as a `BalancerAction`. The
gateway sends the commands for exactly the actions that one pass appends
(`Balancing.PassCommands`). The balancer never reads the gateway's device
cache or its outbox, so this order of events yields the same messages and
the same final state as the source's interleaved calls.

Units:

- Time is whole seconds.
- Power readings are exact reals.
- Configured wattages and limits are integers.
- The `(int)` cast at `BalancingService.java:322` is truncation toward zero (`Balancing.Truncate`).

## Model

| member | source | states |
|---|---|---|
| Balancing.ExtractPower | src/main/java/com/yh/sbps/device/service/BalancingService.java:496-506 | "apower" when present, otherwise "power"; nothing exactly when both are missing |
| Balancing.MinutesBetween | src/main/java/com/yh/sbps/device/service/BalancingService.java:484 | whole minutes between two instants, truncated toward zero in both directions |
| Balancing.Truncate | src/main/java/com/yh/sbps/device/service/BalancingService.java:322 | the `(int)` cast: the integer within one of the value, toward zero |
| Balancing.EffectiveLimit | src/main/java/com/yh/sbps/device/service/BalancingService.java:72-92 | the power-save limit exactly when vacation mode or a grid outage is on and that limit is positive; the main limit otherwise |
| Balancing.PowerOnMargin | src/main/java/com/yh/sbps/device/service/BalancingService.java:94-97 | the configured power-on margin, 100 W when none is set |
| Balancing.CooldownSeconds | src/main/java/com/yh/sbps/device/service/BalancingService.java:120-121 | the configured overload cooldown, 0 when none is set |
| Balancing.SwitchAllTrace | src/main/java/com/yh/sbps/device/service/BalancingService.java:451-470 | switching a list of devices appends one action per device in list order and leaves the overload timestamps alone |
| Balancing.SwitchAllTelemetry | src/main/java/com/yh/sbps/device/service/BalancingService.java:461-470 | switching changes no device's "online and on" verdict and no device's actual power, so a shed device still counts as on later in the pass |
| Balancing.SwitchAllControl | src/main/java/com/yh/sbps/device/service/BalancingService.java:451-470 | every switched device ends with the matching control state; records of devices not switched are untouched |
| Balancing.PowerSaveCandidatesMembers | src/main/java/com/yh/sbps/device/service/BalancingService.java:156-161 | a device is a candidate exactly when it is listed, non-essential, switchable, and online and on |
| Balancing.Essential | src/main/java/com/yh/sbps/device/service/BalancingService.java:104-110 | in power-save mode the later steps see exactly the listed devices that are not non-essential |
| Balancing.PowerSaveShedEffect | src/main/java/com/yh/sbps/device/service/BalancingService.java:154-184 | every candidate ends DISABLED_BY_BALANCER with one off action each; the power drops by exactly their actual power; other records and the timestamps are unchanged |
| Balancing.ShedCandidatesMembers | src/main/java/com/yh/sbps/device/service/BalancingService.java:205-214 | a device is an overload candidate exactly when it is listed, switchable, online and on, and drawing power |
| Balancing.ShedOrderSorted | src/main/java/com/yh/sbps/device/service/BalancingService.java:205-219 | the candidates sorted by descending priority, then ascending id, and a permutation of them |
| Balancing.Overload | src/main/java/com/yh/sbps/device/service/BalancingService.java:191-195 | at or under the limit nothing changes: no action, no timestamp, and the same power |
| Balancing.OverloadShedsShortestPrefix | src/main/java/com/yh/sbps/device/service/BalancingService.java:197-262 | over the limit, the timestamp is recorded and the shortest prefix of the order that covers the excess (all of it if none does) is switched off; power drops by their actual power; every shorter prefix leaves power above the limit |
| Balancing.OverloadShedsLowestPriority | src/test/java/com/yh/sbps/device/service/BalancingServiceTest.java:79-114 | a 1200 W reading against 1000 W with two 300 W devices of priority 1 and 5 sheds only the priority-5 one, leaving 900 W |
| Balancing.ForceOnCandidatesMembers | src/main/java/com/yh/sbps/device/service/BalancingService.java:271-279 | a device is a force-on candidate exactly when it is prevent-downtime, DISABLED_BY_BALANCER, has a positive maximum downtime, has a disable time, and has been off at least that many minutes |
| Balancing.SacrificeCandidatesMembers | src/main/java/com/yh/sbps/device/service/BalancingService.java:294-304 | a device is sacrificial exactly when it is switchable, online and on, and not a force-on candidate |
| Balancing.SacrificePrefix | src/main/java/com/yh/sbps/device/service/BalancingService.java:366-378 | the victims are empty or a non-empty prefix of the sacrificial list |
| Balancing.SacrificePrefixShortest | src/main/java/com/yh/sbps/device/service/BalancingService.java:366-378 | the victims are empty exactly when no prefix's configured wattage reaches the need; otherwise they reach it and every shorter non-empty prefix does not |
| Balancing.SacrificeLoopFrees | src/main/java/com/yh/sbps/device/service/BalancingService.java:333-346 | when every victim has a wattage, all victims go off and the freed power is their summed wattage |
| Balancing.SacrificeLoopHalts | src/main/java/com/yh/sbps/device/service/BalancingService.java:333-343 | a victim without a wattage stops the pass right after it is switched off, and the victims before it are off |
| Balancing.ForceOnDeviceDirect | src/main/java/com/yh/sbps/device/service/BalancingService.java:306-319 | a device without wattage is passed over; one that fits the margin is switched on alone, the margin shrinks and the power grows by its wattage; otherwise the sacrifice step decides |
| Balancing.ForceOnAllOrNothing | src/main/java/com/yh/sbps/device/service/BalancingService.java:320-361 | with no sufficient prefix nothing changes; with one, all victims go off, then the candidate goes on, the victims leave the list, and power moves by the candidate's wattage minus theirs |
| Balancing.ShedLoopAppends | src/main/java/com/yh/sbps/device/service/BalancingService.java:221-241 | the shedding loop only appends to the action trace |
| Balancing.RestoreCandidatesMembers | src/main/java/com/yh/sbps/device/service/BalancingService.java:416-422 | a device is restorable exactly when it is switchable, DISABLED_BY_BALANCER (never DISABLED_BY_USER), and not reported on |
| Balancing.RestoreStop | src/main/java/com/yh/sbps/device/service/BalancingService.java:429-448 | the loop stops at the first positive-wattage device that does not fit what is left of the margin; every earlier device fits or is passed over |
| Balancing.RestorePlan | src/main/java/com/yh/sbps/device/service/BalancingService.java:429-448 | the restore loop switches on exactly the positive-wattage devices before the stop, in order, and their total wattage stays within the margin |
| Balancing.Restore | src/main/java/com/yh/sbps/device/service/BalancingService.java:387-402 | with a positive cooldown and a recorded overload less than the cooldown ago, restore changes nothing |
| Balancing.RestoreAfterCooldown | src/main/java/com/yh/sbps/device/service/BalancingService.java:387-448 | once the cooldown is not running, a positive cooldown drops the prefix's overload time; with no margin nothing is switched; with a margin exactly the positive-wattage candidates before the stop, in ascending priority, go on and their total wattage stays within the margin |
| Balancing.RestoreNoMargin | src/main/java/com/yh/sbps/device/service/BalancingService.java:404-408 | once past the cooldown, a restore without margin appends no command and switches no device |
| Balancing.RestoreWithMargin | src/main/java/com/yh/sbps/device/service/BalancingService.java:404-448 | once past the cooldown, a restore with margin appends exactly `RestoreOns`, the ON commands of the restore plan |
| Balancing.RestoreOnsWithinMargin | src/main/java/com/yh/sbps/device/service/BalancingService.java:416-448 | those ON commands are for the positive-wattage candidates before the stop, in ascending priority, and their total wattage stays within the margin |
| Balancing.Balance | src/main/java/com/yh/sbps/device/service/BalancingService.java:51-69 | a reading without power, or a scope without state, settings or power limit, changes nothing |
| Balancing.BalanceAppends | src/main/java/com/yh/sbps/device/service/BalancingService.java:48-132 | a pass only appends to the action trace |
| Balancing.BalanceCalm | src/main/java/com/yh/sbps/device/service/BalancingService.java:94-128 | outside power-save mode, at or below the limit and with no force-on candidate, a pass is exactly a restore with the configured margin and cooldown |
| Balancing.BalanceRestores | src/main/java/com/yh/sbps/device/service/BalancingService.java:94-128 | in that calm case, once the cooldown is over, with limit minus power minus margin positive the pass sends exactly `RestoreOns` for that margin; otherwise it sends nothing and switches nothing |
| Balancing.BalanceClearsCooldown | src/main/java/com/yh/sbps/device/service/BalancingService.java:387-402 | in that calm case, once the cooldown is over, a configured cooldown drops the prefix's overload time and no cooldown keeps the times |
| Balancing.BalanceQuiet | src/main/java/com/yh/sbps/device/service/BalancingService.java:116-128 | in that calm case, a running cooldown, no restorable device or no margin means the pass sends no command; a running cooldown leaves the state untouched |
| Balancing.BalanceDefaults | src/main/java/com/yh/sbps/device/service/BalancingService.java:94-97 | with no margin and no cooldown configured, the cooldown never blocks a calm pass and the margin is limit minus power minus 100 W |
| Balancing.BalanceRecordsOverload | src/main/java/com/yh/sbps/device/service/BalancingService.java:104-114 | a pass whose power after power-save shedding is above the effective limit records the overload time for the prefix at now; at or below it, no new time is recorded and at most the old one is dropped |
| Balancing.PowerSaveLimitOverloads | src/main/java/com/yh/sbps/device/service/BalancingService.java:77-80 | in vacation mode or a grid outage with a positive power-save limit, power above that limit after shedding records an overload even when below the main limit |
| Balancing.PassCommands | src/main/java/com/yh/sbps/device/service/BalancingService.java:48-132 | the actions a pass appends, so that the trace after the pass is the old trace followed by them |
| Balancing.RemoveFirst | src/main/java/com/yh/sbps/device/service/BalancingService.java:342 | removing a device from the sacrificial list drops one occurrence: the multiset loses exactly that device |
| Balancing.BalancingService.constructor | src/main/java/com/yh/sbps/device/service/BalancingService.java:35-46 | no overload timestamps and an empty trace |
| Balancing.BalancingService.ClearOverloadCooldown | src/main/java/com/yh/sbps/device/service/BalancingService.java:134-137 | the prefix's timestamp is removed and nothing else changes |
| Balancing.BalancingService.TurnOnDevice | src/main/java/com/yh/sbps/device/service/BalancingService.java:451-460 | the control state becomes ENABLED with no disable time, and one "on" action is appended |
| Balancing.BalancingService.TurnOffDevice | src/main/java/com/yh/sbps/device/service/BalancingService.java:461-470 | the control state becomes DISABLED_BY_BALANCER with the current time, and one "off" action is appended |
| Balancing.BalancingService.HandlePowerSaveShed | src/main/java/com/yh/sbps/device/service/BalancingService.java:154-184 | the new state and the returned power are those of `PowerSaveShed` |
| Balancing.BalancingService.TurnOffAll | src/main/java/com/yh/sbps/device/service/BalancingService.java:171-178 | the candidates are switched off one after another, as `SwitchAll` does, and the returned figure is the sum of their recorded actual power |
| Balancing.BalancingService.HandleOverload | src/main/java/com/yh/sbps/device/service/BalancingService.java:186-262 | the new state and the returned power are those of `Overload` |
| Balancing.BalancingService.ShedInOrder | src/main/java/com/yh/sbps/device/service/BalancingService.java:221-241 | the loop's effect and the power it sheds are those of `ShedLoop` |
| Balancing.BalancingService.FindDevicesToSacrifice | src/main/java/com/yh/sbps/device/service/BalancingService.java:366-378 | the accumulating loop returns `SacrificePrefix` of its inputs |
| Balancing.BalancingService.HandlePreventDowntime | src/main/java/com/yh/sbps/device/service/BalancingService.java:265-364 | the new state, the returned power and whether the pass stops are those of `PreventDowntime` |
| Balancing.BalancingService.ForceOnAll | src/main/java/com/yh/sbps/device/service/BalancingService.java:306-362 | the force-on loop's effect is that of `ForceOnLoop` |
| Balancing.BalancingService.TryForceOn | src/main/java/com/yh/sbps/device/service/BalancingService.java:307-361 | one candidate's effect is that of `ForceOnDevice` |
| Balancing.BalancingService.SacrificeAndForceOn | src/main/java/com/yh/sbps/device/service/BalancingService.java:320-360 | the sacrifice branch's effect is that of `ForceOnBySacrifice` |
| Balancing.BalancingService.SacrificeVictims | src/main/java/com/yh/sbps/device/service/BalancingService.java:333-346 | the victims loop is `SacrificeLoop`, and the sacrificial list loses exactly the victims from its front |
| Balancing.BalancingService.HandleRestore | src/main/java/com/yh/sbps/device/service/BalancingService.java:380-449 | the new state is `Restore` of the old one |
| Balancing.BalancingService.BalancePower | src/main/java/com/yh/sbps/device/service/BalancingService.java:48-132 | the new state is `Balance` of the old one, given the cached state of the scope |
| DeviceOrder.LeTotalPreorder | src/main/java/com/yh/sbps/device/service/BalancingService.java:215-218 | each of the three comparators is total and transitive |
| DeviceOrder.SortBySorted | src/main/java/com/yh/sbps/device/service/BalancingService.java:300-304 | the sort returns a sorted permutation of its input |
| DeviceOrder.InsertSplits | src/main/java/com/yh/sbps/device/service/BalancingService.java:300-304 | inserting places the device after every element it does not strictly precede, leaving the others in order |
| DeviceOrder.SortByStable | src/main/java/com/yh/sbps/device/service/BalancingService.java:300-304 | the sort is stable: of two input devices in order whose keys are in order (ties included), the first still comes first; the same sort orders the restore candidates (line 421) |
| DeviceOrder.SortByMembers | src/main/java/com/yh/sbps/device/service/BalancingService.java:278 | sorting keeps exactly the devices it was given |
| RealtimeCache.GetOrCreate | src/main/java/com/yh/sbps/device/service/DeviceRealtimeStateCache.java:31-39 | the stored record, or a fresh empty one carrying the id |
| RealtimeCache.PutAll | src/main/java/com/yh/sbps/device/service/DeviceRealtimeStateCache.java:23-25 | every status is stored under its own id, the final status wins for its id, and a keyed map stays keyed |
| RealtimeCache.LastWithIdIsLast | src/main/java/com/yh/sbps/device/service/DeviceRealtimeStateCache.java:23-25 | the last status with an id is a status with that id and no later status has it; none exactly when no status has it |
| RealtimeCache.PutAllHoldsLast | src/main/java/com/yh/sbps/device/service/DeviceRealtimeStateCache.java:23-25 | after storing a list, every id maps to the last status in the list with that id, and ids the list lacks keep their old entry or stay absent |
| RealtimeCache.WithOnline | src/main/java/com/yh/sbps/device/service/DeviceRealtimeStateCache.java:41-46 | only the flag and the prefix of the one record change; other records are unchanged |
| RealtimeCache.WithStatus | src/main/java/com/yh/sbps/device/service/DeviceRealtimeStateCache.java:48-57 | only the status document and the prefix of the one record change; other records are unchanged |
| RealtimeCache.WithEvent | src/main/java/com/yh/sbps/device/service/DeviceRealtimeStateCache.java:59-68 | only the event document and the prefix of the one record change; other records are unchanged |
| RealtimeCache.ControlStateUpdate | src/main/java/com/yh/sbps/device/service/DeviceRealtimeStateCache.java:70-79 | the disable time is set to now exactly for DISABLED_BY_BALANCER and cleared otherwise; telemetry and other records are unchanged |
| RealtimeCache.TelemetryKeepsControl | src/main/java/com/yh/sbps/device/service/DeviceRealtimeStateCache.java:41-68 | telemetry updates keep the control-state invariant of every record |
| RealtimeCache.DeviceRealtimeStateCache.constructor | src/main/java/com/yh/sbps/device/service/DeviceRealtimeStateCache.java:21 | the cache starts empty |
| RealtimeCache.DeviceRealtimeStateCache.InitCache | src/main/java/com/yh/sbps/device/service/DeviceRealtimeStateCache.java:23-25 | the loop's result is `PutAll` and the cache stays keyed |
| RealtimeCache.DeviceRealtimeStateCache.Get | src/main/java/com/yh/sbps/device/service/DeviceRealtimeStateCache.java:27-29 | the stored record for an id, empty exactly for an id never written |
| RealtimeCache.DeviceRealtimeStateCache.UpdateOnline | src/main/java/com/yh/sbps/device/service/DeviceRealtimeStateCache.java:41-46 | the cache becomes `WithOnline`, and the returned record is the stored one |
| RealtimeCache.DeviceRealtimeStateCache.UpdateStatus | src/main/java/com/yh/sbps/device/service/DeviceRealtimeStateCache.java:48-57 | the cache becomes `WithStatus`, and the returned record is the stored one |
| RealtimeCache.DeviceRealtimeStateCache.UpdateEvent | src/main/java/com/yh/sbps/device/service/DeviceRealtimeStateCache.java:59-68 | the cache becomes `WithEvent`, and the returned record is the stored one |
| RealtimeCache.DeviceRealtimeStateCache.UpdateControlState | src/main/java/com/yh/sbps/device/service/DeviceRealtimeStateCache.java:70-79 | the cache becomes `WithControlState`, and the returned record keeps the invariant |
| SystemStateCache.Unindex | src/main/java/com/yh/sbps/device/service/SystemStateCache.java:185 | exactly the entries pointing at the monitor are removed |
| SystemStateCache.Reindex | src/main/java/com/yh/sbps/device/service/SystemStateCache.java:184-194 | the roster prefixes point at the monitor; other entries are kept unless they pointed at it |
| SystemStateCache.IndexAllIsReindex | src/main/java/com/yh/sbps/device/service/SystemStateCache.java:184-194 | purging, then pointing the roster one device at a time, gives `Reindex` |
| SystemStateCache.WithoutPrefix | src/main/java/com/yh/sbps/device/service/SystemStateCache.java:108-111 | the roster keeps exactly its devices with another prefix |
| SystemStateCache.FirstPowerMonitor | src/main/java/com/yh/sbps/device/service/SystemStateCache.java:202-206 | the first power monitor of the roster; nothing exactly when there is none |
| SystemStateCache.TotalEnergy | src/main/java/com/yh/sbps/device/service/SystemStateCache.java:126-138 | present exactly when the device has a status with an energy total |
| SystemStateCache.Stats | src/main/java/com/yh/sbps/device/service/SystemStateCache.java:140-155 | (false, 0, 0) without a session; otherwise a blackout whose consumption is the counter's growth, or 0 if it did not grow, never negative, and whose duration is the time since onset |
| SystemStateCache.BlackoutAccounting | src/main/java/com/yh/sbps/device/service/SystemStateCache.java:140-155 | a session that recorded E at t, read at E + delta and t + dt, reports (true, delta, dt) |
| SystemStateCache.SystemStateCache.constructor | src/main/java/com/yh/sbps/device/service/SystemStateCache.java:46-53 | all four maps start empty |
| SystemStateCache.SystemStateCache.GetState | src/main/java/com/yh/sbps/device/service/SystemStateCache.java:55-57 | the cached state of a scope, nothing exactly when none is cached |
| SystemStateCache.SystemStateCache.IsGridAvailable | src/main/java/com/yh/sbps/device/service/SystemStateCache.java:179-182 | true for no prefix and for a prefix without a recorded flag; the recorded flag otherwise |
| SystemStateCache.SystemStateCache.UpdateDeviceToMonitorMap | src/main/java/com/yh/sbps/device/service/SystemStateCache.java:184-194 | the index becomes `Reindex` of the old one; the other maps are unchanged |
| SystemStateCache.SystemStateCache.RefreshState | src/main/java/com/yh/sbps/device/service/SystemStateCache.java:59-92 | a present state is stored with the recorded grid flag and its roster indexed; an absent one evicts the state, the grid flag and the index entries of the scope |
| SystemStateCache.SystemStateCache.RemoveDevice | src/main/java/com/yh/sbps/device/service/SystemStateCache.java:98-123 | an indexed device leaves the index and its monitor's roster, with settings and grid flag kept; an unindexed prefix loses its scope, its grid flag and the index entries pointing at it |
| SystemStateCache.OpenedSession | src/main/java/com/yh/sbps/device/service/SystemStateCache.java:196-228 | a session exists exactly when the scope's roster has a power monitor with an energy total, and it records that total and the time |
| SystemStateCache.SystemStateCache.FindAndSnapshotPowerMonitor | src/main/java/com/yh/sbps/device/service/SystemStateCache.java:196-228 | the session is opened when the snapshot exists; nothing else changes |
| SystemStateCache.GridStepRecords | src/main/java/com/yh/sbps/device/service/SystemStateCache.java:157-168 | a grid step reads back as the new flag, sets it in the scope's cached state and nothing else there, and leaves every other scope's flag, state and session alone |
| SystemStateCache.GridStepSessions | src/main/java/com/yh/sbps/device/service/SystemStateCache.java:170-176 | available to unavailable opens exactly the snapshot (none when no snapshot can be taken), unavailable to available closes the session, a repeated flag keeps the sessions |
| SystemStateCache.OutageRoundTrip | src/main/java/com/yh/sbps/device/service/SystemStateCache.java:157-177 | an outage and its end leave the scope with no session, the other sessions as they were and the flag back at available |
| SystemStateCache.GridStepIdempotent | src/main/java/com/yh/sbps/device/service/SystemStateCache.java:157-177 | repeating a grid update with the same flag changes nothing further |
| SystemStateCache.SystemStateCache.UpdateGridStatus | src/main/java/com/yh/sbps/device/service/SystemStateCache.java:157-177 | no prefix changes nothing; otherwise the cached states, grid flags and sessions become `GridStep` with the snapshot taken before the call |
| SystemStateCache.SystemStateCache.GetBlackoutStats | src/main/java/com/yh/sbps/device/service/SystemStateCache.java:140-155 | (false, 0, 0) without a session, `Stats` of the session and the current counter otherwise |
| ShellyStrategy.PrefixFromTopic | src/main/java/com/yh/sbps/device/service/ShellyMqttStrategy.java:25-34 | nothing exactly when the topic neither ends in "/online" nor contains "/status/" or "/events/"; otherwise a leading part of the topic, and for "/online" all but that suffix |
| ShellyStrategy.PrefixRoundTrip | src/main/java/com/yh/sbps/device/service/ShellyMqttStrategy.java:15-34 | each subscription topic reads back as its prefix, when the prefix followed by "/" contains neither "/status/" nor "/events/" |
| ShellyStrategy.StatusSuffixPrefix | src/main/java/com/yh/sbps/device/service/ShellyMqttStrategy.java:25-34 | that condition is needed: the events topic of prefix "a/status" reads back as "a" |
| ShellyStrategy.HandleOnlineStatus | src/main/java/com/yh/sbps/device/service/ShellyMqttStrategy.java:55-62 | accepted exactly on "/online", and online exactly when the payload is "true" in any letter case |
| ShellyStrategy.HandleDeviceStatus | src/main/java/com/yh/sbps/device/service/ShellyMqttStrategy.java:64-81 | accepted exactly on "/status/switch:0", handing over the document; a power notification on "/events/rpc" hands over its switch part without being accepted |
| ShellyStrategy.HandleDeviceEvent | src/main/java/com/yh/sbps/device/service/ShellyMqttStrategy.java:83-90 | accepted, handing over the document, exactly on "/events/rpc" |
| ShellyStrategy.TopicsReachOneHandler | src/main/java/com/yh/sbps/device/service/ShellyMqttStrategy.java:55-90 | each subscription topic is taken by exactly one handler: online, status or event |
| ShellyStrategy.ToggleCommandInjective | src/main/java/com/yh/sbps/device/service/ShellyMqttStrategy.java:37-52 | different prefixes or switch positions give different commands |
| TasmotaStrategy.PrefixFromTopic | src/main/java/com/yh/sbps/device/service/TasmotaMqttStrategy.java:39-45 | a prefix exactly when the topic splits into at least two pieces |
| TasmotaStrategy.PrefixRoundTrip | src/main/java/com/yh/sbps/device/service/TasmotaMqttStrategy.java:28-53 | the four subscription topics and the command topic all read back as a prefix without "/" |
| TasmotaStrategy.NoSeparatorNoPrefix | src/main/java/com/yh/sbps/device/service/TasmotaMqttStrategy.java:39-45 | a topic without "/" names no device |
| TasmotaStrategy.HandleOnlineStatus | src/main/java/com/yh/sbps/device/service/TasmotaMqttStrategy.java:56-63 | accepted exactly on "/LWT", and online exactly for "Online" in any letter case |
| TasmotaStrategy.Normalize | src/main/java/com/yh/sbps/device/service/TasmotaMqttStrategy.java:66-117 | power, voltage and current come from "ENERGY" on /SENSOR and /STATE only; "output" comes from "POWER" on /STATE and /RESULT only, true exactly for "ON" in any letter case; no other field; no status exactly when none of these is present |
| TasmotaStrategy.HandleDeviceStatus | src/main/java/com/yh/sbps/device/service/TasmotaMqttStrategy.java:66-117 | the field-by-field builder hands over `Normalize` of the message, accepted exactly when something was written |
| TasmotaStrategy.NormalizeReadings | src/main/java/com/yh/sbps/device/service/TasmotaMqttStrategy.java:66-117 | a sensor reading reports its power as "apower"; a result message reports "output" from its "POWER" |
| TasmotaStrategy.HandleDeviceEvent | src/main/java/com/yh/sbps/device/service/TasmotaMqttStrategy.java:120-122 | never accepted, nothing handed over |
| TasmotaStrategy.ToggleCommandInjective | src/main/java/com/yh/sbps/device/service/TasmotaMqttStrategy.java:48-53 | different prefixes or switch positions give different commands |
| Gateway.CacheAllKeys | src/main/java/com/yh/sbps/device/service/ShellyService.java:226-230 | caching a list keeps the cache keyed by prefix, and its keys are the old ones plus the list's prefixes |
| Gateway.LastWithPrefixFinds | src/main/java/com/yh/sbps/device/service/ShellyService.java:226-236 | nothing exactly when no listed device has the prefix; otherwise a listed device with it |
| Gateway.CacheAllHoldsLast | src/main/java/com/yh/sbps/device/service/ShellyService.java:226-236 | after caching a list, its prefix holds the last device with that prefix; other entries are untouched |
| Gateway.GetDeviceFinds | src/main/java/com/yh/sbps/device/service/ShellyService.java:218-241 | a lookup keeps every entry, finds a device with the prefix exactly when one is cached or in the inventory, and leaves it cached under the prefix |
| Gateway.GetDeviceMissing | src/main/java/com/yh/sbps/device/service/ShellyService.java:218-241 | a miss with an empty inventory changes nothing and finds nothing |
| Gateway.TasmotaPrefixFromTopic | src/main/java/com/yh/sbps/device/service/ShellyService.java:175-182 | a found prefix is the Tasmota adapter's reading of the topic |
| Gateway.FindDeviceMatches | src/main/java/com/yh/sbps/device/service/ShellyService.java:152-173 | a resolved device carries the prefix the topic names: a Tasmota device by the Tasmota reading, any device by the Shelly one |
| Gateway.TasmotaTopicsFindDevice | src/main/java/com/yh/sbps/device/service/ShellyService.java:152-182 | every topic of a cached Tasmota device resolves to it |
| Gateway.ShellyTopicsFindDevice | src/main/java/com/yh/sbps/device/service/ShellyService.java:152-182 | every topic of a cached Shelly device resolves to it, when its prefix survives the Shelly round trip and does not begin with a Tasmota marker |
| Gateway.TasmotaReadingFirst | src/main/java/com/yh/sbps/device/service/ShellyService.java:152-173 | the Tasmota reading wins: "tele/x/online" goes to the Tasmota device "x", not to the Shelly device "tele/x" |
| Gateway.MonitorPrefix | src/main/java/com/yh/sbps/device/service/ShellyService.java:184-200 | a monitor is its own scope; an appliance belongs to its indexed monitor, or else to its own prefix |
| Gateway.RosterResolvesToMonitor | src/main/java/com/yh/sbps/device/service/ShellyService.java:184-200 | after a roster is indexed, each of its appliances resolves to that monitor |
| Gateway.SubscribeIdempotent | src/main/java/com/yh/sbps/device/service/ShellyService.java:266-313 | subscribing twice is subscribing once |
| Gateway.SubscribeKeeps | src/main/java/com/yh/sbps/device/service/ShellyService.java:266-313 | a subscription keeps the cache keyed and the empty prefix unsubscribed, and records the adapter's own topics for the device |
| Gateway.UnsubscribeUndoesSubscribe | src/main/java/com/yh/sbps/device/service/ShellyService.java:266-333 | unsubscribing a fresh subscription restores the state before it |
| Gateway.ReplayOnePerAction | src/main/java/com/yh/sbps/device/service/ShellyService.java:243-264 | when every action names a cached device with a provider, one toggle message per action is published in order, and the cache is unchanged |
| Gateway.ReplayConcat | src/main/java/com/yh/sbps/device/service/ShellyService.java:243-264 | sending a longer list of commands extends what sending its prefix published |
| Gateway.TasmotaSensorPower | src/main/java/com/yh/sbps/device/service/TasmotaMqttStrategy.java:66-117 | a Tasmota sensor reading reaches the balancer as a reading of exactly its power |
| Gateway.ShellyService.constructor | src/main/java/com/yh/sbps/device/service/ShellyService.java:46-60 | no subscriptions, an empty cache and empty traces |
| Gateway.ShellyService.RefreshDeviceCache | src/main/java/com/yh/sbps/device/service/ShellyService.java:335-341 | the device is cached under its prefix and nothing else changes |
| Gateway.ShellyService.RefreshSystemState | src/main/java/com/yh/sbps/device/service/SystemStateCache.java:59-92 | the scope is refreshed as `RefreshState` does, and every device of a present roster is then cached under its prefix, the later of two with one prefix winning; the grid flags are kept for a present state and lose the scope for an absent one, and the blackout sessions are untouched |
| Gateway.ShellyService.GetDeviceByMqttPrefix | src/main/java/com/yh/sbps/device/service/ShellyService.java:218-241 | the loop's answer and the new cache are `GetDevice` |
| Gateway.ShellyService.FindDeviceByTopic | src/main/java/com/yh/sbps/device/service/ShellyService.java:152-173 | the answer and the new cache are `FindDevice` |
| Gateway.ShellyService.SendCommand | src/main/java/com/yh/sbps/device/service/ShellyService.java:243-264 | the cache and the outbox become `Command` of the old ones: nothing for an unknown device or one without a provider, else its adapter's toggle message |
| Gateway.ShellyService.ForwardActions | src/main/java/com/yh/sbps/device/service/BalancingService.java:451-470 | the commands of the actions are sent in order, as `Replay` |
| Gateway.ShellyService.HandleOnlineStatusInternal | src/main/java/com/yh/sbps/device/service/ShellyService.java:98-115 | the flag goes to the realtime cache and the store; a grid monitor's flag becomes its scope's grid status, in the grid flags and the cached state, and opens or closes the scope's blackout session as `GridStep` does, with the snapshot read from the updated realtime cache; otherwise the system state is unchanged |
| Gateway.ShellyService.HandleDeviceStatusInternal | src/main/java/com/yh/sbps/device/service/ShellyService.java:117-146 | the status is cached and stored; a grid monitor's voltage makes a `GridStep` to "above 100 V" (flag, cached state, blackout session) only when that verdict differs from the record, and otherwise leaves the system state unchanged; a power monitor runs one `Balance` pass on its own prefix and sends exactly that pass's commands; other devices leave the balancer alone |
| Gateway.ShellyService.UpdateGridFromStatus | src/main/java/com/yh/sbps/device/service/ShellyService.java:119-135 | a grid monitor's voltage changes its grid flag, to "above 100 V", exactly when that verdict differs from the record, with the cached state and blackout session following `GridStep`; otherwise the system state is untouched |
| Gateway.ShellyService.BalanceAndForward | src/main/java/com/yh/sbps/device/service/ShellyService.java:137-143 | the balancer takes one `Balance` pass for the monitor's prefix and exactly that pass's commands are sent, in order |
| Gateway.ShellyService.HandleDeviceEventInternal | src/main/java/com/yh/sbps/device/service/ShellyService.java:148-150 | the event goes to the store only |
| Gateway.ShellyService.HandleMqttMessage | src/main/java/com/yh/sbps/device/service/ShellyService.java:72-96 | an unresolved device or provider changes nothing beyond the cache refill; an online message is cached and stored, makes a grid monitor's `GridStep` and leaves the system state of any other device unchanged, and ends the message; an unparsable payload changes nothing; otherwise the status handler and then the event handler write the store |
| Gateway.ShellyService.HandlePayload | src/main/java/com/yh/sbps/device/service/ShellyService.java:90-92 | the adapter's status document, then its event document, are written to the store; without a status the caches, the balancer and the outbox are untouched |
| Gateway.ShellyService.SubscribeForDevice | src/main/java/com/yh/sbps/device/service/ShellyService.java:266-313 | the subscriptions and cache become `Subscribe`: no change for an empty prefix, an unknown provider or an existing subscription |
| Gateway.ShellyService.UnsubscribeFromDevice | src/main/java/com/yh/sbps/device/service/ShellyService.java:315-333 | the subscriptions and cache become `Unsubscribe`; the overload timestamp is cleared only when a subscription existed |
| Gateway.ShellyService.UnsubscribeForAllDevices | src/main/java/com/yh/sbps/device/service/ShellyService.java:343-345 | no subscription remains; the subscribed prefixes leave the cache and lose their overload timestamps |

## Left out

- MQTT transport. The Paho adapters, channels, TLS, reconnects, and starting and stopping an adapter are not modelled. A subscription is the list of topics the adapter would listen on. Published messages are appended to the `outbox` trace. Failure to start an adapter is not modelled.
- HTTP collaborators. `ApiServiceClient` answers become inputs:
  - the scope's state is an `Option<SystemState>`;
  - the device inventory is a parameter `inventory`, constant within one message.
  - A failed inventory fetch behaves as an empty inventory, as the client returns an empty list on error.
  - The notifications the client sends (device updates, including the one in `performPostProcessing`, and balancer actions) are not modelled.
- Persistence. `DeviceStatusService`, the repositories and the entities are not modelled. The writes the gateway makes to the durable store are the `store` trace; the status write of `performPostProcessing` is made at the end of the status handler rather than asynchronously. The balancer's own control-state writes to the durable store are not recorded.
- `SystemLogService`, `DeviceController`, `DeviceStartup`, the configuration classes and security are not modelled.
- Concurrency. `@Async` and the concurrent maps are modelled as single-threaded updates. Iteration order over a concurrent map is not modelled: `UnsubscribeForAllDevices` is proved for every order.
- Jackson. A status document is a record of the optional fields the core reads, holding the values Jackson's accessors return. `asDouble` of a non-numeric "voltage" (which reads as 0.0) is not modelled.
- A payload that is not valid JSON is the `parsed == None` input.
- Numbers and time:
  - `double` arithmetic is exact `real` arithmetic, with no rounding.
  - The saturation of the `(int)` cast for values beyond the `int` range is not modelled.
  - Java `int` sums of wattages (the power freed by sacrifices, the wattage restored) are unbounded integers here; wrap-around past 2^31 W is not modelled.
  - `LocalDateTime.now()` is a whole-seconds parameter `now`.
- Letter case. Case-insensitive comparison folds ASCII letters only.
- Identity. `DeviceDto` identity (`contains` and `remove` on the sacrificial list) is value equality of device records.
- Nulls. Device prefix, id, priority and type are never null. The null-dereference failures that would follow are not modelled.
- Missing provider:
  - In `handleMqttMessage` and `sendCommand` the resulting exception is caught, which the model gives as "no effect".
  - In `subscribeForDevice` it propagates, but only before any change, so the model gives it as a no-op.
- Exceptions inside a pass. `balancePower` catches exceptions from its own steps. A sacrificed device without a wattage therefore ends the pass right after it is switched off (`Aborted`). The gateway still forwards the commands recorded up to that point.
- Ordering. Inside a pass the source publishes each command as it switches a device. The model records the actions and publishes their commands right after the pass. The two orders give the same messages and the same final state, because the pass never reads the device cache or the outbox.
- Stale data classes. Several data classes in the repository lack fields the services use. The model follows the services: the wattage, type, provider, prevent-downtime and non-essential flags, maximum downtime, margin, power-save and cooldown settings, grid flag, control state and disable time.
- Gateway.ShellyService.HandleMqttMessage: when the adapter hands over a status, the contract states only the store writes. The effect on the caches, the grid flag, the blackout sessions and the balancer is stated by `HandleDeviceStatusInternal`, which it calls.
- Balancing.Restore: its own contract states only the cooldown gate. What happens after the cooldown is stated by `RestoreAfterCooldown`, `RestorePlan` and `RestoreStop`.
- Balancing.Balance: its own contract states only the early stops. Whole passes are stated by `BalanceCalm`, `BalanceRestores`, `BalanceClearsCooldown`, `BalanceQuiet`, `BalanceDefaults`, `BalanceRecordsOverload` and `PowerSaveLimitOverloads`. The steps it chains are stated by `PowerSaveShed`'s lemmas, the overload lemmas, `ForceOnDeviceDirect`, `ForceOnAllOrNothing` and `RestoreAfterCooldown`.
- Gateway.TasmotaPrefixFromTopic: states agreement with the Tasmota adapter's reading only when a prefix is found. The marker test on the first piece is stated in its body and used by `NoTasmotaReading`.
