/**
 * The power-balancing engine. One pass runs on every power-monitor reading:
 * read the total power, resolve the effective limit, shed non-essential
 * loads in power-save mode, shed on overload, force on devices whose allowed
 * downtime has run out (sacrificing others when needed), and restore devices
 * the balancer switched off once the overload cooldown has passed.
 *
 * The first half of the module states each step as a function of an
 * `Engine` value (the realtime status map, the overload timestamps and the
 * trace of balancer actions); the class at the end runs the same steps with
 * loops over the live caches and is proved to agree with those functions.
 */
module Balancing {
  import opened Types
  import opened RealtimeCache
  import opened DeviceOrder
  import SystemStateCache

  const DefaultPowerOnMarginWatts := 100

  /**
   * One switching decision: the command sent to the device's prefix and the
   * notification "ENABLED_BY_BALANCER" or "DISABLED_BY_BALANCER" for it.
   */
  datatype BalancerAction = BalancerAction(deviceId: DeviceId, deviceName: string, mqttPrefix: string, on: bool)

  function ActionName(a: BalancerAction): string
  {
    if a.on then "ENABLED_BY_BALANCER" else "DISABLED_BY_BALANCER"
  }

  /** What a pass reads and writes: statuses, overload timestamps per prefix, and the action trace. */
  datatype Engine = Engine(statuses: StatusMap, cooldown: map<string, Time>, actions: seq<BalancerAction>)

  /** A step's result: the new engine and the power figure the next step starts from. */
  datatype Stepped = Stepped(engine: Engine, power: real)

  /** The force-on step either runs to its end or stops the whole pass on an exception. */
  datatype Outcome = Continue(engine: Engine, power: real) | Aborted(engine: Engine)

  // ---------------------------------------------------------------- readings

  /** `extractPowerConsumption`: "apower" if present, else "power", else nothing. */
  function ExtractPower(reading: Json): (r: Option<real>)
    ensures r.None? <==> reading.apower.None? && reading.power.None?
    ensures reading.apower.Some? ==> r == reading.apower
    ensures reading.apower.None? ==> r == reading.power
  {
    if reading.apower.Some? then reading.apower else reading.power
  }

  /** `isDeviceOnlineAndOn`: last seen online and the last status says "output": true. */
  predicate OnlineAndOn(statuses: StatusMap, id: DeviceId)
  {
    && id in statuses
    && statuses[id].lastOnline == Some(true)
    && statuses[id].lastStatusJson.Some?
    && statuses[id].lastStatusJson.value.output == Some(true)
  }

  /** `getActualPower`: "apower" of the last status, 0 when there is none. */
  function ActualPower(statuses: StatusMap, id: DeviceId): real
  {
    if id in statuses && statuses[id].lastStatusJson.Some? && statuses[id].lastStatusJson.value.apower.Some?
    then statuses[id].lastStatusJson.value.apower.value
    else 0.0
  }

  /** `isDeviceDisabledByBalancer`. */
  predicate DisabledByBalancer(statuses: StatusMap, id: DeviceId)
  {
    id in statuses && statuses[id].controlState == Some(ControlState.DisabledByBalancer)
  }

  /** `ChronoUnit.MINUTES.between` on whole seconds: the difference in minutes, truncated toward zero. */
  function MinutesBetween(from: Time, to: Time): (r: int)
    ensures to >= from ==> 0 <= r && r * 60 <= to - from < (r + 1) * 60
    ensures to < from ==> r <= 0 && (-r) * 60 <= from - to < (-r + 1) * 60
  {
    if to >= from then (to - from) / 60 else -((from - to) / 60)
  }

  /**
   * `hasDowntimeExpired`: a positive maximum downtime is configured, the
   * balancer recorded when it switched the device off, and at least that
   * many whole minutes have passed.
   */
  predicate DowntimeExpired(statuses: StatusMap, d: Device, now: Time)
  {
    && d.maxDowntimeMinutes.Some?
    && d.maxDowntimeMinutes.value > 0
    && d.id in statuses
    && statuses[d.id].balancerDisabledAt.Some?
    && MinutesBetween(statuses[d.id].balancerDisabledAt.value, now) >= d.maxDowntimeMinutes.value
  }

  /** Java's `(int)` cast of a double: truncation toward zero (saturation is not modelled). */
  function Truncate(x: real): (r: int)
    ensures x >= 0.0 ==> r as real <= x < r as real + 1.0
    ensures x < 0.0 ==> r as real - 1.0 < x <= r as real
  {
    if x >= 0.0 then x.Floor else -((-x).Floor)
  }

  // ---------------------------------------------------------------- settings

  predicate PowerSaveMode(settings: Settings, gridAvailable: bool)
  {
    settings.vacationModeEnabled || !gridAvailable
  }

  predicate UsesPowerSaveLimit(settings: Settings, gridAvailable: bool)
  {
    PowerSaveMode(settings, gridAvailable) && settings.powerSaveLimitWatts.Some? && settings.powerSaveLimitWatts.value > 0
  }

  /** The power-save limit when power-save mode is on and that limit is positive; the main limit otherwise. */
  function EffectiveLimit(settings: Settings, gridAvailable: bool): (r: int)
    requires settings.powerLimitWatts.Some?
    ensures UsesPowerSaveLimit(settings, gridAvailable) ==> r == settings.powerSaveLimitWatts.value
    ensures !UsesPowerSaveLimit(settings, gridAvailable) ==> r == settings.powerLimitWatts.value
  {
    if UsesPowerSaveLimit(settings, gridAvailable) then settings.powerSaveLimitWatts.value
    else settings.powerLimitWatts.value
  }

  function PowerOnMargin(settings: Settings): (r: int)
    ensures settings.powerOnMarginWatts.None? ==> r == DefaultPowerOnMarginWatts
    ensures settings.powerOnMarginWatts.Some? ==> r == settings.powerOnMarginWatts.value
  {
    if settings.powerOnMarginWatts.Some? then settings.powerOnMarginWatts.value else DefaultPowerOnMarginWatts
  }

  function CooldownSeconds(settings: Settings): (r: int)
    ensures settings.overloadCooldownSeconds.None? ==> r == 0
    ensures settings.overloadCooldownSeconds.Some? ==> r == settings.overloadCooldownSeconds.value
  {
    if settings.overloadCooldownSeconds.Some? then settings.overloadCooldownSeconds.value else 0
  }

  // ---------------------------------------------------------------- switching

  function ActionFor(d: Device, on: bool): BalancerAction
  {
    BalancerAction(d.id, d.name, d.mqttPrefix, on)
  }

  function StateFor(on: bool): ControlState
  {
    if on then ControlState.Enabled else ControlState.DisabledByBalancer
  }

  /**
   * `turnOnDevice` / `turnOffDevice`: record the control state (and, for
   * "off", the time) and emit the action. The last status is left as it
   * was, so a device just switched off still reads as online and on.
   */
  function Switch(e: Engine, d: Device, on: bool, now: Time): Engine
  {
    Engine(WithControlState(e.statuses, d.id, StateFor(on), now), e.cooldown, e.actions + [ActionFor(d, on)])
  }

  /** The same switch applied to each device in turn. */
  function SwitchAll(e: Engine, ds: seq<Device>, on: bool, now: Time): Engine
    decreases |ds|
  {
    if ds == [] then e else SwitchAll(Switch(e, ds[0], on, now), ds[1..], on, now)
  }

  function Actions(ds: seq<Device>, on: bool): (r: seq<BalancerAction>)
    ensures |r| == |ds|
    ensures forall i :: 0 <= i < |ds| ==> r[i] == ActionFor(ds[i], on)
  {
    if ds == [] then [] else [ActionFor(ds[0], on)] + Actions(ds[1..], on)
  }

  function Ids(ds: seq<Device>): set<DeviceId>
  {
    set d | d in ds :: d.id
  }

  /** Switching never touches the telemetry the balancer reads. */
  lemma SwitchKeepsTelemetry(e: Engine, d: Device, on: bool, now: Time, id: DeviceId)
    ensures OnlineAndOn(Switch(e, d, on, now).statuses, id) == OnlineAndOn(e.statuses, id)
    ensures ActualPower(Switch(e, d, on, now).statuses, id) == ActualPower(e.statuses, id)
  {
  }

  /** Switching a list of devices appends one action per device, in list order, and keeps the timestamps. */
  lemma {:induction false} SwitchAllTrace(e: Engine, ds: seq<Device>, on: bool, now: Time)
    ensures SwitchAll(e, ds, on, now).cooldown == e.cooldown
    ensures SwitchAll(e, ds, on, now).actions == e.actions + Actions(ds, on)
    decreases |ds|
  {
    if ds != [] {
      SwitchAllTrace(Switch(e, ds[0], on, now), ds[1..], on, now);
      assert Actions(ds, on) == [ActionFor(ds[0], on)] + Actions(ds[1..], on);
    }
  }

  /** Switching a list of devices leaves the telemetry the balancer reads as it was. */
  lemma {:induction false} SwitchAllTelemetry(e: Engine, ds: seq<Device>, on: bool, now: Time, id: DeviceId)
    ensures OnlineAndOn(SwitchAll(e, ds, on, now).statuses, id) == OnlineAndOn(e.statuses, id)
    ensures ActualPower(SwitchAll(e, ds, on, now).statuses, id) == ActualPower(e.statuses, id)
    decreases |ds|
  {
    if ds != [] {
      SwitchKeepsTelemetry(e, ds[0], on, now, id);
      SwitchAllTelemetry(Switch(e, ds[0], on, now), ds[1..], on, now, id);
    }
  }

  /**
   * Switching a list of devices gives each of them the new control state
   * (keeping the disable-time invariant) and leaves every other record as it was.
   */
  lemma {:induction false} SwitchAllControl(e: Engine, ds: seq<Device>, on: bool, now: Time)
    ensures SwitchAll(e, ds, on, now).statuses.Keys == e.statuses.Keys + Ids(ds)
    ensures forall d :: d in ds ==>
              && SwitchAll(e, ds, on, now).statuses[d.id].controlState == Some(StateFor(on))
              && ControlConsistent(SwitchAll(e, ds, on, now).statuses[d.id])
    ensures forall id :: id in e.statuses && id !in Ids(ds) ==> SwitchAll(e, ds, on, now).statuses[id] == e.statuses[id]
    decreases |ds|
  {
    if ds != [] {
      var e1 := Switch(e, ds[0], on, now);
      SwitchAllControl(e1, ds[1..], on, now);
      assert Ids(ds) == {ds[0].id} + Ids(ds[1..]) by {
        assert forall d :: d in ds <==> d == ds[0] || d in ds[1..];
      }
    }
  }

  // ---------------------------------------------------------------- filters and sums

  /** The actual power of the listed devices, summed. */
  function SumActual(statuses: StatusMap, ds: seq<Device>): real
  {
    if ds == [] then 0.0 else SumActual(statuses, ds[..|ds| - 1]) + ActualPower(statuses, ds[|ds| - 1].id)
  }

  /** The configured wattage of the listed devices, summed (a missing wattage counts 0). */
  function SumWattage(ds: seq<Device>): int
  {
    if ds == [] then 0 else SumWattage(ds[..|ds| - 1]) + WattageOrZero(ds[|ds| - 1])
  }

  lemma SumActualStep(statuses: StatusMap, ds: seq<Device>, i: nat)
    requires i < |ds|
    ensures SumActual(statuses, ds[..i + 1]) == SumActual(statuses, ds[..i]) + ActualPower(statuses, ds[i].id)
  {
    assert ds[..i + 1][..i] == ds[..i];
  }

  lemma SumWattageStep(ds: seq<Device>, i: nat)
    requires i < |ds|
    ensures SumWattage(ds[..i + 1]) == SumWattage(ds[..i]) + WattageOrZero(ds[i])
  {
    assert ds[..i + 1][..i] == ds[..i];
  }

  // ---------------------------------------------------------------- step 4: power-save shedding

  /** Non-essential switchable devices that are online and on. */
  predicate PowerSaveSheddable(statuses: StatusMap, d: Device)
  {
    d.nonEssential && d.deviceType == SwitchableAppliance && OnlineAndOn(statuses, d.id)
  }

  function PowerSaveCandidates(statuses: StatusMap, devices: seq<Device>): (r: seq<Device>)
    ensures |r| <= |devices|
  {
    if devices == [] then []
    else (if PowerSaveSheddable(statuses, devices[0]) then [devices[0]] else []) + PowerSaveCandidates(statuses, devices[1..])
  }
  lemma {:induction false} PowerSaveCandidatesMembers(statuses: StatusMap, devices: seq<Device>, d: Device)
    ensures d in PowerSaveCandidates(statuses, devices) <==> d in devices && PowerSaveSheddable(statuses, d)
  {
    if devices != [] {
      PowerSaveCandidatesMembers(statuses, devices[1..], d);
      assert d in devices <==> d == devices[0] || d in devices[1..];
    }
  }


  /** The devices the later steps manage in power-save mode. */
  function Essential(devices: seq<Device>): (r: seq<Device>)
    ensures |r| <= |devices|
    ensures forall d :: d in r <==> d in devices && !d.nonEssential
  {
    if devices == [] then []
    else (if !devices[0].nonEssential then [devices[0]] else []) + Essential(devices[1..])
  }

  /** `handlePowerSaveShed`: switch every candidate off and subtract its actual power. */
  function PowerSaveShed(e: Engine, power: real, devices: seq<Device>, now: Time): Stepped
  {
    var c := PowerSaveCandidates(e.statuses, devices);
    Stepped(SwitchAll(e, c, false, now), power - SumActual(e.statuses, c))
  }
  /** One turn of the power-save loop: switching off the next candidate keeps the loop's invariants. */
  lemma {:induction false} PowerSaveStep(e0: Engine, before: Engine, cs: seq<Device>, i: nat, now: Time)
    requires i < |cs|
    requires SwitchAll(before, cs[i..], false, now) == SwitchAll(e0, cs, false, now)
    requires forall id :: ActualPower(before.statuses, id) == ActualPower(e0.statuses, id)
    ensures var after := Switch(before, cs[i], false, now);
      && SwitchAll(after, cs[i + 1..], false, now) == SwitchAll(e0, cs, false, now)
      && (forall id :: ActualPower(after.statuses, id) == ActualPower(e0.statuses, id))
      && SumActual(e0.statuses, cs[..i + 1]) == SumActual(e0.statuses, cs[..i]) + ActualPower(after.statuses, cs[i].id)
  {
    assert cs[i..][0] == cs[i] && cs[i..][1..] == cs[i + 1..];
    forall id ensures ActualPower(Switch(before, cs[i], false, now).statuses, id) == ActualPower(before.statuses, id) {
      SwitchKeepsTelemetry(before, cs[i], false, now, id);
    }
    SumActualStep(e0.statuses, cs, i);
  }


  /**
   * Every non-essential, switchable device that is online and on ends
   * DISABLED_BY_BALANCER with an action each; nothing else is touched; the
   * power drops by exactly their actual power.
   */
  lemma PowerSaveShedEffect(e: Engine, power: real, devices: seq<Device>, now: Time)
    ensures var r := PowerSaveShed(e, power, devices, now);
            var c := PowerSaveCandidates(e.statuses, devices);
            && r.power == power - SumActual(e.statuses, c)
            && r.engine.actions == e.actions + Actions(c, false)
            && r.engine.cooldown == e.cooldown
            && (forall d :: d in devices && d.nonEssential && d.deviceType == SwitchableAppliance
                            && OnlineAndOn(e.statuses, d.id) ==>
                  d.id in r.engine.statuses
                  && r.engine.statuses[d.id].controlState == Some(ControlState.DisabledByBalancer))
            && (forall id :: id in e.statuses && id !in Ids(c) ==>
                  id in r.engine.statuses && r.engine.statuses[id] == e.statuses[id])
  {
    var c := PowerSaveCandidates(e.statuses, devices);
    var r := SwitchAll(e, c, false, now);
    SwitchAllTrace(e, c, false, now);
    SwitchAllControl(e, c, false, now);
    forall d | d in devices && d.nonEssential && d.deviceType == SwitchableAppliance && OnlineAndOn(e.statuses, d.id)
      ensures r.statuses[d.id].controlState == Some(ControlState.DisabledByBalancer)
    {
      PowerSaveCandidatesMembers(e.statuses, devices, d);
    }
    assert PowerSaveShed(e, power, devices, now) == Stepped(r, power - SumActual(e.statuses, c));
  }

  // ---------------------------------------------------------------- step 5: overload

  /** Switchable devices that are online and on and draw power. */
  predicate Sheddable(statuses: StatusMap, d: Device)
  {
    d.deviceType == SwitchableAppliance && OnlineAndOn(statuses, d.id) && ActualPower(statuses, d.id) > 0.0
  }

  function ShedCandidates(statuses: StatusMap, devices: seq<Device>): seq<Device>
  {
    if devices == [] then []
    else (if Sheddable(statuses, devices[0]) then [devices[0]] else []) + ShedCandidates(statuses, devices[1..])
  }
  lemma {:induction false} ShedCandidatesMembers(statuses: StatusMap, devices: seq<Device>, d: Device)
    ensures d in ShedCandidates(statuses, devices) <==> d in devices && Sheddable(statuses, d)
  {
    if devices != [] {
      ShedCandidatesMembers(statuses, devices[1..], d);
      assert d in devices <==> d == devices[0] || d in devices[1..];
    }
  }


  /** The shedding order: highest priority value first, ties by ascending id. */
  function ShedOrder(statuses: StatusMap, devices: seq<Device>): seq<Device>
  {
    SortBy(PriorityDescendingThenId, ShedCandidates(statuses, devices))
  }

  /** The shedding order holds exactly the candidates, highest priority value first, ties by ascending id. */
  lemma ShedOrderSorted(statuses: StatusMap, devices: seq<Device>)
    ensures Sorted(PriorityDescendingThenId, ShedOrder(statuses, devices))
    ensures multiset(ShedOrder(statuses, devices)) == multiset(ShedCandidates(statuses, devices))
  {
    SortBySorted(PriorityDescendingThenId, ShedCandidates(statuses, devices));
  }

  /**
   * The shedding loop: stop once the power shed reaches `toShed`, otherwise
   * switch the next device off and count the actual power it drew when the
   * list was built.
   */
  function ShedLoop(e: Engine, statuses: StatusMap, c: seq<Device>, toShed: real, shed: real, now: Time): Stepped
    decreases |c|
  {
    if c == [] || shed >= toShed then Stepped(e, shed)
    else ShedLoop(Switch(e, c[0], false, now), statuses, c[1..], toShed, shed + ActualPower(statuses, c[0].id), now)
  }

  /** One turn of the shedding loop at position `i`. */
  lemma ShedLoopStep(e: Engine, statuses: StatusMap, c: seq<Device>, i: nat, toShed: real, shed: real, now: Time)
    requires i < |c| && shed < toShed
    ensures ShedLoop(e, statuses, c[i..], toShed, shed, now) ==
            ShedLoop(Switch(e, c[i], false, now), statuses, c[i + 1..], toShed, shed + ActualPower(statuses, c[i].id), now)
  {
    assert c[i..][0] == c[i] && c[i..][1..] == c[i + 1..];
  }

  /** The length of the shortest prefix of `c`, from `i` on, whose power reaches `toShed` (all of `c` if none). */
  function ShedCountFrom(statuses: StatusMap, c: seq<Device>, toShed: real, i: nat): (k: nat)
    requires i <= |c|
    decreases |c| - i
    ensures i <= k <= |c|
    ensures k == |c| || SumActual(statuses, c[..k]) >= toShed
    ensures forall j :: i <= j < k ==> SumActual(statuses, c[..j]) < toShed
  {
    if i == |c| || SumActual(statuses, c[..i]) >= toShed then i
    else ShedCountFrom(statuses, c, toShed, i + 1)
  }

  function ShedCount(statuses: StatusMap, c: seq<Device>, toShed: real): (k: nat)
    ensures k <= |c|
    ensures k == |c| || SumActual(statuses, c[..k]) >= toShed
    ensures forall j :: 0 <= j < k ==> SumActual(statuses, c[..j]) < toShed
  {
    ShedCountFrom(statuses, c, toShed, 0)
  }

  /** The loop, started at position `i` with the power of the first `i` devices, sheds exactly up to the shortest sufficient prefix. */
  lemma {:induction false} ShedLoopFrom(e: Engine, statuses: StatusMap, c: seq<Device>, toShed: real, i: nat, now: Time)
    requires i <= ShedCount(statuses, c, toShed)
    ensures ShedLoop(e, statuses, c[i..], toShed, SumActual(statuses, c[..i]), now) ==
            Stepped(SwitchAll(e, c[i..ShedCount(statuses, c, toShed)], false, now),
                    SumActual(statuses, c[..ShedCount(statuses, c, toShed)]))
    decreases |c| - i
  {
    var k := ShedCount(statuses, c, toShed);
    if i < k {
      assert SumActual(statuses, c[..i]) < toShed;
      ShedLoopTurn(e, statuses, c, i, k, toShed, now);
      ShedLoopFrom(Switch(e, c[i], false, now), statuses, c, toShed, i + 1, now);
    } else {
      assert c[i..k] == [];
      assert c[i..] == [] || SumActual(statuses, c[..i]) >= toShed;
    }
  }

  /** One turn of the shedding loop, with the devices switched so far counted by their sum. */
  lemma ShedLoopTurn(e: Engine, statuses: StatusMap, c: seq<Device>, i: nat, k: nat, toShed: real, now: Time)
    requires i < k <= |c| && SumActual(statuses, c[..i]) < toShed
    ensures ShedLoop(e, statuses, c[i..], toShed, SumActual(statuses, c[..i]), now) ==
            ShedLoop(Switch(e, c[i], false, now), statuses, c[i + 1..], toShed, SumActual(statuses, c[..i + 1]), now)
    ensures SwitchAll(e, c[i..k], false, now) == SwitchAll(Switch(e, c[i], false, now), c[i + 1..k], false, now)
  {
    ShedLoopStep(e, statuses, c, i, toShed, SumActual(statuses, c[..i]), now);
    SumActualStep(statuses, c, i);
    assert c[i..k][0] == c[i] && c[i..k][1..] == c[i + 1..k];
  }

  /** From the start, the loop sheds exactly the shortest sufficient prefix. */
  lemma ShedLoopPrefix(e: Engine, statuses: StatusMap, c: seq<Device>, toShed: real, now: Time)
    ensures var k := ShedCount(statuses, c, toShed);
            ShedLoop(e, statuses, c, toShed, 0.0, now) == Stepped(SwitchAll(e, c[..k], false, now), SumActual(statuses, c[..k]))
  {
    var k := ShedCount(statuses, c, toShed);
    ShedLoopFrom(e, statuses, c, toShed, 0, now);
    assert c[0..] == c && c[..0] == [] && c[0..k] == c[..k];
  }

  /**
   * `handleOverload`: at or under the limit nothing happens. Over it, the
   * timestamp is recorded and the shortest prefix of the shedding order
   * whose actual power covers the excess (or the whole order) is switched
   * off; the result is the power minus what was shed.
   */
  function Overload(e: Engine, power: real, limit: int, devices: seq<Device>, prefix: string, now: Time): (r: Stepped)
    ensures power <= limit as real ==> r == Stepped(e, power)
  {
    if power <= limit as real then Stepped(e, power)
    else
      var c := ShedOrder(e.statuses, devices);
      var shed := ShedLoop(e.(cooldown := e.cooldown[prefix := now]), e.statuses, c, power - limit as real, 0.0, now);
      Stepped(shed.engine, power - shed.power)
  }

  /** Over the limit, the overload step is the shedding loop run from a zero count with the timestamp recorded. */
  lemma OverloadByLoop(e: Engine, power: real, limit: int, devices: seq<Device>, prefix: string, now: Time)
    requires power > limit as real
    ensures var shed := ShedLoop(e.(cooldown := e.cooldown[prefix := now]), e.statuses, ShedOrder(e.statuses, devices),
                                 power - limit as real, 0.0, now);
            Overload(e, power, limit, devices, prefix, now) == Stepped(shed.engine, power - shed.power)
  {
  }

  /** Over the limit, the devices shed are the shortest sufficient prefix of the shedding order. */
  lemma OverloadShedsShortestPrefix(e: Engine, power: real, limit: int, devices: seq<Device>, prefix: string, now: Time)
    requires power > limit as real
    ensures var c := ShedOrder(e.statuses, devices);
            var k := ShedCount(e.statuses, c, power - limit as real);
            var r := Overload(e, power, limit, devices, prefix, now);
            && r.engine == SwitchAll(e.(cooldown := e.cooldown[prefix := now]), c[..k], false, now)
            && r.engine.cooldown == e.cooldown[prefix := now]
            && r.engine.actions == e.actions + Actions(c[..k], false)
            && r.power == power - SumActual(e.statuses, c[..k])
            && (k == |c| || r.power <= limit as real)
            && (forall j :: 0 <= j < k ==> power - SumActual(e.statuses, c[..j]) > limit as real)
  {
    var e1 := e.(cooldown := e.cooldown[prefix := now]);
    var c := ShedOrder(e.statuses, devices);
    var toShed := power - limit as real;
    var k := ShedCount(e.statuses, c, toShed);
    var shed := ShedLoop(e1, e.statuses, c, toShed, 0.0, now);
    ShedLoopSwitchesPrefix(e1, e.statuses, c, toShed, now);
    assert shed.engine == SwitchAll(e1, c[..k], false, now) && shed.engine.cooldown == e1.cooldown;
    assert shed.engine.actions == e.actions + Actions(c[..k], false);
    assert shed.power == SumActual(e.statuses, c[..k]);
    OverloadByLoop(e, power, limit, devices, prefix, now);
    assert Overload(e, power, limit, devices, prefix, now) == Stepped(shed.engine, power - shed.power);
    forall j | 0 <= j < k
      ensures power - SumActual(e.statuses, c[..j]) > limit as real
    {
      assert SumActual(e.statuses, c[..j]) < power - limit as real;
    }
  }

  /** From a zero count, the shedding loop switches off the shortest sufficient prefix and records one action per device. */
  lemma ShedLoopSwitchesPrefix(e: Engine, statuses: StatusMap, c: seq<Device>, toShed: real, now: Time)
    ensures var k := ShedCount(statuses, c, toShed);
            var r := ShedLoop(e, statuses, c, toShed, 0.0, now);
            && r.engine == SwitchAll(e, c[..k], false, now)
            && r.engine.cooldown == e.cooldown
            && r.engine.actions == e.actions + Actions(c[..k], false)
            && r.power == SumActual(statuses, c[..k])
  {
    var k := ShedCount(statuses, c, toShed);
    ShedLoopPrefix(e, statuses, c, toShed, now);
    SwitchAllTrace(e, c[..k], false, now);
  }

  // ---------------------------------------------------------------- list lemmas

  /** The devices with a positive configured wattage, in order. */
  function Rated(ds: seq<Device>): seq<Device>
  {
    if ds == [] then []
    else (if WattageOrZero(ds[0]) > 0 then [ds[0]] else []) + Rated(ds[1..])
  }

  lemma {:induction false} RatedMembers(ds: seq<Device>, d: Device)
    ensures d in Rated(ds) <==> d in ds && WattageOrZero(d) > 0
  {
    if ds != [] {
      RatedMembers(ds[1..], d);
      assert d in ds <==> d == ds[0] || d in ds[1..];
    }
  }

  lemma {:induction false} RatedConcat(a: seq<Device>, b: seq<Device>)
    ensures Rated(a + b) == Rated(a) + Rated(b)
  {
    if a != [] {
      assert (a + b)[1..] == a[1..] + b;
      RatedConcat(a[1..], b);
    } else {
      assert a + b == b;
    }
  }

  lemma {:induction false} SumWattageConcat(a: seq<Device>, b: seq<Device>)
    ensures SumWattage(a + b) == SumWattage(a) + SumWattage(b)
    decreases |b|
  {
    if b == [] {
      assert a + b == a;
    } else {
      assert (a + b)[..|a + b| - 1] == a + b[..|b| - 1];
      SumWattageConcat(a, b[..|b| - 1]);
    }
  }

  lemma {:induction false} SwitchAllConcat(e: Engine, a: seq<Device>, b: seq<Device>, on: bool, now: Time)
    ensures SwitchAll(e, a + b, on, now) == SwitchAll(SwitchAll(e, a, on, now), b, on, now)
    decreases |a|
  {
    if a == [] {
      assert a + b == b;
    } else {
      assert (a + b)[1..] == a[1..] + b;
      SwitchAllConcat(Switch(e, a[0], on, now), a[1..], b, on, now);
    }
  }

  /** The two appliances of the overload example: 300 W each, at priorities 1 and 5, both online, on and enabled. */
  const ExampleA := Device(1, "Device A", "mqtt_device_A", SwitchableAppliance, Some(Shelly), 1, Some(300), false, false, None, None)
  const ExampleB := Device(2, "Device B", "mqtt_device_B", SwitchableAppliance, Some(Shelly), 5, Some(300), false, false, None, None)
  const ExampleStatuses: StatusMap :=
    var on := EmptyJson.(output := Some(true), apower := Some(300.0));
    map[1 := DeviceStatus(1, None, Some(on), Some(true), None, Some(ControlState.Enabled), None),
        2 := DeviceStatus(2, None, Some(on), Some(true), None, Some(ControlState.Enabled), None)]

  /** In the example, the priority-5 device comes first in the shedding order. */
  lemma ExampleShedOrder()
    ensures ShedOrder(ExampleStatuses, [ExampleA, ExampleB]) == [ExampleB, ExampleA]
  {
    var a, b, statuses := ExampleA, ExampleB, ExampleStatuses;
    assert [a, b][1..] == [b] && [b][1..] == [];
    assert Sheddable(statuses, a) && Sheddable(statuses, b);
    assert ShedCandidates(statuses, [b]) == [b] + ShedCandidates(statuses, []);
    assert ShedCandidates(statuses, [a, b]) == [a, b];
    assert SortBy(PriorityDescendingThenId, [b]) == [b];
  }

  /**
   * Two appliances drawing 300 W each, at priorities 1 and 5, under a
   * 1000 W limit with a 1200 W reading: only the priority-5 device is
   * switched off, the timestamp is recorded, and 900 W remain.
   */
  lemma OverloadShedsLowestPriority(now: Time)
    ensures var r := Overload(Engine(ExampleStatuses, map[], []), 1200.0, 1000, [ExampleA, ExampleB], "monitor/device1", now);
            && r.power == 900.0
            && r.engine.actions == [ActionFor(ExampleB, false)]
            && r.engine.cooldown == map["monitor/device1" := now]
            && 2 in r.engine.statuses && r.engine.statuses[2].controlState == Some(ControlState.DisabledByBalancer)
            && 1 in r.engine.statuses && r.engine.statuses[1] == ExampleStatuses[1]
  {
    var a, b, statuses := ExampleA, ExampleB, ExampleStatuses;
    ExampleShedOrder();
    var e0 := Engine(statuses, map[], []);
    var e1 := Engine(statuses, map["monitor/device1" := now], []);
    var off := Switch(e1, b, false, now);
    assert ShedLoop(e1, statuses, [b, a], 200.0, 0.0, now) == Stepped(off, 300.0) by {
      assert [b, a][1..] == [a];
      assert ActualPower(statuses, b.id) == 300.0;
    }
    OverloadByLoop(e0, 1200.0, 1000, [a, b], "monitor/device1", now);
    assert Overload(e0, 1200.0, 1000, [a, b], "monitor/device1", now) == Stepped(off, 900.0);
    ControlStateUpdate(statuses, 2, ControlState.DisabledByBalancer, now);
  }

  // ---------------------------------------------------------------- step 6: prevent downtime

  /** Prevent-downtime devices the balancer switched off whose allowed downtime is over. */
  predicate Overdue(statuses: StatusMap, d: Device, now: Time)
  {
    d.preventDowntime && DisabledByBalancer(statuses, d.id) && DowntimeExpired(statuses, d, now)
  }

  function ForceOnCandidates(statuses: StatusMap, devices: seq<Device>, now: Time): seq<Device>
  {
    if devices == [] then []
    else (if Overdue(statuses, devices[0], now) then [devices[0]] else []) + ForceOnCandidates(statuses, devices[1..], now)
  }
  lemma {:induction false} ForceOnCandidatesMembers(statuses: StatusMap, devices: seq<Device>, now: Time, d: Device)
    ensures d in ForceOnCandidates(statuses, devices, now) <==> d in devices && Overdue(statuses, d, now)
  {
    if devices != [] {
      ForceOnCandidatesMembers(statuses, devices[1..], now, d);
      assert d in devices <==> d == devices[0] || d in devices[1..];
    }
  }


  /** Switchable devices that are online and on and are not themselves to be forced on. */
  predicate Sacrificable(statuses: StatusMap, d: Device, forceOn: seq<Device>)
  {
    d.deviceType == SwitchableAppliance && OnlineAndOn(statuses, d.id) && d !in forceOn
  }

  function SacrificeCandidates(statuses: StatusMap, devices: seq<Device>, forceOn: seq<Device>): seq<Device>
  {
    if devices == [] then []
    else (if Sacrificable(statuses, devices[0], forceOn) then [devices[0]] else [])
         + SacrificeCandidates(statuses, devices[1..], forceOn)
  }
  lemma {:induction false} SacrificeCandidatesMembers(statuses: StatusMap, devices: seq<Device>, forceOn: seq<Device>, d: Device)
    ensures d in SacrificeCandidates(statuses, devices, forceOn) <==> d in devices && Sacrificable(statuses, d, forceOn)
  {
    if devices != [] {
      SacrificeCandidatesMembers(statuses, devices[1..], forceOn, d);
      assert d in devices <==> d == devices[0] || d in devices[1..];
    }
  }


  /** Shortest prefix of `sac`, at least `k` long, whose configured wattage reaches `toFree`; empty if none. */
  function SacrificePrefixFrom(sac: seq<Device>, toFree: int, k: nat): (r: seq<Device>)
    requires 1 <= k
    decreases |sac| + 1 - k
    ensures r == [] || (k <= |r| <= |sac| && r == sac[..|r|])
  {
    if k > |sac| then []
    else if SumWattage(sac[..k]) >= toFree then sac[..k]
    else SacrificePrefixFrom(sac, toFree, k + 1)
  }

  /**
   * `findDevicesToSacrifice`: the shortest non-empty prefix of the
   * sacrificial list whose configured wattage (missing counts 0) reaches
   * `toFree`, or nothing at all when no prefix does (see
   * `SacrificePrefixShortest`).
   */
  function SacrificePrefix(sac: seq<Device>, toFree: int): (r: seq<Device>)
    ensures r == [] || (1 <= |r| <= |sac| && r == sac[..|r|])
  {
    SacrificePrefixFrom(sac, toFree, 1)
  }

  lemma {:induction false} SacrificePrefixFromShortest(sac: seq<Device>, toFree: int, k: nat)
    requires 1 <= k
    decreases |sac| + 1 - k
    ensures var r := SacrificePrefixFrom(sac, toFree, k);
            && (r == [] ==> forall j :: k <= j <= |sac| ==> SumWattage(sac[..j]) < toFree)
            && (r != [] ==> SumWattage(r) >= toFree && forall j :: k <= j < |r| ==> SumWattage(sac[..j]) < toFree)
  {
    if k <= |sac| && SumWattage(sac[..k]) < toFree {
      SacrificePrefixFromShortest(sac, toFree, k + 1);
    }
  }

  /**
   * The victims are the shortest non-empty prefix that frees enough: they
   * are none exactly when no prefix frees enough, and otherwise they free
   * enough while every shorter non-empty prefix does not.
   */
  lemma SacrificePrefixShortest(sac: seq<Device>, toFree: int)
    ensures var r := SacrificePrefix(sac, toFree);
            && (r == [] <==> forall j :: 1 <= j <= |sac| ==> SumWattage(sac[..j]) < toFree)
            && (r != [] ==> SumWattage(r) >= toFree && forall j :: 1 <= j < |r| ==> SumWattage(sac[..j]) < toFree)
  {
    SacrificePrefixFromShortest(sac, toFree, 1);
  }

  datatype Sacrificed = Freed(engine: Engine, freed: int) | Halted(engine: Engine)

  /**
   * The sacrifice loop: switch each victim off, then add its configured
   * wattage; a victim without one stops the pass right after it was
   * switched off (unboxing a missing wattage throws).
   */
  function SacrificeLoop(e: Engine, victims: seq<Device>, freed: int, now: Time): Sacrificed
    decreases |victims|
  {
    if victims == [] then Freed(e, freed)
    else
      var e1 := Switch(e, victims[0], false, now);
      if victims[0].wattage.None? then Halted(e1)
      else SacrificeLoop(e1, victims[1..], freed + victims[0].wattage.value, now)
  }

  /** One turn of the sacrifice loop at position `j`. */
  lemma SacrificeLoopStep(e: Engine, victims: seq<Device>, j: nat, freed: int, now: Time)
    requires j < |victims|
    ensures victims[j].wattage.None? ==> SacrificeLoop(e, victims[j..], freed, now) == Halted(Switch(e, victims[j], false, now))
    ensures victims[j].wattage.Some? ==>
              SacrificeLoop(e, victims[j..], freed, now) ==
              SacrificeLoop(Switch(e, victims[j], false, now), victims[j + 1..], freed + victims[j].wattage.value, now)
  {
    assert victims[j..][0] == victims[j] && victims[j..][1..] == victims[j + 1..];
  }

  /** Index of the first device without a configured wattage, or the length. */
  function FirstUnrated(ds: seq<Device>): (n: nat)
    ensures n <= |ds|
    ensures n < |ds| ==> ds[n].wattage.None?
    ensures forall j :: 0 <= j < n ==> ds[j].wattage.Some?
  {
    if ds == [] || ds[0].wattage.None? then 0 else 1 + FirstUnrated(ds[1..])
  }

  lemma {:induction false} SumWattageCons(ds: seq<Device>)
    requires ds != []
    ensures SumWattage(ds) == WattageOrZero(ds[0]) + SumWattage(ds[1..])
  {
    assert ds == [ds[0]] + ds[1..];
    SumWattageConcat([ds[0]], ds[1..]);
    assert [ds[0]][..0] == [];
  }

  /**
   * When every victim has a wattage, the sacrifice loop switches them all
   * off and frees their summed wattage.
   */
  lemma {:induction false} SacrificeLoopFrees(e: Engine, victims: seq<Device>, freed: int, now: Time)
    requires FirstUnrated(victims) == |victims|
    ensures SacrificeLoop(e, victims, freed, now) == Freed(SwitchAll(e, victims, false, now), freed + SumWattage(victims))
    decreases |victims|
  {
    if victims != [] {
      var e1 := Switch(e, victims[0], false, now);
      assert FirstUnrated(victims) == 1 + FirstUnrated(victims[1..]);
      SacrificeLoopFrees(e1, victims[1..], freed + victims[0].wattage.value, now);
      SumWattageCons(victims);
    }
  }

  /**
   * When some victim has no wattage, the sacrifice loop halts right after
   * switching the first such victim off, all earlier ones being off too.
   */
  lemma {:induction false} SacrificeLoopHalts(e: Engine, victims: seq<Device>, freed: int, now: Time)
    requires FirstUnrated(victims) < |victims|
    ensures SacrificeLoop(e, victims, freed, now) == Halted(SwitchAll(e, victims[..FirstUnrated(victims) + 1], false, now))
    decreases |victims|
  {
    var e1 := Switch(e, victims[0], false, now);
    var n := FirstUnrated(victims);
    assert victims[..n + 1][0] == victims[0];
    if victims[0].wattage.None? {
      assert victims[..1][1..] == [];
    } else {
      assert n == 1 + FirstUnrated(victims[1..]);
      SacrificeLoopHalts(e1, victims[1..], freed + victims[0].wattage.value, now);
      assert victims[..n + 1][1..] == victims[1..][..n];
    }
  }

  /** Where the force-on loop stands after one candidate. */
  datatype ForceOnStep =
    | Proceed(engine: Engine, avail: real, power: real, sac: seq<Device>)
    | Abort(engine: Engine)

  /**
   * One candidate of the force-on loop, given the margin still available,
   * the running power figure and the remaining sacrificial list: skipped
   * without a wattage; switched on when it fits the margin; otherwise
   * switched on after the shortest sufficient prefix of the sacrificial
   * list is switched off, or skipped when no prefix suffices.
   */
  function ForceOnDevice(e: Engine, d: Device, avail: real, power: real, sac: seq<Device>, now: Time): ForceOnStep
  {
    var need := WattageOrZero(d);
    if need == 0 then Proceed(e, avail, power, sac)
    else if avail >= need as real then Proceed(Switch(e, d, true, now), avail - need as real, power + need as real, sac)
    else ForceOnBySacrifice(e, d, avail, power, sac, now)
  }

  /**
   * The last case of `ForceOnDevice`: the shortest prefix of the
   * sacrificial list that frees the shortfall (truncated to whole watts) is
   * switched off and dropped from the list, then the device is switched on;
   * nothing happens when no prefix suffices.
   */
  function ForceOnBySacrifice(e: Engine, d: Device, avail: real, power: real, sac: seq<Device>, now: Time): ForceOnStep
  {
    var need := WattageOrZero(d);
    var victims := SacrificePrefix(sac, Truncate(need as real - avail));
    if victims == [] then Proceed(e, avail, power, sac)
    else
      match SacrificeLoop(e, victims, 0, now)
      case Halted(e1) => Abort(e1)
      case Freed(e1, freed) =>
        Proceed(Switch(e1, d, true, now), avail + freed as real - need as real,
                power - freed as real + need as real, sac[|victims|..])
  }

  /**
   * Sacrifice is all or nothing: when no prefix of the sacrificial list
   * covers the shortfall the candidate is skipped and nothing changes; when
   * one does and every victim has a wattage, all victims go off, then the
   * candidate goes on, the victims leave the list and the power figure
   * moves by the candidate's wattage less theirs; a victim without a
   * wattage stops the pass right after it went off.
   */
  lemma ForceOnAllOrNothing(e: Engine, d: Device, avail: real, power: real, sac: seq<Device>, now: Time)
    ensures var victims := SacrificePrefix(sac, Truncate(WattageOrZero(d) as real - avail));
            var r := ForceOnBySacrifice(e, d, avail, power, sac, now);
            && (victims == [] ==> r == Proceed(e, avail, power, sac))
            && (victims != [] && FirstUnrated(victims) == |victims| ==>
                  && r.Proceed?
                  && r.engine.actions == e.actions + Actions(victims, false) + [ActionFor(d, true)]
                  && r.sac == sac[|victims|..]
                  && r.power == power - SumWattage(victims) as real + WattageOrZero(d) as real)
            && (victims != [] && FirstUnrated(victims) < |victims| ==>
                  && r.Abort?
                  && r.engine.actions == e.actions + Actions(victims[..FirstUnrated(victims) + 1], false))
  {
    var victims := SacrificePrefix(sac, Truncate(WattageOrZero(d) as real - avail));
    if victims != [] {
      if FirstUnrated(victims) == |victims| {
        SacrificeLoopFrees(e, victims, 0, now);
        SwitchAllTrace(e, victims, false, now);
      } else {
        SacrificeLoopHalts(e, victims, 0, now);
        SwitchAllTrace(e, victims[..FirstUnrated(victims) + 1], false, now);
      }
    }
  }

  /**
   * The two cases of `ForceOnDevice` that sacrifice nothing: a candidate
   * without a wattage is passed over and nothing changes; one whose wattage
   * fits the margin is switched on directly, its wattage moving from the
   * margin to the power figure, the sacrificial list untouched; any other
   * candidate goes through `ForceOnBySacrifice`.
   */
  lemma ForceOnDeviceDirect(e: Engine, d: Device, avail: real, power: real, sac: seq<Device>, now: Time)
    ensures var need := WattageOrZero(d);
            var r := ForceOnDevice(e, d, avail, power, sac, now);
            && (need == 0 ==> r == Proceed(e, avail, power, sac))
            && (need != 0 && need as real <= avail ==>
                  && r == Proceed(Switch(e, d, true, now), avail - need as real, power + need as real, sac)
                  && r.engine.actions == e.actions + [ActionFor(d, true)]
                  && r.engine.cooldown == e.cooldown)
            && (need != 0 && avail < need as real ==> r == ForceOnBySacrifice(e, d, avail, power, sac, now))
  {
  }

  /** The force-on loop over the candidates. */
  function ForceOnLoop(e: Engine, todo: seq<Device>, avail: real, power: real, sac: seq<Device>, now: Time): Outcome
    decreases |todo|
  {
    if todo == [] then Continue(e, power)
    else
      match ForceOnDevice(e, todo[0], avail, power, sac, now)
      case Abort(e1) => Aborted(e1)
      case Proceed(e1, avail1, power1, sac1) => ForceOnLoop(e1, todo[1..], avail1, power1, sac1, now)
  }

  /** One turn of the force-on loop at position `i`. */
  lemma ForceOnLoopStep(e: Engine, todo: seq<Device>, i: nat, avail: real, power: real, sac: seq<Device>, now: Time)
    requires i < |todo|
    ensures ForceOnLoop(e, todo[i..], avail, power, sac, now) ==
            match ForceOnDevice(e, todo[i], avail, power, sac, now)
            case Abort(e1) => Aborted(e1)
            case Proceed(e1, avail1, power1, sac1) => ForceOnLoop(e1, todo[i + 1..], avail1, power1, sac1, now)
  {
    assert todo[i..][0] == todo[i] && todo[i..][1..] == todo[i + 1..];
  }

  /**
   * `handlePreventDowntime`: the candidates in ascending priority, the
   * margin left under the limit after the power-on margin, and the
   * sacrificial list in descending priority.
   */
  function PreventDowntime(e: Engine, power: real, limit: int, margin: int, devices: seq<Device>, now: Time): Outcome
  {
    var forceOn := SortBy(PriorityAscending, ForceOnCandidates(e.statuses, devices, now));
    if forceOn == [] then Continue(e, power)
    else
      var sac := SortBy(PriorityDescending, SacrificeCandidates(e.statuses, devices, forceOn));
      ForceOnLoop(e, forceOn, limit as real - power - margin as real, power, sac, now)
  }

  // ---------------------------------------------------------------- step 7: restore

  /** Switchable devices the balancer switched off that are not (yet) reported on. */
  predicate Restorable(statuses: StatusMap, d: Device)
  {
    d.deviceType == SwitchableAppliance && DisabledByBalancer(statuses, d.id) && !OnlineAndOn(statuses, d.id)
  }

  function RestoreCandidates(statuses: StatusMap, devices: seq<Device>): seq<Device>
  {
    if devices == [] then []
    else (if Restorable(statuses, devices[0]) then [devices[0]] else []) + RestoreCandidates(statuses, devices[1..])
  }
  lemma {:induction false} RestoreCandidatesMembers(statuses: StatusMap, devices: seq<Device>, d: Device)
    ensures d in RestoreCandidates(statuses, devices) <==> d in devices && Restorable(statuses, d)
  {
    if devices != [] {
      RestoreCandidatesMembers(statuses, devices[1..], d);
      assert d in devices <==> d == devices[0] || d in devices[1..];
    }
  }


  /**
   * The restore loop: a device with a positive wattage that fits the margin
   * is switched on and its wattage taken off the margin; the first one
   * that does not fit ends the loop; others are passed over.
   */
  function RestoreLoop(e: Engine, todo: seq<Device>, avail: real, now: Time): Engine
    decreases |todo|
  {
    if todo == [] then e
    else
      var w := WattageOrZero(todo[0]);
      if w > 0 && avail >= w as real then RestoreLoop(Switch(e, todo[0], true, now), todo[1..], avail - w as real, now)
      else if w > 0 then e
      else RestoreLoop(e, todo[1..], avail, now)
  }

  /** One turn of the restore loop at position `i`. */
  lemma RestoreLoopStep(e: Engine, todo: seq<Device>, i: nat, avail: real, now: Time)
    requires i < |todo|
    ensures var w := WattageOrZero(todo[i]);
            RestoreLoop(e, todo[i..], avail, now) ==
              if w > 0 && avail >= w as real then RestoreLoop(Switch(e, todo[i], true, now), todo[i + 1..], avail - w as real, now)
              else if w > 0 then e
              else RestoreLoop(e, todo[i + 1..], avail, now)
  {
    assert todo[i..][0] == todo[i] && todo[i..][1..] == todo[i + 1..];
  }

  /** What is left of the margin once the rated devices before position `j` are on. */
  function Left(todo: seq<Device>, avail: real, j: nat): real
    requires j <= |todo|
  {
    avail - SumWattage(Rated(todo[..j])) as real
  }

  /** The device at `j` is passed over or fits what is left. */
  predicate Fits(todo: seq<Device>, avail: real, j: nat)
    requires j < |todo|
  {
    WattageOrZero(todo[j]) > 0 ==> WattageOrZero(todo[j]) as real <= Left(todo, avail, j)
  }

  /**
   * Where the restore loop stops, searching from `i`: the first device with
   * a positive wattage larger than what is left of the margin once all
   * earlier rated devices are on, or the end of the list.
   */
  function RestoreStopFrom(todo: seq<Device>, avail: real, i: nat): (k: nat)
    requires i <= |todo|
    decreases |todo| - i
    ensures i <= k <= |todo|
    ensures k < |todo| ==> !Fits(todo, avail, k)
    ensures forall j :: i <= j < k ==> Fits(todo, avail, j)
  {
    if i == |todo| || !Fits(todo, avail, i) then i
    else RestoreStopFrom(todo, avail, i + 1)
  }

  function RestoreStop(todo: seq<Device>, avail: real): (k: nat)
    ensures k <= |todo|
    ensures k < |todo| ==> WattageOrZero(todo[k]) > 0 && Left(todo, avail, k) < WattageOrZero(todo[k]) as real
    ensures forall j :: 0 <= j < k ==> Fits(todo, avail, j)
  {
    RestoreStopFrom(todo, avail, 0)
  }

  lemma RatedSnoc(todo: seq<Device>, i: nat)
    requires i < |todo|
    ensures Rated(todo[..i + 1]) == Rated(todo[..i]) + (if WattageOrZero(todo[i]) > 0 then [todo[i]] else [])
    ensures SumWattage(Rated(todo[..i + 1])) == SumWattage(Rated(todo[..i])) + (if WattageOrZero(todo[i]) > 0 then WattageOrZero(todo[i]) else 0)
  {
    assert todo[..i + 1] == todo[..i] + [todo[i]];
    RatedConcat(todo[..i], [todo[i]]);
    assert Rated([todo[i]]) == (if WattageOrZero(todo[i]) > 0 then [todo[i]] else []) + Rated([]);
    SumWattageConcat(Rated(todo[..i]), if WattageOrZero(todo[i]) > 0 then [todo[i]] else []);
    assert SumWattage([todo[i]]) == SumWattage([todo[i]][..0]) + WattageOrZero(todo[i]);
  }

  /** The rated devices of `todo[i..k]`, split after the first position, and what switching them on amounts to. */
  lemma RatedFrom(e: Engine, todo: seq<Device>, i: nat, k: nat, now: Time)
    requires i < k <= |todo|
    ensures var head := if WattageOrZero(todo[i]) > 0 then [todo[i]] else [];
            && Rated(todo[i..k]) == head + Rated(todo[i + 1..k])
            && SwitchAll(e, Rated(todo[i..k]), true, now) ==
               SwitchAll(if WattageOrZero(todo[i]) > 0 then Switch(e, todo[i], true, now) else e, Rated(todo[i + 1..k]), true, now)
  {
    assert todo[i..k][0] == todo[i] && todo[i..k][1..] == todo[i + 1..k];
    var rest := Rated(todo[i + 1..k]);
    if WattageOrZero(todo[i]) > 0 {
      assert ([todo[i]] + rest)[0] == todo[i] && ([todo[i]] + rest)[1..] == rest;
    } else {
      assert [] + rest == rest;
    }
  }

  /** Before the stop, one turn of the restore loop moves on to `i + 1` with what is left of the margin there. */
  lemma RestoreLoopAdvance(e: Engine, todo: seq<Device>, avail: real, i: nat, now: Time)
    requires i < |todo| && Fits(todo, avail, i)
    ensures RestoreLoop(e, todo[i..], Left(todo, avail, i), now) ==
            RestoreLoop(if WattageOrZero(todo[i]) > 0 then Switch(e, todo[i], true, now) else e,
                        todo[i + 1..], Left(todo, avail, i + 1), now)
  {
    var w := WattageOrZero(todo[i]);
    RestoreLoopStep(e, todo, i, Left(todo, avail, i), now);
    RatedSnoc(todo, i);
    if w > 0 {
      assert Left(todo, avail, i + 1) == Left(todo, avail, i) - w as real;
    } else {
      assert Left(todo, avail, i + 1) == Left(todo, avail, i);
    }
  }

  /** The restore loop, resumed at `i`, switches on exactly the rated devices from `i` up to the stop. */
  lemma {:induction false} RestoreLoopFrom(e: Engine, todo: seq<Device>, avail: real, i: nat, now: Time)
    requires i <= RestoreStop(todo, avail)
    ensures RestoreLoop(e, todo[i..], Left(todo, avail, i), now) ==
            SwitchAll(e, Rated(todo[i..RestoreStop(todo, avail)]), true, now)
    decreases |todo| - i
  {
    var k := RestoreStop(todo, avail);
    if i < k {
      var e1 := if WattageOrZero(todo[i]) > 0 then Switch(e, todo[i], true, now) else e;
      assert Fits(todo, avail, i);
      RestoreLoopAdvance(e, todo, avail, i, now);
      RestoreLoopFrom(e1, todo, avail, i + 1, now);
      RatedFrom(e, todo, i, k, now);
    } else {
      assert todo[i..k] == [];
      if k < |todo| {
        RestoreLoopStep(e, todo, k, Left(todo, avail, k), now);
      }
    }
  }

  /** Greedy restore never spends more than the margin it started with. */
  lemma {:induction false} RestoreWithinMargin(todo: seq<Device>, avail: real, j: nat)
    requires avail >= 0.0 && j <= RestoreStop(todo, avail)
    ensures SumWattage(Rated(todo[..j])) as real <= avail
  {
    if j > 0 {
      RestoreWithinMargin(todo, avail, j - 1);
      RatedSnoc(todo, j - 1);
      assert Fits(todo, avail, j - 1);
    } else {
      assert todo[..0] == [];
    }
  }

  /**
   * The restore loop switches on, in list order, the positive-wattage
   * devices before the stop; the stop is the first positive-wattage device
   * that does not fit what is left; and the wattage switched on stays
   * within the margin.
   */
  lemma RestorePlan(e: Engine, todo: seq<Device>, avail: real, now: Time)
    requires avail > 0.0
    ensures var k := RestoreStop(todo, avail);
            && RestoreLoop(e, todo, avail, now) == SwitchAll(e, Rated(todo[..k]), true, now)
            && SumWattage(Rated(todo[..k])) as real <= avail
  {
    var k := RestoreStop(todo, avail);
    RestoreLoopFrom(e, todo, avail, 0, now);
    assert todo[0..] == todo && todo[..0] == [] && todo[0..k] == todo[..k];
    assert Left(todo, avail, 0) == avail;
    RestoreWithinMargin(todo, avail, k);
  }

  /** A recorded overload of `prefix` that is younger than a positive cooldown. */
  predicate CooldownRunning(cooldown: map<string, Time>, prefix: string, cooldownSeconds: int, now: Time)
  {
    cooldownSeconds > 0 && prefix in cooldown && now - cooldown[prefix] < cooldownSeconds
  }

  /**
   * `handleRestore`: with a positive cooldown and a recorded overload, a
   * pass within the cooldown does nothing and a later one clears the
   * timestamp; then, if the margin under the limit is positive, the
   * restore loop runs over the candidates in ascending priority.
   */
  function Restore(e: Engine, power: real, limit: int, margin: int, cooldownSeconds: int,
                   devices: seq<Device>, prefix: string, now: Time): (r: Engine)
    ensures CooldownRunning(e.cooldown, prefix, cooldownSeconds, now) ==> r == e
  {
    var gated := cooldownSeconds > 0 && prefix in e.cooldown;
    if gated && now - e.cooldown[prefix] < cooldownSeconds then e
    else
      var e1 := if gated then e.(cooldown := e.cooldown - {prefix}) else e;
      var avail := limit as real - power - margin as real;
      if avail <= 0.0 then e1
      else RestoreLoop(e1, SortBy(PriorityAscending, RestoreCandidates(e.statuses, devices)), avail, now)
  }

  /**
   * Once no cooldown is running, restore goes ahead: with a positive
   * cooldown the prefix's timestamp is gone afterwards, without one the
   * timestamps are kept; with no margin under the limit nothing else
   * changes; with a margin the rated candidates, in ascending priority, are
   * switched on up to the first one that does not fit, within the margin.
   */
  lemma RestoreAfterCooldown(e: Engine, power: real, limit: int, margin: int, cooldownSeconds: int,
                             devices: seq<Device>, prefix: string, now: Time)
    requires !CooldownRunning(e.cooldown, prefix, cooldownSeconds, now)
    ensures var r := Restore(e, power, limit, margin, cooldownSeconds, devices, prefix, now);
            var todo := SortBy(PriorityAscending, RestoreCandidates(e.statuses, devices));
            var avail := limit as real - power - margin as real;
            && (cooldownSeconds > 0 ==> r.cooldown == e.cooldown - {prefix} && prefix !in r.cooldown)
            && (cooldownSeconds <= 0 ==> r.cooldown == e.cooldown)
            && (avail <= 0.0 ==> r.statuses == e.statuses && r.actions == e.actions)
            && (avail > 0.0 ==>
                  var k := RestoreStop(todo, avail);
                  && r == SwitchAll(e.(cooldown := r.cooldown), Rated(todo[..k]), true, now)
                  && r.actions == e.actions + Actions(Rated(todo[..k]), true)
                  && SumWattage(Rated(todo[..k])) as real <= avail)
  {
    var gated := cooldownSeconds > 0 && prefix in e.cooldown;
    var e1 := if gated then e.(cooldown := e.cooldown - {prefix}) else e;
    var todo := SortBy(PriorityAscending, RestoreCandidates(e.statuses, devices));
    var avail := limit as real - power - margin as real;
    if cooldownSeconds > 0 && prefix !in e.cooldown {
      assert e.cooldown - {prefix} == e.cooldown;
    }
    if avail > 0.0 {
      var k := RestoreStop(todo, avail);
      RestorePlan(e1, todo, avail, now);
      SwitchAllTrace(e1, Rated(todo[..k]), true, now);
      assert e1 == e.(cooldown := e1.cooldown);
    }
  }

  // ---------------------------------------------------------------- the pass

  /**
   * `balancePower`: one pass over the reading of the monitor at `prefix`,
   * given the cached system state of that scope.
   */
  function Balance(e: Engine, prefix: string, reading: Json, state: Option<SystemState>, now: Time): (r: Engine)
    ensures ExtractPower(reading).None? ==> r == e
    ensures state.None? || state.value.settings.None? || state.value.settings.value.powerLimitWatts.None? ==> r == e
  {
    var power := ExtractPower(reading);
    if power.None? || state.None? || state.value.settings.None? || state.value.settings.value.powerLimitWatts.None? then e
    else
      var settings := state.value.settings.value;
      var grid := state.value.gridPowerAvailable;
      var limit := EffectiveLimit(settings, grid);
      var margin := PowerOnMargin(settings);
      var devices := state.value.devices;
      var shed := if PowerSaveMode(settings, grid) then PowerSaveShed(e, power.value, devices, now)
                  else Stepped(e, power.value);
      var managed := if PowerSaveMode(settings, grid) then Essential(devices) else devices;
      var overload := Overload(shed.engine, shed.power, limit, managed, prefix, now);
      match PreventDowntime(overload.engine, overload.power, limit, margin, managed, now)
      case Aborted(e1) => e1
      case Continue(e1, p) => Restore(e1, p, limit, margin, CooldownSeconds(settings), managed, prefix, now)
  }

  // ---------------------------------------------------------------- the trace only grows, the timestamps stay

  lemma {:induction false} ShedLoopAppends(e: Engine, statuses: StatusMap, c: seq<Device>, toShed: real, shed: real, now: Time)
    ensures e.actions <= ShedLoop(e, statuses, c, toShed, shed, now).engine.actions
    decreases |c|
  {
    if c != [] && shed < toShed {
      ShedLoopAppends(Switch(e, c[0], false, now), statuses, c[1..], toShed, shed + ActualPower(statuses, c[0].id), now);
    }
  }

  lemma {:induction false} SacrificeLoopAppends(e: Engine, victims: seq<Device>, freed: int, now: Time)
    ensures e.actions <= SacrificeLoop(e, victims, freed, now).engine.actions
    ensures SacrificeLoop(e, victims, freed, now).engine.cooldown == e.cooldown
    decreases |victims|
  {
    if victims != [] && victims[0].wattage.Some? {
      SacrificeLoopAppends(Switch(e, victims[0], false, now), victims[1..], freed + victims[0].wattage.value, now);
    }
  }

  lemma ForceOnDeviceAppends(e: Engine, d: Device, avail: real, power: real, sac: seq<Device>, now: Time)
    ensures e.actions <= ForceOnDevice(e, d, avail, power, sac, now).engine.actions
    ensures ForceOnDevice(e, d, avail, power, sac, now).engine.cooldown == e.cooldown
  {
    SacrificeLoopAppends(e, SacrificePrefix(sac, Truncate(WattageOrZero(d) as real - avail)), 0, now);
  }

  lemma {:induction false} ForceOnLoopAppends(e: Engine, todo: seq<Device>, avail: real, power: real, sac: seq<Device>, now: Time)
    ensures e.actions <= ForceOnLoop(e, todo, avail, power, sac, now).engine.actions
    ensures ForceOnLoop(e, todo, avail, power, sac, now).engine.cooldown == e.cooldown
    decreases |todo|
  {
    if todo != [] {
      ForceOnDeviceAppends(e, todo[0], avail, power, sac, now);
      match ForceOnDevice(e, todo[0], avail, power, sac, now)
      case Abort(_) =>
      case Proceed(e1, avail1, power1, sac1) => ForceOnLoopAppends(e1, todo[1..], avail1, power1, sac1, now);
    }
  }

  lemma {:induction false} RestoreLoopAppends(e: Engine, todo: seq<Device>, avail: real, now: Time)
    ensures e.actions <= RestoreLoop(e, todo, avail, now).actions
    decreases |todo|
  {
    if todo != [] {
      var w := WattageOrZero(todo[0]);
      if w > 0 && avail >= w as real {
        RestoreLoopAppends(Switch(e, todo[0], true, now), todo[1..], avail - w as real, now);
      } else if w <= 0 {
        RestoreLoopAppends(e, todo[1..], avail, now);
      }
    }
  }

  lemma OverloadAppends(e: Engine, power: real, limit: int, devices: seq<Device>, prefix: string, now: Time)
    ensures e.actions <= Overload(e, power, limit, devices, prefix, now).engine.actions
  {
    if power > limit as real {
      var e1 := e.(cooldown := e.cooldown[prefix := now]);
      var c := ShedOrder(e.statuses, devices);
      ShedLoopAppends(e1, e.statuses, c, power - limit as real, 0.0, now);
      var shed := ShedLoop(e1, e.statuses, c, power - limit as real, 0.0, now);
      assert Overload(e, power, limit, devices, prefix, now).engine == shed.engine;
      assert e1.actions == e.actions;
    }
  }

  lemma PreventDowntimeAppends(e: Engine, power: real, limit: int, margin: int, devices: seq<Device>, now: Time)
    ensures e.actions <= PreventDowntime(e, power, limit, margin, devices, now).engine.actions
    ensures PreventDowntime(e, power, limit, margin, devices, now).engine.cooldown == e.cooldown
  {
    var forceOn := SortBy(PriorityAscending, ForceOnCandidates(e.statuses, devices, now));
    if forceOn != [] {
      var sac := SortBy(PriorityDescending, SacrificeCandidates(e.statuses, devices, forceOn));
      var avail := limit as real - power - margin as real;
      ForceOnLoopAppends(e, forceOn, avail, power, sac, now);
      assert PreventDowntime(e, power, limit, margin, devices, now) == ForceOnLoop(e, forceOn, avail, power, sac, now);
    }
  }

  lemma RestoreAppends(e: Engine, power: real, limit: int, margin: int, cooldownSeconds: int,
                       devices: seq<Device>, prefix: string, now: Time)
    ensures e.actions <= Restore(e, power, limit, margin, cooldownSeconds, devices, prefix, now).actions
  {
    var gated := cooldownSeconds > 0 && prefix in e.cooldown;
    if !(gated && now - e.cooldown[prefix] < cooldownSeconds) {
      var e1 := if gated then e.(cooldown := e.cooldown - {prefix}) else e;
      RestoreLoopAppends(e1, SortBy(PriorityAscending, RestoreCandidates(e.statuses, devices)),
                         limit as real - power - margin as real, now);
    }
  }

  /**
   * A pass only appends to the trace of balancer actions: every action
   * already recorded stays, in place, so the commands of a pass are the
   * actions past the old end of the trace.
   */
  lemma BalanceAppends(e: Engine, prefix: string, reading: Json, state: Option<SystemState>, now: Time)
    ensures e.actions <= Balance(e, prefix, reading, state, now).actions
  {
    var power := ExtractPower(reading);
    if !(power.None? || state.None? || state.value.settings.None? || state.value.settings.value.powerLimitWatts.None?) {
      var settings := state.value.settings.value;
      var grid := state.value.gridPowerAvailable;
      var limit := EffectiveLimit(settings, grid);
      var margin := PowerOnMargin(settings);
      var devices := state.value.devices;
      if PowerSaveMode(settings, grid) {
        SwitchAllTrace(e, PowerSaveCandidates(e.statuses, devices), false, now);
      }
      var shed := if PowerSaveMode(settings, grid) then PowerSaveShed(e, power.value, devices, now)
                  else Stepped(e, power.value);
      var managed := if PowerSaveMode(settings, grid) then Essential(devices) else devices;
      OverloadAppends(shed.engine, shed.power, limit, managed, prefix, now);
      var overload := Overload(shed.engine, shed.power, limit, managed, prefix, now);
      PreventDowntimeAppends(overload.engine, overload.power, limit, margin, managed, now);
      match PreventDowntime(overload.engine, overload.power, limit, margin, managed, now)
      case Aborted(_) =>
      case Continue(e1, p) =>
        RestoreAppends(e1, p, limit, margin, CooldownSeconds(settings), managed, prefix, now);
    }
  }

  /** The actions one pass records, in order: what the pass asks the gateway to send. */
  function PassCommands(e: Engine, prefix: string, reading: Json, state: Option<SystemState>, now: Time): (r: seq<BalancerAction>)
    ensures Balance(e, prefix, reading, state, now).actions == e.actions + r
  {
    BalanceAppends(e, prefix, reading, state, now);
    After(Balance(e, prefix, reading, state, now).actions, e.actions)
  }

  /** What a sequence holds after a given prefix of it. */
  function After<T>(all: seq<T>, prefix: seq<T>): (r: seq<T>)
    requires prefix <= all
    ensures all == prefix + r
  {
    assert all == all[..|prefix|] + all[|prefix|..];
    all[|prefix|..]
  }

  lemma AppendCancel<T>(a: seq<T>, x: seq<T>, y: seq<T>)
    requires a + x == a + y
    ensures x == y
  {
    assert x == (a + x)[|a|..];
    assert y == (a + y)[|a|..];
  }

  /** The commands of a restore with margin `avail` left: switch-ons of the rated candidates before the stop. */
  function RestoreOns(statuses: StatusMap, devices: seq<Device>, avail: real): seq<BalancerAction>
  {
    var todo := SortBy(PriorityAscending, RestoreCandidates(statuses, devices));
    Actions(Rated(todo[..RestoreStop(todo, avail)]), true)
  }

  /** Those commands switch on the rated candidates before the stop, in ascending priority, within the margin. */
  lemma RestoreOnsWithinMargin(statuses: StatusMap, devices: seq<Device>, avail: real)
    requires avail > 0.0
    ensures var todo := SortBy(PriorityAscending, RestoreCandidates(statuses, devices));
            var k := RestoreStop(todo, avail);
            && RestoreOns(statuses, devices, avail) == Actions(Rated(todo[..k]), true)
            && SumWattage(Rated(todo[..k])) as real <= avail
  {
    var todo := SortBy(PriorityAscending, RestoreCandidates(statuses, devices));
    RestoreWithinMargin(todo, avail, RestoreStop(todo, avail));
  }

  /** An ungated restore without margin appends nothing and switches nothing. */
  lemma RestoreNoMargin(e: Engine, r: Engine, cmds: seq<BalancerAction>, power: real, limit: int, margin: int,
                        cooldownSeconds: int, devices: seq<Device>, prefix: string, now: Time)
    requires !CooldownRunning(e.cooldown, prefix, cooldownSeconds, now) && limit as real - power - margin as real <= 0.0
    requires r == Restore(e, power, limit, margin, cooldownSeconds, devices, prefix, now) && r.actions == e.actions + cmds
    ensures cmds == [] && r.statuses == e.statuses
  {
    assert r.actions == e.actions + [];
    AppendCancel(e.actions, cmds, []);
  }

  /** An ungated restore with margin appends exactly the restore's switch-ons. */
  lemma RestoreWithMargin(e: Engine, r: Engine, cmds: seq<BalancerAction>, power: real, limit: int, margin: int,
                          cooldownSeconds: int, devices: seq<Device>, prefix: string, now: Time)
    requires !CooldownRunning(e.cooldown, prefix, cooldownSeconds, now) && limit as real - power - margin as real > 0.0
    requires r == Restore(e, power, limit, margin, cooldownSeconds, devices, prefix, now) && r.actions == e.actions + cmds
    ensures cmds == RestoreOns(e.statuses, devices, limit as real - power - margin as real)
  {
    var gated := cooldownSeconds > 0 && prefix in e.cooldown;
    var e1 := if gated then e.(cooldown := e.cooldown - {prefix}) else e;
    var avail := limit as real - power - margin as real;
    RestoreLoopCommands(e1, r, cmds, e.actions, SortBy(PriorityAscending, RestoreCandidates(e.statuses, devices)), avail, now);
  }

  /** The restore loop over `todo`, started from an engine whose trace is `base`, appends the plan's switch-ons. */
  lemma RestoreLoopCommands(e1: Engine, r: Engine, cmds: seq<BalancerAction>, base: seq<BalancerAction>,
                            todo: seq<Device>, avail: real, now: Time)
    requires avail > 0.0 && r == RestoreLoop(e1, todo, avail, now) && e1.actions == base && r.actions == base + cmds
    ensures cmds == Actions(Rated(todo[..RestoreStop(todo, avail)]), true)
  {
    var k := RestoreStop(todo, avail);
    var plan := Actions(Rated(todo[..k]), true);
    RestorePlan(e1, todo, avail, now);
    SwitchAllTrace(e1, Rated(todo[..k]), true, now);
    AppendCancel(base, cmds, plan);
  }

  // ---------------------------------------------------------------- what a pass amounts to

  /**
   * Outside power-save mode, with the reading at or under the main limit
   * and no device overdue for forcing on, a pass comes down to the restore
   * step, with the configured margin and cooldown.
   */
  lemma BalanceCalm(e: Engine, prefix: string, reading: Json, s: SystemState, st: Settings, p: real, now: Time)
    requires ExtractPower(reading) == Some(p) && s.settings == Some(st) && st.powerLimitWatts.Some?
    requires !PowerSaveMode(st, s.gridPowerAvailable) && p <= st.powerLimitWatts.value as real
    requires ForceOnCandidates(e.statuses, s.devices, now) == []
    ensures Balance(e, prefix, reading, Some(s), now) ==
            Restore(e, p, st.powerLimitWatts.value, PowerOnMargin(st), CooldownSeconds(st), s.devices, prefix, now)
  {
    var limit := EffectiveLimit(st, s.gridPowerAvailable);
    assert limit == st.powerLimitWatts.value;
    assert Overload(e, p, limit, s.devices, prefix, now) == Stepped(e, p);
    assert PreventDowntime(e, p, limit, PowerOnMargin(st), s.devices, now) == Continue(e, p);
  }

  /**
   * A calm pass once no cooldown is running: the margin is the main limit
   * less the reading less the power-on margin; when it is positive the
   * commands are exactly the restore's switch-ons (the rated restorable
   * devices, in ascending priority, up to the first that does not fit,
   * within that margin, as `RestoreOnsWithinMargin` states); otherwise
   * there are none and no device changes.
   */
  lemma BalanceRestores(e: Engine, prefix: string, reading: Json, s: SystemState, st: Settings, p: real, now: Time)
    requires ExtractPower(reading) == Some(p) && s.settings == Some(st) && st.powerLimitWatts.Some?
    requires !PowerSaveMode(st, s.gridPowerAvailable) && p <= st.powerLimitWatts.value as real
    requires ForceOnCandidates(e.statuses, s.devices, now) == []
    requires !CooldownRunning(e.cooldown, prefix, CooldownSeconds(st), now)
    ensures var avail := st.powerLimitWatts.value as real - p - PowerOnMargin(st) as real;
            var cmds := PassCommands(e, prefix, reading, Some(s), now);
            && (avail <= 0.0 ==> cmds == [] && Balance(e, prefix, reading, Some(s), now).statuses == e.statuses)
            && (avail > 0.0 ==> cmds == RestoreOns(e.statuses, s.devices, avail))
  {
    var r := Balance(e, prefix, reading, Some(s), now);
    var cmds := PassCommands(e, prefix, reading, Some(s), now);
    BalanceCalm(e, prefix, reading, s, st, p, now);
    if st.powerLimitWatts.value as real - p - PowerOnMargin(st) as real <= 0.0 {
      RestoreNoMargin(e, r, cmds, p, st.powerLimitWatts.value, PowerOnMargin(st), CooldownSeconds(st), s.devices, prefix, now);
    } else {
      RestoreWithMargin(e, r, cmds, p, st.powerLimitWatts.value, PowerOnMargin(st), CooldownSeconds(st), s.devices, prefix, now);
    }
  }

  /**
   * A calm pass once no cooldown is running clears the prefix's overload
   * timestamp when a cooldown is configured, and keeps the timestamps
   * otherwise.
   */
  lemma BalanceClearsCooldown(e: Engine, prefix: string, reading: Json, s: SystemState, st: Settings, p: real, now: Time)
    requires ExtractPower(reading) == Some(p) && s.settings == Some(st) && st.powerLimitWatts.Some?
    requires !PowerSaveMode(st, s.gridPowerAvailable) && p <= st.powerLimitWatts.value as real
    requires ForceOnCandidates(e.statuses, s.devices, now) == []
    requires !CooldownRunning(e.cooldown, prefix, CooldownSeconds(st), now)
    ensures var r := Balance(e, prefix, reading, Some(s), now);
            && (CooldownSeconds(st) > 0 ==> r.cooldown == e.cooldown - {prefix})
            && (CooldownSeconds(st) <= 0 ==> r.cooldown == e.cooldown)
  {
    BalanceCalm(e, prefix, reading, s, st, p, now);
    RestoreAfterCooldown(e, p, st.powerLimitWatts.value, PowerOnMargin(st), CooldownSeconds(st), s.devices, prefix, now);
  }

  /**
   * A pass that sends nothing: outside power-save mode, at or under the
   * main limit, no device overdue, and restore held back by a running
   * cooldown, or with nothing to restore, or without margin. Under a
   * running cooldown the pass changes nothing at all.
   */
  lemma BalanceQuiet(e: Engine, prefix: string, reading: Json, s: SystemState, st: Settings, p: real, now: Time)
    requires ExtractPower(reading) == Some(p) && s.settings == Some(st) && st.powerLimitWatts.Some?
    requires !PowerSaveMode(st, s.gridPowerAvailable) && p <= st.powerLimitWatts.value as real
    requires ForceOnCandidates(e.statuses, s.devices, now) == []
    requires || CooldownRunning(e.cooldown, prefix, CooldownSeconds(st), now)
             || RestoreCandidates(e.statuses, s.devices) == []
             || st.powerLimitWatts.value as real - p - PowerOnMargin(st) as real <= 0.0
    ensures PassCommands(e, prefix, reading, Some(s), now) == []
    ensures CooldownRunning(e.cooldown, prefix, CooldownSeconds(st), now) ==> Balance(e, prefix, reading, Some(s), now) == e
  {
    var cmds := PassCommands(e, prefix, reading, Some(s), now);
    BalanceCalm(e, prefix, reading, s, st, p, now);
    if CooldownRunning(e.cooldown, prefix, CooldownSeconds(st), now) {
      AppendCancel(e.actions, cmds, []);
    } else {
      BalanceRestores(e, prefix, reading, s, st, p, now);
      var todo := SortBy(PriorityAscending, RestoreCandidates(e.statuses, s.devices));
      var avail := st.powerLimitWatts.value as real - p - PowerOnMargin(st) as real;
      if avail > 0.0 {
        assert todo == [];
        assert RestoreOns(e.statuses, s.devices, avail) == [];
      }
    }
  }

  /**
   * With no power-on margin and no cooldown configured, a calm pass
   * restores against the main limit less the reading less 100 W, a
   * recorded overload never holds restore back, and the timestamps are
   * left as they are.
   */
  lemma BalanceDefaults(e: Engine, prefix: string, reading: Json, s: SystemState, st: Settings, p: real, now: Time)
    requires ExtractPower(reading) == Some(p) && s.settings == Some(st) && st.powerLimitWatts.Some?
    requires !PowerSaveMode(st, s.gridPowerAvailable) && p <= st.powerLimitWatts.value as real
    requires ForceOnCandidates(e.statuses, s.devices, now) == []
    requires st.powerOnMarginWatts.None? && st.overloadCooldownSeconds.None?
    ensures var avail := st.powerLimitWatts.value as real - p - 100.0;
            var cmds := PassCommands(e, prefix, reading, Some(s), now);
            && Balance(e, prefix, reading, Some(s), now).cooldown == e.cooldown
            && (avail <= 0.0 ==> cmds == [])
            && (avail > 0.0 ==> cmds == RestoreOns(e.statuses, s.devices, avail))
  {
    assert PowerOnMargin(st) == 100 && CooldownSeconds(st) == 0;
    BalanceRestores(e, prefix, reading, s, st, p, now);
    BalanceClearsCooldown(e, prefix, reading, s, st, p, now);
  }

  /**
   * The overload step compares against the effective limit, after
   * power-save shedding: when what is left of the reading exceeds it, the
   * pass ends with the prefix's overload timestamp at `now`, whatever the
   * later steps do; at or under it, the pass records no timestamp and at
   * most clears this prefix's.
   */
  lemma BalanceRecordsOverload(e: Engine, prefix: string, reading: Json, s: SystemState, st: Settings, p: real, now: Time)
    requires ExtractPower(reading) == Some(p) && s.settings == Some(st) && st.powerLimitWatts.Some?
    ensures var grid := s.gridPowerAvailable;
            var left := if PowerSaveMode(st, grid) then p - SumActual(e.statuses, PowerSaveCandidates(e.statuses, s.devices)) else p;
            var r := Balance(e, prefix, reading, Some(s), now);
            && (left > EffectiveLimit(st, grid) as real ==> prefix in r.cooldown && r.cooldown[prefix] == now)
            && (left <= EffectiveLimit(st, grid) as real ==> r.cooldown == e.cooldown || r.cooldown == e.cooldown - {prefix})
  {
    var grid := s.gridPowerAvailable;
    var limit := EffectiveLimit(st, grid);
    var margin := PowerOnMargin(st);
    var devices := s.devices;
    if PowerSaveMode(st, grid) {
      PowerSaveShedEffect(e, p, devices, now);
    }
    var shed := if PowerSaveMode(st, grid) then PowerSaveShed(e, p, devices, now) else Stepped(e, p);
    var managed := if PowerSaveMode(st, grid) then Essential(devices) else devices;
    assert shed.engine.cooldown == e.cooldown;
    var overload := Overload(shed.engine, shed.power, limit, managed, prefix, now);
    if shed.power > limit as real {
      OverloadShedsShortestPrefix(shed.engine, shed.power, limit, managed, prefix, now);
    }
    PreventDowntimeAppends(overload.engine, overload.power, limit, margin, managed, now);
    match PreventDowntime(overload.engine, overload.power, limit, margin, managed, now)
    case Aborted(_) =>
    case Continue(e1, q) =>
      if !CooldownRunning(e1.cooldown, prefix, CooldownSeconds(st), now) {
        RestoreAfterCooldown(e1, q, limit, margin, CooldownSeconds(st), managed, prefix, now);
      }
  }

  /**
   * In vacation mode or during a blackout, with a positive power-save
   * limit, a reading that stays above that limit after the non-essential
   * devices are shed is an overload, even when it is within the main limit.
   */
  lemma PowerSaveLimitOverloads(e: Engine, prefix: string, reading: Json, s: SystemState, st: Settings, p: real, now: Time)
    requires ExtractPower(reading) == Some(p) && s.settings == Some(st) && st.powerLimitWatts.Some?
    requires st.vacationModeEnabled || !s.gridPowerAvailable
    requires st.powerSaveLimitWatts.Some? && st.powerSaveLimitWatts.value > 0
    requires p - SumActual(e.statuses, PowerSaveCandidates(e.statuses, s.devices)) > st.powerSaveLimitWatts.value as real
    ensures var r := Balance(e, prefix, reading, Some(s), now);
            prefix in r.cooldown && r.cooldown[prefix] == now
  {
    assert EffectiveLimit(st, s.gridPowerAvailable) == st.powerSaveLimitWatts.value;
    BalanceRecordsOverload(e, prefix, reading, s, st, p, now);
  }

  /** `List.remove(Object)`: the list without the first occurrence of `x`. */
  function RemoveFirst(s: seq<Device>, x: Device): (r: seq<Device>)
    ensures multiset(r) == multiset(s) - multiset{x}
    ensures s != [] && s[0] == x ==> r == s[1..]
  {
    if s == [] then []
    else if s[0] == x then
      assert s == [s[0]] + s[1..];
      s[1..]
    else
      assert s == [s[0]] + s[1..];
      [s[0]] + RemoveFirst(s[1..], x)
  }

  // ---------------------------------------------------------------- the service

  /**
   * The balancer with its own state (overload timestamps and the trace of
   * its actions) and the two caches it reads; the status cache is also
   * written, by every switch.
   */
  class BalancingService {
    var lastOverloadTime: map<string, Time>
    var actions: seq<BalancerAction>
    const stateCache: DeviceRealtimeStateCache
    const systemStateCache: SystemStateCache.SystemStateCache

    constructor (stateCache: DeviceRealtimeStateCache, systemStateCache: SystemStateCache.SystemStateCache)
      ensures this.stateCache == stateCache && this.systemStateCache == systemStateCache
      ensures lastOverloadTime == map[] && actions == []
    {
      this.stateCache := stateCache;
      this.systemStateCache := systemStateCache;
      lastOverloadTime := map[];
      actions := [];
    }

    /** The state the balancing functions above speak about. */
    function Snapshot(): Engine
      reads this, stateCache
    {
      Engine(stateCache.cache, lastOverloadTime, actions)
    }

    /** `clearOverloadCooldown`: forget the overload timestamp of one prefix. */
    method ClearOverloadCooldown(mqttPrefix: string)
      modifies this
      ensures lastOverloadTime == old(lastOverloadTime) - {mqttPrefix}
      ensures actions == old(actions)
    {
      lastOverloadTime := lastOverloadTime - {mqttPrefix};
    }

    method TurnOnDevice(d: Device, now: Time)
      requires stateCache.Valid()
      modifies this, stateCache
      ensures stateCache.Valid()
      ensures stateCache.cache == WithControlState(old(stateCache.cache), d.id, ControlState.Enabled, now)
      ensures lastOverloadTime == old(lastOverloadTime) && actions == old(actions) + [ActionFor(d, true)]
      ensures Snapshot() == Switch(old(Snapshot()), d, true, now)
    {
      var status := stateCache.UpdateControlState(d.id, ControlState.Enabled, now);
      actions := actions + [ActionFor(d, true)];
    }

    method TurnOffDevice(d: Device, now: Time)
      requires stateCache.Valid()
      modifies this, stateCache
      ensures stateCache.Valid()
      ensures stateCache.cache == WithControlState(old(stateCache.cache), d.id, ControlState.DisabledByBalancer, now)
      ensures lastOverloadTime == old(lastOverloadTime) && actions == old(actions) + [ActionFor(d, false)]
      ensures Snapshot() == Switch(old(Snapshot()), d, false, now)
    {
      var status := stateCache.UpdateControlState(d.id, ControlState.DisabledByBalancer, now);
      actions := actions + [ActionFor(d, false)];
    }

    method HandlePowerSaveShed(power: real, devices: seq<Device>, now: Time) returns (newPower: real)
      requires stateCache.Valid()
      modifies this, stateCache
      ensures stateCache.Valid()
      ensures Stepped(Snapshot(), newPower) == PowerSaveShed(old(Snapshot()), power, devices, now)
    {
      var candidates := PowerSaveCandidates(stateCache.cache, devices);
      if candidates == [] {
        return power;
      }
      var shed := TurnOffAll(candidates, now);
      newPower := power - shed;
    }

    /** The power-save loop: switch each device off in turn, adding up the actual power each one drew. */
    method TurnOffAll(candidates: seq<Device>, now: Time) returns (shed: real)
      requires stateCache.Valid()
      modifies this, stateCache
      ensures stateCache.Valid()
      ensures Snapshot() == SwitchAll(old(Snapshot()), candidates, false, now)
      ensures shed == SumActual(old(stateCache.cache), candidates)
    {
      ghost var e0 := Snapshot();
      shed := 0.0;
      var i := 0;
      while i < |candidates|
        invariant 0 <= i <= |candidates|
        invariant stateCache.Valid()
        invariant SwitchAll(Snapshot(), candidates[i..], false, now) == SwitchAll(e0, candidates, false, now)
        invariant shed == SumActual(e0.statuses, candidates[..i])
        invariant forall id :: ActualPower(stateCache.cache, id) == ActualPower(e0.statuses, id)
      {
        PowerSaveStep(e0, Snapshot(), candidates, i, now);
        TurnOffDevice(candidates[i], now);
        shed := shed + ActualPower(stateCache.cache, candidates[i].id);
        i := i + 1;
      }
      assert candidates[..i] == candidates && candidates[i..] == [];
    }

    method HandleOverload(power: real, limit: int, devices: seq<Device>, mqttPrefix: string, now: Time)
      returns (newPower: real)
      requires stateCache.Valid()
      modifies this, stateCache
      ensures stateCache.Valid()
      ensures Stepped(Snapshot(), newPower) == Overload(old(Snapshot()), power, limit, devices, mqttPrefix, now)
    {
      ghost var e0 := Snapshot();
      if power <= limit as real {
        newPower := power;
      } else {
        OverloadByLoop(e0, power, limit, devices, mqttPrefix, now);
        var statuses := stateCache.cache;
        lastOverloadTime := lastOverloadTime[mqttPrefix := now];
        assert Snapshot() == e0.(cooldown := e0.cooldown[mqttPrefix := now]);
        var candidates := ShedOrder(statuses, devices);
        var shed := ShedInOrder(statuses, candidates, power - limit as real, now);
        newPower := power - shed;
      }
    }

    /** The shutdown loop of `handleOverload`: devices in order until the power shed covers `toShed`. */
    method ShedInOrder(statuses: StatusMap, candidates: seq<Device>, toShed: real, now: Time) returns (shed: real)
      requires stateCache.Valid()
      modifies this, stateCache
      ensures stateCache.Valid()
      ensures Stepped(Snapshot(), shed) == ShedLoop(old(Snapshot()), statuses, candidates, toShed, 0.0, now)
    {
      ghost var cur := Snapshot();
      ghost var goal := ShedLoop(cur, statuses, candidates, toShed, 0.0, now);
      shed := 0.0;
      var i := 0;
      while i < |candidates| && shed < toShed
        invariant 0 <= i <= |candidates|
        invariant stateCache.Valid()
        invariant Snapshot() == cur
        invariant ShedLoop(cur, statuses, candidates[i..], toShed, shed, now) == goal
        decreases |candidates| - i
      {
        ShedLoopStep(cur, statuses, candidates, i, toShed, shed, now);
        TurnOffDevice(candidates[i], now);
        cur := Switch(cur, candidates[i], false, now);
        shed := shed + ActualPower(statuses, candidates[i].id);
        i := i + 1;
      }
      assert i == |candidates| ==> candidates[i..] == [];
      assert ShedLoop(cur, statuses, candidates[i..], toShed, shed, now) == Stepped(cur, shed);
    }

    /** `findDevicesToSacrifice`, as the loop that accumulates the wattage. */
    method FindDevicesToSacrifice(sacrificial: seq<Device>, powerToFree: int) returns (victims: seq<Device>)
      ensures victims == SacrificePrefix(sacrificial, powerToFree)
    {
      var freed := 0;
      var i := 0;
      while i < |sacrificial|
        invariant 0 <= i <= |sacrificial|
        invariant freed == SumWattage(sacrificial[..i])
        invariant SacrificePrefixFrom(sacrificial, powerToFree, i + 1) == SacrificePrefix(sacrificial, powerToFree)
      {
        SumWattageStep(sacrificial, i);
        freed := freed + WattageOrZero(sacrificial[i]);
        if freed >= powerToFree {
          return sacrificial[..i + 1];
        }
        i := i + 1;
      }
      return [];
    }

    method HandlePreventDowntime(power: real, limit: int, margin: int, devices: seq<Device>, now: Time)
      returns (newPower: real, aborted: bool)
      requires stateCache.Valid()
      modifies this, stateCache
      ensures stateCache.Valid()
      ensures PreventDowntime(old(Snapshot()), power, limit, margin, devices, now) ==
              if aborted then Aborted(Snapshot()) else Continue(Snapshot(), newPower)
    {
      var statuses := stateCache.cache;
      var forceOn := SortBy(PriorityAscending, ForceOnCandidates(statuses, devices, now));
      if forceOn == [] {
        return power, false;
      }
      var availableMargin := limit as real - power - margin as real;
      var powerAfterChanges := power;
      var sacrificial := SortBy(PriorityDescending, SacrificeCandidates(statuses, devices, forceOn));
      newPower, aborted := ForceOnAll(forceOn, availableMargin, powerAfterChanges, sacrificial, now);
    }

    /** The force-on loop of `handlePreventDowntime`, over the sorted candidates. */
    method ForceOnAll(forceOn: seq<Device>, availableMargin: real, powerAfterChanges: real, sacrificial: seq<Device>,
                      now: Time)
      returns (newPower: real, aborted: bool)
      requires stateCache.Valid()
      modifies this, stateCache
      ensures stateCache.Valid()
      ensures ForceOnLoop(old(Snapshot()), forceOn, availableMargin, powerAfterChanges, sacrificial, now) ==
              if aborted then Aborted(Snapshot()) else Continue(Snapshot(), newPower)
    {
      var margin, power, sac := availableMargin, powerAfterChanges, sacrificial;
      ghost var cur := Snapshot();
      ghost var goal := ForceOnLoop(cur, forceOn, margin, power, sac, now);
      var i := 0;
      while i < |forceOn|
        invariant 0 <= i <= |forceOn|
        invariant stateCache.Valid()
        invariant stateCache.cache == cur.statuses && lastOverloadTime == cur.cooldown && actions == cur.actions
        invariant ForceOnLoop(cur, forceOn[i..], margin, power, sac, now) == goal
      {
        ForceOnLoopStep(cur, forceOn, i, margin, power, sac, now);
        var halted;
        margin, power, sac, halted := TryForceOn(forceOn[i], margin, power, sac, now);
        if halted {
          return power, true;
        }
        cur := Snapshot();
        i := i + 1;
      }
      assert forceOn[i..] == [];
      return power, false;
    }

    /** The body of the force-on loop of `handlePreventDowntime`, for one candidate. */
    method TryForceOn(deviceToOn: Device, availableMargin: real, powerAfterChanges: real, sacrificial: seq<Device>, now: Time)
      returns (newMargin: real, newPower: real, newSacrificial: seq<Device>, aborted: bool)
      requires stateCache.Valid()
      modifies this, stateCache
      ensures stateCache.Valid()
      ensures ForceOnDevice(old(Snapshot()), deviceToOn, availableMargin, powerAfterChanges, sacrificial, now) ==
              if aborted then Abort(Snapshot()) else Proceed(Snapshot(), newMargin, newPower, newSacrificial)
    {
      newMargin, newPower, newSacrificial, aborted := availableMargin, powerAfterChanges, sacrificial, false;
      var powerNeeded := WattageOrZero(deviceToOn);
      if powerNeeded == 0 {
        return;
      }
      if availableMargin >= powerNeeded as real {
        TurnOnDevice(deviceToOn, now);
        newMargin := availableMargin - powerNeeded as real;
        newPower := powerAfterChanges + powerNeeded as real;
        return;
      }
      newMargin, newPower, newSacrificial, aborted :=
        SacrificeAndForceOn(deviceToOn, availableMargin, powerAfterChanges, sacrificial, now);
    }

    /** The part of the force-on body that makes room by switching sacrificial devices off. */
    method SacrificeAndForceOn(deviceToOn: Device, availableMargin: real, powerAfterChanges: real, sacrificial: seq<Device>,
                               now: Time)
      returns (newMargin: real, newPower: real, newSacrificial: seq<Device>, aborted: bool)
      requires stateCache.Valid()
      modifies this, stateCache
      ensures stateCache.Valid()
      ensures ForceOnBySacrifice(old(Snapshot()), deviceToOn, availableMargin, powerAfterChanges, sacrificial, now) ==
              if aborted then Abort(Snapshot()) else Proceed(Snapshot(), newMargin, newPower, newSacrificial)
    {
      newMargin, newPower, newSacrificial, aborted := availableMargin, powerAfterChanges, sacrificial, false;
      ghost var e0 := Snapshot();
      var powerNeeded := WattageOrZero(deviceToOn);
      var powerToFree := Truncate(powerNeeded as real - availableMargin);
      var victims := FindDevicesToSacrifice(sacrificial, powerToFree);
      if victims == [] {
        return;
      }
      var powerFreed, halted, rest := SacrificeVictims(victims, sacrificial, now);
      if halted {
        return availableMargin, powerAfterChanges, sacrificial, true;
      }
      ghost var e1 := Snapshot();
      assert SacrificeLoop(e0, victims, 0, now) == Freed(e1, powerFreed);
      newSacrificial := rest;
      newMargin := availableMargin + powerFreed as real;
      newPower := powerAfterChanges - powerFreed as real;
      TurnOnDevice(deviceToOn, now);
      assert Snapshot() == Switch(e1, deviceToOn, true, now);
      newMargin := newMargin - powerNeeded as real;
      newPower := newPower + powerNeeded as real;
    }

    /**
     * The inner loop of `handlePreventDowntime`: switch each victim off, add
     * its wattage and take it off the sacrificial list; a victim without a
     * wattage ends the pass right after it was switched off.
     */
    method SacrificeVictims(victims: seq<Device>, sacrificial: seq<Device>, now: Time)
      returns (powerFreed: int, halted: bool, rest: seq<Device>)
      requires stateCache.Valid()
      requires |victims| <= |sacrificial| && victims == sacrificial[..|victims|]
      modifies this, stateCache
      ensures stateCache.Valid()
      ensures SacrificeLoop(old(Snapshot()), victims, 0, now) ==
              if halted then Halted(Snapshot()) else Freed(Snapshot(), powerFreed)
      ensures !halted ==> rest == sacrificial[|victims|..]
    {
      ghost var cur := Snapshot();
      ghost var goal := SacrificeLoop(cur, victims, 0, now);
      powerFreed := 0;
      rest := sacrificial;
      var j := 0;
      while j < |victims|
        invariant 0 <= j <= |victims|
        invariant stateCache.Valid()
        invariant stateCache.cache == cur.statuses && lastOverloadTime == cur.cooldown && actions == cur.actions
        invariant rest == sacrificial[j..]
        invariant SacrificeLoop(cur, victims[j..], powerFreed, now) == goal
      {
        SacrificeLoopStep(cur, victims, j, powerFreed, now);
        var deviceToOff := victims[j];
        TurnOffDevice(deviceToOff, now);
        cur := Switch(cur, deviceToOff, false, now);
        if deviceToOff.wattage.None? {
          return powerFreed, true, rest;
        }
        powerFreed := powerFreed + deviceToOff.wattage.value;
        assert rest[0] == deviceToOff && rest[1..] == sacrificial[j + 1..];
        rest := RemoveFirst(rest, deviceToOff);
        j := j + 1;
      }
      assert victims[j..] == [];
      return powerFreed, false, rest;
    }

    method HandleRestore(power: real, limit: int, margin: int, cooldownSeconds: int, devices: seq<Device>,
                         mqttPrefix: string, now: Time)
      requires stateCache.Valid()
      modifies this, stateCache
      ensures stateCache.Valid()
      ensures Snapshot() == Restore(old(Snapshot()), power, limit, margin, cooldownSeconds, devices, mqttPrefix, now)
    {
      ghost var e0 := Snapshot();
      if cooldownSeconds > 0 && mqttPrefix in lastOverloadTime {
        var secondsSinceOverload := now - lastOverloadTime[mqttPrefix];
        if secondsSinceOverload < cooldownSeconds {
          return;
        }
        lastOverloadTime := lastOverloadTime - {mqttPrefix};
      }
      ghost var e1 := Snapshot();
      var avail := limit as real - power - margin as real;
      if avail <= 0.0 {
        return;
      }
      var toRestore := SortBy(PriorityAscending, RestoreCandidates(stateCache.cache, devices));
      ghost var goal := RestoreLoop(e1, toRestore, avail, now);
      assert goal == Restore(e0, power, limit, margin, cooldownSeconds, devices, mqttPrefix, now);
      ghost var cur := e1;
      var i := 0;
      while i < |toRestore|
        invariant 0 <= i <= |toRestore|
        invariant stateCache.Valid()
        invariant stateCache.cache == cur.statuses && lastOverloadTime == cur.cooldown && actions == cur.actions
        invariant RestoreLoop(cur, toRestore[i..], avail, now) == goal
      {
        var d := toRestore[i];
        RestoreLoopStep(cur, toRestore, i, avail, now);
        var wattage := WattageOrZero(d);
        if wattage > 0 && avail >= wattage as real {
          TurnOnDevice(d, now);
          cur := Switch(cur, d, true, now);
          avail := avail - wattage as real;
        } else if wattage > 0 {
          break;
        }
        i := i + 1;
      }
      assert i == |toRestore| ==> toRestore[i..] == [];
    }

    method BalancePower(mqttPrefix: string, powerMonitorStatus: Json, now: Time)
      requires stateCache.Valid()
      modifies this, stateCache
      ensures stateCache.Valid()
      ensures Snapshot() == Balance(old(Snapshot()), mqttPrefix, powerMonitorStatus,
                                    old(systemStateCache.GetState(mqttPrefix)), now)
    {
      var currentTotalPower := ExtractPower(powerMonitorStatus);
      if currentTotalPower.None? {
        return;
      }
      var systemState := systemStateCache.GetState(mqttPrefix);
      if systemState.None? {
        return;
      }
      var settings := systemState.value.settings;
      if settings.None? || settings.value.powerLimitWatts.None? {
        return;
      }
      var grid := systemState.value.gridPowerAvailable;
      var powerSave := settings.value.vacationModeEnabled || !grid;
      var limit := EffectiveLimit(settings.value, grid);
      var margin := PowerOnMargin(settings.value);
      var allDevices := systemState.value.devices;
      var powerAfterChanges := currentTotalPower.value;
      var managed := allDevices;
      if powerSave {
        powerAfterChanges := HandlePowerSaveShed(currentTotalPower.value, allDevices, now);
        managed := Essential(allDevices);
      }
      var powerAfterOverload := HandleOverload(powerAfterChanges, limit, managed, mqttPrefix, now);
      var powerAfterDowntime, aborted := HandlePreventDowntime(powerAfterOverload, limit, margin, managed, now);
      if aborted {
        return;
      }
      HandleRestore(powerAfterDowntime, limit, margin, CooldownSeconds(settings.value), managed, mqttPrefix, now);
    }
  }
}
