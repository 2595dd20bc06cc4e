/**
 * The per-scope cache of system state. A scope is keyed by the MQTT prefix of
 * its power monitor. Four maps are kept: the state itself (settings, roster,
 * grid flag), the index from a device prefix to its scope, the recorded grid
 * flag per scope, and the open blackout session per scope.
 */
module SystemStateCache {
  import opened Types
  import RealtimeCache

  /** An open blackout: which monitor, its energy counter at onset, and when. */
  datatype BlackoutSession = BlackoutSession(powerMonitorId: DeviceId, startEnergy: real, startTime: Time)

  datatype BlackoutStats = BlackoutStats(isBlackout: bool, consumedWattHours: real, durationSeconds: int)

  /** The prefixes of a roster. */
  function Prefixes(devices: seq<Device>): (r: set<string>)
    ensures forall d :: d in devices ==> d.mqttPrefix in r
    ensures forall p :: p in r ==> exists d :: d in devices && d.mqttPrefix == p
  {
    set d | d in devices :: d.mqttPrefix
  }

  /** The index with every entry that points at `monitor` removed. */
  function Unindex(index: map<string, string>, monitor: string): (r: map<string, string>)
    ensures forall k :: k in r <==> k in index && index[k] != monitor
    ensures forall k :: k in r ==> r[k] == index[k]
  {
    map k | k in index && index[k] != monitor :: index[k]
  }

  /**
   * `updateDeviceToMonitorMap`: drop every entry pointing at `monitor`, then
   * point each roster prefix at it.
   */
  function Reindex(index: map<string, string>, monitor: string, roster: seq<Device>): (r: map<string, string>)
    ensures forall k :: k in r <==> (k in index && index[k] != monitor) || k in Prefixes(roster)
    ensures forall k :: k in Prefixes(roster) ==> r[k] == monitor
    ensures forall k :: k in r && k !in Prefixes(roster) ==> r[k] == index[k] && r[k] != monitor
  {
    var kept := Unindex(index, monitor);
    map k | k in kept.Keys + Prefixes(roster) :: if k in Prefixes(roster) then monitor else kept[k]
  }

  lemma ReindexEmpty(index: map<string, string>, monitor: string)
    ensures Reindex(index, monitor, []) == Unindex(index, monitor)
  {
  }

  /** Indexing one more roster device adds (or redirects) exactly its prefix. */
  lemma ReindexStep(index: map<string, string>, monitor: string, roster: seq<Device>, d: Device)
    ensures Reindex(index, monitor, roster + [d]) == Reindex(index, monitor, roster)[d.mqttPrefix := monitor]
  {
    assert Prefixes(roster + [d]) == Prefixes(roster) + {d.mqttPrefix} by {
      forall x | x in roster + [d] ensures x in roster || x == d { }
    }
  }

  /** The index after pointing each roster prefix, in roster order, at `monitor`. */
  function IndexAll(index: map<string, string>, monitor: string, roster: seq<Device>): map<string, string>
  {
    if roster == [] then index
    else IndexAll(index, monitor, roster[..|roster| - 1])[roster[|roster| - 1].mqttPrefix := monitor]
  }

  /** Pointing the roster at `monitor` one device at a time, after purging it, is the rebuilt index. */
  lemma {:induction false} IndexAllIsReindex(index: map<string, string>, monitor: string, roster: seq<Device>)
    ensures IndexAll(Unindex(index, monitor), monitor, roster) == Reindex(index, monitor, roster)
  {
    if roster == [] {
      ReindexEmpty(index, monitor);
    } else {
      var init := roster[..|roster| - 1];
      IndexAllIsReindex(index, monitor, init);
      ReindexStep(index, monitor, init, roster[|roster| - 1]);
      assert init + [roster[|roster| - 1]] == roster;
    }
  }

  /** The roster without the devices that have prefix `p`, in the same order. */
  function WithoutPrefix(devices: seq<Device>, p: string): (r: seq<Device>)
    ensures |r| <= |devices|
    ensures forall d :: d in r <==> d in devices && d.mqttPrefix != p
  {
    if devices == [] then []
    else if devices[0].mqttPrefix == p then WithoutPrefix(devices[1..], p)
    else [devices[0]] + WithoutPrefix(devices[1..], p)
  }

  /** The first power monitor of a roster (`findFirst`). */
  function FirstPowerMonitor(devices: seq<Device>): (r: Option<Device>)
    ensures r.Some? ==> r.value in devices && r.value.deviceType == PowerMonitor
    ensures r.None? <==> forall d :: d in devices ==> d.deviceType != PowerMonitor
    ensures r.Some? ==> exists i :: 0 <= i < |devices| && devices[i] == r.value
                          && forall j :: 0 <= j < i ==> devices[j].deviceType != PowerMonitor
  {
    if devices == [] then None
    else if devices[0].deviceType == PowerMonitor then Some(devices[0])
    else
      var r := FirstPowerMonitor(devices[1..]);
      if r.Some? then
        ghost var i :| 0 <= i < |devices[1..]| && devices[1..][i] == r.value
                      && forall j :: 0 <= j < i ==> devices[1..][j].deviceType != PowerMonitor;
        assert devices[i + 1] == r.value;
        r
      else r
  }

  /** The energy counter in a device's last status document, if it has one. */
  function TotalEnergy(statuses: RealtimeCache.StatusMap, id: DeviceId): (r: Option<real>)
    ensures r.Some? <==> id in statuses && statuses[id].lastStatusJson.Some?
                         && statuses[id].lastStatusJson.value.aenergyTotal.Some?
  {
    if id in statuses && statuses[id].lastStatusJson.Some? then statuses[id].lastStatusJson.value.aenergyTotal
    else None
  }

  /**
   * `getBlackoutStats` over the values it reads: with no session, (false, 0, 0);
   * otherwise the energy used since onset, never negative, and the seconds since onset.
   */
  function Stats(session: Option<BlackoutSession>, currentTotal: Option<real>, now: Time): (r: BlackoutStats)
    ensures session.None? ==> r == BlackoutStats(false, 0.0, 0)
    ensures session.Some? ==> r.isBlackout && r.durationSeconds == now - session.value.startTime
    ensures session.Some? ==> r.consumedWattHours >= 0.0
    ensures session.Some? && currentTotal.Some? && currentTotal.value >= session.value.startEnergy ==>
              r.consumedWattHours == currentTotal.value - session.value.startEnergy
    ensures session.Some? && !(currentTotal.Some? && currentTotal.value >= session.value.startEnergy) ==>
              r.consumedWattHours == 0.0
  {
    match session
    case None => BlackoutStats(false, 0.0, 0)
    case Some(s) =>
      var consumed := if currentTotal.Some? && currentTotal.value >= s.startEnergy
                      then currentTotal.value - s.startEnergy else 0.0;
      BlackoutStats(true, consumed, now - s.startTime)
  }

  /**
   * The blackout session a snapshot would open for scope `p`: the scope's
   * first power monitor with its energy counter at `now`, when the scope,
   * such a monitor and its counter all exist.
   */
  function OpenedSession(states: map<string, SystemState>, statuses: RealtimeCache.StatusMap, p: string, now: Time)
    : (r: Option<BlackoutSession>)
    ensures r.Some? <==>
              && p in states
              && FirstPowerMonitor(states[p].devices).Some?
              && TotalEnergy(statuses, FirstPowerMonitor(states[p].devices).value.id).Some?
    ensures r.Some? ==>
              var monitor := FirstPowerMonitor(states[p].devices).value;
              r.value == BlackoutSession(monitor.id, TotalEnergy(statuses, monitor.id).value, now)
  {
    if p !in states then None
    else
      match FirstPowerMonitor(states[p].devices)
      case None => None
      case Some(monitor) =>
        match TotalEnergy(statuses, monitor.id)
        case None => None
        case Some(total) => Some(BlackoutSession(monitor.id, total, now))
  }

  /** The three maps a grid status change touches: cached states, grid flags, open blackout sessions. */
  datatype GridView = GridView(states: map<string, SystemState>, grid: map<string, bool>,
                               sessions: map<string, BlackoutSession>)

  /** The recorded grid flag of a scope, reading "available" when none is recorded. */
  function GridFlag(v: GridView, p: string): bool
  {
    if p in v.grid then v.grid[p] else true
  }

  /**
   * `updateGridStatus` for scope `p`: the flag is recorded, and copied into
   * the scope's cached state when there is one; a change from available to
   * unavailable opens `session` (when a snapshot could be taken), a change
   * back closes the scope's session, and any other call keeps the sessions.
   */
  function GridStep(v: GridView, p: string, isAvailable: bool, session: Option<BlackoutSession>): GridView
  {
    var was := GridFlag(v, p);
    GridView(if p in v.states then v.states[p := v.states[p].(gridPowerAvailable := isAvailable)] else v.states,
             v.grid[p := isAvailable],
             if was && !isAvailable then (if session.Some? then v.sessions[p := session.value] else v.sessions)
             else if !was && isAvailable then v.sessions - {p}
             else v.sessions)
  }

  /**
   * A grid step reads back as the new flag, sets it in the scope's cached
   * state and nothing else there, and leaves every other scope alone.
   */
  lemma GridStepRecords(v: GridView, p: string, isAvailable: bool, session: Option<BlackoutSession>)
    ensures var r := GridStep(v, p, isAvailable, session);
            && GridFlag(r, p) == isAvailable
            && r.states.Keys == v.states.Keys
            && (p in v.states ==> r.states[p] == v.states[p].(gridPowerAvailable := isAvailable))
            && (forall q :: q != p ==> GridFlag(r, q) == GridFlag(v, q))
            && (forall q :: q != p && q in v.states ==> r.states[q] == v.states[q])
            && (forall q :: q != p ==> (q in r.sessions <==> q in v.sessions))
            && (forall q :: q != p && q in v.sessions ==> r.sessions[q] == v.sessions[q])
  {
  }

  /**
   * Session bookkeeping: a blackout (available to unavailable) opens exactly
   * the snapshot, a restoration closes the session, a repeated flag changes
   * no session.
   */
  lemma GridStepSessions(v: GridView, p: string, isAvailable: bool, session: Option<BlackoutSession>)
    ensures var r := GridStep(v, p, isAvailable, session);
            && (GridFlag(v, p) && !isAvailable && session.Some? ==> p in r.sessions && r.sessions[p] == session.value)
            && (GridFlag(v, p) && !isAvailable && session.None? ==> r.sessions == v.sessions)
            && (!GridFlag(v, p) && isAvailable ==> p !in r.sessions && r.sessions == v.sessions - {p})
            && (GridFlag(v, p) == isAvailable ==> r.sessions == v.sessions)
  {
  }

  /**
   * An outage and its end: from an available scope, going unavailable and
   * then available again leaves the scope without a session, every other
   * session as it was, and the flag back at available.
   */
  lemma OutageRoundTrip(v: GridView, p: string, session: Option<BlackoutSession>, later: Option<BlackoutSession>)
    requires GridFlag(v, p)
    ensures var r := GridStep(GridStep(v, p, false, session), p, true, later);
            && r.sessions == v.sessions - {p}
            && GridFlag(r, p)
            && r.grid == v.grid[p := true]
  {
    var mid := GridStep(v, p, false, session);
    assert !GridFlag(mid, p);
    if session.Some? {
      assert v.sessions[p := session.value] - {p} == v.sessions - {p};
    }
  }

  /** Repeating a grid step with the same flag changes nothing further. */
  lemma GridStepIdempotent(v: GridView, p: string, isAvailable: bool, session: Option<BlackoutSession>, again: Option<BlackoutSession>)
    ensures GridStep(GridStep(v, p, isAvailable, session), p, isAvailable, again) == GridStep(v, p, isAvailable, session)
  {
    var r := GridStep(v, p, isAvailable, session);
    assert GridFlag(r, p) == isAvailable;
    if p in v.states {
      assert r.states[p := r.states[p].(gridPowerAvailable := isAvailable)] == r.states;
    }
    assert r.grid[p := isAvailable] == r.grid;
  }

  class SystemStateCache {
    var stateCache: map<string, SystemState>
    var deviceToMonitorMap: map<string, string>
    var gridStatusCache: map<string, bool>
    var blackoutSessions: map<string, BlackoutSession>
    const realtime: RealtimeCache.DeviceRealtimeStateCache

    constructor (realtime: RealtimeCache.DeviceRealtimeStateCache)
      ensures this.realtime == realtime
      ensures stateCache == map[] && deviceToMonitorMap == map[]
      ensures gridStatusCache == map[] && blackoutSessions == map[]
    {
      this.realtime := realtime;
      stateCache := map[];
      deviceToMonitorMap := map[];
      gridStatusCache := map[];
      blackoutSessions := map[];
    }

    function GetState(monitorPrefix: string): (r: Option<SystemState>)
      reads this
      ensures r.Some? <==> monitorPrefix in stateCache
      ensures r.Some? ==> r.value == stateCache[monitorPrefix]
    {
      if monitorPrefix in stateCache then Some(stateCache[monitorPrefix]) else None
    }

    /** Fail-open: no prefix, or no recorded flag, reads as "grid available". */
    function IsGridAvailable(monitorPrefix: Option<string>): (r: bool)
      reads this
      ensures monitorPrefix.None? ==> r
      ensures monitorPrefix.Some? && monitorPrefix.value !in gridStatusCache ==> r
      ensures monitorPrefix.Some? && monitorPrefix.value in gridStatusCache ==>
                r == gridStatusCache[monitorPrefix.value]
    {
      match monitorPrefix
      case None => true
      case Some(p) => if p in gridStatusCache then gridStatusCache[p] else true
    }

    /** The index rebuilt for one monitor; `state` None only purges. */
    method UpdateDeviceToMonitorMap(monitorPrefix: string, state: Option<SystemState>)
      modifies this
      ensures deviceToMonitorMap ==
                Reindex(old(deviceToMonitorMap), monitorPrefix, if state.Some? then state.value.devices else [])
      ensures stateCache == old(stateCache) && gridStatusCache == old(gridStatusCache)
      ensures blackoutSessions == old(blackoutSessions)
    {
      ghost var start := deviceToMonitorMap;
      var index := Unindex(deviceToMonitorMap, monitorPrefix);
      ghost var kept := index;
      var devices := if state.Some? then state.value.devices else [];
      var i := 0;
      while i < |devices|
        invariant 0 <= i <= |devices|
        invariant index == IndexAll(kept, monitorPrefix, devices[..i])
      {
        assert devices[..i + 1][..i] == devices[..i];
        index := index[devices[i].mqttPrefix := monitorPrefix];
        i := i + 1;
      }
      assert devices[..i] == devices;
      IndexAllIsReindex(start, monitorPrefix, devices);
      deviceToMonitorMap := index;
    }

    /**
     * `refreshState` given the upstream answer: a present state is stored with
     * the recorded grid flag and its roster indexed; an absent one evicts the scope.
     */
    method RefreshState(monitorPrefix: string, upstream: Option<SystemState>)
      modifies this
      ensures upstream.Some? ==>
                && stateCache == old(stateCache)[monitorPrefix :=
                     upstream.value.(gridPowerAvailable := old(IsGridAvailable(Some(monitorPrefix))))]
                && gridStatusCache == old(gridStatusCache)
                && deviceToMonitorMap == Reindex(old(deviceToMonitorMap), monitorPrefix, upstream.value.devices)
      ensures upstream.None? ==>
                && stateCache == old(stateCache) - {monitorPrefix}
                && gridStatusCache == old(gridStatusCache) - {monitorPrefix}
                && deviceToMonitorMap == Unindex(old(deviceToMonitorMap), monitorPrefix)
      ensures blackoutSessions == old(blackoutSessions)
    {
      if upstream.Some? {
        var state := upstream.value.(gridPowerAvailable := IsGridAvailable(Some(monitorPrefix)));
        stateCache := stateCache[monitorPrefix := state];
        UpdateDeviceToMonitorMap(monitorPrefix, Some(state));
      } else {
        stateCache := stateCache - {monitorPrefix};
        gridStatusCache := gridStatusCache - {monitorPrefix};
        UpdateDeviceToMonitorMap(monitorPrefix, None);
        ReindexEmpty(old(deviceToMonitorMap), monitorPrefix);
      }
    }

    /**
     * `removeDevice`: an indexed device leaves the index and its monitor's
     * roster (settings and grid flag kept); an unindexed prefix is treated as
     * a scope and evicted with its grid flag, and the index is purged of it.
     */
    method RemoveDevice(devicePrefix: string)
      modifies this
      ensures devicePrefix in old(deviceToMonitorMap) ==>
                var monitor := old(deviceToMonitorMap)[devicePrefix];
                && deviceToMonitorMap == old(deviceToMonitorMap) - {devicePrefix}
                && gridStatusCache == old(gridStatusCache)
                && stateCache == (if monitor in old(stateCache)
                                  then old(stateCache)[monitor := old(stateCache)[monitor].(
                                         devices := WithoutPrefix(old(stateCache)[monitor].devices, devicePrefix))]
                                  else old(stateCache))
      ensures devicePrefix !in old(deviceToMonitorMap) ==>
                && stateCache == old(stateCache) - {devicePrefix}
                && gridStatusCache == (if devicePrefix in old(stateCache)
                                       then old(gridStatusCache) - {devicePrefix}
                                       else old(gridStatusCache))
                && deviceToMonitorMap == Unindex(old(deviceToMonitorMap), devicePrefix)
      ensures blackoutSessions == old(blackoutSessions)
    {
      if devicePrefix in deviceToMonitorMap {
        var monitor := deviceToMonitorMap[devicePrefix];
        deviceToMonitorMap := deviceToMonitorMap - {devicePrefix};
        if monitor in stateCache {
          var oldState := stateCache[monitor];
          stateCache := stateCache[monitor := SystemState(oldState.settings,
                                                          WithoutPrefix(oldState.devices, devicePrefix),
                                                          oldState.gridPowerAvailable)];
        }
      } else {
        if devicePrefix in stateCache {
          stateCache := stateCache - {devicePrefix};
          gridStatusCache := gridStatusCache - {devicePrefix};
        }
        UpdateDeviceToMonitorMap(devicePrefix, None);
        ReindexEmpty(old(deviceToMonitorMap), devicePrefix);
      }
    }

    /** The blackout session the snapshot would open for a scope, if any. */
    function Snapshot(monitorPrefix: string, now: Time): Option<BlackoutSession>
      reads this, realtime
    {
      OpenedSession(stateCache, realtime.cache, monitorPrefix, now)
    }

    /** The maps a grid status change touches. */
    function Grid(): GridView
      reads this
    {
      GridView(stateCache, gridStatusCache, blackoutSessions)
    }

    method FindAndSnapshotPowerMonitor(monitorPrefix: string, now: Time)
      modifies this
      ensures blackoutSessions == (if old(Snapshot(monitorPrefix, now)).Some?
                                   then old(blackoutSessions)[monitorPrefix := old(Snapshot(monitorPrefix, now)).value]
                                   else old(blackoutSessions))
      ensures stateCache == old(stateCache) && gridStatusCache == old(gridStatusCache)
      ensures deviceToMonitorMap == old(deviceToMonitorMap)
    {
      var session := Snapshot(monitorPrefix, now);
      if session.Some? {
        blackoutSessions := blackoutSessions[monitorPrefix := session.value];
      }
    }

    /**
     * `updateGridStatus`: record the flag (also in the cached state), open a
     * blackout session on a true-to-false transition, close it on false-to-true.
     */
    method UpdateGridStatus(monitorPrefix: Option<string>, isAvailable: bool, now: Time)
      modifies this
      ensures monitorPrefix.None? ==> Grid() == old(Grid())
      ensures monitorPrefix.Some? ==>
                Grid() == GridStep(old(Grid()), monitorPrefix.value, isAvailable, old(Snapshot(monitorPrefix.value, now)))
      ensures deviceToMonitorMap == old(deviceToMonitorMap)
    {
      if monitorPrefix.None? {
        return;
      }
      var p := monitorPrefix.value;
      var oldStatus := IsGridAvailable(monitorPrefix);
      gridStatusCache := gridStatusCache[p := isAvailable];
      if p in stateCache {
        stateCache := stateCache[p := stateCache[p].(gridPowerAvailable := isAvailable)];
      }
      if oldStatus && !isAvailable {
        FindAndSnapshotPowerMonitor(p, now);
      } else if !oldStatus && isAvailable {
        blackoutSessions := blackoutSessions - {p};
      }
    }

    function GetBlackoutStats(monitorPrefix: string, now: Time): (r: BlackoutStats)
      reads this, realtime
      ensures monitorPrefix !in blackoutSessions ==> r == BlackoutStats(false, 0.0, 0)
      ensures monitorPrefix in blackoutSessions ==>
                var s := blackoutSessions[monitorPrefix];
                r == Stats(Some(s), TotalEnergy(realtime.cache, s.powerMonitorId), now)
    {
      if monitorPrefix in blackoutSessions then
        var s := blackoutSessions[monitorPrefix];
        Stats(Some(s), TotalEnergy(realtime.cache, s.powerMonitorId), now)
      else Stats(None, None, now)
    }
  }

  /**
   * Blackout accounting over one outage: once a session records a counter
   * value E at time t, a counter reading E + delta at time t + dt reports
   * (true, delta, dt).
   */
  lemma BlackoutAccounting(s: BlackoutSession, delta: real, dt: int)
    requires delta >= 0.0
    ensures Stats(Some(s), Some(s.startEnergy + delta), s.startTime + dt) == BlackoutStats(true, delta, dt)
  {
  }
}
