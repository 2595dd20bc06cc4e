/**
 * The in-memory map from device id to its realtime status record. Every
 * update first fetches the record for the id, creating an empty one that
 * carries the id when there is none, then overwrites its own fields only.
 */
module RealtimeCache {
  import opened Types

  type StatusMap = map<DeviceId, DeviceStatus>

  /** Every record is stored under its own device id. */
  ghost predicate Keyed(m: StatusMap)
  {
    forall id :: id in m ==> m[id].deviceId == id
  }

  /** The control-state invariant: the disable time is set exactly for DISABLED_BY_BALANCER. */
  predicate ControlConsistent(s: DeviceStatus)
  {
    s.balancerDisabledAt.Some? <==> s.controlState == Some(DisabledByBalancer)
  }

  function NewStatus(id: DeviceId): (s: DeviceStatus)
    ensures s.deviceId == id && ControlConsistent(s)
  {
    DeviceStatus(id, None, None, None, None, None, None)
  }

  /** The record for `id`, or a fresh one carrying `id`. */
  function GetOrCreate(m: StatusMap, id: DeviceId): (s: DeviceStatus)
    ensures id in m ==> s == m[id]
    ensures id !in m ==> s == NewStatus(id)
  {
    if id in m then m[id] else NewStatus(id)
  }

  function Lookup(m: StatusMap, id: DeviceId): (r: Option<DeviceStatus>)
    ensures r.Some? <==> id in m
    ensures r.Some? ==> r.value == m[id]
  {
    if id in m then Some(m[id]) else None
  }

  /** `initCache`: each status goes in under its own device id, later ones winning. */
  function PutAll(m: StatusMap, statuses: seq<DeviceStatus>): (r: StatusMap)
    ensures forall s :: s in statuses ==> s.deviceId in r
    ensures forall id :: id in r <==> id in m || exists s :: s in statuses && s.deviceId == id
    ensures Keyed(m) ==> Keyed(r)
    ensures |statuses| > 0 ==> r[statuses[|statuses| - 1].deviceId] == statuses[|statuses| - 1]
  {
    if statuses == [] then m
    else
      var last := statuses[|statuses| - 1];
      PutAll(m, statuses[..|statuses| - 1])[last.deviceId := last]
  }

  /** The last status in the list that carries `id`, if any. */
  function LastWithId(statuses: seq<DeviceStatus>, id: DeviceId): Option<DeviceStatus>
  {
    if statuses == [] then None
    else if statuses[|statuses| - 1].deviceId == id then Some(statuses[|statuses| - 1])
    else LastWithId(statuses[..|statuses| - 1], id)
  }

  /** `LastWithId` finds nothing exactly when no status carries the id; otherwise it finds one after which no status carries it. */
  lemma {:induction false} LastWithIdIsLast(statuses: seq<DeviceStatus>, id: DeviceId)
    ensures LastWithId(statuses, id).None? <==> forall i :: 0 <= i < |statuses| ==> statuses[i].deviceId != id
    ensures LastWithId(statuses, id).Some? ==>
              exists i :: 0 <= i < |statuses| && statuses[i] == LastWithId(statuses, id).value && statuses[i].deviceId == id
                          && forall j :: i < j < |statuses| ==> statuses[j].deviceId != id
  {
    if statuses != [] {
      var n := |statuses| - 1;
      var init := statuses[..n];
      LastWithIdIsLast(init, id);
      assert forall i :: 0 <= i < n ==> statuses[i] == init[i];
      if statuses[n].deviceId != id && LastWithId(init, id).Some? {
        var i :| 0 <= i < n && init[i] == LastWithId(init, id).value && init[i].deviceId == id
                 && forall j :: i < j < n ==> init[j].deviceId != id;
        assert statuses[i] == LastWithId(statuses, id).value;
      }
    }
  }

  /** After `PutAll`, an id holds the last status carrying it; an id no status carries keeps its old entry, or stays absent. */
  lemma {:induction false} PutAllHoldsLast(m: StatusMap, statuses: seq<DeviceStatus>, id: DeviceId)
    ensures LastWithId(statuses, id).Some? ==> id in PutAll(m, statuses) && PutAll(m, statuses)[id] == LastWithId(statuses, id).value
    ensures LastWithId(statuses, id).None? ==> (id in PutAll(m, statuses) <==> id in m)
    ensures LastWithId(statuses, id).None? && id in m ==> PutAll(m, statuses)[id] == m[id]
  {
    if statuses != [] {
      PutAllHoldsLast(m, statuses[..|statuses| - 1], id);
    }
  }

  function WithOnline(m: StatusMap, id: DeviceId, online: bool, prefix: string): (r: StatusMap)
    ensures r.Keys == m.Keys + {id}
    ensures r[id] == GetOrCreate(m, id).(lastOnline := Some(online), mqttPrefix := Some(prefix))
    ensures forall k :: k in m && k != id ==> r[k] == m[k]
  {
    m[id := GetOrCreate(m, id).(lastOnline := Some(online), mqttPrefix := Some(prefix))]
  }

  function WithStatus(m: StatusMap, id: DeviceId, json: Json, prefix: string): (r: StatusMap)
    ensures r.Keys == m.Keys + {id}
    ensures r[id] == GetOrCreate(m, id).(lastStatusJson := Some(json), mqttPrefix := Some(prefix))
    ensures forall k :: k in m && k != id ==> r[k] == m[k]
  {
    m[id := GetOrCreate(m, id).(lastStatusJson := Some(json), mqttPrefix := Some(prefix))]
  }

  function WithEvent(m: StatusMap, id: DeviceId, json: Json, prefix: string): (r: StatusMap)
    ensures r.Keys == m.Keys + {id}
    ensures r[id] == GetOrCreate(m, id).(lastEventJson := Some(json), mqttPrefix := Some(prefix))
    ensures forall k :: k in m && k != id ==> r[k] == m[k]
  {
    m[id := GetOrCreate(m, id).(lastEventJson := Some(json), mqttPrefix := Some(prefix))]
  }

  /**
   * `updateControlState`: the new state, with the disable time set to `now`
   * for DISABLED_BY_BALANCER and cleared for any other state.
   */
  function WithControlState(m: StatusMap, id: DeviceId, state: ControlState, now: Time): StatusMap
  {
    var disabledAt := if state == DisabledByBalancer then Some(now) else None;
    m[id := GetOrCreate(m, id).(controlState := Some(state), balancerDisabledAt := disabledAt)]
  }

  /**
   * A control-state update keeps every other record and every telemetry
   * field, sets the state, and sets the disable time exactly for
   * DISABLED_BY_BALANCER, so the record it writes keeps the invariant.
   */
  lemma ControlStateUpdate(m: StatusMap, id: DeviceId, state: ControlState, now: Time)
    ensures var r := WithControlState(m, id, state, now);
            && r.Keys == m.Keys + {id}
            && r[id].controlState == Some(state) && ControlConsistent(r[id])
            && r[id].balancerDisabledAt == (if state == DisabledByBalancer then Some(now) else None)
            && r[id] == GetOrCreate(m, id).(controlState := r[id].controlState,
                                            balancerDisabledAt := r[id].balancerDisabledAt)
            && forall k :: k in m && k != id ==> r[k] == m[k]
  {
  }

  /** The online, status and event updates never touch the control fields, so they keep the invariant. */
  lemma TelemetryKeepsControl(m: StatusMap, id: DeviceId, online: bool, json: Json, prefix: string)
    requires forall k :: k in m ==> ControlConsistent(m[k])
    ensures forall k :: k in WithOnline(m, id, online, prefix) ==> ControlConsistent(WithOnline(m, id, online, prefix)[k])
    ensures forall k :: k in WithStatus(m, id, json, prefix) ==> ControlConsistent(WithStatus(m, id, json, prefix)[k])
    ensures forall k :: k in WithEvent(m, id, json, prefix) ==> ControlConsistent(WithEvent(m, id, json, prefix)[k])
  {
  }

  class DeviceRealtimeStateCache {
    var cache: StatusMap

    ghost predicate Valid()
      reads this
    {
      Keyed(cache)
    }

    constructor ()
      ensures Valid() && cache == map[]
    {
      cache := map[];
    }

    method InitCache(allStatuses: seq<DeviceStatus>)
      requires Valid()
      modifies this
      ensures Valid() && cache == PutAll(old(cache), allStatuses)
    {
      var i := 0;
      while i < |allStatuses|
        invariant 0 <= i <= |allStatuses|
        invariant Keyed(cache)
        invariant cache == PutAll(old(cache), allStatuses[..i])
      {
        assert allStatuses[..i + 1][..i] == allStatuses[..i];
        cache := cache[allStatuses[i].deviceId := allStatuses[i]];
        i := i + 1;
      }
      assert allStatuses[..i] == allStatuses;
    }

    function Get(deviceId: DeviceId): (r: Option<DeviceStatus>)
      reads this
      requires Valid()
      ensures r.Some? <==> deviceId in cache
      ensures r.Some? ==> r.value == cache[deviceId] && r.value.deviceId == deviceId
    {
      Lookup(cache, deviceId)
    }

    method UpdateOnline(deviceId: DeviceId, online: bool, mqttPrefix: string) returns (status: DeviceStatus)
      requires Valid()
      modifies this
      ensures Valid() && cache == WithOnline(old(cache), deviceId, online, mqttPrefix)
      ensures status == cache[deviceId] && status.deviceId == deviceId
    {
      status := GetOrCreate(cache, deviceId).(lastOnline := Some(online), mqttPrefix := Some(mqttPrefix));
      cache := cache[deviceId := status];
    }

    method UpdateStatus(deviceId: DeviceId, statusJson: Json, mqttPrefix: string) returns (status: DeviceStatus)
      requires Valid()
      modifies this
      ensures Valid() && cache == WithStatus(old(cache), deviceId, statusJson, mqttPrefix)
      ensures status == cache[deviceId] && status.deviceId == deviceId
    {
      status := GetOrCreate(cache, deviceId).(lastStatusJson := Some(statusJson), mqttPrefix := Some(mqttPrefix));
      cache := cache[deviceId := status];
    }

    method UpdateEvent(deviceId: DeviceId, eventJson: Json, mqttPrefix: string) returns (status: DeviceStatus)
      requires Valid()
      modifies this
      ensures Valid() && cache == WithEvent(old(cache), deviceId, eventJson, mqttPrefix)
      ensures status == cache[deviceId] && status.deviceId == deviceId
    {
      status := GetOrCreate(cache, deviceId).(lastEventJson := Some(eventJson), mqttPrefix := Some(mqttPrefix));
      cache := cache[deviceId := status];
    }

    method UpdateControlState(deviceId: DeviceId, state: ControlState, now: Time) returns (status: DeviceStatus)
      requires Valid()
      modifies this
      ensures Valid() && cache == WithControlState(old(cache), deviceId, state, now)
      ensures status == cache[deviceId] && status.deviceId == deviceId && ControlConsistent(status)
    {
      status := GetOrCreate(cache, deviceId).(controlState := Some(state));
      if state == DisabledByBalancer {
        status := status.(balancerDisabledAt := Some(now));
      } else {
        status := status.(balancerDisabledAt := None);
      }
      cache := cache[deviceId := status];
    }
  }
}
