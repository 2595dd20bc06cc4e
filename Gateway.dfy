/**
 * The MQTT gateway (`ShellyService`): it resolves the device behind an
 * incoming topic, hands the message to the device's protocol adapter, feeds
 * the resulting readings to the realtime cache, the grid tracker and the
 * balancer, and turns the balancer's decisions into outgoing commands.
 *
 * The first half states the gateway's bookkeeping as functions over values
 * (the device cache, the subscriptions, the commands a list of balancer
 * actions produces); the class at the end performs it on its fields and is
 * proved against those functions.
 */
module Gateway {
  import opened Types
  import opened Strings
  import ShellyStrategy
  import TasmotaStrategy
  import opened RealtimeCache
  import SystemStateCache
  import Balancing

  // ---------------------------------------------------------------- vendor dispatch

  function SubscriptionTopics(provider: Provider, prefix: string): seq<string>
  {
    match provider
    case Shelly => ShellyStrategy.SubscriptionTopics(prefix)
    case Tasmota => TasmotaStrategy.SubscriptionTopics(prefix)
  }

  function ToggleCommand(provider: Provider, prefix: string, on: bool): MqttMessage
  {
    match provider
    case Shelly => ShellyStrategy.ToggleCommand(prefix, on)
    case Tasmota => TasmotaStrategy.ToggleCommand(prefix, on)
  }

  function OnlineCall(provider: Provider, topic: string, payload: string): Handled<bool>
  {
    match provider
    case Shelly => ShellyStrategy.HandleOnlineStatus(topic, payload)
    case Tasmota => TasmotaStrategy.HandleOnlineStatus(topic, payload)
  }

  /** The status document the adapter hands to the gateway, if any. */
  function StatusCall(provider: Provider, topic: string, json: Json): Option<Json>
  {
    match provider
    case Shelly => ShellyStrategy.HandleDeviceStatus(topic, json).call
    case Tasmota => TasmotaStrategy.Normalize(topic, json)
  }

  /** The event document the adapter hands to the gateway, if any. */
  function EventCall(provider: Provider, topic: string, json: Json): Option<Json>
  {
    match provider
    case Shelly => ShellyStrategy.HandleDeviceEvent(topic, json).call
    case Tasmota => TasmotaStrategy.HandleDeviceEvent(topic, json).call
  }

  // ---------------------------------------------------------------- the device cache

  type DeviceCache = map<string, Device>

  /** Every cached device sits under its own prefix. */
  predicate ByPrefix(cache: DeviceCache)
  {
    forall p :: p in cache ==> cache[p].mqttPrefix == p
  }

  /** `refreshDeviceCache` applied to each device of a list in turn: the later of two devices with one prefix wins. */
  function CacheAll(cache: DeviceCache, devices: seq<Device>): DeviceCache
  {
    if devices == [] then cache
    else
      var last := devices[|devices| - 1];
      CacheAll(cache, devices[..|devices| - 1])[last.mqttPrefix := last]
  }

  /** Caching a list keeps the cache keyed by prefix; its keys are the old ones and the prefixes of the list. */
  lemma {:induction false} CacheAllKeys(cache: DeviceCache, devices: seq<Device>)
    ensures ByPrefix(cache) ==> ByPrefix(CacheAll(cache, devices))
    ensures forall p :: p in CacheAll(cache, devices) <==> p in cache || exists d :: d in devices && d.mqttPrefix == p
    decreases |devices|
  {
    if devices != [] {
      var last := devices[|devices| - 1];
      CacheAllKeys(cache, devices[..|devices| - 1]);
      assert forall d :: d in devices <==> d in devices[..|devices| - 1] || d == last;
    }
  }

  /** The last device of a list with the given prefix. */
  function LastWithPrefix(devices: seq<Device>, prefix: string): Option<Device>
  {
    if devices == [] then None
    else
      var last := devices[|devices| - 1];
      if last.mqttPrefix == prefix then Some(last) else LastWithPrefix(devices[..|devices| - 1], prefix)
  }

  /** Nothing exactly when no device of the list has the prefix; otherwise a device of the list with that prefix. */
  lemma {:induction false} LastWithPrefixFinds(devices: seq<Device>, prefix: string)
    ensures LastWithPrefix(devices, prefix).None? <==> forall d :: d in devices ==> d.mqttPrefix != prefix
    ensures LastWithPrefix(devices, prefix).Some? ==>
              LastWithPrefix(devices, prefix).value in devices && LastWithPrefix(devices, prefix).value.mqttPrefix == prefix
    decreases |devices|
  {
    if devices != [] {
      var last := devices[|devices| - 1];
      LastWithPrefixFinds(devices[..|devices| - 1], prefix);
      assert forall d :: d in devices <==> d in devices[..|devices| - 1] || d == last;
    }
  }

  /** After caching a list, a prefix of the list holds the last device with that prefix; any other entry is untouched. */
  lemma {:induction false} CacheAllHoldsLast(cache: DeviceCache, devices: seq<Device>, p: string)
    ensures LastWithPrefix(devices, p).Some? ==> p in CacheAll(cache, devices) && CacheAll(cache, devices)[p] == LastWithPrefix(devices, p).value
    ensures LastWithPrefix(devices, p).None? ==> (p in CacheAll(cache, devices) <==> p in cache)
    ensures LastWithPrefix(devices, p).None? && p in cache ==> CacheAll(cache, devices)[p] == cache[p]
    decreases |devices|
  {
    if devices != [] {
      CacheAllHoldsLast(cache, devices[..|devices| - 1], p);
    }
  }

  /** Moving one key from the pending set to the done set keeps the two disjoint and their union unchanged. */
  lemma MoveOneKey<K>(pending: set<K>, done: set<K>, k: K)
    requires pending !! done && k in pending
    ensures (pending - {k}) !! (done + {k}) && (pending - {k}) + (done + {k}) == pending + done
  {
  }

  /** Removing the keys of `done` and then one more key removes both at once. */
  lemma RemoveOneMore<K, V>(m: map<K, V>, done: set<K>, k: K)
    ensures (m - done) - {k} == m - (done + {k})
  {
  }

  /** What a lookup found, and the device cache after it. */
  datatype Lookup = Lookup(device: Option<Device>, cache: DeviceCache)

  /**
   * `getDeviceByMqttPrefix`: a cache hit, or else a fetch of the whole
   * inventory, every device of which is cached, answering with the last
   * device that has the prefix.
   */
  function GetDevice(cache: DeviceCache, prefix: string, inventory: seq<Device>): Lookup
  {
    if prefix in cache then Lookup(Some(cache[prefix]), cache)
    else Lookup(LastWithPrefix(inventory, prefix), CacheAll(cache, inventory))
  }

  /**
   * A lookup keeps the cache keyed and never forgets an entry; it finds a
   * device with the prefix asked for, cached under it, exactly when one is
   * cached or in the inventory.
   */
  lemma GetDeviceFinds(cache: DeviceCache, prefix: string, inventory: seq<Device>)
    requires ByPrefix(cache)
    ensures var r := GetDevice(cache, prefix, inventory);
            && ByPrefix(r.cache)
            && (forall p :: p in cache ==> p in r.cache)
            && (r.device.None? <==> prefix !in cache && forall d :: d in inventory ==> d.mqttPrefix != prefix)
            && (r.device.Some? ==> r.device.value.mqttPrefix == prefix && prefix in r.cache && r.cache[prefix] == r.device.value)
  {
    if prefix !in cache {
      CacheAllHoldsLast(cache, inventory, prefix);
      CacheAllKeys(cache, inventory);
      LastWithPrefixFinds(inventory, prefix);
    }
  }

  /** A cache miss with no inventory behind it leaves everything as it was. */
  lemma GetDeviceMissing(cache: DeviceCache, prefix: string)
    requires prefix !in cache
    ensures GetDevice(cache, prefix, []) == Lookup(None, cache)
  {
  }

  // ---------------------------------------------------------------- resolving a topic

  /** `getTasmotaPrefixFromTopic`: the second piece of a topic whose first piece is "tele", "stat" or "cmnd". */
  function TasmotaPrefixFromTopic(topic: string): (r: Option<string>)
    ensures r.Some? ==> r == TasmotaStrategy.PrefixFromTopic(topic)
  {
    var parts := Split(topic, '/');
    if |parts| > 1 && (parts[0] == "tele" || parts[0] == "stat" || parts[0] == "cmnd") then Some(parts[1]) else None
  }

  /**
   * `findDeviceByTopic`: the Tasmota reading of the topic first, accepted
   * only for a Tasmota device; otherwise the Shelly reading. Every lookup
   * on the way may refill the cache.
   */
  function FindDevice(cache: DeviceCache, topic: string, inventory: seq<Device>): Lookup
  {
    var t := TasmotaPrefixFromTopic(topic);
    var first := if t.Some? then GetDevice(cache, t.value, inventory) else Lookup(None, cache);
    if first.device.Some? && first.device.value.provider == Some(Tasmota) then first
    else
      var s := ShellyStrategy.PrefixFromTopic(topic);
      if s.None? then Lookup(None, first.cache)
      else GetDevice(first.cache, s.value, inventory)
  }

  /**
   * The device a topic resolves to carries the prefix the topic names: a
   * Tasmota device by the Tasmota reading, any device by the Shelly one.
   */
  lemma FindDeviceMatches(cache: DeviceCache, topic: string, inventory: seq<Device>)
    requires ByPrefix(cache)
    ensures var r := FindDevice(cache, topic, inventory);
            && ByPrefix(r.cache)
            && (forall p :: p in cache ==> p in r.cache)
            && (r.device.Some? ==>
                  || (r.device.value.provider == Some(Tasmota) && TasmotaPrefixFromTopic(topic) == Some(r.device.value.mqttPrefix))
                  || ShellyStrategy.PrefixFromTopic(topic) == Some(r.device.value.mqttPrefix))
  {
    var t := TasmotaPrefixFromTopic(topic);
    if t.Some? {
      GetDeviceFinds(cache, t.value, inventory);
    }
    var first := if t.Some? then GetDevice(cache, t.value, inventory) else Lookup(None, cache);
    var s := ShellyStrategy.PrefixFromTopic(topic);
    if s.Some? {
      GetDeviceFinds(first.cache, s.value, inventory);
    }
  }

  /** The pieces of a topic split at "/" begin with its first piece. */
  lemma DropTrailingEmptyKeeps(parts: seq<string>, k: nat)
    requires k < |parts| && parts[k] != ""
    ensures |DropTrailingEmpty(parts)| > k && DropTrailingEmpty(parts)[k] == parts[k]
    decreases |parts|
  {
    if parts[|parts| - 1] == "" {
      DropTrailingEmptyKeeps(parts[..|parts| - 1], k);
    }
  }

  lemma SplitFirst(head: string, rest: string)
    requires head != "" && '/' !in head
    ensures |Split(head + "/" + rest, '/')| >= 1 && Split(head + "/" + rest, '/')[0] == head
  {
    assert head + "/" + rest == head + ['/'] + rest;
    RawSplitAppend(head, rest, '/');
    RawSplitNoSeparator(head, '/');
    DropTrailingEmptyKeeps(RawSplit(head + ['/'] + rest, '/'), 0);
  }

  /** A Tasmota device's topics, with a prefix free of "/", resolve to the device once it is cached. */
  lemma TasmotaTopicsFindDevice(cache: DeviceCache, d: Device, inventory: seq<Device>)
    requires d.provider == Some(Tasmota) && '/' !in d.mqttPrefix
    requires d.mqttPrefix in cache && cache[d.mqttPrefix] == d
    ensures forall t :: t in SubscriptionTopics(Tasmota, d.mqttPrefix) ==> FindDevice(cache, t, inventory) == Lookup(Some(d), cache)
  {
    var p := d.mqttPrefix;
    var topics := SubscriptionTopics(Tasmota, p);
    forall i | 0 <= i < |topics| ensures FindDevice(cache, topics[i], inventory) == Lookup(Some(d), cache) {
      var a := if i == 3 then "stat" else "tele";
      var b := if i == 0 then "LWT" else if i == 1 then "STATE" else if i == 2 then "SENSOR" else "RESULT";
      assert topics[i] == a + "/" + p + "/" + b;
      TasmotaStrategy.PrefixOfThreePieces(a, p, b);
    }
  }

  /** A topic `head/rest` with a first piece other than the Tasmota markers has no Tasmota reading. */
  lemma NoTasmotaReading(head: string, rest: string)
    requires head != "" && '/' !in head && head != "tele" && head != "stat" && head != "cmnd"
    ensures TasmotaPrefixFromTopic(head + "/" + rest).None?
  {
    SplitFirst(head, rest);
  }

  /** One Shelly topic `p/suffix` that reads back as `p` and has no Tasmota reading resolves to the cached device. */
  lemma ShellyTopicFindsDevice(cache: DeviceCache, d: Device, topic: string, inventory: seq<Device>)
    requires d.mqttPrefix in cache && cache[d.mqttPrefix] == d
    requires TasmotaPrefixFromTopic(topic).None? && ShellyStrategy.PrefixFromTopic(topic) == Some(d.mqttPrefix)
    ensures FindDevice(cache, topic, inventory) == Lookup(Some(d), cache)
  {
  }

  /** `head + tail`, with `tail` empty or starting at a "/", followed by "/suffix" is `head/rest` for some rest. */
  lemma JoinAtFirstSeparator(head: string, tail: string, suffix: string)
    requires tail == "" || tail[0] == '/'
    ensures (head + tail) + "/" + suffix == head + "/" + (if tail == "" then suffix else tail[1..] + "/" + suffix)
  {
    if tail != "" {
      assert tail == "/" + tail[1..];
    }
  }

  /** One of a Shelly device's topics, `p/suffix`, resolves to the cached device when it reads back as `p`. */
  lemma ShellyTopicResolves(cache: DeviceCache, d: Device, head: string, tail: string, suffix: string, inventory: seq<Device>)
    requires d.mqttPrefix == head + tail && (tail == "" || tail[0] == '/')
    requires head != "" && '/' !in head && head != "tele" && head != "stat" && head != "cmnd"
    requires d.mqttPrefix in cache && cache[d.mqttPrefix] == d
    requires ShellyStrategy.PrefixFromTopic(d.mqttPrefix + "/" + suffix) == Some(d.mqttPrefix)
    ensures FindDevice(cache, d.mqttPrefix + "/" + suffix, inventory) == Lookup(Some(d), cache)
  {
    var rest := if tail == "" then suffix else tail[1..] + "/" + suffix;
    JoinAtFirstSeparator(head, tail, suffix);
    NoTasmotaReading(head, rest);
    ShellyTopicFindsDevice(cache, d, d.mqttPrefix + "/" + suffix, inventory);
  }

  /** Each of the three Shelly subscription topics resolves to the cached device. */
  lemma ShellySuffixResolves(cache: DeviceCache, d: Device, head: string, tail: string, suffix: string, inventory: seq<Device>)
    requires suffix == "/online" || suffix == "/events/rpc" || suffix == "/status/switch:0"
    requires d.mqttPrefix == head + tail && (tail == "" || tail[0] == '/')
    requires head != "" && '/' !in head && head != "tele" && head != "stat" && head != "cmnd"
    requires !Contains(d.mqttPrefix + "/", "/status/") && !Contains(d.mqttPrefix + "/", "/events/")
    requires d.mqttPrefix in cache && cache[d.mqttPrefix] == d
    ensures FindDevice(cache, d.mqttPrefix + suffix, inventory) == Lookup(Some(d), cache)
  {
    var p := d.mqttPrefix;
    assert p + suffix == p + "/" + suffix[1..];
    if suffix == "/online" {
      ShellyStrategy.OnlineRoundTrip(p);
    } else if suffix == "/events/rpc" {
      ShellyStrategy.EventsRoundTrip(p);
    } else {
      ShellyStrategy.StatusRoundTrip(p);
    }
    ShellyTopicResolves(cache, d, head, tail, suffix[1..], inventory);
  }

  /**
   * A Shelly device's topics resolve to the device once it is cached, when
   * its prefix survives the Shelly round trip and its first piece is not
   * one of the Tasmota markers "tele", "stat" and "cmnd".
   */
  lemma ShellyTopicsFindDevice(cache: DeviceCache, d: Device, head: string, tail: string, inventory: seq<Device>)
    requires d.provider == Some(Shelly) && d.mqttPrefix == head + tail
    requires head != "" && '/' !in head && head != "tele" && head != "stat" && head != "cmnd"
    requires tail == "" || tail[0] == '/'
    requires !Contains(d.mqttPrefix + "/", "/status/") && !Contains(d.mqttPrefix + "/", "/events/")
    requires d.mqttPrefix in cache && cache[d.mqttPrefix] == d
    ensures forall t :: t in SubscriptionTopics(Shelly, d.mqttPrefix) ==> FindDevice(cache, t, inventory) == Lookup(Some(d), cache)
  {
    ShellySuffixResolves(cache, d, head, tail, "/online", inventory);
    ShellySuffixResolves(cache, d, head, tail, "/events/rpc", inventory);
    ShellySuffixResolves(cache, d, head, tail, "/status/switch:0", inventory);
  }

  /**
   * The Tasmota reading goes first: a Shelly device whose prefix is
   * "tele/x" is shadowed by a cached Tasmota device with prefix "x".
   */
  lemma TasmotaReadingFirst(shelly: Device, tasmota: Device, cache: DeviceCache, inventory: seq<Device>)
    requires shelly.mqttPrefix == "tele/x" && tasmota.mqttPrefix == "x" && tasmota.provider == Some(Tasmota)
    requires "x" in cache && cache["x"] == tasmota && "tele/x" in cache && cache["tele/x"] == shelly
    ensures FindDevice(cache, "tele/x/online", inventory).device == Some(tasmota)
  {
    assert "tele/x/online" == "tele" + "/" + "x" + "/" + "online";
    TasmotaStrategy.PrefixOfThreePieces("tele", "x", "online");
  }

  // ---------------------------------------------------------------- monitors

  /**
   * `findMonitorPrefixForDevice`: a monitor is its own scope; another device
   * belongs to the monitor the index names, or else to its own prefix.
   */
  function MonitorPrefix(index: map<string, string>, d: Device): (r: string)
    ensures d.deviceType == PowerMonitor || d.deviceType == GridMonitor ==> r == d.mqttPrefix
    ensures d.deviceType == SwitchableAppliance ==> r == (if d.mqttPrefix in index then index[d.mqttPrefix] else d.mqttPrefix)
  {
    if d.deviceType == PowerMonitor || d.deviceType == GridMonitor then d.mqttPrefix
    else if d.mqttPrefix in index then index[d.mqttPrefix]
    else d.mqttPrefix
  }

  /** After a monitor's roster is indexed, every appliance of the roster resolves to that monitor. */
  lemma RosterResolvesToMonitor(index: map<string, string>, monitor: string, roster: seq<Device>, d: Device)
    requires d in roster && d.deviceType == SwitchableAppliance
    ensures MonitorPrefix(SystemStateCache.Reindex(index, monitor, roster), d) == monitor
  {
    assert d.mqttPrefix in SystemStateCache.Prefixes(roster);
  }

  // ---------------------------------------------------------------- subscriptions

  /** The subscribed prefixes with the topics of each one's adapter, and the device cache. */
  datatype Subscriptions = Subscriptions(adapters: map<string, seq<string>>, cache: DeviceCache)

  /**
   * `subscribeForDevice`: a device without a prefix, without a provider, or
   * already subscribed changes nothing; otherwise its adapter's topics are
   * recorded and the device is cached.
   */
  function Subscribe(s: Subscriptions, d: Device): Subscriptions
  {
    if d.mqttPrefix == "" || d.provider.None? || d.mqttPrefix in s.adapters then s
    else Subscriptions(s.adapters[d.mqttPrefix := SubscriptionTopics(d.provider.value, d.mqttPrefix)],
                       s.cache[d.mqttPrefix := d])
  }

  /** `unsubscribeFromDevice`: drop the adapter and the cached device of a non-empty prefix. */
  function Unsubscribe(s: Subscriptions, prefix: string): Subscriptions
  {
    if prefix == "" then s
    else Subscriptions(s.adapters - {prefix}, s.cache - {prefix})
  }

  /** Subscribing twice is subscribing once. */
  lemma SubscribeIdempotent(s: Subscriptions, d: Device)
    ensures Subscribe(Subscribe(s, d), d) == Subscribe(s, d)
  {
  }

  /** A subscription keeps the cache keyed and the empty prefix unsubscribed; it records the device's own topics. */
  lemma SubscribeKeeps(s: Subscriptions, d: Device)
    requires ByPrefix(s.cache) && "" !in s.adapters
    ensures var r := Subscribe(s, d);
            && ByPrefix(r.cache) && "" !in r.adapters
            && (d.mqttPrefix != "" && d.provider.Some? ==>
                  d.mqttPrefix in r.adapters
                  && (d.mqttPrefix !in s.adapters ==>
                        r.adapters[d.mqttPrefix] == SubscriptionTopics(d.provider.value, d.mqttPrefix)
                        && r.cache[d.mqttPrefix] == d))
  {
  }

  /** Unsubscribing a fresh subscription restores the state before it. */
  lemma UnsubscribeUndoesSubscribe(s: Subscriptions, d: Device)
    requires d.mqttPrefix != "" && d.provider.Some?
    requires d.mqttPrefix !in s.adapters && d.mqttPrefix !in s.cache
    ensures Unsubscribe(Subscribe(s, d), d.mqttPrefix) == s
  {
    var p := d.mqttPrefix;
    var r := Subscribe(s, d);
    assert r.adapters - {p} == s.adapters;
    assert r.cache - {p} == s.cache;
  }

  // ---------------------------------------------------------------- commands

  /** The device cache after some commands, and the messages they published. */
  datatype Sent = Sent(cache: DeviceCache, messages: seq<MqttMessage>)

  /**
   * `sendCommand`: look the device up; a device that is unknown or has no
   * provider gets nothing, any other the toggle message of its adapter for
   * the prefix asked for.
   */
  function Command(cache: DeviceCache, prefix: string, on: bool, inventory: seq<Device>): Sent
  {
    CommandAfter(GetDevice(cache, prefix, inventory), prefix, on)
  }

  /** What `sendCommand` publishes once the lookup has answered. */
  function CommandAfter(l: Lookup, prefix: string, on: bool): Sent
  {
    if l.device.Some? && l.device.value.provider.Some? then
      Sent(l.cache, [ToggleCommand(l.device.value.provider.value, prefix, on)])
    else Sent(l.cache, [])
  }

  /** The commands of a list of balancer actions, sent in order. */
  function Replay(cache: DeviceCache, actions: seq<Balancing.BalancerAction>, inventory: seq<Device>): Sent
  {
    if actions == [] then Sent(cache, [])
    else
      var before := Replay(cache, actions[..|actions| - 1], inventory);
      var last := actions[|actions| - 1];
      var c := Command(before.cache, last.mqttPrefix, last.on, inventory);
      Sent(c.cache, before.messages + c.messages)
  }

  /** Every action names a cached device that has a provider. */
  predicate Reachable(cache: DeviceCache, actions: seq<Balancing.BalancerAction>)
  {
    forall i :: 0 <= i < |actions| ==> actions[i].mqttPrefix in cache && cache[actions[i].mqttPrefix].provider.Some?
  }

  /**
   * When every action names a cached device with a provider, the replay
   * publishes exactly one toggle message per action, in order, each for the
   * action's prefix and switch position, and leaves the cache alone.
   */
  lemma {:induction false} ReplayOnePerAction(cache: DeviceCache, actions: seq<Balancing.BalancerAction>, inventory: seq<Device>)
    requires Reachable(cache, actions)
    ensures Replay(cache, actions, inventory).cache == cache
    ensures |Replay(cache, actions, inventory).messages| == |actions|
    ensures forall i :: 0 <= i < |actions| ==>
              Replay(cache, actions, inventory).messages[i] ==
                ToggleCommand(cache[actions[i].mqttPrefix].provider.value, actions[i].mqttPrefix, actions[i].on)
    decreases |actions|
  {
    if actions != [] {
      var init, last := actions[..|actions| - 1], actions[|actions| - 1];
      assert Reachable(cache, init) by {
        forall i | 0 <= i < |init| ensures init[i] == actions[i] { }
      }
      ReplayOnePerAction(cache, init, inventory);
      var before := Replay(cache, init, inventory);
      var msg := ToggleCommand(cache[last.mqttPrefix].provider.value, last.mqttPrefix, last.on);
      assert Command(cache, last.mqttPrefix, last.on, inventory) == Sent(cache, [msg]);
      var r := Replay(cache, actions, inventory);
      assert r == Sent(cache, before.messages + [msg]);
      forall i | 0 <= i < |actions|
        ensures r.messages[i] == ToggleCommand(cache[actions[i].mqttPrefix].provider.value, actions[i].mqttPrefix, actions[i].on)
      {
        if i < |init| {
          assert r.messages[i] == before.messages[i] && init[i] == actions[i];
        }
      }
    }
  }

  /** Replaying a longer trace extends the messages and the cache of replaying its prefix. */
  lemma {:induction false} ReplayConcat(cache: DeviceCache, xs: seq<Balancing.BalancerAction>,
                                         ys: seq<Balancing.BalancerAction>, inventory: seq<Device>)
    ensures var a := Replay(cache, xs, inventory);
            var b := Replay(a.cache, ys, inventory);
            Replay(cache, xs + ys, inventory) == Sent(b.cache, a.messages + b.messages)
    decreases |ys|
  {
    if ys == [] {
      assert xs + ys == xs;
    } else {
      var ys0, last := ys[..|ys| - 1], ys[|ys| - 1];
      assert (xs + ys)[..|xs + ys| - 1] == xs + ys0;
      assert (xs + ys)[|xs + ys| - 1] == last;
      ReplayConcat(cache, xs, ys0, inventory);
      var a := Replay(cache, xs, inventory);
      var b0 := Replay(a.cache, ys0, inventory);
      var c := Command(b0.cache, last.mqttPrefix, last.on, inventory);
      assert Replay(cache, xs + ys0, inventory) == Sent(b0.cache, a.messages + b0.messages);
      assert Replay(cache, xs + ys, inventory) == Sent(c.cache, (a.messages + b0.messages) + c.messages);
      assert Replay(a.cache, ys, inventory) == Sent(c.cache, b0.messages + c.messages);
      assert (a.messages + b0.messages) + c.messages == a.messages + (b0.messages + c.messages);
    }
  }

  // ---------------------------------------------------------------- readings across adapters

  /**
   * A Tasmota sensor reading with a power figure reaches the balancer as a
   * reading of exactly that power.
   */
  lemma TasmotaSensorPower(prefix: string, payload: Json)
    requires payload.energy.Some? && payload.energy.value.power.Some?
    ensures StatusCall(Tasmota, "tele/" + prefix + "/SENSOR", payload).Some?
    ensures Balancing.ExtractPower(StatusCall(Tasmota, "tele/" + prefix + "/SENSOR", payload).value) == payload.energy.value.power
  {
    TasmotaStrategy.NormalizeReadings(prefix, payload);
  }

  // ---------------------------------------------------------------- the service

  /** One write to the durable device-status store. */
  datatype StoreWrite =
    | OnlineStored(deviceId: DeviceId, online: bool, mqttPrefix: string)
    | StatusStored(deviceId: DeviceId, json: Json, mqttPrefix: string)
    | EventStored(deviceId: DeviceId, json: Json, mqttPrefix: string)

  /**
   * The gateway. Published messages are appended to `outbox` and writes to
   * the durable store to `store`; `inventory` parameters stand for what the
   * device registry answers when the cache misses.
   */
  class ShellyService {
    var subscribedAdapters: map<string, seq<string>>
    var deviceCache: DeviceCache
    var outbox: seq<MqttMessage>
    var store: seq<StoreWrite>
    const stateCache: DeviceRealtimeStateCache
    const systemStateCache: SystemStateCache.SystemStateCache
    const balancingService: Balancing.BalancingService

    ghost predicate Valid()
      reads this, stateCache, balancingService, systemStateCache
    {
      && stateCache.Valid()
      && balancingService.stateCache == stateCache
      && balancingService.systemStateCache == systemStateCache
      && systemStateCache.realtime == stateCache
      && ByPrefix(deviceCache)
      && "" !in subscribedAdapters
    }

    constructor (stateCache: DeviceRealtimeStateCache, systemStateCache: SystemStateCache.SystemStateCache,
                 balancingService: Balancing.BalancingService)
      requires stateCache.Valid() && systemStateCache.realtime == stateCache
      requires balancingService.stateCache == stateCache && balancingService.systemStateCache == systemStateCache
      ensures Valid()
      ensures this.stateCache == stateCache && this.systemStateCache == systemStateCache
      ensures this.balancingService == balancingService
      ensures subscribedAdapters == map[] && deviceCache == map[] && outbox == [] && store == []
    {
      this.stateCache := stateCache;
      this.systemStateCache := systemStateCache;
      this.balancingService := balancingService;
      subscribedAdapters := map[];
      deviceCache := map[];
      outbox := [];
      store := [];
    }

    /** `refreshDeviceCache`: cache the device under its prefix. */
    method RefreshDeviceCache(d: Device)
      requires Valid()
      modifies this
      ensures Valid()
      ensures deviceCache == old(deviceCache)[d.mqttPrefix := d]
      ensures subscribedAdapters == old(subscribedAdapters) && outbox == old(outbox) && store == old(store)
    {
      deviceCache := deviceCache[d.mqttPrefix := d];
    }

    /**
     * `refreshState` of the system state cache, with its call back into the
     * gateway: after the scope is refreshed, every device of a present roster
     * is cached, in roster order.
     */
    method RefreshSystemState(monitorPrefix: string, upstream: Option<SystemState>)
      requires Valid()
      modifies this, systemStateCache
      ensures Valid()
      ensures upstream.Some? ==>
                && systemStateCache.stateCache == old(systemStateCache.stateCache)[monitorPrefix :=
                     upstream.value.(gridPowerAvailable := old(systemStateCache.IsGridAvailable(Some(monitorPrefix))))]
                && systemStateCache.deviceToMonitorMap ==
                     SystemStateCache.Reindex(old(systemStateCache.deviceToMonitorMap), monitorPrefix, upstream.value.devices)
                && systemStateCache.gridStatusCache == old(systemStateCache.gridStatusCache)
                && deviceCache == CacheAll(old(deviceCache), upstream.value.devices)
      ensures upstream.None? ==>
                && systemStateCache.stateCache == old(systemStateCache.stateCache) - {monitorPrefix}
                && systemStateCache.gridStatusCache == old(systemStateCache.gridStatusCache) - {monitorPrefix}
                && systemStateCache.deviceToMonitorMap == SystemStateCache.Unindex(old(systemStateCache.deviceToMonitorMap), monitorPrefix)
                && deviceCache == old(deviceCache)
      ensures systemStateCache.blackoutSessions == old(systemStateCache.blackoutSessions)
      ensures subscribedAdapters == old(subscribedAdapters) && outbox == old(outbox) && store == old(store)
    {
      systemStateCache.RefreshState(monitorPrefix, upstream);
      if upstream.Some? {
        var devices := upstream.value.devices;
        ghost var states, index := systemStateCache.stateCache, systemStateCache.deviceToMonitorMap;
        var i := 0;
        while i < |devices|
          invariant 0 <= i <= |devices|
          invariant Valid()
          invariant deviceCache == CacheAll(old(deviceCache), devices[..i])
          invariant systemStateCache.stateCache == states && systemStateCache.deviceToMonitorMap == index
          invariant systemStateCache.gridStatusCache == old(systemStateCache.gridStatusCache)
          invariant systemStateCache.blackoutSessions == old(systemStateCache.blackoutSessions)
          invariant subscribedAdapters == old(subscribedAdapters) && outbox == old(outbox) && store == old(store)
        {
          assert devices[..i + 1][..i] == devices[..i];
          RefreshDeviceCache(devices[i]);
          i := i + 1;
        }
        assert devices[..i] == devices;
      }
    }

    /** `getDeviceByMqttPrefix`, proved against `GetDevice`. */
    method GetDeviceByMqttPrefix(mqttPrefix: string, inventory: seq<Device>) returns (device: Option<Device>)
      requires Valid()
      modifies this
      ensures Valid()
      ensures Lookup(device, deviceCache) == GetDevice(old(deviceCache), mqttPrefix, inventory)
      ensures subscribedAdapters == old(subscribedAdapters) && outbox == old(outbox) && store == old(store)
    {
      if mqttPrefix in deviceCache {
        return Some(deviceCache[mqttPrefix]);
      }
      device := None;
      var i := 0;
      while i < |inventory|
        invariant 0 <= i <= |inventory|
        invariant Valid()
        invariant deviceCache == CacheAll(old(deviceCache), inventory[..i])
        invariant device == LastWithPrefix(inventory[..i], mqttPrefix)
        invariant subscribedAdapters == old(subscribedAdapters) && outbox == old(outbox) && store == old(store)
      {
        var dev := inventory[i];
        assert inventory[..i + 1][..i] == inventory[..i] && inventory[..i + 1][i] == dev;
        RefreshDeviceCache(dev);
        if mqttPrefix == dev.mqttPrefix {
          device := Some(dev);
        }
        i := i + 1;
      }
      assert inventory[..i] == inventory;
    }

    /** `findDeviceByTopic`, proved against `FindDevice`. */
    method FindDeviceByTopic(topic: string, inventory: seq<Device>) returns (device: Option<Device>)
      requires Valid()
      modifies this
      ensures Valid()
      ensures Lookup(device, deviceCache) == FindDevice(old(deviceCache), topic, inventory)
      ensures subscribedAdapters == old(subscribedAdapters) && outbox == old(outbox) && store == old(store)
    {
      var tasmotaPrefix := TasmotaPrefixFromTopic(topic);
      if tasmotaPrefix.Some? {
        device := GetDeviceByMqttPrefix(tasmotaPrefix.value, inventory);
        if device.Some? && device.value.provider == Some(Tasmota) {
          return;
        }
      }
      var prefix := ShellyStrategy.PrefixFromTopic(topic);
      if prefix.None? {
        return None;
      }
      device := GetDeviceByMqttPrefix(prefix.value, inventory);
    }

    /** `sendCommand`, proved against `Command`. */
    method SendCommand(deviceMqttPrefix: string, on: bool, inventory: seq<Device>)
      requires Valid()
      modifies this
      ensures Valid()
      ensures Sent(deviceCache, outbox) ==
                var c := Command(old(deviceCache), deviceMqttPrefix, on, inventory);
                Sent(c.cache, old(outbox) + c.messages)
      ensures subscribedAdapters == old(subscribedAdapters) && store == old(store)
    {
      ghost var looked := GetDevice(deviceCache, deviceMqttPrefix, inventory);
      ghost var c := CommandAfter(looked, deviceMqttPrefix, on);
      assert c == Command(deviceCache, deviceMqttPrefix, on, inventory);
      var device := GetDeviceByMqttPrefix(deviceMqttPrefix, inventory);
      assert looked == Lookup(device, deviceCache);
      if device.None? || device.value.provider.None? {
        assert c == Sent(deviceCache, []);
        assert outbox == old(outbox) + [];
        return;
      }
      var message := ToggleCommand(device.value.provider.value, deviceMqttPrefix, on);
      assert c == Sent(deviceCache, [message]);
      outbox := outbox + [message];
    }

    /** The commands of the balancer's actions, sent one after another. */
    method ForwardActions(actions: seq<Balancing.BalancerAction>, inventory: seq<Device>)
      requires Valid()
      modifies this
      ensures Valid()
      ensures Sent(deviceCache, outbox) ==
                var r := Replay(old(deviceCache), actions, inventory);
                Sent(r.cache, old(outbox) + r.messages)
      ensures subscribedAdapters == old(subscribedAdapters) && store == old(store)
    {
      var i := 0;
      while i < |actions|
        invariant 0 <= i <= |actions|
        invariant Valid()
        invariant Sent(deviceCache, outbox) ==
                    var r := Replay(old(deviceCache), actions[..i], inventory);
                    Sent(r.cache, old(outbox) + r.messages)
        invariant subscribedAdapters == old(subscribedAdapters) && store == old(store)
      {
        assert actions[..i + 1][..i] == actions[..i] && actions[..i + 1][i] == actions[i];
        SendCommand(actions[i].mqttPrefix, actions[i].on, inventory);
        i := i + 1;
      }
      assert actions[..i] == actions;
    }

    /**
     * `handleOnlineStatusInternal`: record the flag in the realtime cache and
     * the store; a grid monitor's flag is also its scope's grid status.
     */
    method HandleOnlineStatusInternal(d: Device, online: bool, now: Time)
      requires Valid()
      modifies this, stateCache, systemStateCache
      ensures Valid()
      ensures stateCache.cache == WithOnline(old(stateCache.cache), d.id, online, d.mqttPrefix)
      ensures store == old(store) + [OnlineStored(d.id, online, d.mqttPrefix)]
      ensures d.deviceType == GridMonitor ==>
                && systemStateCache.gridStatusCache == old(systemStateCache.gridStatusCache)[d.mqttPrefix := online]
                && systemStateCache.IsGridAvailable(Some(d.mqttPrefix)) == online
                && systemStateCache.Grid() ==
                     SystemStateCache.GridStep(old(systemStateCache.Grid()), d.mqttPrefix, online,
                       SystemStateCache.OpenedSession(old(systemStateCache.stateCache), stateCache.cache, d.mqttPrefix, now))
      ensures d.deviceType != GridMonitor ==> unchanged(systemStateCache)
      ensures systemStateCache.deviceToMonitorMap == old(systemStateCache.deviceToMonitorMap)
      ensures subscribedAdapters == old(subscribedAdapters) && deviceCache == old(deviceCache) && outbox == old(outbox)
    {
      var status := stateCache.UpdateOnline(d.id, online, d.mqttPrefix);
      store := store + [OnlineStored(d.id, online, d.mqttPrefix)];
      if d.deviceType == GridMonitor {
        systemStateCache.UpdateGridStatus(Some(MonitorPrefix(systemStateCache.deviceToMonitorMap, d)), online, now);
      }
    }

    /**
     * `handleDeviceStatusInternal`: record the status in the realtime cache;
     * a grid monitor reporting a voltage updates its grid status when the
     * verdict (above 100 V) differs from the recorded one; a power monitor's
     * status runs one balancing pass, whose commands are then sent; the
     * status goes to the store last.
     */
    method HandleDeviceStatusInternal(d: Device, json: Json, inventory: seq<Device>, now: Time)
      requires Valid()
      modifies this, stateCache, systemStateCache, balancingService
      ensures Valid()
      ensures store == old(store) + [StatusStored(d.id, json, d.mqttPrefix)]
      ensures d.deviceType == PowerMonitor ==>
                var e := Balancing.Engine(WithStatus(old(stateCache.cache), d.id, json, d.mqttPrefix),
                                          old(balancingService.lastOverloadTime), old(balancingService.actions));
                var state := old(systemStateCache.GetState(d.mqttPrefix));
                var sent := Replay(old(deviceCache), Balancing.PassCommands(e, d.mqttPrefix, json, state, now), inventory);
                && balancingService.Snapshot() == Balancing.Balance(e, d.mqttPrefix, json, state, now)
                && deviceCache == sent.cache && outbox == old(outbox) + sent.messages
      ensures d.deviceType != PowerMonitor ==>
                && stateCache.cache == WithStatus(old(stateCache.cache), d.id, json, d.mqttPrefix)
                && unchanged(balancingService)
                && deviceCache == old(deviceCache) && outbox == old(outbox)
      ensures d.deviceType == GridMonitor && json.voltage.Some?
              && (json.voltage.value > 100.0) != old(systemStateCache.IsGridAvailable(Some(d.mqttPrefix))) ==>
                && systemStateCache.gridStatusCache == old(systemStateCache.gridStatusCache)[d.mqttPrefix := json.voltage.value > 100.0]
                && systemStateCache.IsGridAvailable(Some(d.mqttPrefix)) == (json.voltage.value > 100.0)
                && systemStateCache.Grid() ==
                     SystemStateCache.GridStep(old(systemStateCache.Grid()), d.mqttPrefix, json.voltage.value > 100.0,
                       SystemStateCache.OpenedSession(old(systemStateCache.stateCache),
                                                      WithStatus(old(stateCache.cache), d.id, json, d.mqttPrefix), d.mqttPrefix, now))
      ensures !(d.deviceType == GridMonitor && json.voltage.Some?
                && (json.voltage.value > 100.0) != old(systemStateCache.IsGridAvailable(Some(d.mqttPrefix)))) ==>
                unchanged(systemStateCache)
      ensures systemStateCache.deviceToMonitorMap == old(systemStateCache.deviceToMonitorMap)
      ensures subscribedAdapters == old(subscribedAdapters)
    {
      var status := stateCache.UpdateStatus(d.id, json, d.mqttPrefix);
      UpdateGridFromStatus(d, json, now);
      if d.deviceType == PowerMonitor {
        BalanceAndForward(d.mqttPrefix, json, inventory, now);
      }
      store := store + [StatusStored(d.id, json, d.mqttPrefix)];
    }

    /** The grid part of `handleDeviceStatusInternal`: a voltage verdict that differs from the recorded one is recorded. */
    method UpdateGridFromStatus(d: Device, json: Json, now: Time)
      requires Valid()
      modifies systemStateCache
      ensures Valid()
      ensures d.deviceType == GridMonitor && json.voltage.Some?
              && (json.voltage.value > 100.0) != old(systemStateCache.IsGridAvailable(Some(d.mqttPrefix))) ==>
                && systemStateCache.gridStatusCache == old(systemStateCache.gridStatusCache)[d.mqttPrefix := json.voltage.value > 100.0]
                && systemStateCache.IsGridAvailable(Some(d.mqttPrefix)) == (json.voltage.value > 100.0)
                && systemStateCache.Grid() ==
                     SystemStateCache.GridStep(old(systemStateCache.Grid()), d.mqttPrefix, json.voltage.value > 100.0,
                       SystemStateCache.OpenedSession(old(systemStateCache.stateCache), stateCache.cache, d.mqttPrefix, now))
      ensures !(d.deviceType == GridMonitor && json.voltage.Some?
                && (json.voltage.value > 100.0) != old(systemStateCache.IsGridAvailable(Some(d.mqttPrefix)))) ==>
                unchanged(systemStateCache)
      ensures systemStateCache.deviceToMonitorMap == old(systemStateCache.deviceToMonitorMap)
    {
      var monitorPrefix := MonitorPrefix(systemStateCache.deviceToMonitorMap, d);
      if d.deviceType == GridMonitor && json.voltage.Some? {
        var isGridAvailable := json.voltage.value > 100.0;
        var oldStatus := systemStateCache.IsGridAvailable(Some(monitorPrefix));
        if isGridAvailable != oldStatus {
          systemStateCache.UpdateGridStatus(Some(monitorPrefix), isGridAvailable, now);
        }
      }
    }

    /** The power-monitor part of `handleDeviceStatusInternal`: one balancing pass, whose commands are then sent. */
    method BalanceAndForward(prefix: string, json: Json, inventory: seq<Device>, now: Time)
      requires Valid()
      modifies this, stateCache, balancingService
      ensures Valid()
      ensures var e := old(balancingService.Snapshot());
              var state := old(systemStateCache.GetState(prefix));
              var sent := Replay(old(deviceCache), Balancing.PassCommands(e, prefix, json, state, now), inventory);
              && balancingService.Snapshot() == Balancing.Balance(e, prefix, json, state, now)
              && deviceCache == sent.cache && outbox == old(outbox) + sent.messages
      ensures subscribedAdapters == old(subscribedAdapters) && store == old(store)
    {
      ghost var e := balancingService.Snapshot();
      ghost var state := systemStateCache.GetState(prefix);
      var before := |balancingService.actions|;
      balancingService.BalancePower(prefix, json, now);
      assert balancingService.actions == e.actions + Balancing.PassCommands(e, prefix, json, state, now);
      ForwardActions(balancingService.actions[before..], inventory);
    }

    /** `handleDeviceEventInternal`: the event goes to the store only. */
    method HandleDeviceEventInternal(d: Device, json: Json)
      requires Valid()
      modifies this
      ensures Valid()
      ensures store == old(store) + [EventStored(d.id, json, d.mqttPrefix)]
      ensures subscribedAdapters == old(subscribedAdapters) && deviceCache == old(deviceCache) && outbox == old(outbox)
    {
      store := store + [EventStored(d.id, json, d.mqttPrefix)];
    }

    /**
     * `handleMqttMessage`: resolve the device; an unknown device or one
     * without a provider ends the message. The adapter's online handler goes
     * first and, when it takes the topic, ends the message. Otherwise the
     * payload is parsed (`parsed` is `None` when it is not valid JSON, which
     * ends the message), and the adapter's status handler and then its event
     * handler run.
     */
    method HandleMqttMessage(topic: string, payload: string, parsed: Option<Json>, inventory: seq<Device>, now: Time)
      requires Valid()
      modifies this, stateCache, systemStateCache, balancingService
      ensures Valid()
      ensures subscribedAdapters == old(subscribedAdapters)
      ensures var found := FindDevice(old(deviceCache), topic, inventory);
              found.device.None? || found.device.value.provider.None? ==>
                && deviceCache == found.cache && outbox == old(outbox) && store == old(store)
                && unchanged(stateCache, systemStateCache, balancingService)
      ensures var found := FindDevice(old(deviceCache), topic, inventory);
              found.device.Some? && found.device.value.provider.Some? ==>
                var d := found.device.value;
                var online := OnlineCall(d.provider.value, topic, payload);
                && (online.accepted ==>
                      && store == old(store) + [OnlineStored(d.id, online.call.value, d.mqttPrefix)]
                      && stateCache.cache == WithOnline(old(stateCache.cache), d.id, online.call.value, d.mqttPrefix)
                      && deviceCache == found.cache && outbox == old(outbox) && unchanged(balancingService)
                      && (d.deviceType != GridMonitor ==> unchanged(systemStateCache))
                      && (d.deviceType == GridMonitor ==>
                            systemStateCache.Grid() ==
                              SystemStateCache.GridStep(old(systemStateCache.Grid()), d.mqttPrefix, online.call.value,
                                SystemStateCache.OpenedSession(old(systemStateCache.stateCache), stateCache.cache,
                                                               d.mqttPrefix, now))))
                && (!online.accepted && parsed.None? ==>
                      && deviceCache == found.cache && outbox == old(outbox) && store == old(store)
                      && unchanged(stateCache, systemStateCache, balancingService))
                && (!online.accepted && parsed.Some? ==>
                      var status := StatusCall(d.provider.value, topic, parsed.value);
                      var event := EventCall(d.provider.value, topic, parsed.value);
                      && store == old(store) + (if status.Some? then [StatusStored(d.id, status.value, d.mqttPrefix)] else [])
                                             + (if event.Some? then [EventStored(d.id, event.value, d.mqttPrefix)] else [])
                      && (status.None? ==>
                            deviceCache == found.cache && outbox == old(outbox)
                            && unchanged(stateCache, systemStateCache, balancingService)))
    {
      var device := FindDeviceByTopic(topic, inventory);
      if device.None? || device.value.provider.None? {
        return;
      }
      var d := device.value;
      var provider := d.provider.value;
      var online := OnlineCall(provider, topic, payload);
      if online.accepted {
        HandleOnlineStatusInternal(d, online.call.value, now);
        return;
      }
      if parsed.None? {
        return;
      }
      HandlePayload(d, topic, parsed.value, inventory, now);
    }

    /**
     * The parsed-payload part of `handleMqttMessage`: the adapter's status
     * document, if any, is handled first, then its event document.
     */
    method HandlePayload(d: Device, topic: string, json: Json, inventory: seq<Device>, now: Time)
      requires Valid() && d.provider.Some?
      modifies this, stateCache, systemStateCache, balancingService
      ensures Valid()
      ensures subscribedAdapters == old(subscribedAdapters)
      ensures var status := StatusCall(d.provider.value, topic, json);
              var event := EventCall(d.provider.value, topic, json);
              && store == old(store) + (if status.Some? then [StatusStored(d.id, status.value, d.mqttPrefix)] else [])
                                     + (if event.Some? then [EventStored(d.id, event.value, d.mqttPrefix)] else [])
              && (status.None? ==>
                    deviceCache == old(deviceCache) && outbox == old(outbox)
                    && unchanged(stateCache, systemStateCache, balancingService))
    {
      var provider := d.provider.value;
      var status: Option<Json>;
      match provider {
        case Shelly =>
          status := ShellyStrategy.HandleDeviceStatus(topic, json).call;
        case Tasmota =>
          var handled := TasmotaStrategy.HandleDeviceStatus(topic, json);
          status := handled.call;
      }
      if status.Some? {
        HandleDeviceStatusInternal(d, status.value, inventory, now);
      }
      var event := EventCall(provider, topic, json);
      if event.Some? {
        HandleDeviceEventInternal(d, event.value);
      }
    }

    /** The subscriptions and the device cache, as one value. */
    function Subscribed(): Subscriptions
      reads this
    {
      Subscriptions(subscribedAdapters, deviceCache)
    }

    /** `subscribeForDevice`, proved against `Subscribe`. */
    method SubscribeForDevice(d: Device)
      requires Valid()
      modifies this
      ensures Valid()
      ensures Subscribed() == Subscribe(old(Subscribed()), d)
      ensures outbox == old(outbox) && store == old(store)
    {
      SubscribeKeeps(Subscribed(), d);
      if d.mqttPrefix == "" {
        return;
      }
      if d.provider.None? {
        return;
      }
      var deviceKey := d.mqttPrefix;
      if deviceKey in subscribedAdapters {
        return;
      }
      var topics := SubscriptionTopics(d.provider.value, d.mqttPrefix);
      subscribedAdapters := subscribedAdapters[deviceKey := topics];
      RefreshDeviceCache(d);
    }

    /**
     * `unsubscribeFromDevice`, proved against `Unsubscribe`; a prefix that had
     * an adapter also loses its overload timestamp.
     */
    method UnsubscribeFromDevice(mqttPrefix: string)
      requires Valid()
      modifies this, balancingService
      ensures Valid()
      ensures Subscribed() == Unsubscribe(old(Subscribed()), mqttPrefix)
      ensures balancingService.lastOverloadTime ==
                if mqttPrefix != "" && mqttPrefix in old(subscribedAdapters)
                then old(balancingService.lastOverloadTime) - {mqttPrefix}
                else old(balancingService.lastOverloadTime)
      ensures balancingService.actions == old(balancingService.actions)
      ensures outbox == old(outbox) && store == old(store)
    {
      if mqttPrefix == "" {
        return;
      }
      if mqttPrefix in subscribedAdapters {
        subscribedAdapters := subscribedAdapters - {mqttPrefix};
        balancingService.ClearOverloadCooldown(mqttPrefix);
      }
      deviceCache := deviceCache - {mqttPrefix};
    }

    /** `unsubscribeForAllDevices`: every subscribed prefix is unsubscribed, in any order. */
    method UnsubscribeForAllDevices()
      requires Valid()
      modifies this, balancingService
      ensures Valid()
      ensures subscribedAdapters == map[]
      ensures deviceCache == old(deviceCache) - old(subscribedAdapters).Keys
      ensures balancingService.lastOverloadTime == old(balancingService.lastOverloadTime) - old(subscribedAdapters).Keys
      ensures balancingService.actions == old(balancingService.actions)
      ensures outbox == old(outbox) && store == old(store)
    {
      ghost var done: set<string> := {};
      while subscribedAdapters != map[]
        invariant Valid()
        invariant subscribedAdapters.Keys !! done && subscribedAdapters.Keys + done == old(subscribedAdapters).Keys
        invariant deviceCache == old(deviceCache) - done
        invariant balancingService.lastOverloadTime == old(balancingService.lastOverloadTime) - done
        invariant balancingService.actions == old(balancingService.actions)
        invariant outbox == old(outbox) && store == old(store)
        decreases |subscribedAdapters.Keys|
      {
        var prefix :| prefix in subscribedAdapters;
        ghost var keys, cache, cooldown := subscribedAdapters.Keys, deviceCache, balancingService.lastOverloadTime;
        UnsubscribeFromDevice(prefix);
        assert subscribedAdapters.Keys == keys - {prefix};
        MoveOneKey(keys, done, prefix);
        RemoveOneMore(old(deviceCache), done, prefix);
        RemoveOneMore(old(balancingService.lastOverloadTime), done, prefix);
        done := done + {prefix};
      }
    }
  }
}
