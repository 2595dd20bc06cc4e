/**
 * The Shelly protocol adapter. A Shelly device with prefix `p` publishes on
 * `p/online`, `p/events/rpc` and `p/status/switch:0`, and takes JSON-RPC
 * commands on `p/rpc`.
 */
module ShellyStrategy {
  import opened Types
  import opened Strings

  /** The three topics subscribed for a device. */
  function SubscriptionTopics(prefix: string): seq<string>
  {
    [prefix + "/online", prefix + "/events/rpc", prefix + "/status/switch:0"]
  }

  /** A topic ending in "/online" has its last "/online" exactly at the end. */
  lemma LastOnline(topic: string)
    requires EndsWith(topic, "/online")
    ensures LastIndexOf(topic, "/online") == |topic| - 7
  {
    assert IsAt(topic, "/online", |topic| - 7);
  }

  /**
   * `getMqttPrefixFromTopic`: the text before a trailing "/online", else
   * before the first "/status/", else before the first "/events/", else nothing.
   */
  function PrefixFromTopic(topic: string): (r: Option<string>)
    ensures r.None? <==> !EndsWith(topic, "/online") && !Contains(topic, "/status/") && !Contains(topic, "/events/")
    ensures EndsWith(topic, "/online") ==> r == Some(topic[..|topic| - 7])
    ensures r.Some? ==> |r.value| <= |topic| && r.value == topic[..|r.value|]
  {
    if EndsWith(topic, "/online") then
      LastOnline(topic);
      Some(topic[..LastIndexOf(topic, "/online")])
    else if Contains(topic, "/status/") then Some(topic[..IndexOf(topic, "/status/")])
    else if Contains(topic, "/events/") then Some(topic[..IndexOf(topic, "/events/")])
    else None
  }

  /** Java's `Boolean.parseBoolean`: "true" in any letter case. */
  predicate ParseBoolean(s: string)
  {
    EqualsIgnoreCase(s, "true")
  }

  /** The fixed opening of a `Switch.Set` request for switch 0, up to its `on` value. */
  const SwitchSetHead: string := "{\"id\":1,\"src\":\"device_service\",\"method\":\"Switch.Set\",\"params\":{\"id\":0,\"on\":"

  /** The JSON text of a `Switch.Set` request for switch 0, as Jackson writes it. */
  function SwitchSetPayload(on: bool): string
  {
    SwitchSetHead + (if on then "true" else "false") + "}}"
  }

  /** `createToggleCommand`: the `Switch.Set` request, published to `p/rpc`. */
  function ToggleCommand(prefix: string, on: bool): MqttMessage
  {
    MqttMessage(prefix + "/rpc", SwitchSetPayload(on))
  }

  /** `handleOnlineStatus`: accepted exactly on "/online"; the flag is the payload read as a boolean. */
  function HandleOnlineStatus(topic: string, payload: string): (r: Handled<bool>)
    ensures r.accepted <==> EndsWith(topic, "/online")
    ensures r.call.Some? <==> r.accepted
    ensures r.call.Some? ==> (r.call.value <==> EqualsIgnoreCase(payload, "true"))
  {
    if EndsWith(topic, "/online") then Handled(true, Some(ParseBoolean(payload))) else Handled(false, None)
  }

  /** An RPC notification `NotifyStatus` whose `params.switch:0` carries "apower". */
  predicate IsPowerNotification(payload: Json)
  {
    && payload.rpcMethod == Some("NotifyStatus")
    && payload.switch0.Some?
    && payload.switch0.value.apower.Some?
  }

  /**
   * `handleDeviceStatus`: a status topic hands the whole document over and
   * is accepted; a power notification on the events topic hands over its
   * `switch:0` part and reports itself not accepted. The event handler runs
   * for that message anyway, since the service calls both handlers on every
   * message whatever either returns.
   */
  function HandleDeviceStatus(topic: string, payload: Json): (r: Handled<Json>)
    ensures r.accepted <==> EndsWith(topic, "/status/switch:0")
    ensures r.accepted ==> r.call == Some(payload)
    ensures !r.accepted ==> (r.call.Some? <==> EndsWith(topic, "/events/rpc") && IsPowerNotification(payload))
    ensures !r.accepted && r.call.Some? ==> r.call == payload.switch0
  {
    if EndsWith(topic, "/status/switch:0") then Handled(true, Some(payload))
    else if EndsWith(topic, "/events/rpc") && IsPowerNotification(payload) then Handled(false, payload.switch0)
    else Handled(false, None)
  }

  /** `handleDeviceEvent`: the events topic hands the document over and is accepted. */
  function HandleDeviceEvent(topic: string, payload: Json): (r: Handled<Json>)
    ensures r.accepted <==> EndsWith(topic, "/events/rpc")
    ensures r.accepted <==> r.call == Some(payload)
  {
    if EndsWith(topic, "/events/rpc") then Handled(true, Some(payload)) else Handled(false, None)
  }

  // ---------------------------------------------------------------- properties

  lemma EndsWithLast(s: string, t: string)
    requires EndsWith(s, t) && t != []
    ensures s[|s| - 1] == t[|t| - 1]
  {
    assert s[|s| - |t|..][|t| - 1] == s[|s| - 1];
  }

  lemma EndsWithAppend(p: string, t: string)
    ensures EndsWith(p + t, t)
  {
    assert (p + t)[|p + t| - |t|..] == t;
  }

  /**
   * A marker that starts and ends with "/" and has no other "/" cannot start
   * inside `p` in `p + s`, when `s` starts with "/" and `p + "/"` does not contain it.
   */
  lemma NoMatchInPrefix(p: string, s: string, t: string, j: int)
    requires |t| >= 2 && t[0] == '/' && t[|t| - 1] == '/'
    requires forall k :: 0 < k < |t| - 1 ==> t[k] != '/'
    requires s != [] && s[0] == '/'
    requires !Contains(p + "/", t)
    requires j < |p|
    ensures !IsAt(p + s, t, j)
  {
    if 0 <= j && j + |t| <= |p + s| {
      if j + |t| <= |p| + 1 {
        assert (p + s)[j..j + |t|] == (p + "/")[j..j + |t|];
        assert !IsAt(p + "/", t, j);
      } else {
        var k := |p| - j;
        assert 0 < k < |t| - 1;
        assert (p + s)[j..j + |t|][k] == '/';
      }
    }
  }

  /** In `p + s`, the first occurrence of such a marker is the one `s` starts with. */
  lemma FirstMatchAtJoin(p: string, s: string, t: string)
    requires |t| >= 2 && t[0] == '/' && t[|t| - 1] == '/'
    requires forall k :: 0 < k < |t| - 1 ==> t[k] != '/'
    requires |t| <= |s| && s[..|t|] == t
    requires !Contains(p + "/", t)
    ensures IndexOf(p + s, t) == |p|
  {
    assert (p + s)[|p|..|p| + |t|] == s[..|t|];
    forall j {:trigger IsAt(p + s, t, j)} | j < |p| ensures !IsAt(p + s, t, j) {
      NoMatchInPrefix(p, s, t, j);
    }
    IndexOfIs(p + s, t, |p|);
  }

  /** "/status/" does not occur in "/events/rpc". */
  lemma NoStatusInEvents()
    ensures forall j {:trigger IsAt("/events/rpc", "/status/", j)} :: !IsAt("/events/rpc", "/status/", j)
  {
    var s := "/events/rpc";
    forall j {:trigger IsAt(s, "/status/", j)} ensures !IsAt(s, "/status/", j) {
      if 0 <= j && j + 8 <= |s| {
        assert s[j..j + 8][1] == s[j + 1];
        assert s[j + 1] != 's' by {
          if j == 0 {} else if j == 1 {} else if j == 2 {} else {}
        }
      }
    }
  }

  lemma OnlineRoundTrip(prefix: string)
    ensures PrefixFromTopic(prefix + "/online") == Some(prefix)
  {
    var online := prefix + "/online";
    EndsWithAppend(prefix, "/online");
    assert online[..|online| - 7] == prefix;
  }

  lemma StatusRoundTrip(prefix: string)
    requires !Contains(prefix + "/", "/status/")
    ensures PrefixFromTopic(prefix + "/status/switch:0") == Some(prefix)
  {
    var status := prefix + "/status/switch:0";
    assert !EndsWith(status, "/online") by {
      if EndsWith(status, "/online") {
        EndsWithLast(status, "/online");
        EndsWithAppend(prefix, "/status/switch:0");
        EndsWithLast(status, "/status/switch:0");
      }
    }
    FirstMatchAtJoin(prefix, "/status/switch:0", "/status/");
    assert status[..|prefix|] == prefix;
  }

  lemma EventsRoundTrip(prefix: string)
    requires !Contains(prefix + "/", "/status/") && !Contains(prefix + "/", "/events/")
    ensures PrefixFromTopic(prefix + "/events/rpc") == Some(prefix)
  {
    var events := prefix + "/events/rpc";
    assert !EndsWith(events, "/online") by {
      if EndsWith(events, "/online") {
        EndsWithLast(events, "/online");
        EndsWithAppend(prefix, "/events/rpc");
        EndsWithLast(events, "/events/rpc");
      }
    }
    assert !Contains(events, "/status/") by {
      forall j {:trigger IsAt(events, "/status/", j)} ensures !IsAt(events, "/status/", j) {
        if j < |prefix| {
          NoMatchInPrefix(prefix, "/events/rpc", "/status/", j);
        } else {
          IsAtShift(prefix, "/events/rpc", "/status/", j);
          NoStatusInEvents();
        }
      }
    }
    FirstMatchAtJoin(prefix, "/events/rpc", "/events/");
    assert events[..|prefix|] == prefix;
  }

  /**
   * Every subscription topic leads back to its prefix, provided the prefix
   * followed by "/" contains neither marker. (The condition is needed: with
   * prefix "a/status" the events topic yields "a", see `StatusSuffixPrefix`.)
   */
  lemma PrefixRoundTrip(prefix: string)
    requires !Contains(prefix + "/", "/status/") && !Contains(prefix + "/", "/events/")
    ensures forall t :: t in SubscriptionTopics(prefix) ==> PrefixFromTopic(t) == Some(prefix)
  {
    OnlineRoundTrip(prefix);
    StatusRoundTrip(prefix);
    EventsRoundTrip(prefix);
  }

  /** A prefix ending in "/status" does not survive the trip through its events topic. */
  lemma StatusSuffixPrefix()
    ensures PrefixFromTopic("a/status" + "/events/rpc") == Some("a")
  {
    var topic := "a/status" + "/events/rpc";
    assert topic[|topic| - 1] == 'c';
    assert !EndsWith(topic, "/online") by {
      if EndsWith(topic, "/online") { EndsWithLast(topic, "/online"); }
    }
    assert topic[1..9] == "/status/";
    assert IsAt(topic, "/status/", 1);
    assert !IsAt(topic, "/status/", 0) by { assert topic[0..8][0] == 'a'; }
    IndexOfIs(topic, "/status/", 1);
    assert topic[..1] == "a";
  }

  /**
   * Each subscribed topic reaches exactly one handler: the online topic the
   * online handler, the status topic the status handler, the events topic
   * the event handler. The status handler also forwards the `switch:0` part
   * of a power notification on the events topic; the event handler sees the
   * same message because the service calls both handlers unconditionally.
   */
  lemma TopicsReachOneHandler(prefix: string, payload: string, doc: Json)
    ensures HandleOnlineStatus(prefix + "/online", payload).accepted
    ensures !HandleOnlineStatus(prefix + "/status/switch:0", payload).accepted
    ensures HandleDeviceStatus(prefix + "/status/switch:0", doc) == Handled(true, Some(doc))
    ensures !HandleDeviceEvent(prefix + "/status/switch:0", doc).accepted
    ensures !HandleOnlineStatus(prefix + "/events/rpc", payload).accepted
    ensures !HandleDeviceStatus(prefix + "/events/rpc", doc).accepted
    ensures HandleDeviceEvent(prefix + "/events/rpc", doc) == Handled(true, Some(doc))
  {
    var online, events, status := prefix + "/online", prefix + "/events/rpc", prefix + "/status/switch:0";
    EndsWithAppend(prefix, "/online");
    EndsWithAppend(prefix, "/events/rpc");
    EndsWithAppend(prefix, "/status/switch:0");
    EndsWithLast(events, "/events/rpc");
    EndsWithLast(status, "/status/switch:0");
    if EndsWith(status, "/online") { EndsWithLast(status, "/online"); }
    if EndsWith(status, "/events/rpc") { EndsWithLast(status, "/events/rpc"); }
    if EndsWith(events, "/online") { EndsWithLast(events, "/online"); }
    if EndsWith(events, "/status/switch:0") { EndsWithLast(events, "/status/switch:0"); }
  }

  /** The command names its device and its switch position: different commands for different requests. */
  lemma ToggleCommandInjective(p: string, a: bool, q: string, b: bool)
    requires ToggleCommand(p, a) == ToggleCommand(q, b)
    ensures p == q && a == b
  {
    var t := p + "/rpc";
    assert |p| == |q|;
    assert p == t[..|p|] && q == (q + "/rpc")[..|q|];
    assert |SwitchSetPayload(true)| != |SwitchSetPayload(false)|;
  }
}
