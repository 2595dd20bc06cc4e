/**
 * The Tasmota protocol adapter. A Tasmota device whose topic is `p`
 * publishes on `tele/p/LWT` (last will), `tele/p/STATE`, `tele/p/SENSOR`
 * and `stat/p/RESULT`, and takes `ON`/`OFF` on `cmnd/p/POWER`. Its status
 * documents are rewritten into the Shelly shape the rest of the service reads.
 */
module TasmotaStrategy {
  import opened Types
  import opened Strings

  /** The four topics subscribed for a device. */
  function SubscriptionTopics(prefix: string): seq<string>
  {
    ["tele/" + prefix + "/LWT", "tele/" + prefix + "/STATE", "tele/" + prefix + "/SENSOR", "stat/" + prefix + "/RESULT"]
  }

  /** `getMqttPrefixFromTopic`: the second "/"-separated piece, if there is one. */
  function PrefixFromTopic(topic: string): (r: Option<string>)
    ensures r.Some? <==> |Split(topic, '/')| > 1
  {
    var parts := Split(topic, '/');
    if |parts| > 1 then Some(parts[1]) else None
  }

  /** `createToggleCommand`: "ON" or "OFF" on `cmnd/p/POWER`. */
  function ToggleCommand(prefix: string, on: bool): MqttMessage
  {
    MqttMessage("cmnd/" + prefix + "/POWER", if on then "ON" else "OFF")
  }

  /** `handleOnlineStatus`: accepted exactly on "/LWT"; online exactly for "Online" in any letter case. */
  function HandleOnlineStatus(topic: string, payload: string): (r: Handled<bool>)
    ensures r.accepted <==> EndsWith(topic, "/LWT")
    ensures r.call.Some? <==> r.accepted
    ensures r.call.Some? ==> (r.call.value <==> EqualsIgnoreCase("Online", payload))
  {
    if EndsWith(topic, "/LWT") then Handled(true, Some(EqualsIgnoreCase("Online", payload))) else Handled(false, None)
  }

  /** Topics whose "ENERGY" object is read. */
  predicate EnergyTopic(topic: string)
  {
    EndsWith(topic, "/SENSOR") || EndsWith(topic, "/STATE")
  }

  /** Topics whose "POWER" text is read. */
  predicate PowerTopic(topic: string)
  {
    EndsWith(topic, "/STATE") || EndsWith(topic, "/RESULT")
  }

  /** The "ENERGY" object when the topic carries one. */
  function EnergyOf(topic: string, payload: Json): Option<Energy>
  {
    if EnergyTopic(topic) then payload.energy else None
  }

  /** The "POWER" text when the topic carries one. */
  function PowerStateOf(topic: string, payload: Json): Option<string>
  {
    if PowerTopic(topic) then payload.powerState else None
  }

  /**
   * The Shelly-shaped status a Tasmota message amounts to: "apower",
   * "voltage" and "current" from "ENERGY" (on /SENSOR and /STATE), "output"
   * from "POWER" (on /STATE and /RESULT, true exactly for "ON" in any
   * letter case), and nothing else; no status at all when none of these is present.
   */
  function Normalize(topic: string, payload: Json): (r: Option<Json>)
    ensures r.Some? <==>
              || (EnergyOf(topic, payload).Some?
                  && (|| EnergyOf(topic, payload).value.power.Some?
                      || EnergyOf(topic, payload).value.voltage.Some?
                      || EnergyOf(topic, payload).value.current.Some?))
              || PowerStateOf(topic, payload).Some?
    ensures r.Some? ==> r.value.apower == (if EnergyOf(topic, payload).Some? then EnergyOf(topic, payload).value.power else None)
    ensures r.Some? ==> r.value.voltage == (if EnergyOf(topic, payload).Some? then EnergyOf(topic, payload).value.voltage else None)
    ensures r.Some? ==> r.value.current == (if EnergyOf(topic, payload).Some? then EnergyOf(topic, payload).value.current else None)
    ensures r.Some? ==> (r.value.output.Some? <==> PowerStateOf(topic, payload).Some?)
    ensures r.Some? && r.value.output.Some? ==> (r.value.output.value <==> EqualsIgnoreCase("ON", PowerStateOf(topic, payload).value))
    ensures r.Some? ==> r.value.(apower := None, voltage := None, current := None, output := None) == EmptyJson
  {
    var e := EnergyOf(topic, payload);
    var ps := PowerStateOf(topic, payload);
    var status := EmptyJson.(
      apower := if e.Some? then e.value.power else None,
      voltage := if e.Some? then e.value.voltage else None,
      current := if e.Some? then e.value.current else None,
      output := if ps.Some? then Some(EqualsIgnoreCase("ON", ps.value)) else None);
    if status == EmptyJson then None else Some(status)
  }

  /**
   * `handleDeviceStatus`: the status document is built one field at a time,
   * noting whether any field was written; it is handed over, and the message
   * accepted, exactly when one was.
   */
  method HandleDeviceStatus(topic: string, payload: Json) returns (r: Handled<Json>)
    ensures r.accepted <==> r.call.Some?
    ensures r.call == Normalize(topic, payload)
  {
    var energyNode: Option<Energy> := None;
    if EndsWith(topic, "/SENSOR") && payload.energy.Some? {
      energyNode := payload.energy;
    } else if EndsWith(topic, "/STATE") && payload.energy.Some? {
      energyNode := payload.energy;
    }
    var shellyLikeStatus := EmptyJson;
    var statusChanged := false;
    if energyNode.Some? {
      if energyNode.value.power.Some? {
        shellyLikeStatus := shellyLikeStatus.(apower := energyNode.value.power);
        statusChanged := true;
      }
      if energyNode.value.voltage.Some? {
        shellyLikeStatus := shellyLikeStatus.(voltage := energyNode.value.voltage);
        statusChanged := true;
      }
      if energyNode.value.current.Some? {
        shellyLikeStatus := shellyLikeStatus.(current := energyNode.value.current);
        statusChanged := true;
      }
    }
    var powerState: Option<string> := None;
    if EndsWith(topic, "/STATE") && payload.powerState.Some? {
      powerState := payload.powerState;
    } else if EndsWith(topic, "/RESULT") && payload.powerState.Some? {
      powerState := payload.powerState;
    }
    if powerState.Some? {
      shellyLikeStatus := shellyLikeStatus.(output := Some(EqualsIgnoreCase("ON", powerState.value)));
      statusChanged := true;
    }
    if statusChanged {
      return Handled(true, Some(shellyLikeStatus));
    }
    return Handled(false, None);
  }

  /** `handleDeviceEvent`: Tasmota has no event stream; nothing is accepted or handed over. */
  function HandleDeviceEvent(topic: string, payload: Json): (r: Handled<Json>)
    ensures !r.accepted && r.call.None?
  {
    Handled(false, None)
  }

  // ---------------------------------------------------------------- properties

  /** `a/p/b` splits into its three pieces when none contains "/". */
  lemma PrefixOfThreePieces(a: string, prefix: string, b: string)
    requires '/' !in a && '/' !in prefix && '/' !in b && b != ""
    ensures Split(a + "/" + prefix + "/" + b, '/') == [a, prefix, b]
    ensures PrefixFromTopic(a + "/" + prefix + "/" + b) == Some(prefix)
  {
    assert a + "/" + prefix + "/" + b == a + ['/'] + prefix + ['/'] + b;
    SplitThree(a, prefix, b, '/');
  }

  /** Every subscription topic, and the command topic, lead back to a prefix without "/". */
  lemma PrefixRoundTrip(prefix: string)
    requires '/' !in prefix
    ensures forall t :: t in SubscriptionTopics(prefix) ==> PrefixFromTopic(t) == Some(prefix)
    ensures PrefixFromTopic(ToggleCommand(prefix, true).topic) == Some(prefix)
  {
    TopicPieces();
    TopicRoundTrip("tele/", "tele", prefix, "/LWT", "LWT");
    TopicRoundTrip("tele/", "tele", prefix, "/STATE", "STATE");
    TopicRoundTrip("tele/", "tele", prefix, "/SENSOR", "SENSOR");
    TopicRoundTrip("stat/", "stat", prefix, "/RESULT", "RESULT");
    TopicRoundTrip("cmnd/", "cmnd", prefix, "/POWER", "POWER");
  }

  /** The fixed pieces of the topics, each split at its separator. */
  lemma TopicPieces()
    ensures "tele/" == "tele" + "/" && "stat/" == "stat" + "/" && "cmnd/" == "cmnd" + "/"
    ensures "/LWT" == "/" + "LWT" && "/STATE" == "/" + "STATE" && "/SENSOR" == "/" + "SENSOR"
    ensures "/RESULT" == "/" + "RESULT" && "/POWER" == "/" + "POWER"
    ensures '/' !in "tele" && '/' !in "stat" && '/' !in "cmnd"
    ensures '/' !in "LWT" && '/' !in "STATE" && '/' !in "SENSOR" && '/' !in "RESULT" && '/' !in "POWER"
  {
  }

  /** A topic `a/prefix/b`, with its separators written into its fixed pieces, reads back as `prefix`. */
  lemma TopicRoundTrip(head: string, a: string, prefix: string, tail: string, b: string)
    requires head == a + "/" && tail == "/" + b
    requires '/' !in a && '/' !in prefix && '/' !in b && b != ""
    ensures PrefixFromTopic(head + prefix + tail) == Some(prefix)
  {
    assert head + prefix + tail == a + "/" + prefix + "/" + b;
    PrefixOfThreePieces(a, prefix, b);
  }

  /** A topic without "/" names no device. */
  lemma NoSeparatorNoPrefix(topic: string)
    requires '/' !in topic
    ensures PrefixFromTopic(topic) == None
  {
    if topic != "" {
      RawSplitNoSeparator(topic, '/');
    }
  }

  /**
   * A sensor reading with a power figure becomes a status that reports that
   * figure as "apower"; a state or result message with "POWER" becomes a
   * status whose "output" is whether the text is "ON" in any letter case.
   */
  lemma NormalizeReadings(prefix: string, payload: Json)
    ensures payload.energy.Some? && payload.energy.value.power.Some? ==>
              && Normalize("tele/" + prefix + "/SENSOR", payload).Some?
              && Normalize("tele/" + prefix + "/SENSOR", payload).value.apower == payload.energy.value.power
              && Normalize("tele/" + prefix + "/SENSOR", payload).value.output.None?
    ensures payload.powerState.Some? ==>
              && Normalize("stat/" + prefix + "/RESULT", payload).Some?
              && Normalize("stat/" + prefix + "/RESULT", payload).value.output ==
                   Some(EqualsIgnoreCase("ON", payload.powerState.value))
              && Normalize("stat/" + prefix + "/RESULT", payload).value.apower.None?
  {
    var sensor, result := "tele/" + prefix + "/SENSOR", "stat/" + prefix + "/RESULT";
    assert sensor[|sensor| - 7..] == "/SENSOR";
    assert result[|result| - 7..] == "/RESULT";
    assert !EndsWith(sensor, "/STATE") by {
      assert |"/STATE"| == 6 && sensor[|sensor| - 6..][1] == 'E';
    }
    assert !EndsWith(sensor, "/RESULT") by {
      assert sensor[|sensor| - 7..][1] == 'S';
    }
    assert !EndsWith(result, "/SENSOR") by {
      assert result[|result| - 7..][1] == 'R';
    }
    assert !EndsWith(result, "/STATE") by {
      assert result[|result| - 6..][1] == 'E';
    }
  }

  /** The command names its device and its switch position. */
  lemma ToggleCommandInjective(p: string, a: bool, q: string, b: bool)
    requires ToggleCommand(p, a) == ToggleCommand(q, b)
    ensures p == q && a == b
  {
    var t := "cmnd/" + p + "/POWER";
    assert |p| == |q|;
    assert p == t[5..5 + |p|];
    assert q == ("cmnd/" + q + "/POWER")[5..5 + |q|];
  }
}
