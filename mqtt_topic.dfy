/** A raw MQTT topic (server/lib/Mqtt/Topic.js): its newest-first `history`,
    the `value` accessors, `update`, the sweep, and `onUpdate`, which passes
    the new value on to every derived topic watching this one. */
module RawTopic {
  import opened Js
  import opened MqttHistory
  import opened VirtualTopic
  import opened VirtualTopics

  class MqttTopic {
    /** `topic`. */
    const name: string
    /** `md5(this.topic)` in hex. */
    const hash: string
    /** `parseInt(MQTT_MAX_HISTORY_LENGTH)`, `None` for NaN. */
    const maxLength: Option<int>
    /** `parseInt(MQTT_MAX_HISTORY_AGE)` in seconds, `None` for NaN. */
    const maxAge: Option<int>
    var history: seq<Entry>

    /** The constructor assigns `value` before it registers the `update`
        listener, so creating a topic records the value and notifies no one. */
    constructor(name: string, value: Val, now: int, maxLength: Option<int>, maxAge: Option<int>, rt: Runtime)
      ensures this.name == name && hash == rt.md5Hex(name)
      ensures this.maxLength == maxLength && this.maxAge == maxAge
      ensures history == Prepended([], value, now)
    {
      this.name, hash, this.maxLength, this.maxAge := name, rt.md5Hex(name), maxLength, maxAge;
      history := Prepended([], value, now);
    }

    /** The `value` getter. */
    function Value(): Val
      reads this
    {
      Latest(history)
    }

    /** `onUpdate`: `setSourceTopic(this.topic, this.value)` on every derived
        topic whose source holds this topic, in registry order. */
    method OnUpdate(vts: Topics, rt: Runtime) returns (published: seq<Publish>, thrown: bool)
      requires vts.Valid()
      modifies vts
      ensures vts.Valid() && vts.keys == old(vts.keys) && vts.events == old(vts.events)
      ensures Spread(vts.data, published, thrown) == VirtualTopics.OnUpdate(old(vts.Model()), name, Value(), rt)
    {
      published, thrown := vts.FanOut(name, Value(), rt);
    }

    /** The `value` setter: the entry goes in front, and the `update` event
        runs `onUpdate` with the value just set. */
    method SetValue(v: Val, now: int, vts: Topics, rt: Runtime) returns (published: seq<Publish>, thrown: bool)
      requires vts.Valid()
      modifies this, vts
      ensures history == Prepended(old(history), v, now)
      ensures vts.Valid() && vts.keys == old(vts.keys) && vts.events == old(vts.events)
      ensures Spread(vts.data, published, thrown) == VirtualTopics.OnUpdate(old(vts.Model()), name, v, rt)
    {
      history := Prepended(history, v, now);
      PrependedSpec(old(history), v, now);
      published, thrown := OnUpdate(vts, rt);
    }

    /** `update(mqttTopic)`: `this.value = mqttTopic.value`. */
    method Update(other: MqttTopic, now: int, vts: Topics, rt: Runtime) returns (published: seq<Publish>, thrown: bool)
      requires vts.Valid()
      modifies this, vts
      ensures history == Prepended(old(history), old(other.Value()), now)
      ensures vts.Valid() && vts.keys == old(vts.keys) && vts.events == old(vts.events)
      ensures Spread(vts.data, published, thrown) == VirtualTopics.OnUpdate(old(vts.Model()), name, old(other.Value()), rt)
    {
      published, thrown := SetValue(other.Value(), now, vts, rt);
    }

    /** `clearHistoryByAge`. */
    method ClearHistoryByAge(now: int)
      modifies this
      ensures history == ByAge(old(history), now, maxAge)
    {
      if maxAge == Some(-1) {
        return;
      }
      if maxAge.None? {
        history := [];
      } else {
        history := KeepNewerThan(history, now - maxAge.value * 1000);
      }
    }

    /** `clearHistoryByLength`. */
    method ClearHistoryByLength()
      modifies this
      ensures history == ByLength(old(history), maxLength)
    {
      if maxLength == Some(-1) {
        return;
      }
      if maxLength.None? {
        history := [];
      } else {
        history := history[..SliceEnd(|history|, maxLength.value - 1)];
      }
    }

    /** `clearHistory`: both filters, and the newest entry back if they left
        nothing. */
    method ClearHistory(now: int)
      modifies this
      ensures history == Swept(old(history), now, maxLength, maxAge)
    {
      var latest: Option<Entry> := if |history| > 0 then Some(history[0]) else None;
      ClearHistoryByAge(now);
      ClearHistoryByLength();
      if |history| == 0 && latest.Some? {
        history := [latest.value];
      }
    }
  }
}
