/** The openSenseMap uploader (server/lib/OpenSenseMap/index.js): the
    sensor list parsed from its configuration text, the rate-limited
    `sendAll`, which stamps and collects every sensor that is due, and
    `message`, which stores an inbound reading on the first sensor of that
    topic. The upload itself is returned as the call it would make. */
module OpenSenseMap {
  import opened Js
  import opened Strings

  /** One configured sensor. `None` stands for the `false` the source
      stores for a missing or empty part, for a zero or unparseable `age`,
      and for a `value` or `sendTimestamp` that was never set. */
  datatype Sensor = Sensor(sensorId: Option<string>, topic: Option<string>, age: Option<int>, value: Option<Number>, sendTimestamp: Option<real>)

  /** One `{sensor, value}` of an upload. */
  datatype Measurement = Measurement(sensor: Option<string>, value: Number)

  /** `client.postNewMeasurements(id, data, token)`. */
  datatype Post = Post(boxId: string, data: seq<Measurement>, token: string)

  /** `x || false` on a trimmed text. */
  function NonEmpty(s: string): Option<string> {
    if s == "" then None else Some(s)
  }

  /** `parseInt(s[2]) || false`: `s[2]` is `undefined`, so NaN, when the entry
      has one colon. */
  function AgeOf(pieces: seq<string>, rt: Runtime): Option<int> {
    if |pieces| > 2 && rt.parseIntText(pieces[2]).Some? && rt.parseIntText(pieces[2]).value != 0
    then rt.parseIntText(pieces[2])
    else None
  }

  /** One comma-separated entry: nothing without a colon, otherwise a
      sensor with no value and no timestamp yet. */
  function ParseSensor(entry: string, rt: Runtime): (r: Option<Sensor>)
    ensures ':' !in entry <==> r.None?
    ensures r.Some? ==> r.value.value.None? && r.value.sendTimestamp.None?
  {
    if ':' in entry then
      SplitWithSep(entry, ':');
      var s := Split(entry, ':');
      Some(Sensor(NonEmpty(Trim(s[0])), NonEmpty(Trim(s[1])), AgeOf(s, rt), None, None))
    else None
  }

  /** `.filter(sensor => sensor ? sensor : null)`: the parsed entries,
      without the ones that gave nothing. */
  function Kept<T>(xs: seq<Option<T>>): seq<T>
    decreases |xs|
  {
    if xs == [] then []
    else
      var init := Kept(xs[..|xs| - 1]);
      match xs[|xs| - 1]
      case None => init
      case Some(x) => init + [x]
  }

  /** The filter keeps exactly the present values, no more of them than
      there were entries. */
  lemma {:induction false} KeptSpec<T>(xs: seq<Option<T>>, x: T)
    ensures x in Kept(xs) <==> Some(x) in xs
    ensures |Kept(xs)| <= |xs|
    decreases |xs|
  {
    if xs != [] {
      var init := xs[..|xs| - 1];
      KeptSpec(init, x);
      assert xs == init + [xs[|xs| - 1]];
    }
  }

  /** The entries, parsed. */
  function ParseSensors(entries: seq<string>, rt: Runtime): seq<Sensor> {
    Kept(seq(|entries|, i requires 0 <= i < |entries| => ParseSensor(entries[i], rt)))
  }

  /** `OPENSENSEMAP_SENSORS.split(',').map(...).filter(...)`. */
  function Configured(config: string, rt: Runtime): seq<Sensor> {
    ParseSensors(Split(config, ','), rt)
  }

  /** Exactly the entries with a colon make a sensor, and no more sensors
      than entries, each without a value or a timestamp. */
  lemma ParseSensorsSpec(entries: seq<string>, rt: Runtime, x: Sensor)
    ensures x in ParseSensors(entries, rt) <==> exists i :: 0 <= i < |entries| && ParseSensor(entries[i], rt) == Some(x)
    ensures x in ParseSensors(entries, rt) ==> x.value.None? && x.sendTimestamp.None?
    ensures |ParseSensors(entries, rt)| <= |entries|
  {
    var parsed := seq(|entries|, i requires 0 <= i < |entries| => ParseSensor(entries[i], rt));
    KeptSpec(parsed, x);
    if Some(x) in parsed {
      var i :| 0 <= i < |parsed| && parsed[i] == Some(x);
      assert ParseSensor(entries[i], rt) == Some(x);
    }
    if exists i :: 0 <= i < |entries| && ParseSensor(entries[i], rt) == Some(x) {
      var i :| 0 <= i < |entries| && ParseSensor(entries[i], rt) == Some(x);
      assert parsed[i] == Some(x);
    }
  }

  /** `sensor.sendTimestamp + sensor.age`, where `false` adds as 0. */
  function Deadline(s: Sensor): real {
    (if s.sendTimestamp.Some? then s.sendTimestamp.value else 0.0) + (if s.age.Some? then s.age.value as real else 0.0)
  }

  /** `sensor.value` as the guard reads it: truthy, so neither unset nor 0
      nor NaN. */
  predicate TruthyValue(s: Sensor) {
    s.value.Some? && s.value.value.Finite? && s.value.value.r != 0.0
  }

  /** A reading was stored and is a number: 0 included, NaN not. */
  predicate HasReading(s: Sensor) {
    s.value.Some? && s.value.value.Finite?
  }

  /** The `sendAll` guard `now >= dead && sensor.value` as written, or as
      intended (a stored reading of 0 is sent too). */
  predicate Due(s: Sensor, now: real, asWritten: bool) {
    now >= Deadline(s) && (if asWritten then TruthyValue(s) else HasReading(s))
  }

  /** The sensors after the stamping loop. */
  function Stamped(sensors: seq<Sensor>, now: real, asWritten: bool): (r: seq<Sensor>) {
    seq(|sensors|, i requires 0 <= i < |sensors| => if Due(sensors[i], now, asWritten) then sensors[i].(sendTimestamp := Some(now)) else sensors[i])
  }

  /** The `data` the loop pushes, in sensor order. */
  function Payload(sensors: seq<Sensor>, now: real, asWritten: bool): seq<Measurement>
    decreases |sensors|
  {
    if sensors == [] then []
    else
      var init := Payload(sensors[..|sensors| - 1], now, asWritten);
      var s := sensors[|sensors| - 1];
      if Due(s, now, asWritten) then init + [Measurement(s.sensorId, s.value.value)] else init
  }

  /** `Date.now() / 1000`. */
  function Seconds(nowMs: int): real {
    nowMs as real / 1000.0
  }

  /** The upload lists a measurement exactly for each due sensor, with that
      sensor's id and value and no other. */
  lemma {:induction false} PayloadSpec(sensors: seq<Sensor>, now: real, asWritten: bool, m: Measurement)
    ensures m in Payload(sensors, now, asWritten) <==>
      exists i :: 0 <= i < |sensors| && Due(sensors[i], now, asWritten) && m == Measurement(sensors[i].sensorId, sensors[i].value.value)
    ensures |Payload(sensors, now, asWritten)| <= |sensors|
    decreases |sensors|
  {
    if sensors != [] {
      var n := |sensors| - 1;
      var init := sensors[..n];
      PayloadSpec(init, now, asWritten, m);
      assert forall i :: 0 <= i < n ==> init[i] == sensors[i];
    }
  }

  /** Only the timestamp of a due sensor changes, to `now`; afterwards a
      sensor with a positive `age` is not due again before `now + age`. */
  lemma StampedSpec(sensors: seq<Sensor>, now: real, asWritten: bool, i: nat, later: real)
    requires i < |sensors|
    ensures |Stamped(sensors, now, asWritten)| == |sensors|
    ensures Stamped(sensors, now, asWritten)[i].(sendTimestamp := sensors[i].sendTimestamp) == sensors[i]
    ensures Due(sensors[i], now, asWritten) ==> Stamped(sensors, now, asWritten)[i].sendTimestamp == Some(now)
    ensures !Due(sensors[i], now, asWritten) ==> Stamped(sensors, now, asWritten)[i] == sensors[i]
    ensures Due(sensors[i], now, asWritten) && sensors[i].age.Some? && sensors[i].age.value > 0 && later < now + sensors[i].age.value as real ==>
      !Due(Stamped(sensors, now, asWritten)[i], later, asWritten)
  {
  }

  /** Finding: as written, a stored reading of 0 is never uploaded. */
  lemma ZeroReadingDropped(s: Sensor, now: real)
    requires s.value == Some(Finite(0.0)) && now >= Deadline(s)
    ensures Payload([s], now, true) == [] && Stamped([s], now, true) == [s]
  {
    assert [s][..0] == [];
  }

  /** As intended, the zero reading of a due sensor is uploaded and stamped. */
  lemma ZeroReadingSent(s: Sensor, now: real)
    requires s.value == Some(Finite(0.0)) && now >= Deadline(s)
    ensures Payload([s], now, false) == [Measurement(s.sensorId, Finite(0.0))]
    ensures Stamped([s], now, false) == [s.(sendTimestamp := Some(now))]
  {
    assert [s][..0] == [];
  }

  /** The index `sensors.filter(s => s.topic === topic)[0]` picks: the first
      sensor of that topic, if any. */
  function FirstWithTopic(sensors: seq<Sensor>, topic: string): (r: Option<nat>)
    ensures r.Some? ==> r.value < |sensors| && sensors[r.value].topic == Some(topic)
    ensures r.Some? ==> forall j :: 0 <= j < r.value ==> sensors[j].topic != Some(topic)
    ensures r.None? ==> forall j :: 0 <= j < |sensors| ==> sensors[j].topic != Some(topic)
    decreases |sensors|
  {
    if sensors == [] then None
    else if sensors[0].topic == Some(topic) then Some(0)
    else
      match FirstWithTopic(sensors[1..], topic)
      case None => None
      case Some(j) => Some(j + 1)
  }

  /** `message(topic, buffer)` with `value = parseFloat(buffer)`. */
  function Assigned(sensors: seq<Sensor>, topic: string, value: Number): (r: seq<Sensor>)
    ensures |r| == |sensors|
  {
    match FirstWithTopic(sensors, topic)
    case None => sensors
    case Some(i) => sensors[i := sensors[i].(value := Some(value))]
  }

  /** A reading for an unconfigured topic changes nothing; otherwise exactly
      the first sensor of that topic gets the value, and only its value. */
  lemma AssignedSpec(sensors: seq<Sensor>, topic: string, value: Number, j: nat)
    requires j < |sensors|
    ensures (forall i :: 0 <= i < |sensors| ==> sensors[i].topic != Some(topic)) ==> Assigned(sensors, topic, value) == sensors
    ensures sensors[j].topic == Some(topic) && (forall i :: 0 <= i < j ==> sensors[i].topic != Some(topic)) ==>
      Assigned(sensors, topic, value)[j] == sensors[j].(value := Some(value))
    ensures (sensors[j].topic != Some(topic) || exists i :: 0 <= i < j && sensors[i].topic == Some(topic)) ==>
      Assigned(sensors, topic, value)[j] == sensors[j]
  {
    match FirstWithTopic(sensors, topic)
    case None =>
    case Some(i) =>
      assert i == j <==> sensors[j].topic == Some(topic) && (forall k :: 0 <= k < j ==> sensors[k].topic != Some(topic)) by {
        if i < j { assert sensors[i].topic == Some(topic); }
        if j < i { assert sensors[j].topic != Some(topic); }
      }
  }

  class Box {
    /** `OPENSENSEMAP_ID || 'change!me'`. */
    const id: string
    /** `OPENSENSEMAP_TOKEN || 'change!me'`. */
    const token: string
    var sensors: seq<Sensor>

    constructor(config: string, idSetting: string, tokenSetting: string, rt: Runtime)
      ensures sensors == Configured(config, rt)
      ensures id == (if idSetting == "" then "change!me" else idSetting)
      ensures token == (if tokenSetting == "" then "change!me" else tokenSetting)
    {
      id := if idSetting == "" then "change!me" else idSetting;
      token := if tokenSetting == "" then "change!me" else tokenSetting;
      sensors := Configured(config, rt);
    }

    /** `sendAll()`: every due sensor is stamped and collected; the upload is
        made only when something was collected. */
    method SendAll(nowMs: int) returns (post: Option<Post>)
      modifies this
      ensures sensors == Stamped(old(sensors), Seconds(nowMs), false)
      ensures var data := Payload(old(sensors), Seconds(nowMs), false);
        post == if data == [] then None else Some(Post(id, data, token))
    {
      var now := Seconds(nowMs);
      ghost var start := sensors;
      var data: seq<Measurement> := [];
      for i := 0 to |sensors|
        invariant |sensors| == |start|
        invariant forall j :: 0 <= j < i ==> sensors[j] == Stamped(start, now, false)[j]
        invariant forall j :: i <= j < |sensors| ==> sensors[j] == start[j]
        invariant data == Payload(start[..i], now, false)
      {
        var sensor := sensors[i];
        assert start[..i + 1][..i] == start[..i];
        if now >= Deadline(sensor) && HasReading(sensor) {
          sensors := sensors[i := sensor.(sendTimestamp := Some(now))];
          data := data + [Measurement(sensor.sensorId, sensor.value.value)];
        }
      }
      assert start[..|start|] == start;
      post := if |data| > 0 then Some(Post(id, data, token)) else None;
    }

    /** `message(topic, buffer)`. */
    method Message(topic: string, buffer: string, rt: Runtime)
      modifies this
      ensures sensors == Assigned(old(sensors), topic, rt.parseFloatText(buffer))
    {
      var value := rt.parseFloatText(buffer);
      var i := FirstWithTopic(sensors, topic);
      if i.None? {
        return;
      }
      sensors := sensors[i.value := sensors[i.value].(value := Some(value))];
    }
  }
}
