/** The calculators of the raw-topic side (server/lib/Mqtt/Calculators): the
    base class's `value` setter, which rounds a number and publishes through
    the parent, the six variants whose files are part of this model, and the
    name → class catalog. `props` are the plain properties of the instance:
    `precision` and `max` from the constructors, and whatever `calculate`
    writes on `this`. */
module MqttCalculators {
  import opened Js
  import opened Dict
  import opened Sources
  import opened CalcBase

  datatype Kind = Average | MapTopic | MoistAirDensity | MoistAirVolume | WetBulb | WetBulbHuman

  /** The `name` each class sets in its constructor. */
  function Name(k: Kind): string {
    match k
    case Average => "average"
    case MapTopic => "maptopic"
    case MoistAirDensity => "moistairdensity"
    case MoistAirVolume => "moistairvolume"
    case WetBulb => "wetbulb"
    case WetBulbHuman => "wetbulbhuman"
  }

  /** The identifier of the class each file declares; MoistAirDensity.js
      declares a class called `MoistAirVolume`. */
  function ClassName(k: Kind): string {
    match k
    case Average => "Average"
    case MapTopic => "MapTopic"
    case MoistAirDensity => "MoistAirVolume"
    case MoistAirVolume => "MoistAirVolume"
    case WetBulb => "WetBulb"
    case WetBulbHuman => "WetBulbHuman"
  }

  /** What a catalog name yields: a class of this model, or the file of a
      class that is not part of it. */
  datatype Entry = Modelled(kind: Kind) | Elsewhere(file: string)

  /** The exported names, in export order. */
  const Names: seq<string> := ["average", "dewpoint", "wetbulb", "wetbulbhuman", "absolutehumidity", "maptopic", "moistairvolume", "moistairdensity"]

  /** The export table. */
  function Catalog(name: string): Option<Entry> {
    if name == "average" then Some(Modelled(Average))
    else if name == "dewpoint" then Some(Elsewhere("DewPoint.js"))
    else if name == "wetbulb" then Some(Modelled(WetBulb))
    else if name == "wetbulbhuman" then Some(Modelled(WetBulbHuman))
    else if name == "absolutehumidity" then Some(Elsewhere("AbsoluteHumidity.js"))
    else if name == "maptopic" then Some(Modelled(MapTopic))
    else if name == "moistairvolume" then Some(Modelled(MoistAirVolume))
    else if name == "moistairdensity" then Some(Modelled(MoistAirDensity))
    else None
  }

  /** Eight distinct names; a name outside them yields nothing; every class
      is exported under its own `name`. */
  lemma CatalogSpec(name: string, k: Kind)
    ensures |Names| == 8 && forall i, j :: 0 <= i < j < |Names| ==> Names[i] != Names[j]
    ensures Catalog(name).Some? <==> name in Names
    ensures Catalog(Name(k)) == Some(Modelled(k))
    ensures Catalog(name) == Some(Modelled(k)) ==> Name(k) == name
  {
  }

  /** `moistairdensity` is the class MoistAirDensity.js declares as
      `MoistAirVolume`, a different class from the one exported as
      `moistairvolume`. */
  lemma DensityIdentifier()
    ensures Catalog("moistairdensity") == Some(Modelled(MoistAirDensity))
    ensures ClassName(MoistAirDensity) == ClassName(MoistAirVolume) == "MoistAirVolume"
    ensures Catalog("moistairvolume") != Catalog("moistairdensity")
  {
  }

  /** The accessors whose setters ignore writes. */
  const ReadOnly: set<string> := {"topic", "source", "values", "transform", "topicsIncoming"}

  /** A just constructed instance's properties: `precision = 4`, and for
      `wetbulbhuman` `max = options.max || 42`. */
  function InitialProps(k: Kind, max: Val): map<string, Val> {
    var base := map["precision" := Real(4.0)];
    if k == WetBulbHuman then base["max" := Or(max, Real(42.0))] else base
  }

  /** The setter's `toPrecision` argument: `parent.data.precision ||
      this.precision`, read when the setter runs. */
  function Rnd(view: View): Rounding {
    Own(Lookup(view.data, "precision"))
  }

  function Digits(props: map<string, Val>, view: View): Val {
    DigitsAt(Rnd(view), props)
  }

  /** Sum of `parseFloat(values[t]) || 0` over the listed topics that have a
      cached entry. */
  function ListedSum(items: seq<string>, values: Dict<Val>, rt: Runtime): real
    decreases |items|
  {
    if items == [] then 0.0
    else
      var t := items[|items| - 1];
      ListedSum(items[..|items| - 1], values, rt) + (if t in values.keys then Contribution(Lookup(values, t), rt) else 0.0)
  }

  /** How many of the listed topics have a cached entry. */
  function ListedCount(items: seq<string>, values: Dict<Val>): nat
    decreases |items|
  {
    if items == [] then 0
    else ListedCount(items[..|items| - 1], values) + (if items[|items| - 1] in values.keys then 1 else 0)
  }

  /** The strict average: only a list source has `forEach`; the number is
      assigned only when every listed topic is cached (`0 / 0` is NaN for an
      empty list). */
  function StrictAverage(source: Source, values: Dict<Val>, rt: Runtime): Outcome {
    if !source.List? then Thrown
    else
      var items := source.items;
      if ListedCount(items, values) != |items| then Skipped
      else if |items| == 0 then Computed(NaN)
      else Computed(Finite(ListedSum(items, values, rt) / |items| as real))
  }

  /** `maptopic`: the cached value of `String(source)`, mapped by the
      parent's `transform`. */
  function MapTopicOutcome(view: View, rt: Runtime): Outcome {
    var value := Lookup(view.values, KeyText(view.source));
    var transform := Lookup(view.data, "transform");
    if !Truthy(value) then Skipped
    else if transform == Str("string-boolean") then
      if value == Str("true") then Computed(Finite(1.0))
      else if value == Str("false") then Computed(Finite(0.0))
      else Skipped
    else if transform == Str("string-float") then Computed(ParseFloat(value, rt))
    else Skipped
  }

  /** `moistairdensity`: only `humidity` is reset and read.
      `Object.keys(undefined)` raises. */
  function MoistAirDensityStep(c: Copy, view: View, rt: Runtime): (Outcome, Copy) {
    var reset := c.(props := c.props["humidity" := Bool(false)]);
    if view.source.Missing? then (Thrown, reset)
    else
      var p := CopiedFrom(reset, view, ReadOnly, Rnd(view), rt);
      if p.threw then (Thrown, p)
      else
        var h := Prop(p.props, "humidity");
        if !Truthy(h) then (Skipped, p)
        else (Computed(Scale(ParseFloat(h, rt), 1000.0)), p)
  }

  /** `moistairvolume`: humidity passed as read, pressure from kPa to Pa. */
  function MoistAirVolumeStep(c: Copy, view: View, rt: Runtime): (Outcome, Copy) {
    var reset := c.(props := c.props["temperature" := Bool(false)]["humidity" := Bool(false)]["pressure" := Bool(false)]);
    if view.source.Missing? then (Thrown, reset)
    else
      var p := CopiedFrom(reset, view, ReadOnly, Rnd(view), rt);
      if p.threw then (Thrown, p)
      else
        var h, t, pr := Prop(p.props, "humidity"), Prop(p.props, "temperature"), Prop(p.props, "pressure");
        if !Truthy(h) || !Truthy(t) || !Truthy(pr) then (Skipped, p)
        else
          var tv, hv, pv := ParseFloat(t, rt), ParseFloat(h, rt), Scale(ParseFloat(pr, rt), 100.0);
          var q := p.(props := p.props["temperature" := Num(tv)]["humidity" := Num(hv)]["pressure" := Num(pv)]);
          var v := AirVolumeOf(tv, hv, pv, rt);
          (if v.Some? then Computed(v.value) else Thrown, q)
  }

  /** `wetbulb`: humidity from percent to a fraction, pressure from kPa to Pa. */
  function WetBulbStep(c: Copy, view: View, rt: Runtime): (Outcome, Copy) {
    var reset := c.(props := c.props["temperature" := Bool(false)]["humidity" := Bool(false)]["pressure" := Bool(false)]);
    if view.source.Missing? then (Thrown, reset)
    else
      var p := CopiedFrom(reset, view, ReadOnly, Rnd(view), rt);
      if p.threw then (Thrown, p)
      else
        var h, t, pr := Prop(p.props, "humidity"), Prop(p.props, "temperature"), Prop(p.props, "pressure");
        if !Truthy(h) || !Truthy(t) || !Truthy(pr) then (Skipped, p)
        else
          var tv, hv, pv := ParseFloat(t, rt), Scale(ParseFloat(h, rt), 0.01), Scale(ParseFloat(pr, rt), 100.0);
          var q := p.(props := p.props["temperature" := Num(tv)]["humidity" := Num(hv)]["pressure" := Num(pv)]);
          var w := WetBulbOf(tv, hv, pv, rt);
          (if w.Some? then Computed(w.value) else Thrown, q)
  }

  /** `_magic(wbT, T)`: `T + (this.max - wbT)`. */
  function Magic(wbT: Number, t: Number, max: Val, rt: Runtime): Number {
    Add(t, Sub(ToNumber(max, rt), wbT))
  }

  /** `wetbulbhuman`: both raw fields and both parsed numbers must be truthy. */
  function WetBulbHumanStep(c: Copy, view: View, rt: Runtime): (Outcome, Copy) {
    var reset := c.(props := c.props["temperature" := Bool(false)]["wetbulb" := Bool(false)]);
    if view.source.Missing? then (Thrown, reset)
    else
      var p := CopiedFrom(reset, view, ReadOnly, Rnd(view), rt);
      if p.threw then (Thrown, p)
      else
        var t, wb := Prop(p.props, "temperature"), Prop(p.props, "wetbulb");
        if !Truthy(t) || !Truthy(wb) then (Skipped, p)
        else
          var wbT, tv := ParseFloat(wb, rt), ParseFloat(t, rt);
          if !Truthy(Num(wbT)) || !Truthy(Num(tv)) then (Skipped, p)
          else (Computed(Magic(wbT, tv, Prop(p.props, "max"), rt)), p)
  }

  /** One `calculate()` body: the number it assigns (if any) and the state
      before that assignment. */
  function Step(k: Kind, c: Copy, view: View, rt: Runtime): (Outcome, Copy) {
    match k
    case Average => (StrictAverage(view.source, view.values, rt), c)
    case MapTopic => (MapTopicOutcome(view, rt), c)
    case MoistAirDensity => MoistAirDensityStep(c, view, rt)
    case MoistAirVolume => MoistAirVolumeStep(c, view, rt)
    case WetBulb => WetBulbStep(c, view, rt)
    case WetBulbHuman => WetBulbHumanStep(c, view, rt)
  }

  /** A calculator's state: its class, its plain properties and `_value`. */
  datatype CalcModel = CalcModel(kind: Kind, props: map<string, Val>, value: Val)

  /** `new Calculators[name](parent, options)`. */
  function Fresh(k: Kind, max: Val): CalcModel {
    CalcModel(k, InitialProps(k, max), Undefined)
  }

  /** The state a `calculate()` starts from. */
  function Start(c: CalcModel): Copy {
    Copy(c.props, c.value, [], false)
  }

  /** One `calculate()` including the `value` setter: a number is stored as
      `toPrecision(parent.data.precision || this.precision)`, and every stored
      value is published through the parent. */
  function Calculated(c: CalcModel, view: View, rt: Runtime): (CalcModel, Effect) {
    var (o, p) := Step(c.kind, Start(c), view, rt);
    var fin := if o.Computed? then Assign(p, Num(o.n), Rnd(view), rt) else p;
    (c.(props := fin.props, value := fin.value), Effect(fin.handed, o.Thrown? || fin.threw))
  }

  /** A `calculate()` publishes what the field copy handed on and then, when
      the body assigned a number, that number rounded to the parent's
      precision or else the instance's, which is the new `_value`; rounding
      raises exactly for a finite number and a precision `toPrecision`
      refuses. A body that assigned nothing publishes nothing more and keeps
      `_value`. The average and the topic map copy nothing: the average
      raises exactly for a source that is not a list, the topic map only
      while storing what it assigned. A field calculator on an undefined
      source raises before anything is published. */
  lemma CalculatedPublishes(c: CalcModel, view: View, rt: Runtime)
    ensures var (o, p) := Step(c.kind, Start(c), view, rt);
      var (c2, e) := Calculated(c, view, rt);
      var digits := Digits(p.props, view);
      && |p.handed| <= |e.handed| && e.handed[..|p.handed|] == p.handed
      && (o.Computed? ==> (e.threw <==> p.threw || Rounded(o.n, digits, rt).None?))
      && (o.Computed? && !e.threw ==>
            |e.handed| == |p.handed| + 1 && e.handed[|p.handed|] == c2.value == Str(Rounded(o.n, digits, rt).value))
      && (!o.Computed? ==> e.handed == p.handed && c2.value == p.value && (e.threw <==> o.Thrown?))
      && (c.kind in {Average, MapTopic} ==> p == Start(c))
      && (c.kind == MapTopic ==> !e.threw || o.Computed?)
      && (c.kind == Average ==> (o.Thrown? <==> !view.source.List?))
      && (c.kind in {MoistAirDensity, MoistAirVolume, WetBulb, WetBulbHuman} && view.source.Missing? ==> e.threw && e.handed == [])
  {
    var (o, p) := Step(c.kind, Start(c), view, rt);
    if c.kind in {MoistAirDensity, MoistAirVolume, WetBulb, WetBulbHuman} && !view.source.Missing? {
      var reset :=
        match c.kind
        case MoistAirDensity => Start(c).(props := c.props["humidity" := Bool(false)])
        case WetBulbHuman => Start(c).(props := c.props["temperature" := Bool(false)]["wetbulb" := Bool(false)])
        case _ => Start(c).(props := c.props["temperature" := Bool(false)]["humidity" := Bool(false)]["pressure" := Bool(false)]);
      CopiedProps(reset, Entries(view.source), view.values, ReadOnly, Rnd(view), rt);
    }
  }

  /** Without a parent precision a new instance rounds to 4 digits; a
      `wetbulbhuman` has `max` from the options, or 42 when that is falsy. */
  lemma FreshDefaults(k: Kind, max: Val, view: View)
    requires !Truthy(Lookup(view.data, "precision"))
    ensures Digits(Fresh(k, max).props, view) == Real(4.0)
    ensures k == WetBulbHuman ==> Prop(Fresh(k, max).props, "max") == (if Truthy(max) then max else Real(42.0))
  {
  }

  /** The listed count never exceeds the list, and reaches it exactly when
      every listed topic is cached. */
  lemma {:induction false} ListedCountFull(items: seq<string>, values: Dict<Val>)
    ensures ListedCount(items, values) <= |items|
    ensures ListedCount(items, values) == |items| <==> forall i :: 0 <= i < |items| ==> items[i] in values.keys
    decreases |items|
  {
    if items != [] {
      var init := items[..|items| - 1];
      ListedCountFull(init, values);
      assert forall i :: 0 <= i < |init| ==> init[i] == items[i];
    }
  }

  /** Neither the count nor the sum looks at a topic the list does not name. */
  lemma {:induction false} ListedIgnoresUnlisted(items: seq<string>, values: Dict<Val>, t: string, v: Val, rt: Runtime)
    requires values.Wf() && t !in items
    ensures ListedCount(items, values.Put(t, v)) == ListedCount(items, values)
    ensures ListedSum(items, values.Put(t, v), rt) == ListedSum(items, values, rt)
    decreases |items|
  {
    if items != [] {
      var init := items[..|items| - 1];
      assert t !in init by {
        assert forall i :: 0 <= i < |init| ==> init[i] == items[i];
      }
      ListedIgnoresUnlisted(init, values, t, v, rt);
    }
  }

  /** The strict average: a TypeError unless the source is a list; a number
      exactly when every listed topic is cached; and the cache of a topic the
      list does not name never matters. */
  lemma StrictAverageSpec(source: Source, values: Dict<Val>, t: string, v: Val, rt: Runtime)
    requires values.Wf()
    ensures StrictAverage(source, values, rt).Thrown? <==> !source.List?
    ensures source.List? ==>
      (StrictAverage(source, values, rt).Computed? <==> forall i :: 0 <= i < |source.items| ==> source.items[i] in values.keys)
    ensures source.List? && t !in source.items ==> StrictAverage(source, values.Put(t, v), rt) == StrictAverage(source, values, rt)
  {
    if source.List? {
      ListedCountFull(source.items, values);
      if t !in source.items {
        ListedIgnoresUnlisted(source.items, values, t, v, rt);
      }
    }
  }

  /** `[A=2, B=4]` averages to 3. */
  lemma StrictAverageExample(a: string, b: string, values: Dict<Val>, rt: Runtime)
    requires a != b && a in values.keys && b in values.keys
    requires Lookup(values, a) == Real(2.0) && Lookup(values, b) == Real(4.0)
    ensures StrictAverage(List([a, b]), values, rt) == Computed(Finite(3.0))
  {
    assert [a, b][..1] == [a];
    assert [a][..0] == [];
    assert ListedCount([a], values) == 1;
    assert ListedCount([a, b], values) == 2;
    assert ListedSum([a], values, rt) == 2.0;
    assert ListedSum([a, b], values, rt) == 6.0;
  }

  /** `maptopic` assigns nothing for a falsy cached value; with
      `string-boolean` it maps 'true' to 1 and 'false' to 0 and nothing else;
      with `string-float` it assigns `parseFloat(value)`; any other transform
      assigns nothing. No properties are written. */
  lemma MapTopicSpec(c: Copy, view: View, rt: Runtime)
    ensures var value := Lookup(view.values, KeyText(view.source));
      var transform := Lookup(view.data, "transform");
      var o := Step(MapTopic, c, view, rt).0;
      && Step(MapTopic, c, view, rt).1 == c
      && (!Truthy(value) ==> o == Skipped)
      && (Truthy(value) && transform == Str("string-boolean") ==>
            (o == Computed(Finite(1.0)) <==> value == Str("true")) && (o == Computed(Finite(0.0)) <==> value == Str("false")) &&
            (o.Skipped? <==> value != Str("true") && value != Str("false")))
      && (Truthy(value) && transform == Str("string-float") ==> o == Computed(ParseFloat(value, rt)))
      && (transform != Str("string-boolean") && transform != Str("string-float") ==> o == Skipped)
  {
  }

  /** `moistairdensity`: a copy that raised raises; otherwise it assigns
      exactly when the humidity read from the source is truthy, and the
      number is its value times 1000. Of what the calculator held before,
      and of the other fields, only a raise in the copy depends on it. */
  lemma MoistAirDensitySpec(c1: Copy, c2: Copy, view: View, rt: Runtime)
    requires !view.source.Missing?
    ensures var p := CopiedFrom(c1.(props := c1.props["humidity" := Bool(false)]), view, ReadOnly, Rnd(view), rt);
      var h := Prop(p.props, "humidity");
      var o := MoistAirDensityStep(c1, view, rt).0;
      && (o.Thrown? <==> p.threw)
      && (o.Computed? <==> !p.threw && Truthy(h))
      && (o.Computed? ==> o.n == Scale(ParseFloat(h, rt), 1000.0))
    ensures !MoistAirDensityStep(c1, view, rt).0.Thrown? && !MoistAirDensityStep(c2, view, rt).0.Thrown? ==>
      MoistAirDensityStep(c1, view, rt).0 == MoistAirDensityStep(c2, view, rt).0
  {
    var r1 := c1.(props := c1.props["humidity" := Bool(false)]);
    var r2 := c2.(props := c2.props["humidity" := Bool(false)]);
    CopiedProps(r1, Entries(view.source), view.values, ReadOnly, Rnd(view), rt);
    CopiedProps(r2, Entries(view.source), view.values, ReadOnly, Rnd(view), rt);
    ResetFieldIgnoresHistory(r1.props, r2.props, view, ReadOnly, "humidity");
  }

  /** The three inputs as read after the reset and the field copy; what the
      calculator held before does not matter. */
  function Inputs(view: View): (Val, Val, Val) {
    var p := Loaded(map["temperature" := Bool(false), "humidity" := Bool(false), "pressure" := Bool(false)], view, ReadOnly);
    (Prop(p, "temperature"), Prop(p, "humidity"), Prop(p, "pressure"))
  }

  /** The reset makes every three-input field read independent of history. */
  lemma ThreeInputsRead(props: map<string, Val>, view: View)
    ensures var p := Loaded(props["temperature" := Bool(false)]["humidity" := Bool(false)]["pressure" := Bool(false)], view, ReadOnly);
      (Prop(p, "temperature"), Prop(p, "humidity"), Prop(p, "pressure")) == Inputs(view)
  {
    var reset := props["temperature" := Bool(false)]["humidity" := Bool(false)]["pressure" := Bool(false)];
    var base := map["temperature" := Bool(false), "humidity" := Bool(false), "pressure" := Bool(false)];
    ResetFieldIgnoresHistory(reset, base, view, ReadOnly, "temperature");
    ResetFieldIgnoresHistory(reset, base, view, ReadOnly, "humidity");
    ResetFieldIgnoresHistory(reset, base, view, ReadOnly, "pressure");
  }

  /** `moistairvolume`: a copy that raised raises; otherwise it assigns
      exactly when all three inputs are truthy and `GetMoistAirVolume`
      returns, with the humidity unscaled and the pressure times 100. A
      cached reading is text, so "0" is truthy and passes; only an empty
      text, a missing value or the number 0 stops it. A negative humidity, or
      one that is not a number, raises. */
  lemma MoistAirVolumeGate(c: Copy, view: View, rt: Runtime)
    requires !view.source.Missing?
    ensures var p := CopiedFrom(c.(props := c.props["temperature" := Bool(false)]["humidity" := Bool(false)]["pressure" := Bool(false)]), view, ReadOnly, Rnd(view), rt);
      var (t, h, pr) := Inputs(view);
      var v := AirVolumeOf(ParseFloat(t, rt), ParseFloat(h, rt), Scale(ParseFloat(pr, rt), 100.0), rt);
      var o := MoistAirVolumeStep(c, view, rt).0;
      && (o.Computed? <==> !p.threw && Truthy(t) && Truthy(h) && Truthy(pr) && v.Some?)
      && (o.Computed? ==> Some(o.n) == v)
      && (o.Thrown? <==> p.threw || (Truthy(t) && Truthy(h) && Truthy(pr) && v.None?))
      && (!p.threw && Truthy(t) && Truthy(h) && Truthy(pr) && !NonNegative(ParseFloat(h, rt)) ==> o.Thrown?)
  {
    var reset := c.(props := c.props["temperature" := Bool(false)]["humidity" := Bool(false)]["pressure" := Bool(false)]);
    CopiedProps(reset, Entries(view.source), view.values, ReadOnly, Rnd(view), rt);
    ThreeInputsRead(c.props, view);
  }

  /** `wetbulb`: a copy that raised raises; otherwise it assigns exactly
      when all three inputs are truthy and `GetTWetBulbFromRelHum` returns,
      with the humidity divided by 100 and the pressure times 100. A humidity
      outside 0..100 %, or one that is not a number, raises. */
  lemma WetBulbGate(c: Copy, view: View, rt: Runtime)
    requires !view.source.Missing?
    ensures var p := CopiedFrom(c.(props := c.props["temperature" := Bool(false)]["humidity" := Bool(false)]["pressure" := Bool(false)]), view, ReadOnly, Rnd(view), rt);
      var (t, h, pr) := Inputs(view);
      var w := WetBulbOf(ParseFloat(t, rt), Scale(ParseFloat(h, rt), 0.01), Scale(ParseFloat(pr, rt), 100.0), rt);
      var o := WetBulbStep(c, view, rt).0;
      && (o.Computed? <==> !p.threw && Truthy(t) && Truthy(h) && Truthy(pr) && w.Some?)
      && (o.Computed? ==> Some(o.n) == w)
      && (o.Thrown? <==> p.threw || (Truthy(t) && Truthy(h) && Truthy(pr) && w.None?))
      && (!p.threw && Truthy(t) && Truthy(h) && Truthy(pr) && !InUnitRange(Scale(ParseFloat(h, rt), 0.01)) ==> o.Thrown?)
  {
    var reset := c.(props := c.props["temperature" := Bool(false)]["humidity" := Bool(false)]["pressure" := Bool(false)]);
    CopiedProps(reset, Entries(view.source), view.values, ReadOnly, Rnd(view), rt);
    ThreeInputsRead(c.props, view);
  }

  /** `T = 20`, `wbT = 15` and `max = 42` give 47. */
  lemma MagicExample(rt: Runtime)
    ensures Magic(Finite(15.0), Finite(20.0), Real(42.0), rt) == Finite(47.0)
  {
  }

  /** `wetbulbhuman`: a copy that raised raises; otherwise it assigns
      exactly when both raw fields and both parsed numbers are truthy, and
      then assigns `T + (max - wbT)`; the `max` it uses is the constructor's
      unless the source names a `max` field. */
  lemma WetBulbHumanSpec(c: Copy, view: View, rt: Runtime)
    requires !view.source.Missing?
    ensures var p := CopiedFrom(c.(props := c.props["temperature" := Bool(false)]["wetbulb" := Bool(false)]), view, ReadOnly, Rnd(view), rt);
      var base := Loaded(map["temperature" := Bool(false), "wetbulb" := Bool(false)], view, ReadOnly);
      var t, wb := Prop(base, "temperature"), Prop(base, "wetbulb");
      var o := WetBulbHumanStep(c, view, rt).0;
      && (o.Thrown? <==> p.threw)
      && (o.Computed? <==>
            !p.threw && Truthy(t) && Truthy(wb) && Truthy(Num(ParseFloat(wb, rt))) && Truthy(Num(ParseFloat(t, rt))))
      && (o.Computed? ==> o.n == Magic(ParseFloat(wb, rt), ParseFloat(t, rt), Prop(p.props, "max"), rt))
    ensures FieldTopic(Entries(view.source), "max").None? ==>
      Prop(Loaded(c.props["temperature" := Bool(false)]["wetbulb" := Bool(false)], view, ReadOnly), "max") == Prop(c.props, "max")
  {
    var reset := c.props["temperature" := Bool(false)]["wetbulb" := Bool(false)];
    var base := map["temperature" := Bool(false), "wetbulb" := Bool(false)];
    CopiedProps(c.(props := reset), Entries(view.source), view.values, ReadOnly, Rnd(view), rt);
    ResetFieldIgnoresHistory(reset, base, view, ReadOnly, "temperature");
    ResetFieldIgnoresHistory(reset, base, view, ReadOnly, "wetbulb");
    AssignedField(reset, Entries(view.source), view.values, ReadOnly, "max");
  }

  class Calculator {
    const kind: Kind
    /** `this.name`. */
    const name: string
    var props: map<string, Val>
    /** `_value`. */
    var value: Val

    function Model(): CalcModel
      reads this
    {
      CalcModel(kind, props, value)
    }

    /** `new Calculators[name](parent, options)`; `max` is `options.max`. */
    constructor(k: Kind, max: Val)
      ensures Model() == Fresh(k, max) && name == Name(k)
    {
      kind, name := k, Name(k);
      var initial := map["precision" := Real(4.0)];
      if k == WetBulbHuman {
        initial := initial["max" := Or(max, Real(42.0))];
      }
      props, value := initial, Undefined;
    }

    /** `calculate()`, with what the `value` setter published through the
        parent (`parent.publish(v)` for each handed `v`) returned. */
    method Calculate(view: View, rt: Runtime) returns (e: Effect)
      modifies this
      ensures (Model(), e) == Calculated(old(Model()), view, rt)
    {
      var c := Copy(props, value, [], false);
      var o: Outcome;
      match kind {
      case Average =>
        o := StrictAverageOf(view.source, view.values, rt);
      case MapTopic =>
        o := MapTopicOutcome(view, rt);
      case MoistAirDensity =>
        o, c := MoistAirDensityCalc(c, view, rt);
      case MoistAirVolume =>
        o, c := MoistAirVolumeCalc(c, view, rt);
      case WetBulb =>
        o, c := WetBulbCalc(c, view, rt);
      case WetBulbHuman =>
        o, c := WetBulbHumanCalc(c, view, rt);
      }
      if o.Computed? {
        c := Assign(c, Num(o.n), Rnd(view), rt);
      }
      props, value := c.props, c.value;
      e := Effect(c.handed, o.Thrown? || c.threw);
    }
  }

  /** The body of `moistairdensity`'s `calculate()`. */
  method MoistAirDensityCalc(c: Copy, view: View, rt: Runtime) returns (o: Outcome, r: Copy)
    ensures (o, r) == MoistAirDensityStep(c, view, rt)
  {
    r := c.(props := c.props["humidity" := Bool(false)]);
    if view.source.Missing? {
      return Thrown, r;
    }
    r := CopyFields(r, Entries(view.source), view.values, ReadOnly, Rnd(view), rt);
    if r.threw {
      return Thrown, r;
    }
    var h := Prop(r.props, "humidity");
    if !Truthy(h) {
      return Skipped, r;
    }
    o := Computed(Scale(ParseFloat(h, rt), 1000.0));
  }

  /** The body of `moistairvolume`'s `calculate()`. */
  method MoistAirVolumeCalc(c: Copy, view: View, rt: Runtime) returns (o: Outcome, r: Copy)
    ensures (o, r) == MoistAirVolumeStep(c, view, rt)
  {
    r := c.(props := c.props["temperature" := Bool(false)]["humidity" := Bool(false)]["pressure" := Bool(false)]);
    if view.source.Missing? {
      return Thrown, r;
    }
    r := CopyFields(r, Entries(view.source), view.values, ReadOnly, Rnd(view), rt);
    if r.threw {
      return Thrown, r;
    }
    var h, t, pr := Prop(r.props, "humidity"), Prop(r.props, "temperature"), Prop(r.props, "pressure");
    if !Truthy(h) || !Truthy(t) || !Truthy(pr) {
      return Skipped, r;
    }
    var tv, hv, pv := ParseFloat(t, rt), ParseFloat(h, rt), Scale(ParseFloat(pr, rt), 100.0);
    r := r.(props := r.props["temperature" := Num(tv)]["humidity" := Num(hv)]["pressure" := Num(pv)]);
    var v := AirVolumeOf(tv, hv, pv, rt);
    o := if v.Some? then Computed(v.value) else Thrown;
  }

  /** The body of `wetbulb`'s `calculate()`. */
  method WetBulbCalc(c: Copy, view: View, rt: Runtime) returns (o: Outcome, r: Copy)
    ensures (o, r) == WetBulbStep(c, view, rt)
  {
    r := c.(props := c.props["temperature" := Bool(false)]["humidity" := Bool(false)]["pressure" := Bool(false)]);
    if view.source.Missing? {
      return Thrown, r;
    }
    r := CopyFields(r, Entries(view.source), view.values, ReadOnly, Rnd(view), rt);
    if r.threw {
      return Thrown, r;
    }
    var h, t, pr := Prop(r.props, "humidity"), Prop(r.props, "temperature"), Prop(r.props, "pressure");
    if !Truthy(h) || !Truthy(t) || !Truthy(pr) {
      return Skipped, r;
    }
    var tv, hv, pv := ParseFloat(t, rt), Scale(ParseFloat(h, rt), 0.01), Scale(ParseFloat(pr, rt), 100.0);
    r := r.(props := r.props["temperature" := Num(tv)]["humidity" := Num(hv)]["pressure" := Num(pv)]);
    var w := WetBulbOf(tv, hv, pv, rt);
    o := if w.Some? then Computed(w.value) else Thrown;
  }

  /** The body of `wetbulbhuman`'s `calculate()`. */
  method WetBulbHumanCalc(c: Copy, view: View, rt: Runtime) returns (o: Outcome, r: Copy)
    ensures (o, r) == WetBulbHumanStep(c, view, rt)
  {
    r := c.(props := c.props["temperature" := Bool(false)]["wetbulb" := Bool(false)]);
    if view.source.Missing? {
      return Thrown, r;
    }
    r := CopyFields(r, Entries(view.source), view.values, ReadOnly, Rnd(view), rt);
    if r.threw {
      return Thrown, r;
    }
    var t, wb := Prop(r.props, "temperature"), Prop(r.props, "wetbulb");
    if !Truthy(t) || !Truthy(wb) {
      return Skipped, r;
    }
    var wbT, tv := ParseFloat(wb, rt), ParseFloat(t, rt);
    if !Truthy(Num(wbT)) || !Truthy(Num(tv)) {
      return Skipped, r;
    }
    o := Computed(Magic(wbT, tv, Prop(r.props, "max"), rt));
  }

  /** The `forEach` over the source list of the strict average. */
  method StrictAverageOf(source: Source, values: Dict<Val>, rt: Runtime) returns (o: Outcome)
    ensures o == StrictAverage(source, values, rt)
  {
    if !source.List? {
      return Thrown;
    }
    var items := source.items;
    var sum, count := 0.0, 0;
    for i := 0 to |items|
      invariant sum == ListedSum(items[..i], values, rt)
      invariant count == ListedCount(items[..i], values)
    {
      assert items[..i + 1][..i] == items[..i];
      if items[i] in values.keys {
        sum := sum + Contribution(Lookup(values, items[i]), rt);
        count := count + 1;
      }
    }
    assert items[..|items|] == items;
    if count != |items| {
      return Skipped;
    }
    if |items| == 0 {
      return Computed(NaN);
    }
    o := Computed(Finite(sum / |items| as real));
  }
}
