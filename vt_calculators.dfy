/** The calculators of derived topics (server/lib/VirtualTopic/Calculators):
    the base class's `value` setter, the four variants' `calculate`, and the
    name → class catalog. A calculator's `props` are the plain properties
    `calculate` writes on `this` (`temperature`, `humidity`, `pressure`,
    `contact` and whatever the field copy adds). */
module VirtualCalculators {
  import opened Js
  import opened Dict
  import opened Sources
  import opened CalcBase

  datatype Kind = Average | AbsoluteHumidity | DewPoint | MapTopic

  /** The `name` each class sets in its constructor. */
  function Name(k: Kind): string {
    match k
    case Average => "average"
    case AbsoluteHumidity => "absolutehumidity"
    case DewPoint => "dewpoint"
    case MapTopic => "maptopic"
  }

  /** `Calculators[name]`: the class exported under `name`, if any. */
  function Catalog(name: string): Option<Kind> {
    if name == "average" then Some(Average)
    else if name == "absolutehumidity" then Some(AbsoluteHumidity)
    else if name == "dewpoint" then Some(DewPoint)
    else if name == "maptopic" then Some(MapTopic)
    else None
  }

  /** Every class is found under its own `name`, and every name found is the
      `name` of the class it yields. */
  lemma CatalogNames(name: string, k: Kind)
    ensures Catalog(Name(k)) == Some(k)
    ensures Catalog(name).Some? ==> Name(Catalog(name).value) == name
  {
  }

  /** The accessors whose setters ignore writes. */
  const ReadOnly: set<string> := {"topic", "source", "values"}

  /** `parent.data.precision || 4`. */
  function Digits(view: View): Val {
    Or(Lookup(view.data, "precision"), Real(4.0))
  }

  /** Sum of `parseFloat(values[k]) || 0` over `keys`. */
  function Sum(keys: seq<string>, values: Dict<Val>, rt: Runtime): real
    decreases |keys|
  {
    if keys == [] then 0.0
    else Sum(keys[..|keys| - 1], values, rt) + Contribution(Lookup(values, keys[|keys| - 1]), rt)
  }

  /** The lenient average: every cached value counts, including values of
      topics the source no longer lists; nothing is assigned when there are
      none. */
  function AverageOutcome(values: Dict<Val>, rt: Runtime): Outcome {
    if |values.keys| == 0 then Skipped
    else Computed(Finite(Sum(values.keys, values, rt) / |values.keys| as real))
  }

  /** The setter's `toPrecision` argument: `parent.data.precision || 4`. */
  function Rnd(view: View): Rounding {
    Fallback(Lookup(view.data, "precision"), Real(4.0))
  }

  /** `absolutehumidity`: `temperature` and `humidity` are reset, but
      `pressure` is only ever overwritten, so it carries over between calls.
      `Object.keys(undefined)` raises. */
  function AbsoluteHumidityStep(c: Copy, view: View, rt: Runtime): (Outcome, Copy) {
    var reset := c.(props := c.props["temperature" := Bool(false)]["humidity" := Bool(false)]);
    if view.source.Missing? then (Thrown, reset)
    else
      var p := CopiedFrom(reset, view, ReadOnly, Rnd(view), rt);
      if p.threw then (Thrown, p)
      else
        var h, t, pr := Prop(p.props, "humidity"), Prop(p.props, "temperature"), Prop(p.props, "pressure");
        if !Truthy(h) || !Truthy(t) || !Truthy(pr) then (Skipped, p)
        else
          var tv, hv, pv := ParseFloat(t, rt), Scale(ParseFloat(h, rt), 0.01), Scale(ParseFloat(pr, rt), 100.0);
          var q := p.(props := p.props["temperature" := Num(tv)]["humidity" := Num(hv)]["pressure" := Num(pv)]);
          var w := HumRatioOf(tv, hv, pv, rt);
          (if w.Some? then Computed(Scale(w.value, 100.0)) else Thrown, q)
  }

  /** `dewpoint`: both inputs are reset for each call. */
  function DewPointStep(c: Copy, view: View, rt: Runtime): (Outcome, Copy) {
    var reset := c.(props := c.props["humidity" := Bool(false)]["temperature" := Bool(false)]);
    if view.source.Missing? then (Thrown, reset)
    else
      var p := CopiedFrom(reset, view, ReadOnly, Rnd(view), rt);
      if p.threw then (Thrown, p)
      else
        var h, t := Prop(p.props, "humidity"), Prop(p.props, "temperature");
        if !Truthy(h) || !Truthy(t) then (Skipped, p)
        else
          var tv, hv := ParseFloat(t, rt), Scale(ParseFloat(h, rt), 0.01);
          var q := p.(props := p.props["temperature" := Num(tv)]["humidity" := Num(hv)]);
          var d := DewPointOf(tv, hv, rt);
          (if d.Some? then Computed(d.value) else Thrown, q)
  }

  /** `maptopic`: the contact is 1 exactly when the cached value of
      `String(source)` is the string 'true'. */
  function Contact(view: View): real {
    if Lookup(view.values, KeyText(view.source)) == Str("true") then 1.0 else 0.0
  }

  /** One `calculate()` body: the number it assigns (if any) and the state
      before that assignment. */
  function Step(k: Kind, c: Copy, view: View, rt: Runtime): (Outcome, Copy) {
    match k
    case Average => (AverageOutcome(view.values, rt), c)
    case AbsoluteHumidity => AbsoluteHumidityStep(c, view, rt)
    case DewPoint => DewPointStep(c, view, rt)
    case MapTopic => (Computed(Finite(Contact(view))), c.(props := c.props["contact" := Real(Contact(view))]))
  }

  /** A calculator's state: its class, its plain properties and `_value`. */
  datatype CalcModel = CalcModel(kind: Kind, props: map<string, Val>, value: Val)

  /** A calculator just constructed. */
  function Fresh(k: Kind): CalcModel {
    CalcModel(k, map[], Undefined)
  }

  /** The state a `calculate()` starts from. */
  function Start(c: CalcModel): Copy {
    Copy(c.props, c.value, [], false)
  }

  /** One `calculate()` including the `value` setter: a number is stored as
      `toPrecision(parent.data.precision || 4)` and every stored value is
      elevated to the parent. */
  function Calculated(c: CalcModel, view: View, rt: Runtime): (CalcModel, Effect) {
    var (o, p) := Step(c.kind, Start(c), view, rt);
    var fin := if o.Computed? then Assign(p, Num(o.n), Rnd(view), rt) else p;
    (c.(props := fin.props, value := fin.value), Effect(fin.handed, o.Thrown? || fin.threw))
  }

  class Calculator {
    const kind: Kind
    /** `this.name`. */
    const name: string
    var props: map<string, Val>
    /** `_value`. */
    var value: Val

    function Model(): CalcModel
      reads this
    {
      CalcModel(kind, props, value)
    }

    constructor(k: Kind)
      ensures Model() == Fresh(k) && name == Name(k)
    {
      kind, name := k, Name(k);
      props, value := map[], Undefined;
    }

    /** `calculate()`, with what the `value` setter elevated to the parent
        (`parent.value = v` for each handed `v`) returned. */
    method Calculate(view: View, rt: Runtime) returns (e: Effect)
      modifies this
      ensures (Model(), e) == Calculated(old(Model()), view, rt)
    {
      var c := Copy(props, value, [], false);
      var o: Outcome;
      match kind {
      case Average =>
        o := AverageOf(view.values, rt);
      case AbsoluteHumidity =>
        o, c := AbsoluteHumidityCalc(c, view, rt);
      case DewPoint =>
        o, c := DewPointCalc(c, view, rt);
      case MapTopic =>
        var contact := if Lookup(view.values, KeyText(view.source)) == Str("true") then 1.0 else 0.0;
        c := c.(props := c.props["contact" := Real(contact)]);
        o := Computed(Finite(contact));
      }
      if o.Computed? {
        c := Assign(c, Num(o.n), Rnd(view), rt);
      }
      props, value := c.props, c.value;
      e := Effect(c.handed, o.Thrown? || c.threw);
    }
  }

  /** The body of `absolutehumidity`'s `calculate()`. */
  method AbsoluteHumidityCalc(c: Copy, view: View, rt: Runtime) returns (o: Outcome, r: Copy)
    ensures (o, r) == AbsoluteHumidityStep(c, view, rt)
  {
    r := c.(props := c.props["temperature" := Bool(false)]);
    r := r.(props := r.props["humidity" := Bool(false)]);
    if view.source.Missing? {
      return Thrown, r;
    }
    r := CopyFields(r, Entries(view.source), view.values, ReadOnly, Rnd(view), rt);
    if r.threw {
      return Thrown, r;
    }
    var h, t, pr := Prop(r.props, "humidity"), Prop(r.props, "temperature"), Prop(r.props, "pressure");
    if !Truthy(h) || !Truthy(t) || !Truthy(pr) {
      return Skipped, r;
    }
    var tv, hv, pv := ParseFloat(t, rt), Scale(ParseFloat(h, rt), 0.01), Scale(ParseFloat(pr, rt), 100.0);
    r := r.(props := r.props["temperature" := Num(tv)]);
    r := r.(props := r.props["humidity" := Num(hv)]);
    r := r.(props := r.props["pressure" := Num(pv)]);
    var w := HumRatioOf(tv, hv, pv, rt);
    o := if w.Some? then Computed(Scale(w.value, 100.0)) else Thrown;
  }

  /** The body of `dewpoint`'s `calculate()`. */
  method DewPointCalc(c: Copy, view: View, rt: Runtime) returns (o: Outcome, r: Copy)
    ensures (o, r) == DewPointStep(c, view, rt)
  {
    r := c.(props := c.props["humidity" := Bool(false)]);
    r := r.(props := r.props["temperature" := Bool(false)]);
    if view.source.Missing? {
      return Thrown, r;
    }
    r := CopyFields(r, Entries(view.source), view.values, ReadOnly, Rnd(view), rt);
    if r.threw {
      return Thrown, r;
    }
    var h, t := Prop(r.props, "humidity"), Prop(r.props, "temperature");
    if !Truthy(h) || !Truthy(t) {
      return Skipped, r;
    }
    var tv, hv := ParseFloat(t, rt), Scale(ParseFloat(h, rt), 0.01);
    r := r.(props := r.props["temperature" := Num(tv)]);
    r := r.(props := r.props["humidity" := Num(hv)]);
    var d := DewPointOf(tv, hv, rt);
    o := if d.Some? then Computed(d.value) else Thrown;
  }

  /** The `forEach` over `Object.keys(this.values)` of the lenient average. */
  method AverageOf(values: Dict<Val>, rt: Runtime) returns (o: Outcome)
    ensures o == AverageOutcome(values, rt)
  {
    var sum, count := 0.0, 0;
    while count < |values.keys|
      invariant 0 <= count <= |values.keys|
      invariant sum == Sum(values.keys[..count], values, rt)
    {
      assert values.keys[..count + 1][..count] == values.keys[..count];
      sum := sum + Contribution(Lookup(values, values.keys[count]), rt);
      count := count + 1;
    }
    assert values.keys[..count] == values.keys;
    if count == 0 {
      return Skipped;
    }
    o := Computed(Finite(sum / count as real));
  }

  /** Bounds on every contribution bound the sum. */
  lemma {:induction false} SumBounds(keys: seq<string>, values: Dict<Val>, rt: Runtime, lo: real, hi: real)
    requires forall i :: 0 <= i < |keys| ==> lo <= Contribution(Lookup(values, keys[i]), rt) <= hi
    ensures lo * |keys| as real <= Sum(keys, values, rt) <= hi * |keys| as real
    decreases |keys|
  {
    if keys != [] {
      var init := keys[..|keys| - 1];
      assert forall i :: 0 <= i < |init| ==> init[i] == keys[i];
      SumBounds(init, values, rt, lo, hi);
      assert lo <= Contribution(Lookup(values, keys[|keys| - 1]), rt) <= hi;
      assert lo * |keys| as real == lo * |init| as real + lo;
      assert hi * |keys| as real == hi * |init| as real + hi;
    }
  }

  /** Dividing bounds on a sum by the (positive) count bounds the mean. */
  lemma MeanBounds(lo: real, hi: real, s: real, n: real)
    requires n > 0.0 && lo * n <= s <= hi * n
    ensures lo <= s / n <= hi
  {
    var a := s / n;
    assert a * n == s;
    assert (a - lo) * n >= 0.0;
    assert (hi - a) * n >= 0.0;
  }

  /** The lenient average lies between the least and the greatest
      contribution, and is assigned exactly when some value is cached. */
  lemma AverageBetween(values: Dict<Val>, rt: Runtime, lo: real, hi: real)
    requires forall i :: 0 <= i < |values.keys| ==> lo <= Contribution(Lookup(values, values.keys[i]), rt) <= hi
    ensures AverageOutcome(values, rt).Computed? <==> |values.keys| > 0
    ensures AverageOutcome(values, rt).Computed? ==>
      AverageOutcome(values, rt).n.Finite? && lo <= AverageOutcome(values, rt).n.r <= hi
  {
    if |values.keys| > 0 {
      SumBounds(values.keys, values, rt, lo, hi);
      var n := |values.keys| as real;
      var s := Sum(values.keys, values, rt);
      MeanBounds(lo, hi, s, n);
    }
  }

  /** `dewpoint`: a copy that raised raises; otherwise it assigns exactly
      when both inputs are truthy and `GetTDewPointFromRelHum` of the
      temperature and the humidity scaled from percent returns, and raises
      when that function does, which it does for a humidity outside 0..100 %
      or one that is not a number. The inputs do not depend on what the
      calculator held before. */
  lemma DewPointGate(c: Copy, view: View, rt: Runtime)
    requires !view.source.Missing?
    ensures var p := CopiedFrom(c.(props := c.props["humidity" := Bool(false)]["temperature" := Bool(false)]), view, ReadOnly, Rnd(view), rt);
      var h, t := Prop(p.props, "humidity"), Prop(p.props, "temperature");
      var d := DewPointOf(ParseFloat(t, rt), Scale(ParseFloat(h, rt), 0.01), rt);
      var o := DewPointStep(c, view, rt).0;
      && (o.Computed? <==> !p.threw && Truthy(h) && Truthy(t) && d.Some?)
      && (o.Computed? ==> Some(o.n) == d)
      && (o.Thrown? <==> p.threw || (Truthy(h) && Truthy(t) && d.None?))
      && (!p.threw && Truthy(h) && Truthy(t) && !InUnitRange(Scale(ParseFloat(h, rt), 0.01)) ==> o.Thrown?)
      && (!p.threw ==>
            var base := Loaded(map["humidity" := Bool(false), "temperature" := Bool(false)], view, ReadOnly);
            h == Prop(base, "humidity") && t == Prop(base, "temperature"))
  {
    var reset := c.(props := c.props["humidity" := Bool(false)]["temperature" := Bool(false)]);
    var base := map["humidity" := Bool(false), "temperature" := Bool(false)];
    CopiedProps(reset, Entries(view.source), view.values, ReadOnly, Rnd(view), rt);
    ResetFieldIgnoresHistory(reset.props, base, view, ReadOnly, "humidity");
    ResetFieldIgnoresHistory(reset.props, base, view, ReadOnly, "temperature");
  }

  /** `absolutehumidity` reads `pressure` from the source when the source has
      such a field; otherwise it sees whatever an earlier call left there, so
      a calculator that never had a pressure never assigns. */
  lemma AbsoluteHumidityPressure(c: Copy, view: View, rt: Runtime)
    requires !view.source.Missing?
    ensures FieldTopic(Entries(view.source), "pressure").None? && !Truthy(Prop(c.props, "pressure")) ==>
      !AbsoluteHumidityStep(c, view, rt).0.Computed?
    ensures FieldTopic(Entries(view.source), "pressure").Some? && !AbsoluteHumidityStep(c, view, rt).1.threw ==>
      Prop(AbsoluteHumidityStep(c, view, rt).1.props, "pressure") ==
        var pr := Lookup(view.values, FieldTopic(Entries(view.source), "pressure").value);
        if AbsoluteHumidityStep(c, view, rt).0.Skipped? then pr else Num(Scale(ParseFloat(pr, rt), 100.0))
  {
    var reset := c.(props := c.props["temperature" := Bool(false)]["humidity" := Bool(false)]);
    CopiedProps(reset, Entries(view.source), view.values, ReadOnly, Rnd(view), rt);
    AssignedField(reset.props, Entries(view.source), view.values, ReadOnly, "pressure");
  }

  /** `absolutehumidity`: a copy that raised raises; otherwise it assigns
      exactly when all three inputs are truthy and `GetHumRatioFromRelHum`
      returns, and then assigns the humidity ratio times 100, from the
      temperature, the humidity scaled from percent and the pressure scaled
      from kPa. A humidity above 100 % or one that is not a number raises. */
  lemma AbsoluteHumidityGate(c: Copy, view: View, rt: Runtime)
    requires !view.source.Missing?
    ensures var p := CopiedFrom(c.(props := c.props["temperature" := Bool(false)]["humidity" := Bool(false)]), view, ReadOnly, Rnd(view), rt);
      var h, t, pr := Prop(p.props, "humidity"), Prop(p.props, "temperature"), Prop(p.props, "pressure");
      var w := HumRatioOf(ParseFloat(t, rt), Scale(ParseFloat(h, rt), 0.01), Scale(ParseFloat(pr, rt), 100.0), rt);
      var o := AbsoluteHumidityStep(c, view, rt).0;
      && (o.Computed? <==> !p.threw && Truthy(h) && Truthy(t) && Truthy(pr) && w.Some?)
      && (o.Computed? ==> o.n == Scale(w.value, 100.0))
      && (o.Thrown? <==> p.threw || (Truthy(h) && Truthy(t) && Truthy(pr) && w.None?))
      && (!p.threw && Truthy(h) && Truthy(t) && Truthy(pr) && !InUnitRange(Scale(ParseFloat(h, rt), 0.01)) ==> o.Thrown?)
  {
  }

  /** `maptopic` always assigns, and assigns 1 exactly for the cached string
      'true' and 0 for anything else, a missing value included. */
  lemma MapTopicBinary(c: Copy, view: View, rt: Runtime)
    ensures Step(MapTopic, c, view, rt).0.Computed?
    ensures Step(MapTopic, c, view, rt).0.n == Finite(1.0) <==> Lookup(view.values, KeyText(view.source)) == Str("true")
    ensures Step(MapTopic, c, view, rt).0.n == Finite(0.0) <==> Lookup(view.values, KeyText(view.source)) != Str("true")
  {
  }

  /** A `calculate()` elevates what the field copy handed on and then, when
      the body assigned a number, that number rounded to
      `parent.data.precision || 4`, which is the new `_value`; rounding raises
      exactly for a finite number and a precision `toPrecision` refuses. A
      body that assigned nothing elevates nothing more. Only the
      field-driven classes copy or raise, and they raise on an undefined
      source. */
  lemma CalculatedElevates(c: CalcModel, view: View, rt: Runtime)
    ensures var (o, p) := Step(c.kind, Start(c), view, rt);
      var (c2, e) := Calculated(c, view, rt);
      && |p.handed| <= |e.handed| && e.handed[..|p.handed|] == p.handed
      && (o.Computed? ==> (e.threw <==> p.threw || (o.n.Finite? && !PrecisionOk(Digits(view), rt))))
      && (o.Computed? && !e.threw ==>
            |e.handed| == |p.handed| + 1 && e.handed[|p.handed|] == c2.value == Str(Rounded(o.n, Digits(view), rt).value))
      && (!o.Computed? ==> e.handed == p.handed && c2.value == p.value && (e.threw <==> o.Thrown?))
      && (c.kind in {Average, MapTopic} ==> p.handed == [] && !p.threw && !o.Thrown?)
      && (c.kind in {AbsoluteHumidity, DewPoint} && view.source.Missing? ==> e.threw && e.handed == [])
  {
    var (o, p) := Step(c.kind, Start(c), view, rt);
    assert !Digits(view).Undefined?;
    if c.kind in {AbsoluteHumidity, DewPoint} && !view.source.Missing? {
      var reset := if c.kind == AbsoluteHumidity then Start(c).(props := c.props["temperature" := Bool(false)]["humidity" := Bool(false)])
        else Start(c).(props := c.props["humidity" := Bool(false)]["temperature" := Bool(false)]);
      CopiedProps(reset, Entries(view.source), view.values, ReadOnly, Rnd(view), rt);
    }
  }
}
