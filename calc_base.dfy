/** What the two calculator base classes share: the part of the parent a
    calculator reads through its accessors, the `value` setter, the field
    copy `Object.keys(this.source).forEach(f => this[f] = this.values[this.source[f]])`
    that the field-driven variants start with, the argument checks of the
    psychrometric functions they call, and the outcome of one `calculate()`
    call. */
module CalcBase {
  import opened Js
  import opened Dict
  import opened Sources

  /** What a calculator sees of its parent: `parent.data`, `parent.source.data`
      (the `source` getter) and `parent.source.values` (the `values` getter). */
  datatype View = View(data: Dict<Val>, source: Source, values: Dict<Val>)

  /** The number a `calculate()` body assigns to `value`, before the setter
      rounds it; `Skipped` when it returned without assigning; `Thrown` when
      it raised. */
  datatype Outcome = Thrown | Skipped | Computed(n: Number)

  /** What one `calculate()` handed on through the `value` setter (to the
      parent's `value`, or to `publish`), in order, and whether it raised. */
  datatype Effect = Effect(handed: seq<Val>, threw: bool)

  // ---------------------------------------------------------------------
  // The `value` setter

  /** Where the setter's `toPrecision` argument comes from: the parent's
      `data.precision`, else a fixed fallback (derived topics) or the
      calculator's own `precision` property at the time of the write
      (raw-topic calculators). */
  datatype Rounding = Fallback(parent: Val, fallback: Val) | Own(parent: Val)

  function DigitsAt(r: Rounding, props: map<string, Val>): Val {
    match r
    case Fallback(parent, fallback) => Or(parent, fallback)
    case Own(parent) => Or(parent, Prop(props, "precision"))
  }

  /** What the setter stores: a number as `toPrecision(digits)`, None when that
      raises; any other value as it is. */
  function SetterStores(v: Val, digits: Val, rt: Runtime): (r: Option<Val>)
    ensures !v.Num? ==> r == Some(v)
    ensures v.Num? ==> (r.None? <==> Rounded(v.n, digits, rt).None?)
    ensures v.Num? && r.Some? ==> r.value == Str(Rounded(v.n, digits, rt).value)
  {
    if v.Num? then
      var s := Rounded(v.n, digits, rt);
      if s.Some? then Some(Str(s.value)) else None
    else Some(v)
  }

  /** A calculator's state during one `calculate()`: its plain properties,
      `_value`, what the setter has handed on so far, and whether something
      raised. */
  datatype Copy = Copy(props: map<string, Val>, value: Val, handed: seq<Val>, threw: bool)

  /** `this.value = v`: the setter stores `v` and hands the stored value on,
      or raises in `toPrecision`. */
  function Assign(c: Copy, v: Val, r: Rounding, rt: Runtime): Copy {
    var s := SetterStores(v, DigitsAt(r, c.props), rt);
    if s.None? then c.(threw := true) else c.(value := s.value, handed := c.handed + [s.value])
  }

  // ---------------------------------------------------------------------
  // The field copy

  /** The plain properties the field copy writes: every `[f, topic]` entry, in
      order, writes `values[topic]` into the property `f`. Names in
      `readOnly` have setters that ignore the write, and `value` goes to the
      `value` setter instead (see `Copied`). */
  function Assigned(props: map<string, Val>, entries: seq<(string, string)>, values: Dict<Val>, readOnly: set<string>): map<string, Val>
    decreases |entries|
  {
    if entries == [] then props
    else
      var before := Assigned(props, entries[..|entries| - 1], values, readOnly);
      var entry := entries[|entries| - 1];
      if entry.0 in readOnly || entry.0 == "value" then before else before[entry.0 := Lookup(values, entry.1)]
  }

  /** After the copy a writable property holds the value of the topic its
      last entry names, or its old value when no entry names it; a read-only
      name and `value` keep their old plain property. */
  lemma {:induction false} AssignedField(props: map<string, Val>, entries: seq<(string, string)>, values: Dict<Val>, readOnly: set<string>, f: string)
    ensures f in readOnly || f == "value" ==> Prop(Assigned(props, entries, values, readOnly), f) == Prop(props, f)
    ensures f !in readOnly && f != "value" && FieldTopic(entries, f).Some? ==>
      Prop(Assigned(props, entries, values, readOnly), f) == Lookup(values, FieldTopic(entries, f).value)
    ensures f !in readOnly && FieldTopic(entries, f).None? ==>
      Prop(Assigned(props, entries, values, readOnly), f) == Prop(props, f)
    decreases |entries|
  {
    if entries != [] {
      AssignedField(props, entries[..|entries| - 1], values, readOnly, f);
    }
  }

  /** The copy touches no property outside the entries' names. */
  lemma {:induction false} AssignedKeys(props: map<string, Val>, entries: seq<(string, string)>, values: Dict<Val>, readOnly: set<string>, f: string)
    requires forall i :: 0 <= i < |entries| ==> entries[i].0 != f
    ensures Prop(Assigned(props, entries, values, readOnly), f) == Prop(props, f)
    decreases |entries|
  {
    if entries != [] {
      AssignedKeys(props, entries[..|entries| - 1], values, readOnly, f);
    }
  }

  /** One entry of the `forEach`: nothing after a raise; a read-only name is
      ignored; `value` goes through the setter; any other name is a plain
      property. */
  function CopyEntry(c: Copy, entry: (string, string), values: Dict<Val>, readOnly: set<string>, r: Rounding, rt: Runtime): Copy {
    if c.threw || entry.0 in readOnly then c
    else if entry.0 == "value" then Assign(c, Lookup(values, entry.1), r, rt)
    else c.(props := c.props[entry.0 := Lookup(values, entry.1)])
  }

  /** The whole field copy, the setter included. */
  function Copied(start: Copy, entries: seq<(string, string)>, values: Dict<Val>, readOnly: set<string>, r: Rounding, rt: Runtime): Copy
    decreases |entries|
  {
    if entries == [] then start
    else CopyEntry(Copied(start, entries[..|entries| - 1], values, readOnly, r, rt), entries[|entries| - 1], values, readOnly, r, rt)
  }

  /** A copy that did not raise wrote exactly the plain properties of
      `Assigned`; the setter only ever adds to what was handed on; and a raise
      needs a copied `value` that is a number. */
  lemma {:induction false} CopiedProps(start: Copy, entries: seq<(string, string)>, values: Dict<Val>, readOnly: set<string>, r: Rounding, rt: Runtime)
    ensures var c := Copied(start, entries, values, readOnly, r, rt);
      && (!c.threw ==> c.props == Assigned(start.props, entries, values, readOnly))
      && |start.handed| <= |c.handed| && c.handed[..|start.handed|] == start.handed
      && (start.threw ==> c == start)
      && (c.threw && !start.threw ==> exists i :: 0 <= i < |entries| && entries[i].0 == "value" && Lookup(values, entries[i].1).Num?)
    decreases |entries|
  {
    if entries != [] {
      var init := entries[..|entries| - 1];
      CopiedProps(start, init, values, readOnly, r, rt);
      var before := Copied(start, init, values, readOnly, r, rt);
      var c := Copied(start, entries, values, readOnly, r, rt);
      assert c == CopyEntry(before, entries[|entries| - 1], values, readOnly, r, rt);
      if c.threw && !start.threw && !before.threw {
        assert entries[|entries| - 1].0 == "value" && Lookup(values, entries[|entries| - 1].1).Num?;
      }
      if c.threw && !start.threw && before.threw {
        var i :| 0 <= i < |init| && init[i].0 == "value" && Lookup(values, init[i].1).Num?;
        assert entries[i] == init[i];
      }
    }
  }

  /** The setter's part of the copy: without a `value` field it is never
      called; a copied `value` that is not a number is stored unchanged and
      handed on, as is one rounded with a fixed fallback. */
  lemma {:induction false} CopiedValue(start: Copy, entries: seq<(string, string)>, values: Dict<Val>, readOnly: set<string>, r: Rounding, rt: Runtime)
    requires "value" !in readOnly
    ensures var c := Copied(start, entries, values, readOnly, r, rt);
      && (FieldTopic(entries, "value").None? ==> c.value == start.value && c.handed == start.handed && c.threw == start.threw)
      && (!c.threw && FieldTopic(entries, "value").Some? ==>
            var v := Lookup(values, FieldTopic(entries, "value").value);
            && (!v.Num? || r.Fallback? ==> Some(c.value) == SetterStores(v, DigitsAt(r, start.props), rt))
            && |c.handed| > |start.handed| && c.handed[|c.handed| - 1] == c.value)
    decreases |entries|
  {
    if entries != [] {
      var init := entries[..|entries| - 1];
      CopiedValue(start, init, values, readOnly, r, rt);
      CopiedProps(start, init, values, readOnly, r, rt);
      var before := Copied(start, init, values, readOnly, r, rt);
      var c := Copied(start, entries, values, readOnly, r, rt);
      var last := entries[|entries| - 1];
      assert c == CopyEntry(before, last, values, readOnly, r, rt);
      if last.0 != "value" {
        assert FieldTopic(entries, "value") == FieldTopic(init, "value");
        if last.0 !in readOnly && !before.threw {
          assert c.value == before.value && c.handed == before.handed;
        }
      } else if !c.threw {
        assert FieldTopic(entries, "value") == Some(last.1);
        assert r.Fallback? ==> DigitsAt(r, before.props) == DigitsAt(r, start.props);
      }
    }
  }

  /** Once an entry raised, the rest of the `forEach` does not run: the copy
      of the whole list is the copy of that prefix. */
  lemma {:induction false} CopiedStops(start: Copy, entries: seq<(string, string)>, values: Dict<Val>, readOnly: set<string>, r: Rounding, rt: Runtime, n: nat)
    requires n <= |entries| && Copied(start, entries[..n], values, readOnly, r, rt).threw
    ensures Copied(start, entries, values, readOnly, r, rt) == Copied(start, entries[..n], values, readOnly, r, rt)
    decreases |entries| - n
  {
    if n < |entries| {
      assert entries[..n + 1][..n] == entries[..n];
      CopiedStops(start, entries, values, readOnly, r, rt, n + 1);
    } else {
      assert entries[..n] == entries;
    }
  }

  /** The `forEach` of the field copy, which a raise ends. */
  method CopyFields(start: Copy, entries: seq<(string, string)>, values: Dict<Val>, readOnly: set<string>, r: Rounding, rt: Runtime) returns (c: Copy)
    ensures c == Copied(start, entries, values, readOnly, r, rt)
  {
    c := start;
    var i := 0;
    while i < |entries| && !c.threw
      invariant 0 <= i <= |entries|
      invariant c == Copied(start, entries[..i], values, readOnly, r, rt)
    {
      assert entries[..i + 1][..i] == entries[..i];
      var entry := entries[i];
      if entry.0 !in readOnly {
        if entry.0 == "value" {
          c := Assign(c, Lookup(values, entry.1), r, rt);
        } else {
          c := c.(props := c.props[entry.0 := Lookup(values, entry.1)]);
        }
      }
      i := i + 1;
    }
    if i < |entries| {
      CopiedStops(start, entries, values, readOnly, r, rt, i);
    } else {
      assert entries[..i] == entries;
    }
  }

  /** The plain properties after the field copy from the parent's source. */
  function Loaded(props: map<string, Val>, view: View, readOnly: set<string>): map<string, Val> {
    Assigned(props, Entries(view.source), view.values, readOnly)
  }

  /** The field copy from the parent's source, the setter included. */
  function CopiedFrom(start: Copy, view: View, readOnly: set<string>, r: Rounding, rt: Runtime): Copy {
    Copied(start, Entries(view.source), view.values, readOnly, r, rt)
  }

  /** A property the calculator resets before copying does not depend on the
      value it held before: it is either copied from `values` or `false`. */
  lemma ResetFieldIgnoresHistory(p1: map<string, Val>, p2: map<string, Val>, view: View, readOnly: set<string>, f: string)
    requires Prop(p1, f) == Bool(false) && Prop(p2, f) == Bool(false)
    ensures Prop(Loaded(p1, view, readOnly), f) == Prop(Loaded(p2, view, readOnly), f)
  {
    AssignedField(p1, Entries(view.source), view.values, readOnly, f);
    AssignedField(p2, Entries(view.source), view.values, readOnly, f);
  }

  // ---------------------------------------------------------------------
  // The argument checks of the psychrometric functions
  // (server/lib/VirtualTopic/Psychrometrics.js); past its check each
  // function is a foreign formula of `Runtime`.

  /** `RelHum >= 0 && RelHum <= 1`, which NaN fails. */
  predicate InUnitRange(x: Number) {
    x.Finite? && 0.0 <= x.r <= 1.0
  }

  /** `HumRatio >= 0`, which NaN fails. */
  predicate NonNegative(x: Number) {
    x.Finite? && 0.0 <= x.r
  }

  /** `GetTWetBulbFromRelHum`. */
  function WetBulbOf(t: Number, rh: Number, p: Number, rt: Runtime): Option<Number> {
    if !InUnitRange(rh) then None else rt.tWetBulbFromRelHum(t, rh, p)
  }

  /** `GetTDewPointFromRelHum`. */
  function DewPointOf(t: Number, rh: Number, rt: Runtime): Option<Number> {
    if !InUnitRange(rh) then None else rt.tDewPointFromRelHum(t, rh)
  }

  /** `GetHumRatioFromRelHum`. */
  function HumRatioOf(t: Number, rh: Number, p: Number, rt: Runtime): Option<Number> {
    if !InUnitRange(rh) then None else rt.humRatioFromRelHum(t, rh, p)
  }

  /** `GetMoistAirVolume`. */
  function AirVolumeOf(t: Number, w: Number, p: Number, rt: Runtime): Option<Number> {
    if !NonNegative(w) then None else rt.moistAirVolume(t, w, p)
  }

  /** A relative humidity outside [0, 1], or NaN, makes the three functions
      that take one raise; a negative or NaN humidity ratio makes
      `GetMoistAirVolume` raise; within range each is its formula. */
  lemma PsychrometricChecks(t: Number, x: Number, p: Number, rt: Runtime)
    ensures !InUnitRange(x) ==> WetBulbOf(t, x, p, rt).None? && DewPointOf(t, x, rt).None? && HumRatioOf(t, x, p, rt).None?
    ensures !NonNegative(x) ==> AirVolumeOf(t, x, p, rt).None?
    ensures x.NaN? ==> !InUnitRange(x) && !NonNegative(x)
    ensures InUnitRange(x) ==>
      && WetBulbOf(t, x, p, rt) == rt.tWetBulbFromRelHum(t, x, p)
      && DewPointOf(t, x, rt) == rt.tDewPointFromRelHum(t, x)
      && HumRatioOf(t, x, p, rt) == rt.humRatioFromRelHum(t, x, p)
    ensures NonNegative(x) ==> AirVolumeOf(t, x, p, rt) == rt.moistAirVolume(t, x, p)
  {
  }
}
