/** A derived topic (server/lib/VirtualTopic/Topic.js): its `data` object,
    its one source binding, its calculator, and its `value`, whose setter
    publishes. The events `source-update` and the `value` setter's publish
    are explicit calls here; publishes are returned in order as
    `Publish(topic, payload)` records of `APP.MQTT.publish`. */
module VirtualTopic {
  import opened Js
  import opened Dict
  import opened Sources
  import opened CalcBase
  import opened VirtualCalculators
  import opened VirtualTopicSource

  /** One `APP.MQTT.publish(topic, payload)`. */
  datatype Publish = Publish(topic: Val, payload: string)

  /** A declaration: its keys other than `source` and `calculator`, in
      order, then those two. */
  datatype Decl = Decl(fields: Dict<Val>, source: Source, calculator: Val)

  /** The functions `update` stores as `data.source` and `data.calculator`. */
  const SourceThunk: Val := Fn("() => this.source.data")
  const CalculatorThunk: Val := Fn("() => this.calculator.name")

  /** `md5(String(options.topic))` in hex. */
  function Hash(decl: Decl, rt: Runtime): Val {
    Str(rt.md5Hex(ToString(Lookup(decl.fields, "topic"), rt)))
  }

  /** `Object.keys(options).forEach(key => this.data[key] = options[key])`. */
  function PutAll(d: Dict<Val>, keys: seq<string>, m: map<string, Val>): Dict<Val>
    decreases |keys|
  {
    if keys == [] then d
    else PutAll(d, keys[..|keys| - 1], m).Put(keys[|keys| - 1], Prop(m, keys[|keys| - 1]))
  }

  /** After the copy each copied key holds its declared value; every other
      key keeps its value. */
  lemma {:induction false} PutAllSpec(d: Dict<Val>, keys: seq<string>, m: map<string, Val>, k: string)
    ensures k in KeySet(keys) ==> Lookup(PutAll(d, keys, m), k) == Prop(m, k)
    ensures k !in KeySet(keys) ==> Lookup(PutAll(d, keys, m), k) == Lookup(d, k)
    decreases |keys|
  {
    if keys != [] {
      PutAllSpec(d, keys[..|keys| - 1], m, k);
    }
  }

  /** The `data` part of `update`: the hash, the declared keys, then the two
      functions. */
  function WithOptions(d: Dict<Val>, decl: Decl, rt: Runtime): Dict<Val> {
    PutAll(d.Put("hash", Hash(decl, rt)), decl.fields.keys, decl.fields.m).Put("source", SourceThunk).Put("calculator", CalculatorThunk)
  }

  /** `update` copies every declared key other than `source` and
      `calculator`, sets `hash` unless the declaration names it, and leaves
      every other key alone. */
  lemma OptionsCopied(d: Dict<Val>, decl: Decl, rt: Runtime, k: string)
    requires decl.fields.Wf() && k != "source" && k != "calculator"
    ensures k in decl.fields.m ==> Lookup(WithOptions(d, decl, rt), k) == decl.fields.m[k]
    ensures k !in decl.fields.m && k != "hash" ==> Lookup(WithOptions(d, decl, rt), k) == Lookup(d, k)
    ensures k !in decl.fields.m && k == "hash" ==> Lookup(WithOptions(d, decl, rt), k) == Hash(decl, rt)
  {
    var hashed := d.Put("hash", Hash(decl, rt));
    var copied := PutAll(hashed, decl.fields.keys, decl.fields.m);
    PutAllSpec(hashed, decl.fields.keys, decl.fields.m, k);
    assert WithOptions(d, decl, rt).m == copied.m["source" := SourceThunk]["calculator" := CalculatorThunk];
  }

  /** After `update`, `data.source` and `data.calculator` are the two functions. */
  lemma ThunksStored(d: Dict<Val>, decl: Decl, rt: Runtime)
    ensures Lookup(WithOptions(d, decl, rt), "source") == SourceThunk
    ensures Lookup(WithOptions(d, decl, rt), "calculator") == CalculatorThunk
  {
    var copied := PutAll(d.Put("hash", Hash(decl, rt)), decl.fields.keys, decl.fields.m);
    assert "source" != "calculator";
  }

  /** The `calculator` setter: an unknown name changes nothing; without a
      calculator, or with one of a different `name`, a fresh instance of
      the named class is made; the same name keeps the instance (its
      `update` is inherited from a base class this model does not include,
      and is taken to change nothing here). */
  function WithCalculator(c: Option<CalcModel>, name: Val, rt: Runtime): Option<CalcModel> {
    var k := Catalog(ToString(name, rt));
    if k.None? then c
    else if c.None? || Str(Name(c.value.kind)) != name then Some(Fresh(k.value))
    else c
  }

  lemma CalculatorCases(c: Option<CalcModel>, name: Val, rt: Runtime)
    ensures Catalog(ToString(name, rt)).None? ==> WithCalculator(c, name, rt) == c
    ensures Catalog(ToString(name, rt)).Some? && c.None? ==> WithCalculator(c, name, rt) == Some(Fresh(Catalog(ToString(name, rt)).value))
    ensures Catalog(ToString(name, rt)).Some? && c.Some? && Str(Name(c.value.kind)) != name ==>
      WithCalculator(c, name, rt) == Some(Fresh(Catalog(ToString(name, rt)).value))
    ensures c.Some? && Str(Name(c.value.kind)) == name ==> WithCalculator(c, name, rt) == c
  {
    if c.Some? && Str(Name(c.value.kind)) == name {
      CatalogNames(Name(c.value.kind), c.value.kind);
    }
  }

  /** A topic's state: `data`, the source binding, the calculator and `_value`. */
  datatype TopicModel = TopicModel(data: Dict<Val>, source: SourceModel, calculator: Option<CalcModel>, value: Val)

  /** The binding's cache is a well-formed dictionary. */
  ghost predicate TopicOk(m: TopicModel) {
    SourceOk(m.source)
  }

  /** `data` holds the two accessor functions `update` stores. */
  ghost predicate Thunked(m: TopicModel) {
    Lookup(m.data, "source") == SourceThunk && Lookup(m.data, "calculator") == CalculatorThunk
  }

  /** The constructor: `update(topicData)` on an empty `data`. The first
      `source` assignment creates the binding. */
  function NewTopic(decl: Decl, rt: Runtime): TopicModel {
    TopicModel(WithOptions(Empty(), decl, rt), NewSource(decl.source), WithCalculator(None, decl.calculator, rt), Undefined)
  }

  /** `update(topicData)` on an existing topic: the binding is updated in
      place, not replaced. */
  function UpdatedTopic(m: TopicModel, decl: Decl, rt: Runtime): TopicModel {
    m.(data := WithOptions(m.data, decl, rt), source := Updated(m.source, decl.source), calculator := WithCalculator(m.calculator, decl.calculator, rt))
  }

  /** A new or redeclared topic holds the two accessor functions, and its
      cache is a well-formed dictionary. */
  lemma DeclaredThunked(m: TopicModel, decl: Decl, rt: Runtime)
    ensures Thunked(NewTopic(decl, rt)) && Thunked(UpdatedTopic(m, decl, rt))
    ensures TopicOk(NewTopic(decl, rt))
    ensures TopicOk(m) ==> TopicOk(UpdatedTopic(m, decl, rt))
  {
    ThunksStored(Empty(), decl, rt);
    ThunksStored(m.data, decl, rt);
  }

  /** A redeclaration keeps every cached source value, and watches exactly
      what the new declaration names. */
  lemma RedeclarationKeepsCache(m: TopicModel, decl: Decl, rt: Runtime, t: string)
    ensures UpdatedTopic(m, decl, rt).source.values == m.source.values
    ensures Watches(UpdatedTopic(m, decl, rt).source, t) <==> t in GetTopics(decl.source)
    ensures UpdatedTopic(m, decl, rt).value == m.value
  {
    UpdatedKeepsValues(m.source, decl.source, t);
  }

  /** What one step of a topic did: its new state, what it published, and
      whether it raised. */
  datatype Reaction = Reaction(topic: TopicModel, published: seq<Publish>, thrown: bool)

  /** The `value` setter and `publish`: the value is stored, and published as
      `value.toString()` under `data.topic` only when it is truthy. */
  function WithValue(m: TopicModel, v: Val, rt: Runtime): Reaction {
    Reaction(m.(value := v), if Truthy(v) then [Publish(Lookup(m.data, "topic"), ToString(v, rt))] else [], false)
  }

  lemma PublishesWhenTruthy(m: TopicModel, v: Val, rt: Runtime)
    ensures WithValue(m, v, rt).topic.value == v
    ensures |WithValue(m, v, rt).published| == (if Truthy(v) then 1 else 0)
    ensures Truthy(v) ==> WithValue(m, v, rt).published[0] == Publish(Lookup(m.data, "topic"), ToString(v, rt))
  {
  }

  /** What the calculator sees of this topic. */
  function ViewOf(m: TopicModel): View {
    View(m.data, m.source.data, m.source.values)
  }

  /** The parent's `value` setter run for each value the calculator
      elevated, in order. */
  function Elevations(m: TopicModel, vs: seq<Val>, rt: Runtime): Reaction
    decreases |vs|
  {
    if vs == [] then Reaction(m, [], false)
    else
      var r := Elevations(m, vs[..|vs| - 1], rt);
      var w := WithValue(r.topic, vs[|vs| - 1], rt);
      Reaction(w.topic, r.published + w.published, false)
  }

  /** The publishes of a run of values: each truthy one, as text, in order. */
  function Publishes(topic: Val, vs: seq<Val>, rt: Runtime): seq<Publish>
    decreases |vs|
  {
    if vs == [] then []
    else Publishes(topic, vs[..|vs| - 1], rt) + (if Truthy(vs[|vs| - 1]) then [Publish(topic, ToString(vs[|vs| - 1], rt))] else [])
  }

  /** Elevating a run of values changes only `_value`, which ends as the last
      of them, publishes exactly the truthy ones in order, and never raises. */
  lemma {:induction false} ElevationsSpec(m: TopicModel, vs: seq<Val>, rt: Runtime)
    ensures var r := Elevations(m, vs, rt);
      && r.topic == m.(value := if vs == [] then m.value else vs[|vs| - 1])
      && r.published == Publishes(Lookup(m.data, "topic"), vs, rt)
      && !r.thrown
    decreases |vs|
  {
    if vs != [] {
      ElevationsSpec(m, vs[..|vs| - 1], rt);
    }
  }

  /** The calculator's `calculate()`, and the elevation of every value its
      setter handed on. */
  function Elevated(m: TopicModel, rt: Runtime): Reaction
    requires m.calculator.Some?
  {
    var (c, e) := Calculated(m.calculator.value, ViewOf(m), rt);
    var r := Elevations(m.(calculator := Some(c)), e.handed, rt);
    r.(thrown := e.threw)
  }

  /** `calculate()` as written: `this.calculator.calculate()` raises a
      TypeError when the topic has no calculator. */
  function CalculationAsWritten(m: TopicModel, rt: Runtime): Reaction {
    if m.calculator.None? then Reaction(m, [], true) else Elevated(m, rt)
  }

  /** `calculate()` as corrected: a topic without a calculator does nothing.
      As written it raises (`CalculationAsWritten`). */
  function Calculation(m: TopicModel, rt: Runtime): Reaction {
    if m.calculator.None? then Reaction(m, [], false) else Elevated(m, rt)
  }

  /** `setSourceTopic`: the write to the binding, whose `source-update`
      triggers exactly one `calculate()`. */
  function SourceTopicSet(m: TopicModel, topic: string, value: Val, rt: Runtime): Reaction {
    Calculation(m.(source := WithTopic(m.source, topic, value)), rt)
  }

  /** `setSourceTopic` as written: the write, then `calculate()` as written. */
  function SourceTopicSetAsWritten(m: TopicModel, topic: string, value: Val, rt: Runtime): Reaction {
    CalculationAsWritten(m.(source := WithTopic(m.source, topic, value)), rt)
  }

  /** A calculation changes neither `data` nor the binding, and only a
      topic with a calculator raises, as the calculator did. */
  lemma CalculationKeeps(m: TopicModel, rt: Runtime)
    ensures Calculation(m, rt).topic.data == m.data && Calculation(m, rt).topic.source == m.source
    ensures CalculationAsWritten(m, rt).topic.data == m.data && CalculationAsWritten(m, rt).topic.source == m.source
    ensures Calculation(m, rt).thrown <==> m.calculator.Some? && Calculated(m.calculator.value, ViewOf(m), rt).1.threw
  {
    if m.calculator.Some? {
      var (c, e) := Calculated(m.calculator.value, ViewOf(m), rt);
      ElevationsSpec(m.(calculator := Some(c)), e.handed, rt);
    }
  }

  /** `setSourceTopic` caches the value, signals once, runs the calculator
      once on the updated cache, publishes every truthy value the calculator
      elevates, in order, keeps the last as `_value`, and raises exactly when
      the calculator did. */
  lemma SourceTopicSetSpec(m: TopicModel, topic: string, value: Val, rt: Runtime)
    ensures var r := SourceTopicSet(m, topic, value, rt);
      && (TopicOk(m) ==> TopicOk(r.topic))
      && Lookup(r.topic.source.values, topic) == value
      && r.topic.source.emitted == m.source.emitted + [topic]
      && r.topic.source.data == m.source.data
      && r.topic.data == m.data
      && (m.calculator.None? ==> r.topic == m.(source := r.topic.source) && r.published == [] && !r.thrown)
      && (m.calculator.Some? ==>
            var (c, e) := Calculated(m.calculator.value, ViewOf(m.(source := r.topic.source)), rt);
            && r.topic.calculator == Some(c)
            && r.topic.value == (if e.handed == [] then m.value else e.handed[|e.handed| - 1])
            && r.published == Publishes(Lookup(m.data, "topic"), e.handed, rt)
            && r.thrown == e.threw)
  {
    WithTopicSpec(m.source, topic, value, topic);
    var m1 := m.(source := WithTopic(m.source, topic, value));
    if m.calculator.Some? {
      var (c, e) := Calculated(m.calculator.value, ViewOf(m1), rt);
      ElevationsSpec(m1.(calculator := Some(c)), e.handed, rt);
    }
  }

  /** The outcome of one store query of `initLatestValues`. */
  datatype QueryResult = Rows(rows: seq<Val>) | Failed

  /** The seeding rule: a non-empty result sets the topic to its last row;
      the `catch` swallows any error, from the query or from the calculation
      the write triggers. */
  function Seeded(m: TopicModel, topic: string, q: QueryResult, rt: Runtime): Reaction {
    if q.Rows? && |q.rows| > 0 then
      var r := SourceTopicSet(m, topic, q.rows[|q.rows| - 1], rt);
      r.(thrown := false)
    else Reaction(m, [], false)
  }

  lemma SeededSpec(m: TopicModel, topic: string, q: QueryResult, rt: Runtime)
    ensures q.Rows? && |q.rows| > 0 ==> Lookup(Seeded(m, topic, q, rt).topic.source.values, topic) == q.rows[|q.rows| - 1]
    ensures q.Failed? || q.rows == [] ==> Seeded(m, topic, q, rt) == Reaction(m, [], false)
    ensures !Seeded(m, topic, q, rt).thrown
  {
    if q.Rows? && |q.rows| > 0 {
      SourceTopicSetSpec(m, topic, q.rows[|q.rows| - 1], rt);
    }
  }

  class Topic {
    var data: Dict<Val>
    /** The binding: created once, then updated in place. */
    const source: TopicSource
    /** `_calculator`; `null` while no known calculator was ever named. */
    var calculator: Calculator?
    /** `_value`. */
    var value: Val
    /** The objects this topic owns: itself, its binding and its calculator. */
    ghost function Repr(): set<object>
      reads this
    {
      {this, source} + (if calculator == null then {} else {calculator as object})
    }

    ghost predicate Valid()
      reads this, Repr()
    {
      && (calculator != null ==> calculator.name == Name(calculator.kind))
    }

    ghost function Model(): TopicModel
      reads this, Repr()
    {
      TopicModel(data, source.Model(), if calculator == null then None else Some(calculator.Model()), value)
    }

    constructor(decl: Decl, rt: Runtime)
      ensures Valid() && fresh(source) && (calculator != null ==> fresh(calculator))
      ensures Model() == NewTopic(decl, rt)
    {
      var d := ApplyOptions(Empty(), decl, rt);
      var s := new TopicSource(decl.source);
      var c := NewCalculator(decl.calculator, rt);
      data, source, calculator, value := d, s, c, Undefined;
    }

    /** `update(topicData)`. */
    method Update(decl: Decl, rt: Runtime)
      requires Valid()
      modifies Repr()
      ensures Valid() && (calculator != old(calculator) ==> calculator != null && fresh(calculator))
      ensures Model() == UpdatedTopic(old(Model()), decl, rt)
    {
      data := ApplyOptions(data, decl, rt);
      source.Update(decl.source);
      SetCalculator(decl.calculator, rt);
    }

    /** The `calculator` setter. */
    method SetCalculator(name: Val, rt: Runtime)
      requires Valid()
      modifies this
      ensures Valid() && (calculator != old(calculator) ==> calculator != null && fresh(calculator))
      ensures data == old(data) && value == old(value)
      ensures calculator == null <==> WithCalculator(old(Model()).calculator, name, rt).None?
      ensures calculator != null ==> calculator.Model() == WithCalculator(old(Model()).calculator, name, rt).value
    {
      var k := Catalog(ToString(name, rt));
      if k.None? {
        return;
      }
      if calculator == null || Str(calculator.name) != name {
        calculator := new Calculator(k.value);
      }
    }

    /** `hasSourceTopic`: delegated to the binding. */
    predicate HasSourceTopic(topic: string)
      reads this, source
    {
      source.HasTopic(topic)
    }

    /** `setSourceTopic`: delegated to the binding, whose signal runs
        `calculate()`. */
    method SetSourceTopic(topic: string, v: Val, rt: Runtime) returns (published: seq<Publish>, thrown: bool)
      requires Valid()
      modifies Repr()
      ensures Valid() && calculator == old(calculator)
      ensures Reaction(Model(), published, thrown) == SourceTopicSet(old(Model()), topic, v, rt)
    {
      source.SetTopic(topic, v);
      published, thrown := Calculate(rt);
    }

    /** `calculate()` as corrected: a topic without a calculator does
        nothing, where as written it raises (`CalculateAsWritten`). */
    method Calculate(rt: Runtime) returns (published: seq<Publish>, thrown: bool)
      requires Valid()
      modifies Repr()
      ensures Valid() && calculator == old(calculator)
      ensures Reaction(Model(), published, thrown) == Calculation(old(Model()), rt)
    {
      if calculator == null {
        return [], false;
      }
      published, thrown := Elevate(rt);
    }

    /** `calculate()` as written: raises when there is no calculator. */
    method CalculateAsWritten(rt: Runtime) returns (published: seq<Publish>, thrown: bool)
      requires Valid()
      modifies Repr()
      ensures Valid() && calculator == old(calculator)
      ensures Reaction(Model(), published, thrown) == CalculationAsWritten(old(Model()), rt)
    {
      if calculator == null {
        return [], true;
      }
      published, thrown := Elevate(rt);
    }

    /** `this.calculator.calculate()`, whose setter runs
        `parent.value = this.value` for every value it stores. */
    method Elevate(rt: Runtime) returns (published: seq<Publish>, thrown: bool)
      requires Valid() && calculator != null
      modifies Repr()
      ensures Valid() && calculator == old(calculator)
      ensures Reaction(Model(), published, thrown) == Elevated(old(Model()), rt)
    {
      var e := calculator.Calculate(View(data, source.data, source.values), rt);
      ghost var start := Model();
      published := [];
      for i := 0 to |e.handed|
        invariant Valid() && calculator == old(calculator)
        invariant Reaction(Model(), published, false) == Elevations(start, e.handed[..i], rt)
      {
        assert e.handed[..i + 1][..i] == e.handed[..i];
        var out := SetValue(e.handed[i], rt);
        published := published + out;
      }
      assert e.handed[..|e.handed|] == e.handed;
      thrown := e.threw;
    }

    /** The `value` setter with `publish()`. */
    method SetValue(v: Val, rt: Runtime) returns (published: seq<Publish>)
      requires Valid()
      modifies this
      ensures Valid() && calculator == old(calculator)
      ensures Reaction(Model(), published, false) == WithValue(old(Model()), v, rt)
    {
      value := v;
      if !Truthy(value) {
        return [];
      }
      published := [Publish(Lookup(data, "topic"), ToString(value, rt))];
    }

    /** One settled query of `initLatestValues`. */
    method Seed(topic: string, q: QueryResult, rt: Runtime) returns (published: seq<Publish>)
      requires Valid()
      modifies Repr()
      ensures Valid() && calculator == old(calculator)
      ensures Reaction(Model(), published, false) == Seeded(old(Model()), topic, q, rt)
    {
      if q.Rows? && |q.rows| > 0 {
        var thrown;
        published, thrown := SetSourceTopic(topic, q.rows[|q.rows| - 1], rt);
      } else {
        published := [];
      }
    }
  }

  /** The `calculator` setter on a topic without a calculator. */
  method NewCalculator(name: Val, rt: Runtime) returns (c: Calculator?)
    ensures c == null <==> WithCalculator(None, name, rt).None?
    ensures c != null ==> fresh(c) && Some(c.Model()) == WithCalculator(None, name, rt) && c.name == Name(c.kind)
  {
    var k := Catalog(ToString(name, rt));
    if k.None? {
      return null;
    }
    c := new Calculator(k.value);
  }

  /** The `data` part of `update`, with its key copy loop. */
  method ApplyOptions(d: Dict<Val>, decl: Decl, rt: Runtime) returns (r: Dict<Val>)
    ensures r == WithOptions(d, decl, rt)
  {
    var copied := CopyOptions(d.Put("hash", Hash(decl, rt)), decl.fields);
    r := copied.Put("source", SourceThunk).Put("calculator", CalculatorThunk);
  }

  /** The key copy of `update`. */
  method CopyOptions(d: Dict<Val>, fields: Dict<Val>) returns (r: Dict<Val>)
    ensures r == PutAll(d, fields.keys, fields.m)
  {
    r := d;
    for i := 0 to |fields.keys|
      invariant r == PutAll(d, fields.keys[..i], fields.m)
    {
      assert fields.keys[..i + 1][..i] == fields.keys[..i];
      r := r.Put(fields.keys[i], Prop(fields.m, fields.keys[i]));
    }
    assert fields.keys[..|fields.keys|] == fields.keys;
  }
}
