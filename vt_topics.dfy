/** The registry of derived topics (server/lib/VirtualTopic/Topics.js): the
    `data` object keyed by output topic name, whose Proxy `set` adds a new
    topic or updates the one already stored, `add`, `keys`, the loading of
    declarations in order, and the fan-out `MqttTopic.onUpdate`
    (server/lib/Mqtt/Topic.js) runs over it. The events `topic-added` and
    `topic-update` are logged by key. */
module VirtualTopics {
  import opened Js
  import opened Dict
  import opened Sources
  import opened VirtualTopicSource
  import opened VirtualTopic

  datatype TopicsEvent = TopicAdded(key: string) | TopicUpdate(key: string)

  /** `Object.keys(this.data)`, the stored topics, and the events emitted. */
  datatype TopicsModel = TopicsModel(keys: seq<string>, data: map<string, TopicModel>, events: seq<TopicsEvent>)

  /** `keys` lists each stored topic once. */
  ghost predicate TopicsOk(ts: TopicsModel) {
    && Distinct(ts.keys)
    && (forall k :: k in ts.data <==> k in ts.keys)
  }

  /** Every stored topic's cache is a well-formed dictionary. */
  ghost predicate AllOk(data: map<string, TopicModel>) {
    forall k :: k in data ==> TopicOk(data[k])
  }

  function NoTopics(): (ts: TopicsModel)
    ensures TopicsOk(ts)
  {
    TopicsModel([], map[], [])
  }

  /** What `update(topic.data)` receives as a declaration: the other topic's
      `data` without `calculator` and `source`, whose values `update` then
      assigns to the `source` and `calculator` setters. There they are the
      two accessor functions. */
  function Redeclaration(data: Dict<Val>): Decl
    requires Lookup(data, "source").Fn?
  {
    Decl(data.Remove("calculator").Remove("source"), Callable(Lookup(data, "source").code), Lookup(data, "calculator"))
  }

  /** The Proxy `set` as written: an existing topic is updated from the new
      topic's `data`. */
  function StoredAsWritten(ts: TopicsModel, prop: string, incoming: TopicModel, rt: Runtime): (r: TopicsModel)
    requires TopicsOk(ts) && Thunked(incoming)
    ensures TopicsOk(r)
  {
    if prop !in ts.data then
      ts.(keys := ts.keys + [prop], data := ts.data[prop := incoming], events := ts.events + [TopicAdded(prop)])
    else
      ts.(data := ts.data[prop := UpdatedTopic(ts.data[prop], Redeclaration(incoming.data), rt)], events := ts.events + [TopicUpdate(prop)])
  }

  /** The Proxy `set` as intended: an existing topic is updated from the
      declaration the new topic was built from. */
  function Stored(ts: TopicsModel, prop: string, incoming: TopicModel, decl: Decl, rt: Runtime): (r: TopicsModel)
    requires TopicsOk(ts)
    ensures TopicsOk(r)
  {
    if prop !in ts.data then
      ts.(keys := ts.keys + [prop], data := ts.data[prop := incoming], events := ts.events + [TopicAdded(prop)])
    else
      ts.(data := ts.data[prop := UpdatedTopic(ts.data[prop], decl, rt)], events := ts.events + [TopicUpdate(prop)])
  }

  /** The declared output name `String(options.topic)`. */
  function KeyOf(decl: Decl, rt: Runtime): string {
    ToString(Lookup(decl.fields, "topic"), rt)
  }

  /** The key `add` stores under, `String(newTopic.data.topic)`, is the
      declared name. */
  lemma NewTopicKey(decl: Decl, rt: Runtime)
    requires decl.fields.Wf()
    ensures ToString(Lookup(NewTopic(decl, rt).data, "topic"), rt) == KeyOf(decl, rt)
  {
    OptionsCopied(Empty(), decl, rt, "topic");
  }

  /** `add(topicData)` as written. */
  function AddedAsWritten(ts: TopicsModel, decl: Decl, rt: Runtime): (r: TopicsModel)
    requires TopicsOk(ts)
    ensures TopicsOk(r)
  {
    ThunksStored(Empty(), decl, rt);
    StoredAsWritten(ts, KeyOf(decl, rt), NewTopic(decl, rt), rt)
  }

  /** `add(topicData)`. */
  function Added(ts: TopicsModel, decl: Decl, rt: Runtime): (r: TopicsModel)
    requires TopicsOk(ts)
    ensures TopicsOk(r)
  {
    Stored(ts, KeyOf(decl, rt), NewTopic(decl, rt), decl, rt)
  }

  /** Every declaration is a well-formed object. */
  ghost predicate AllDeclsOk(decls: seq<Decl>) {
    forall i :: 0 <= i < |decls| ==> decls[i].fields.Wf()
  }

  /** `data.forEach(topicData => this.add(topicData))`. */
  function LoadedAll(ts: TopicsModel, decls: seq<Decl>, rt: Runtime): (r: TopicsModel)
    requires TopicsOk(ts)
    ensures TopicsOk(r)
    decreases |decls|
  {
    if decls == [] then ts
    else Added(LoadedAll(ts, decls[..|decls| - 1], rt), decls[|decls| - 1], rt)
  }

  /** The declared output names, each once, in the order first declared. */
  function DeclaredNames(decls: seq<Decl>, rt: Runtime): seq<string>
    decreases |decls|
  {
    if decls == [] then []
    else
      var names := DeclaredNames(decls[..|decls| - 1], rt);
      var k := KeyOf(decls[|decls| - 1], rt);
      if k in names then names else names + [k]
  }

  /** `add` appends a key exactly when the declaration names a new output;
      a redeclared name keeps its place and its topic, which is updated
      from the declaration; no other topic changes. */
  lemma AddedSpec(ts: TopicsModel, decl: Decl, rt: Runtime, other: string)
    requires TopicsOk(ts)
    ensures var k := KeyOf(decl, rt);
      && Added(ts, decl, rt).keys == (if k in ts.data then ts.keys else ts.keys + [k])
      && (k !in ts.data ==> Added(ts, decl, rt).data[k] == NewTopic(decl, rt) && Added(ts, decl, rt).events == ts.events + [TopicAdded(k)])
      && (k in ts.data ==> Added(ts, decl, rt).data[k] == UpdatedTopic(ts.data[k], decl, rt) && Added(ts, decl, rt).events == ts.events + [TopicUpdate(k)])
      && (other != k ==> (other in Added(ts, decl, rt).data <==> other in ts.data))
      && (other != k && other in ts.data ==> Added(ts, decl, rt).data[other] == ts.data[other])
  {
  }

  /** Loading from nothing leaves exactly the declared names as `keys`, each
      once, in the order first declared. */
  lemma {:induction false} LoadedKeys(decls: seq<Decl>, rt: Runtime)
    ensures LoadedAll(NoTopics(), decls, rt).keys == DeclaredNames(decls, rt)
    decreases |decls|
  {
    if decls != [] {
      LoadedKeys(decls[..|decls| - 1], rt);
    }
  }

  /** Every name in `keys` is declared, every declared name is in `keys`,
      and the names are distinct. */
  lemma {:induction false} DeclaredNamesSpec(decls: seq<Decl>, rt: Runtime, k: string)
    ensures k in DeclaredNames(decls, rt) <==> exists i :: 0 <= i < |decls| && KeyOf(decls[i], rt) == k
    ensures forall i, j :: 0 <= i < j < |DeclaredNames(decls, rt)| ==> DeclaredNames(decls, rt)[i] != DeclaredNames(decls, rt)[j]
    decreases |decls|
  {
    if decls != [] {
      var init := decls[..|decls| - 1];
      DeclaredNamesSpec(init, rt, k);
      if exists i :: 0 <= i < |init| && KeyOf(init[i], rt) == k {
        var i :| 0 <= i < |init| && KeyOf(init[i], rt) == k;
        assert KeyOf(decls[i], rt) == k;
      }
      if exists i :: 0 <= i < |decls| && KeyOf(decls[i], rt) == k {
        var i :| 0 <= i < |decls| && KeyOf(decls[i], rt) == k;
        if i < |init| {
          assert KeyOf(init[i], rt) == k;
        }
      }
    }
  }

  /** `update(topic.data)` with another topic's `data`: its `source` is a
      function, which the binding stores as a declaration naming no topic,
      and its `calculator` is a function, whose text names no calculator. */
  lemma RedeclaredFromData(m: TopicModel, incoming: TopicModel, rt: Runtime, t: string)
    requires Thunked(incoming)
    ensures !Watches(UpdatedTopic(m, Redeclaration(incoming.data), rt).source, t)
    ensures UpdatedTopic(m, Redeclaration(incoming.data), rt).calculator == m.calculator
  {
    var decl := Redeclaration(incoming.data);
    assert decl.source == Callable(SourceThunk.code);
    assert decl.calculator == CalculatorThunk;
    UpdatedKeepsValues(m.source, decl.source, t);
  }

  /** Finding: as written, adding a declaration whose name is already
      registered makes that topic watch nothing, whatever its source, and
      leaves its calculator alone. */
  lemma RedeclarationDropsSource(ts: TopicsModel, decl: Decl, rt: Runtime, t: string)
    requires TopicsOk(ts) && KeyOf(decl, rt) in ts.data
    ensures !Watches(AddedAsWritten(ts, decl, rt).data[KeyOf(decl, rt)].source, t)
    ensures AddedAsWritten(ts, decl, rt).data[KeyOf(decl, rt)].calculator == ts.data[KeyOf(decl, rt)].calculator
  {
    var k := KeyOf(decl, rt);
    var incoming := NewTopic(decl, rt);
    ThunksStored(Empty(), decl, rt);
    assert AddedAsWritten(ts, decl, rt).data[k] == UpdatedTopic(ts.data[k], Redeclaration(incoming.data), rt);
    RedeclaredFromData(ts.data[k], incoming, rt, t);
  }

  /** As intended, a redeclared topic watches exactly the declared source. */
  lemma RedeclarationWatchesDeclared(ts: TopicsModel, decl: Decl, rt: Runtime, t: string)
    requires TopicsOk(ts) && KeyOf(decl, rt) in ts.data
    ensures Watches(Added(ts, decl, rt).data[KeyOf(decl, rt)].source, t) <==> t in GetTopics(decl.source)
  {
    RedeclarationKeepsCache(ts.data[KeyOf(decl, rt)], decl, rt, t);
  }

  /** The same declaration added twice: as written its topic ends up
      watching nothing; as intended it watches the declared topic. */
  lemma DuplicateDeclarationExample(decl: Decl, rt: Runtime, s: string)
    requires decl.source == Text(s)
    ensures KeyOf(decl, rt) in Added(NoTopics(), decl, rt).data
    ensures !Watches(AddedAsWritten(Added(NoTopics(), decl, rt), decl, rt).data[KeyOf(decl, rt)].source, s)
    ensures Watches(Added(Added(NoTopics(), decl, rt), decl, rt).data[KeyOf(decl, rt)].source, s)
  {
    var once := Added(NoTopics(), decl, rt);
    assert KeyOf(decl, rt) in once.data;
    RedeclarationDropsSource(once, decl, rt, s);
    RedeclarationWatchesDeclared(once, decl, rt, s);
  }

  /** What a fan-out did: the topics afterwards, what they published, and
      whether one raised (which ends the `forEach`). */
  datatype Spread = Spread(data: map<string, TopicModel>, published: seq<Publish>, thrown: bool)

  /** One watcher's `setSourceTopic`: the write to its binding, then
      `calculate()` as written (raising without a calculator) or as intended
      (doing nothing without one). */
  function Notified(m: TopicModel, topic: string, value: Val, rt: Runtime, asWritten: bool): Reaction {
    var written := m.(source := WithTopic(m.source, topic, value));
    if written.calculator.None? then Reaction(written, [], asWritten) else Elevated(written, rt)
  }

  /** A watcher's step keeps its cache well formed and its declaration, and
      is `setSourceTopic` as written or as intended. */
  lemma NotifiedOk(m: TopicModel, topic: string, value: Val, rt: Runtime, asWritten: bool)
    ensures TopicOk(m) ==> TopicOk(Notified(m, topic, value, rt, asWritten).topic)
    ensures Notified(m, topic, value, rt, asWritten).topic.source.data == m.source.data
    ensures Notified(m, topic, value, rt, asWritten) ==
      if asWritten then SourceTopicSetAsWritten(m, topic, value, rt) else SourceTopicSet(m, topic, value, rt)
  {
    SourceTopicSetSpec(m, topic, value, rt);
  }

  /** A watcher's write always lands in its cache; without a calculator it
      raises exactly when `calculate()` is as written. */
  lemma NotifiedCaches(m: TopicModel, topic: string, value: Val, rt: Runtime, asWritten: bool)
    ensures Lookup(Notified(m, topic, value, rt, asWritten).topic.source.values, topic) == value
    ensures m.calculator.None? ==> (Notified(m, topic, value, rt, asWritten).thrown <==> asWritten)
  {
    var written := m.(source := WithTopic(m.source, topic, value));
    CalculationKeeps(written, rt);
    WithTopicSpec(m.source, topic, value, topic);
  }

  /** `setSourceTopic(topic, value)` on one watcher, as the step of the walk. */
  function Watcher(topic: string, value: Val, rt: Runtime, asWritten: bool): TopicModel -> Reaction {
    (m: TopicModel) => Notified(m, topic, value, rt, asWritten)
  }

  /** The `forEach` over `keys`: every topic that watches `topic` takes the
      step `react`; a raise stops the loop after the write that caused it. */
  function Notify(data: map<string, TopicModel>, keys: seq<string>, topic: string, react: TopicModel -> Reaction): (r: Spread)
    requires forall i :: 0 <= i < |keys| ==> keys[i] in data
    ensures r.data.Keys == data.Keys
    decreases |keys|
  {
    if keys == [] then Spread(data, [], false)
    else
      var before := Notify(data, keys[..|keys| - 1], topic, react);
      var k := keys[|keys| - 1];
      if before.thrown || !Watches(before.data[k].source, topic) then before
      else
        var step := react(before.data[k]);
        Spread(before.data[k := step.topic], before.published + step.published, step.thrown)
  }

  /** One more key of the walk: the topic under it is visited unless a
      raise already ended the loop or it does not watch `topic`. */
  lemma NotifyStep(data: map<string, TopicModel>, keys: seq<string>, i: nat, topic: string, react: TopicModel -> Reaction)
    requires (forall j :: 0 <= j < |keys| ==> keys[j] in data) && i < |keys|
    ensures forall j :: 0 <= j < i ==> keys[..i][j] in data
    ensures var before := Notify(data, keys[..i], topic, react);
      var k := keys[i];
      && k in before.data
      && Notify(data, keys[..i + 1], topic, react) ==
        if before.thrown || !Watches(before.data[k].source, topic) then before
        else
          var step := react(before.data[k]);
          Spread(before.data[k := step.topic], before.published + step.published, step.thrown)
  {
    assert keys[..i + 1][..i] == keys[..i];
  }

  /** `onUpdate` as written (`calculate()` raises without a calculator). */
  function OnUpdateAsWritten(ts: TopicsModel, topic: string, value: Val, rt: Runtime): (r: Spread)
    requires TopicsOk(ts)
    ensures r.data.Keys == ts.data.Keys
  {
    Notify(ts.data, ts.keys, topic, Watcher(topic, value, rt, true))
  }

  /** `onUpdate` as intended. */
  function OnUpdate(ts: TopicsModel, topic: string, value: Val, rt: Runtime): (r: Spread)
    requires TopicsOk(ts)
    ensures r.data.Keys == ts.data.Keys
  {
    Notify(ts.data, ts.keys, topic, Watcher(topic, value, rt, false))
  }

  /** A topic that does not watch `topic`, or that the loop does not reach,
      is untouched; when nothing raised, every watcher got exactly one
      `setSourceTopic(topic, value)`. */
  lemma {:induction false} NotifySpec(data: map<string, TopicModel>, keys: seq<string>, topic: string, react: TopicModel -> Reaction, k: string)
    requires (forall i :: 0 <= i < |keys| ==> keys[i] in data) && k in data
    requires Distinct(keys)
    ensures !Watches(data[k].source, topic) || k !in keys ==> Notify(data, keys, topic, react).data[k] == data[k]
    ensures !Notify(data, keys, topic, react).thrown && k in keys && Watches(data[k].source, topic) ==>
      Notify(data, keys, topic, react).data[k] == react(data[k]).topic
    decreases |keys|
  {
    if keys != [] {
      var init := keys[..|keys| - 1];
      var last := keys[|keys| - 1];
      assert forall i :: 0 <= i < |init| ==> init[i] == keys[i];
      NotifySpec(data, init, topic, react, k);
      NotifySpec(data, init, topic, react, last);
      assert last !in init;
      assert k in keys <==> k in init || k == last;
    }
  }

  /** Once a step raised, the remaining topics are not visited. */
  lemma {:induction false} NotifyStops(data: map<string, TopicModel>, keys: seq<string>, n: nat, topic: string, react: TopicModel -> Reaction)
    requires (forall i :: 0 <= i < |keys| ==> keys[i] in data) && n <= |keys|
    requires Notify(data, keys[..n], topic, react).thrown
    ensures Notify(data, keys, topic, react) == Notify(data, keys[..n], topic, react)
    decreases |keys|
  {
    if n < |keys| {
      var init := keys[..|keys| - 1];
      assert init[..n] == keys[..n];
      NotifyStops(data, init, n, topic, react);
    } else {
      assert keys[..n] == keys;
    }
  }

  /** Finding: as written, a watcher without a calculator raises on the
      write, so a later watcher never receives the value. */
  lemma CalculatorlessWatcherAborts(ts: TopicsModel, k1: string, k2: string, topic: string, value: Val, rt: Runtime)
    requires TopicsOk(ts) && ts.keys == [k1, k2]
    requires Watches(ts.data[k1].source, topic) && ts.data[k1].calculator.None?
    requires Lookup(ts.data[k2].source.values, topic) != value
    ensures OnUpdateAsWritten(ts, topic, value, rt).thrown
    ensures Lookup(OnUpdateAsWritten(ts, topic, value, rt).data[k2].source.values, topic) != value
  {
    assert k1 != k2 by {
      assert ts.keys[0] != ts.keys[1];
    }
    assert ts.keys[..1] == [k1];
    assert [k1][..0] == [];
    assert Notify(ts.data, [], topic, Watcher(topic, value, rt, true)) == Spread(ts.data, [], false);
    NotifiedCaches(ts.data[k1], topic, value, rt, true);
    var written := Notify(ts.data, [k1], topic, Watcher(topic, value, rt, true));
    assert written.thrown && written.data[k2] == ts.data[k2];
  }

  /** As intended, the same fan-out delivers the value to the later watcher. */
  lemma CalculatorlessWatcherSkipped(ts: TopicsModel, k1: string, k2: string, topic: string, value: Val, rt: Runtime)
    requires TopicsOk(ts) && ts.keys == [k1, k2]
    requires ts.data[k1].calculator.None?
    requires Watches(ts.data[k2].source, topic)
    ensures Lookup(OnUpdate(ts, topic, value, rt).data[k2].source.values, topic) == value
  {
    assert k1 != k2 by {
      assert ts.keys[0] != ts.keys[1];
    }
    assert ts.keys[..1] == [k1];
    assert [k1][..0] == [];
    assert Notify(ts.data, [], topic, Watcher(topic, value, rt, false)) == Spread(ts.data, [], false);
    NotifiedCaches(ts.data[k1], topic, value, rt, false);
    var first := Notify(ts.data, [k1], topic, Watcher(topic, value, rt, false));
    assert !first.thrown && first.data[k2] == ts.data[k2];
    var step := Notified(ts.data[k2], topic, value, rt, false);
    NotifiedCaches(ts.data[k2], topic, value, rt, false);
    assert Notify(ts.data, ts.keys, topic, Watcher(topic, value, rt, false)).data[k2] == step.topic;
  }

  /** The registry. Each stored topic is kept as its state (see
      `VirtualTopic.Topic` for the object's own methods). */
  class Topics {
    var keys: seq<string>
    var data: map<string, TopicModel>
    var events: seq<TopicsEvent>

    function Model(): TopicsModel
      reads this
    {
      TopicsModel(keys, data, events)
    }

    ghost predicate Valid()
      reads this
    {
      TopicsOk(Model())
    }

    constructor()
      ensures Valid() && Model() == NoTopics()
    {
      keys, data, events := [], map[], [];
    }

    /** `Object.keys(this.data)`. */
    function Keys(): (r: seq<string>)
      reads this
      requires Valid()
      ensures forall k :: k in r <==> k in data
      ensures Distinct(r)
    {
      keys
    }

    /** The Proxy `set`: a new key is appended and announced with
        `topic-added`; an existing topic is updated from the declaration
        and `topic-update` is emitted. */
    method Set(prop: string, incoming: TopicModel, decl: Decl, rt: Runtime)
      requires Valid()
      modifies this
      ensures Valid()
      ensures Model() == Stored(old(Model()), prop, incoming, decl, rt)
    {
      if prop !in data {
        keys, data, events := keys + [prop], data[prop := incoming], events + [TopicAdded(prop)];
      } else {
        data, events := data[prop := UpdatedTopic(data[prop], decl, rt)], events + [TopicUpdate(prop)];
      }
    }

    /** `add(topicData)`: a new topic, stored under its declared name. */
    method Add(decl: Decl, rt: Runtime)
      requires Valid() && decl.fields.Wf()
      modifies this
      ensures Valid()
      ensures Model() == Added(old(Model()), decl, rt)
    {
      var topic := NewTopic(decl, rt);
      var prop := ToString(Lookup(topic.data, "topic"), rt);
      NewTopicKey(decl, rt);
      Set(prop, topic, decl, rt);
    }

    /** The loading of `virtualtopics.json`: each declaration added in order. */
    method Load(decls: seq<Decl>, rt: Runtime)
      requires Valid() && AllDeclsOk(decls)
      modifies this
      ensures Valid()
      ensures Model() == LoadedAll(old(Model()), decls, rt)
    {
      for i := 0 to |decls|
        invariant Valid()
        invariant Model() == LoadedAll(old(Model()), decls[..i], rt)
      {
        assert decls[..i + 1][..i] == decls[..i];
        Add(decls[i], rt);
      }
      assert decls[..|decls|] == decls;
    }

    /** The `forEach` of `MqttTopic.onUpdate` over this registry: every topic
        whose source watches `topic` gets `setSourceTopic(topic, value)`, and
        a raise ends the loop. */
    method FanOut(topic: string, value: Val, rt: Runtime) returns (published: seq<Publish>, thrown: bool)
      requires Valid()
      modifies this
      ensures Valid() && keys == old(keys) && events == old(events)
      ensures Spread(data, published, thrown) == OnUpdate(old(Model()), topic, value, rt)
    {
      ghost var start := data;
      ghost var react := Watcher(topic, value, rt, false);
      assert OnUpdate(Model(), topic, value, rt) == Notify(start, keys, topic, react);
      published, thrown := [], false;
      for i := 0 to |keys|
        invariant keys == old(keys) && events == old(events)
        invariant forall j :: 0 <= j < |keys| ==> keys[j] in start
        invariant Spread(data, published, false) == Notify(start, keys[..i], topic, react)
      {
        var th;
        published, th := Visit(start, i, published, topic, value, rt);
        if th {
          NotifyStops(start, keys, i + 1, topic, react);
          return published, true;
        }
      }
      assert keys[..|keys|] == keys;
    }

    /** One turn of the `forEach`: the topic under `keys[i]`, if it watches
        `topic`, gets `setSourceTopic(topic, value)`. */
    method Visit(ghost start: map<string, TopicModel>, i: nat, published: seq<Publish>, topic: string, value: Val, rt: Runtime) returns (out: seq<Publish>, thrown: bool)
      requires (forall j :: 0 <= j < |keys| ==> keys[j] in start) && i < |keys|
      requires Spread(data, published, false) == Notify(start, keys[..i], topic, Watcher(topic, value, rt, false))
      modifies this
      ensures keys == old(keys) && events == old(events)
      ensures Spread(data, out, thrown) == Notify(start, keys[..i + 1], topic, Watcher(topic, value, rt, false))
    {
      NotifyStep(start, keys, i, topic, Watcher(topic, value, rt, false));
      var k := keys[i];
      out, thrown := published, false;
      if Watches(data[k].source, topic) {
        var step := SourceTopicSet(data[k], topic, value, rt);
        data, out, thrown := data[k := step.topic], out + step.published, step.thrown;
      }
    }
  }
}
