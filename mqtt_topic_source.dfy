/** The source binding of the raw-topic side (server/lib/Mqtt/TopicSource.js):
    like the derived-topic binding, but `setTopic` ignores unwatched topics,
    `update` ignores a falsy declaration, and `update` seeds the cache from
    the raw-topic registry. The registry is passed in as the current value
    of each registered topic name (`parent.parent.topics[t].value`). */
module MqttTopicSource {
  import opened Js
  import opened Dict
  import opened Sources

  /** `setTopic`: a write and its signal only for a watched topic. */
  function Guarded(s: SourceModel, topic: string, value: Val): (r: SourceModel)
    requires SourceOk(s)
    ensures SourceOk(r)
  {
    if topic !in GetTopics(s.data) then s
    else s.(values := s.values.Put(topic, value), emitted := s.emitted + [topic])
  }

  /** Whether the seeding loop writes `t`: it is registered and its cached
      value is falsy. */
  predicate Seeds(values: Dict<Val>, registry: map<string, Val>, t: string) {
    t in registry && !Truthy(Lookup(values, t))
  }

  /** The seeding `forEach` of `update` over `topics`, in order. */
  function Seeding(s: SourceModel, topics: seq<string>, registry: map<string, Val>): (r: SourceModel)
    requires SourceOk(s)
    ensures SourceOk(r)
    decreases |topics|
  {
    if topics == [] then s
    else
      var before := Seeding(s, topics[..|topics| - 1], registry);
      var t := topics[|topics| - 1];
      if Seeds(before.values, registry, t) then before.(values := before.values.Put(t, registry[t]), emitted := before.emitted + [t])
      else before
  }

  /** `update(sourceData)`. */
  function MqttUpdated(s: SourceModel, src: Source, registry: map<string, Val>): (r: SourceModel)
    requires SourceOk(s)
    ensures SourceOk(r)
  {
    if !IsTruthy(src) then s
    else Seeding(s.(data := src, kind := InferType(src, s.kind)), GetTopics(src), registry)
  }

  /** The constructor: `update(sourceData)` on an empty binding. */
  function NewBinding(src: Source, registry: map<string, Val>): (r: SourceModel)
    ensures SourceOk(r)
  {
    MqttUpdated(SourceModel(Missing, None, Empty(), []), src, registry)
  }

  /** `setTopic` on an unwatched topic changes nothing; on a watched one it
      caches exactly that value and signals exactly once. */
  lemma GuardedSpec(s: SourceModel, topic: string, value: Val, other: string)
    requires SourceOk(s)
    ensures !Watches(s, topic) ==> Guarded(s, topic, value) == s
    ensures Watches(s, topic) ==>
      Lookup(Guarded(s, topic, value).values, topic) == value && Guarded(s, topic, value).emitted == s.emitted + [topic]
    ensures other != topic ==> Lookup(Guarded(s, topic, value).values, other) == Lookup(s.values, other)
    ensures Guarded(s, topic, value).data == s.data && Guarded(s, topic, value).kind == s.kind
  {
  }

  /** After seeding, a topic holds the registry's value exactly when it is
      listed, registered and was cached falsy; a truthy cached value is
      kept. Every signal names a listed, registered topic, and the
      declaration is not touched. */
  lemma {:induction false} SeedingSpec(s: SourceModel, topics: seq<string>, registry: map<string, Val>, t: string)
    requires SourceOk(s)
    ensures Lookup(Seeding(s, topics, registry).values, t) ==
      if t in topics && Seeds(s.values, registry, t) then registry[t] else Lookup(s.values, t)
    ensures |Seeding(s, topics, registry).emitted| >= |s.emitted|
    ensures Seeding(s, topics, registry).emitted[..|s.emitted|] == s.emitted
    ensures forall i :: |s.emitted| <= i < |Seeding(s, topics, registry).emitted| ==>
      Seeding(s, topics, registry).emitted[i] in topics && Seeding(s, topics, registry).emitted[i] in registry
    ensures Seeding(s, topics, registry).data == s.data && Seeding(s, topics, registry).kind == s.kind
    decreases |topics|
  {
    if topics != [] {
      var init := topics[..|topics| - 1];
      var last := topics[|topics| - 1];
      SeedingSpec(s, init, registry, t);
      var before := Seeding(s, init, registry);
      assert forall x :: x in init ==> x in topics;
      assert t in topics <==> t in init || t == last;
      if Seeds(before.values, registry, last) {
        assert (before.emitted + [last])[..|s.emitted|] == before.emitted[..|s.emitted|];
      }
    }
  }

  /** `update` with a falsy declaration changes nothing; otherwise it infers
      the type, stores the declaration, and seeds exactly the watched,
      registered topics whose cached value is falsy. */
  lemma MqttUpdatedSpec(s: SourceModel, src: Source, registry: map<string, Val>, t: string)
    requires SourceOk(s)
    ensures !IsTruthy(src) ==> MqttUpdated(s, src, registry) == s
    ensures IsTruthy(src) ==>
      && MqttUpdated(s, src, registry).data == src
      && MqttUpdated(s, src, registry).kind == InferType(src, s.kind)
      && Lookup(MqttUpdated(s, src, registry).values, t) ==
           (if t in GetTopics(src) && Seeds(s.values, registry, t) then registry[t] else Lookup(s.values, t))
  {
    if IsTruthy(src) {
      SeedingSpec(s.(data := src, kind := InferType(src, s.kind)), GetTopics(src), registry, t);
    }
  }

  class TopicSource {
    var data: Source
    /** `type`. */
    var kind: Option<SourceType>
    var values: Dict<Val>
    var emitted: seq<string>

    function Model(): SourceModel
      reads this
    {
      SourceModel(data, kind, values, emitted)
    }

    ghost predicate Valid()
      reads this
    {
      SourceOk(Model())
    }

    constructor(src: Source, registry: map<string, Val>)
      ensures Valid() && Model() == NewBinding(src, registry)
    {
      data, kind, values, emitted := Missing, None, Empty(), [];
      new;
      Update(src, registry);
    }

    /** `getTopics()`. */
    function Topics(): seq<string>
      reads this
    {
      GetTopics(data)
    }

    /** `hasTopic(topic)`. */
    predicate HasTopic(topic: string)
      reads this
    {
      topic in Topics()
    }

    method SetTopic(topic: string, value: Val)
      requires Valid()
      modifies this
      ensures Valid() && Model() == Guarded(old(Model()), topic, value)
    {
      if !HasTopic(topic) {
        return;
      }
      values := values.Put(topic, value);
      emitted := emitted + [topic];
    }

    method Update(src: Source, registry: map<string, Val>)
      requires Valid()
      modifies this
      ensures Valid() && Model() == MqttUpdated(old(Model()), src, registry)
    {
      if !IsTruthy(src) {
        return;
      }
      if src.Text? {
        kind := Some(SingleType);
      }
      if src.Fields? || src.List? {
        kind := Some(FieldType);
      }
      if src.List? {
        kind := Some(ListType);
      }
      data := src;
      ghost var start := Model();
      var topics := Topics();
      for i := 0 to |topics|
        invariant Model() == Seeding(start, topics[..i], registry)
      {
        assert topics[..i + 1][..i] == topics[..i];
        var t := topics[i];
        if t in registry && !Truthy(Lookup(values, t)) {
          values := values.Put(t, registry[t]);
          emitted := emitted + [t];
        }
      }
      assert topics[..|topics|] == topics;
    }
  }
}
