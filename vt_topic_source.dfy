/** The source binding of a derived topic (server/lib/VirtualTopic/TopicSource.js):
    the raw declaration, the inferred `type`, and the cache of the latest
    value per topic. Every write to the cache signals `source-update` to the
    owning topic; `emitted` records those signals in order. */
module VirtualTopicSource {
  import opened Js
  import opened Dict
  import opened Sources

  /** The constructor: `update(sourceData)` on an empty cache. (The store
      query it starts is modelled by `VirtualTopic.Topic.Seed`.) */
  function NewSource(src: Source): SourceModel {
    SourceModel(src, InferType(src, None), Empty(), [])
  }

  /** `update`: only `type` and `data` change; nothing cached is dropped. */
  function Updated(s: SourceModel, src: Source): SourceModel {
    s.(data := src, kind := InferType(src, s.kind))
  }

  /** `setTopic`: writes the cache whether or not the topic is watched. */
  function WithTopic(s: SourceModel, topic: string, value: Val): SourceModel {
    s.(values := s.values.Put(topic, value), emitted := s.emitted + [topic])
  }

  /** A redeclaration keeps every cached value and sends no signal. */
  lemma UpdatedKeepsValues(s: SourceModel, src: Source, t: string)
    ensures Updated(s, src).values == s.values && Updated(s, src).emitted == s.emitted
    ensures Watches(Updated(s, src), t) <==> t in GetTopics(src)
  {
  }

  /** `setTopic` caches exactly the one value, signals exactly once, and
      leaves the declaration alone; it writes even an unwatched topic, and
      keeps the cache a well-formed dictionary. */
  lemma WithTopicSpec(s: SourceModel, topic: string, value: Val, other: string)
    ensures SourceOk(s) ==> SourceOk(WithTopic(s, topic, value))
    ensures Lookup(WithTopic(s, topic, value).values, topic) == value
    ensures other != topic ==> Lookup(WithTopic(s, topic, value).values, other) == Lookup(s.values, other)
    ensures |WithTopic(s, topic, value).emitted| == |s.emitted| + 1
    ensures WithTopic(s, topic, value).data == s.data && WithTopic(s, topic, value).kind == s.kind
  {
    if SourceOk(s) {
      PutWf(s.values, topic, value);
    }
  }

  class TopicSource {
    var data: Source
    /** `type`. */
    var kind: Option<SourceType>
    var values: Dict<Val>
    var emitted: seq<string>

    function Model(): SourceModel
      reads this
    {
      SourceModel(data, kind, values, emitted)
    }

    ghost predicate Valid()
      reads this
    {
      SourceOk(Model())
    }

    constructor(src: Source)
      ensures Valid() && Model() == NewSource(src)
    {
      data, kind, values, emitted := src, InferType(src, None), Empty(), [];
    }

    /** `getTopics()`: with no argument it flattens `this.data`. */
    function Topics(): seq<string>
      reads this
    {
      GetTopics(data)
    }

    /** `hasTopic(topic)`: `this.topics.includes(topic)`. */
    predicate HasTopic(topic: string)
      reads this
    {
      topic in Topics()
    }

    method SetTopic(topic: string, value: Val)
      modifies this
      ensures Model() == WithTopic(old(Model()), topic, value)
      ensures old(Valid()) ==> Valid()
    {
      WithTopicSpec(Model(), topic, value, topic);
      values := values.Put(topic, value);
      emitted := emitted + [topic];
    }

    method Update(src: Source)
      modifies this
      ensures Model() == Updated(old(Model()), src)
    {
      if src.Text? {
        kind := Some(SingleType);
      }
      if src.Fields? || src.List? {
        kind := Some(FieldType);
      }
      if src.List? {
        kind := Some(ListType);
      }
      data := src;
    }
  }
}
