/** A derived topic's source declaration and the parts of it that both
    `TopicSource` implementations share: the three-way flattening into
    watched topics, the type inferred from the declaration's own JavaScript
    type, the key/topic entries `Object.keys(source)` walks, and the state
    of a binding. */
module Sources {
  import opened Js
  import opened Dict
  import Strings

  /** A declared source. `Fields` lists an object's entries in `Object.keys`
      order; `Missing` is `undefined`; `Callable` is a function value. */
  datatype Source =
    | Missing
    | Text(s: string)
    | List(items: seq<string>)
    | Fields(pairs: seq<(string, string)>)
    | Callable(code: string)

  /** The `type` a `TopicSource` records: 'single', 'field' or 'list'. */
  datatype SourceType = SingleType | FieldType | ListType

  /** `!!source` */
  predicate IsTruthy(src: Source) {
    match src
    case Missing => false
    case Text(s) => s != ""
    case _ => true
  }

  /** The `typeof` cascade of `update`: a string gives 'single', any object
      'field', and the array test comes last so it wins over 'field'. Any
      other value leaves the previous type in place. */
  function InferType(src: Source, previous: Option<SourceType>): Option<SourceType> {
    var afterString := if src.Text? then Some(SingleType) else previous;
    var afterObject := if src.Fields? || src.List? then Some(FieldType) else afterString;
    if src.List? then Some(ListType) else afterObject
  }

  lemma InferTypeCases(src: Source, previous: Option<SourceType>)
    ensures src.Text? ==> InferType(src, previous) == Some(SingleType)
    ensures src.List? ==> InferType(src, previous) == Some(ListType)
    ensures src.Fields? ==> InferType(src, previous) == Some(FieldType)
    ensures src.Missing? || src.Callable? ==> InferType(src, previous) == previous
  {
  }

  /** The field values of an object, in key order. */
  function FieldTopics(pairs: seq<(string, string)>): (r: seq<string>)
    ensures |r| == |pairs|
    ensures forall i :: 0 <= i < |pairs| ==> r[i] == pairs[i].1
    decreases |pairs|
  {
    if pairs == [] then [] else [pairs[0].1] + FieldTopics(pairs[1..])
  }

  /** `getTopics()`: the flattened list of watched topic names. */
  function GetTopics(src: Source): seq<string> {
    match src
    case List(items) => items
    case Text(s) => [s]
    case Fields(pairs) => FieldTopics(pairs)
    case _ => []
  }

  /** For a field object, a topic is watched iff some field maps to it: the
      values count, the field names do not. */
  lemma {:induction false} FieldWatched(pairs: seq<(string, string)>, t: string)
    ensures t in GetTopics(Fields(pairs)) <==> exists i :: 0 <= i < |pairs| && pairs[i].1 == t
  {
    var r := FieldTopics(pairs);
    if t in r {
      var i :| 0 <= i < |r| && r[i] == t;
      assert pairs[i].1 == t;
    }
    if exists i :: 0 <= i < |pairs| && pairs[i].1 == t {
      var i :| 0 <= i < |pairs| && pairs[i].1 == t;
      assert r[i] == t;
    }
  }

  /** A topic is watched by a single-topic source iff it is that topic, and by
      a list iff it is listed; `undefined` and functions watch nothing. */
  lemma WatchedCases(src: Source, t: string)
    ensures src.Text? ==> (t in GetTopics(src) <==> t == src.s)
    ensures src.List? ==> (t in GetTopics(src) <==> t in src.items)
    ensures src.Missing? || src.Callable? ==> t !in GetTopics(src)
  {
  }

  /** `String(source)`, the key `values[source]` looks up. */
  function KeyText(src: Source): string {
    match src
    case Missing => "undefined"
    case Text(s) => s
    case List(items) => Strings.Join(items, ",")
    case Fields(_) => "[object Object]"
    case Callable(code) => code
  }

  /** The `[f, source[f]]` entries `Object.keys(source).forEach` visits: an
      object's own entries, a string's or an array's indices. */
  function Entries(src: Source): seq<(string, string)> {
    match src
    case Fields(pairs) => pairs
    case Text(s) => seq(|s|, i requires 0 <= i < |s| => (Strings.NatText(i), [s[i]]))
    case List(items) => seq(|items|, i requires 0 <= i < |items| => (Strings.NatText(i), items[i]))
    case _ => []
  }

  /** The topic of the last entry named `f`: the one whose write survives. */
  function FieldTopic(entries: seq<(string, string)>, f: string): (r: Option<string>)
    ensures r.Some? <==> exists i :: 0 <= i < |entries| && entries[i].0 == f
    decreases |entries|
  {
    if entries == [] then None
    else
      var last := entries[|entries| - 1];
      if last.0 == f then Some(last.1) else FieldTopic(entries[..|entries| - 1], f)
  }

  /** Index keys are digit strings, so a string or an array source never
      names a field such as "humidity". */
  lemma {:induction false} IndexEntriesNameNoField(src: Source, f: string)
    requires src.Text? || src.List?
    requires exists k :: 0 <= k < |f| && !('0' <= f[k] <= '9')
    ensures FieldTopic(Entries(src), f).None?
  {
  }

  /** The state of a source binding, in either `TopicSource` class: `data`,
      `type`, the `values` cache and the topics of the `update` signals sent,
      one per cache write, in order. */
  datatype SourceModel = SourceModel(data: Source, kind: Option<SourceType>, values: Dict<Val>, emitted: seq<string>)

  ghost predicate SourceOk(s: SourceModel) {
    s.values.Wf()
  }

  /** `hasTopic(topic)`: `this.topics.includes(topic)`. */
  predicate Watches(s: SourceModel, topic: string) {
    topic in GetTopics(s.data)
  }
}
