/** The raw topic registry (server/lib/Mqtt/index.js): the `topics` Proxy,
    whose `set` stores a new topic or updates the one already stored, the
    `topic-added` / `topic-updated` events and their re-emission under the
    topic's own name, `addTopic`, and the `message` handler. */
module MqttRegistry {
  import opened Js
  import opened MqttHistory
  import opened VirtualTopic
  import VirtualTopics
  import opened RawTopic

  /** `topic-added`, `topic-updated`, and the event named after the topic
      that each of their listeners emits. */
  datatype MqttEvent = Added(key: string) | Updated(key: string) | Announced(key: string)

  /** Each topic's history, and the events emitted. */
  datatype RegistryModel = RegistryModel(histories: map<string, seq<Entry>>, events: seq<MqttEvent>)

  /** The Proxy `set` with a topic whose history is `incoming`: an unseen
      name stores it and fires `topic-added`; a known name prepends the new
      topic's value to the stored history and fires `topic-updated`, unless
      the update raised on the way. */
  function Stored(r: RegistryModel, topic: string, incoming: seq<Entry>, now: int, thrown: bool): RegistryModel {
    if topic !in r.histories then
      RegistryModel(r.histories[topic := incoming], r.events + [Added(topic), Announced(topic)])
    else
      RegistryModel(r.histories[topic := Prepended(r.histories[topic], Latest(incoming), now)],
                    if thrown then r.events else r.events + [Updated(topic), Announced(topic)])
  }

  /** `addTopic(topic, value)`: a new topic holding just this value, stored. */
  function AddedTopic(r: RegistryModel, topic: string, value: Val, now: int, thrown: bool): RegistryModel {
    Stored(r, topic, Prepended([], value, now), now, thrown)
  }

  /** After `addTopic(t, v)` the topic `t` reads `v`, it is registered, no
      other name's history changes and no name disappears; a new name starts
      with one entry and a known one gains exactly one. */
  lemma AddedTopicSpec(r: RegistryModel, topic: string, value: Val, now: int, thrown: bool, other: string)
    ensures topic in AddedTopic(r, topic, value, now, thrown).histories
    ensures Latest(AddedTopic(r, topic, value, now, thrown).histories[topic]) == value
    ensures topic !in r.histories ==> AddedTopic(r, topic, value, now, thrown).histories[topic] == [Entry(value, now)]
    ensures topic in r.histories ==> AddedTopic(r, topic, value, now, thrown).histories[topic][1..] == r.histories[topic]
    ensures other != topic ==> (other in AddedTopic(r, topic, value, now, thrown).histories <==> other in r.histories)
    ensures other != topic && other in r.histories ==> AddedTopic(r, topic, value, now, thrown).histories[other] == r.histories[other]
  {
    PrependedSpec([], value, now);
    if topic in r.histories {
      PrependedSpec(r.histories[topic], value, now);
    }
  }

  /** The event log is a list of pairs: `topic-added` or `topic-updated`,
      then the same topic's own event. */
  ghost predicate Paired(events: seq<MqttEvent>) {
    && |events| % 2 == 0
    && forall i :: 0 <= i < |events| / 2 ==> !events[2 * i].Announced? && events[2 * i + 1] == Announced(events[2 * i].key)
  }

  /** Every re-emission follows the event it forwards, under the same name. */
  lemma StoredPaired(r: RegistryModel, topic: string, incoming: seq<Entry>, now: int, thrown: bool)
    requires Paired(r.events)
    ensures Paired(Stored(r, topic, incoming, now, thrown).events)
  {
    var e := Stored(r, topic, incoming, now, thrown).events;
    if e != r.events {
      var n := |r.events| / 2;
      forall i | 0 <= i < |e| / 2
        ensures !e[2 * i].Announced? && e[2 * i + 1] == Announced(e[2 * i].key)
      {
        if i < n {
          assert e[2 * i] == r.events[2 * i] && e[2 * i + 1] == r.events[2 * i + 1];
        } else {
          assert 2 * i == |r.events|;
        }
      }
    }
  }

  class Mqtt {
    const maxLength: Option<int>
    const maxAge: Option<int>
    var topics: map<string, MqttTopic>
    var events: seq<MqttEvent>

    /** Every topic is stored under its own name. */
    ghost predicate Valid()
      reads this, topics.Values
    {
      forall k :: k in topics ==> topics[k].name == k
    }

    ghost function Model(): RegistryModel
      reads this, topics.Values
    {
      RegistryModel(map k | k in topics :: topics[k].history, events)
    }

    constructor(maxLength: Option<int>, maxAge: Option<int>)
      ensures Valid() && Model() == RegistryModel(map[], [])
      ensures this.maxLength == maxLength && this.maxAge == maxAge
    {
      this.maxLength, this.maxAge, topics, events := maxLength, maxAge, map[], [];
    }

    /** The Proxy `set`. Updating a stored topic runs its `onUpdate` fan-out,
        whose raise ends the call before `topic-updated`; a new topic
        notifies no derived topic. */
    method Set(topic: string, incoming: MqttTopic, now: int, vts: VirtualTopics.Topics, rt: Runtime) returns (published: seq<Publish>, thrown: bool)
      requires Valid() && vts.Valid() && incoming.name == topic
      modifies this, topics.Values, vts
      ensures Valid() && vts.Valid()
      ensures Model() == Stored(old(Model()), topic, old(incoming.history), now, thrown)
      ensures topic in old(topics) ==>
        VirtualTopics.Spread(vts.data, published, thrown) == VirtualTopics.OnUpdate(old(vts.Model()), topic, Latest(old(incoming.history)), rt)
      ensures topic !in old(topics) ==> vts.Model() == old(vts.Model()) && published == [] && !thrown
    {
      if topic !in topics {
        Insert(topic, incoming);
        published, thrown := [], false;
      } else {
        published, thrown := UpdateStored(topic, incoming, now, vts, rt);
      }
    }

    /** `set` under an unseen name: store the topic, fire `topic-added`. */
    method Insert(topic: string, incoming: MqttTopic)
      requires Valid() && incoming.name == topic && topic !in topics
      modifies this
      ensures Valid()
      ensures Model() == Stored(old(Model()), topic, incoming.history, 0, false)
    {
      ghost var before := Model();
      topics, events := topics[topic := incoming], events + [Added(topic), Announced(topic)];
      assert Model().histories == before.histories[topic := incoming.history];
    }

    /** `set` under a known name: `update` the stored topic, then fire
        `topic-updated` unless the update raised. */
    method UpdateStored(topic: string, incoming: MqttTopic, now: int, vts: VirtualTopics.Topics, rt: Runtime) returns (published: seq<Publish>, thrown: bool)
      requires Valid() && vts.Valid() && topic in topics
      modifies this, topics[topic], vts
      ensures Valid() && vts.Valid() && topics == old(topics)
      ensures Model() == Stored(old(Model()), topic, old(incoming.history), now, thrown)
      ensures VirtualTopics.Spread(vts.data, published, thrown) == VirtualTopics.OnUpdate(old(vts.Model()), topic, Latest(old(incoming.history)), rt)
    {
      ghost var before := Model();
      var existing := topics[topic];
      published, thrown := existing.Update(incoming, now, vts, rt);
      if !thrown {
        events := events + [Updated(topic), Announced(topic)];
      }
      assert forall k :: k in topics && k != topic ==> topics[k] != existing;
      assert Model().histories == before.histories[topic := existing.history];
    }

    /** `addTopic(topic, value)`: a new `MqttTopic` for the value, assigned
        through the Proxy. */
    method AddTopic(topic: string, value: Val, now: int, vts: VirtualTopics.Topics, rt: Runtime) returns (published: seq<Publish>, thrown: bool)
      requires Valid() && vts.Valid()
      modifies this, topics.Values, vts
      ensures Valid() && vts.Valid()
      ensures Model() == AddedTopic(old(Model()), topic, value, now, thrown)
      ensures topic in old(topics) ==>
        VirtualTopics.Spread(vts.data, published, thrown) == VirtualTopics.OnUpdate(old(vts.Model()), topic, value, rt)
      ensures topic !in old(topics) ==> vts.Model() == old(vts.Model()) && published == [] && !thrown
    {
      var t := new MqttTopic(topic, value, now, maxLength, maxAge, rt);
      PrependedSpec([], value, now);
      published, thrown := Set(topic, t, now, vts, rt);
    }

    /** The client's `message` event: one `addTopic(topic, value)`. */
    method Message(topic: string, value: Val, now: int, vts: VirtualTopics.Topics, rt: Runtime) returns (published: seq<Publish>, thrown: bool)
      requires Valid() && vts.Valid()
      modifies this, topics.Values, vts
      ensures Valid() && vts.Valid()
      ensures Model() == AddedTopic(old(Model()), topic, value, now, thrown)
      ensures topic in old(topics) ==>
        VirtualTopics.Spread(vts.data, published, thrown) == VirtualTopics.OnUpdate(old(vts.Model()), topic, value, rt)
      ensures topic !in old(topics) ==> vts.Model() == old(vts.Model()) && published == [] && !thrown
    {
      published, thrown := AddTopic(topic, value, now, vts, rt);
    }
  }
}
