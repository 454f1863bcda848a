# node-mqtt-transponder core, modelled in Dafny

node-mqtt-transponder listens to an MQTT broker and keeps each raw topic it
sees as a `MqttTopic`: a newest-first value history, swept by age and by
length. Derived ("virtual") topics are declared in `virtualtopics.json`.
Each one has a source binding (one topic, a list of topics, or a
field → topic object) and a calculator (average, dew point, absolute
humidity, wet bulb, ...). Whenever a raw topic receives a value, every
derived topic whose source names it stores the value, runs its calculator,
and publishes the rounded result. The package also has:

- a list of excluded topic names;
- the raw-topic calculators, which publish through their parent;
- the openSenseMap uploader, which parses its sensor list from
  configuration, stores inbound readings, and uploads the sensors that are
  due;
- the data transforms of the ventilation-log route, which turn window
  contact series into opening intervals with `h:mm:ss` durations.

The model keeps the code's structure, file by file. Where its behaviour
departs from the code's, the Findings and Left out sections below say so.

- Classes whose fields the code updates in place are Dafny classes. Their
  methods are proved against pure functions of the old state (`Model()`).
- The pure helpers are functions, with lemmas stating what they promise.
- Loops are `for` loops with invariants.
- JavaScript values are the datatype `Js.Val`, with JavaScript's
  truthiness.
- Plain objects used as dictionaries keep their keys in insertion order
  (`Dict.Dict`).
- EventEmitter events become explicit calls plus logs of the events
  emitted. MQTT publishes are returned as `Publish` records, in order.
- Foreign functions are fields of a `Js.Runtime` parameter: number parsing
  and formatting, `toPrecision` for an accepted precision, md5, `Date`, and
  the psychrometric formulas past their argument checks. The checks that
  make them raise are modelled.
- Clocks (`Date.now()`) and store query results are parameters.

The model follows the code as written, including three behaviours a reader
might not expect:

- The code does not consult the exclude list before it stores an inbound
  message. The client forwards every message to `addTopic`.
- The code passes the payload on as the raw text `buffer.toString()`. It
  does not parse it into a number.
- `clearHistoryByLength` keeps `maxLength - 1` entries, not `maxLength`.

## Model

| member | source | states |
|---|---|---|
| Excludes.Without | server/lib/Mqtt/Excludes.js:58 | the filter keeps exactly the names other than the removed one, and never grows the list |
| Excludes.WithoutSubseq | server/lib/Mqtt/Excludes.js:58 | removing keeps the remaining names in their original order |
| Excludes.WithoutAbsent | server/lib/Mqtt/Excludes.js:58 | removing a name that is not listed changes nothing |
| Excludes.WithoutNoDup | server/lib/Mqtt/Excludes.js:58 | removing keeps a duplicate-free list duplicate-free |
| Excludes.AppendNoDup | server/lib/Mqtt/Excludes.js:44-49 | pushing a name the list lacks keeps it duplicate-free |
| Excludes.TopicExcludes.constructor | server/lib/Mqtt/Excludes.js:5-15 | a new exclude list is empty |
| Excludes.TopicExcludes.Add | server/lib/Mqtt/Excludes.js:41-52 | resolves true iff the name was absent; an absent name is appended and nothing else changes; a listed name leaves the list unchanged; afterwards the list contains the name and stays duplicate-free |
| Excludes.TopicExcludes.Remove | server/lib/Mqtt/Excludes.js:54-64 | every occurrence of the name goes, the rest keep their order, duplicate-freedom is kept, and the call always resolves true |
| MqttHistory.PrependedSpec | server/lib/Mqtt/Topic.js:71-77 | setting a value adds exactly one entry, in front, keeps the older entries in order, and the getter then reads the value just set |
| MqttHistory.KeepNewerThan | server/lib/Mqtt/Topic.js:44 | the age filter keeps exactly the entries strictly newer than the cutoff |
| MqttHistory.KeepNewerThanSubseq | server/lib/Mqtt/Topic.js:44 | the age filter never reorders or invents entries |
| MqttHistory.KeepNewerThanAll | server/lib/Mqtt/Topic.js:44 | when every entry is newer than the cutoff, all are kept |
| MqttHistory.ByAgeSpec | server/lib/Mqtt/Topic.js:39-45 | -1 turns the age filter off; otherwise exactly the entries newer than `now - maxAge * 1000` survive, in order |
| MqttHistory.ByLengthSpec | server/lib/Mqtt/Topic.js:47-52 | -1 turns the length filter off; a positive bound keeps the first `maxLength - 1` entries, or all when there are fewer |
| MqttHistory.ByLengthSubseq | server/lib/Mqtt/Topic.js:47-52 | the length filter keeps a subsequence |
| MqttHistory.ByAgeSubseq | server/lib/Mqtt/Topic.js:39-45 | the age filter keeps a subsequence, NaN settings included |
| MqttHistory.SweptSubseq | server/lib/Mqtt/Topic.js:27-37 | the sweep never fabricates or reorders entries |
| MqttHistory.SweptKeepsNewest | server/lib/Mqtt/Topic.js:27-37 | the sweep empties no non-empty history; when both filters drop everything, exactly the former newest entry remains |
| MqttHistory.SweptBound | server/lib/Mqtt/Topic.js:27-37 | after a sweep with a positive length bound, at most that many entries remain |
| MqttHistory.SweptIdempotent | server/lib/Mqtt/Topic.js:27-37 | with the length bound off or positive, a second sweep at the same instant changes nothing |
| MqttHistory.ByAgeStable | server/lib/Mqtt/Topic.js:39-45 | a prefix of the age filter's output passes the filter again unchanged |
| MqttHistory.ByLengthStable | server/lib/Mqtt/Topic.js:47-52 | with the bound off or positive, a non-empty length-filtered history passes the filter again unchanged |
| RawTopic.MqttTopic.constructor | server/lib/Mqtt/Topic.js:4-21 | a new topic keeps its name, the md5 hash of the name, both parsed limits, and a history of just the initial value (the listener is registered after the value is assigned) |
| RawTopic.MqttTopic.OnUpdate | server/lib/Mqtt/Topic.js:54-65 | the derived-topic registry ends as the fan-out `VirtualTopics.OnUpdate` of this topic's name and current value; its keys and events are unchanged |
| RawTopic.MqttTopic.SetValue | server/lib/Mqtt/Topic.js:71-77 | the value goes in front of the history with the current time, and the `update` event runs the fan-out with that value |
| RawTopic.MqttTopic.Update | server/lib/Mqtt/Topic.js:23-25 | `update(other)` sets this topic to the other topic's current value, with the same fan-out |
| RawTopic.MqttTopic.ClearHistoryByAge | server/lib/Mqtt/Topic.js:39-45 | the history becomes the age filter of the old history |
| RawTopic.MqttTopic.ClearHistoryByLength | server/lib/Mqtt/Topic.js:47-52 | the history becomes the length filter of the old history |
| RawTopic.MqttTopic.ClearHistory | server/lib/Mqtt/Topic.js:27-37 | the history becomes the sweep of the old history |
| MqttRegistry.AddedTopicSpec | server/lib/Mqtt/index.js:53-58 | after `addTopic(t, v)` topic t reads v; a new name holds exactly one entry, a known one gains exactly one in front; every other name and its history are unchanged |
| MqttRegistry.StoredPaired | server/lib/Mqtt/index.js:13-34 | every `topic-added`/`topic-updated` is directly followed by its re-emission under the topic's own name |
| MqttRegistry.Mqtt.constructor | server/lib/Mqtt/index.js:5-38 | a new registry holds no topics and has emitted nothing |
| MqttRegistry.Mqtt.Set | server/lib/Mqtt/index.js:25-38 | an unseen name stores the topic and fires `topic-added` with no fan-out; a known name gets the incoming value prepended, runs the fan-out `VirtualTopics.OnUpdate`, and fires `topic-updated` unless the fan-out raised |
| MqttRegistry.Mqtt.Insert | server/lib/Mqtt/index.js:29-31 | an unseen name is stored with its history and `topic-added` plus its re-emission are logged |
| MqttRegistry.Mqtt.UpdateStored | server/lib/Mqtt/index.js:32-35 | the stored topic gets the update and its fan-out; the events are logged only if nothing raised |
| MqttRegistry.Mqtt.AddTopic | server/lib/Mqtt/index.js:53-58 | `addTopic` equals the Proxy assignment of a fresh one-entry topic, with the fan-out when the name is known |
| MqttRegistry.Mqtt.Message | server/lib/Mqtt/index.js:41 | an inbound message is exactly one `addTopic(topic, value)` |
| Sources.InferTypeCases | server/lib/Mqtt/TopicSource.js:53-55 | a string gives 'single', an array 'list', an object 'field'; `undefined` and functions keep the previous type |
| Sources.FieldTopics | server/lib/Mqtt/TopicSource.js:84-85 | an object's watched topics are its field values, in key order, one per field |
| Sources.FieldWatched | server/lib/VirtualTopic/TopicSource.js:69-70 | for an object source, a topic is watched iff some field maps to it; the field names do not count |
| Sources.WatchedCases | server/lib/VirtualTopic/TopicSource.js:59-73 | a string source watches exactly itself, a list exactly its items, and `undefined` or a function nothing |
| Sources.FieldTopic | server/lib/Mqtt/Calculators/WetBulb.js:20-21 | a field is copied iff some source entry names it |
| Sources.IndexEntriesNameNoField | server/lib/VirtualTopic/Calculators/AbsoluteHumidity.js:17-18 | a string or array source has only digit keys, so it never supplies a named field such as `humidity` |
| MqttTopicSource.Guarded | server/lib/Mqtt/TopicSource.js:41-47 | `setTopic` keeps the cache a well-formed dictionary |
| MqttTopicSource.Seeding | server/lib/Mqtt/TopicSource.js:61-68 | the seeding loop keeps the cache a well-formed dictionary |
| MqttTopicSource.MqttUpdated | server/lib/Mqtt/TopicSource.js:49-71 | `update` keeps the cache a well-formed dictionary |
| MqttTopicSource.NewBinding | server/lib/Mqtt/TopicSource.js:2-35 | a new binding's cache is a well-formed dictionary |
| MqttTopicSource.GuardedSpec | server/lib/Mqtt/TopicSource.js:41-47 | an unwatched topic changes nothing; a watched one caches exactly that value and signals once; other topics and the declaration are untouched |
| MqttTopicSource.SeedingSpec | server/lib/Mqtt/TopicSource.js:61-68 | a topic takes the registry's value iff it is listed, registered and cached falsy; a truthy cached value is kept; every new signal names a listed, registered topic; the declaration is untouched |
| MqttTopicSource.MqttUpdatedSpec | server/lib/Mqtt/TopicSource.js:49-71 | a falsy declaration changes nothing; otherwise the type is inferred, the declaration stored, and exactly the watched, registered, falsy-cached topics are seeded |
| MqttTopicSource.TopicSource.constructor | server/lib/Mqtt/TopicSource.js:2-35 | a new binding is `update(sourceData)` on an empty cache |
| MqttTopicSource.TopicSource.SetTopic | server/lib/Mqtt/TopicSource.js:41-47 | the new state is the guarded write of the old one |
| MqttTopicSource.TopicSource.Update | server/lib/Mqtt/TopicSource.js:49-71 | the new state is `update` of the old one, its loop proved against the seeding function |
| VirtualTopicSource.UpdatedKeepsValues | server/lib/VirtualTopic/TopicSource.js:46-56 | a redeclaration keeps every cached value, sends no signal, and then watches exactly what the new declaration names |
| VirtualTopicSource.WithTopicSpec | server/lib/VirtualTopic/TopicSource.js:42-44 | `setTopic` caches exactly the value, even for an unwatched topic; it leaves other topics alone, signals exactly once, and keeps the declaration |
| VirtualTopicSource.TopicSource.constructor | server/lib/VirtualTopic/TopicSource.js:2-36 | a new binding holds the declaration, its inferred type, and an empty cache |
| VirtualTopicSource.TopicSource.SetTopic | server/lib/VirtualTopic/TopicSource.js:42-44 | the cache gains the value and the signal is logged |
| VirtualTopicSource.TopicSource.Update | server/lib/VirtualTopic/TopicSource.js:46-56 | only `type` and `data` change |
| CalcBase.AssignedField | server/lib/Mqtt/Calculators/WetBulb.js:20-21 | after the field copy, a writable property holds the cached value of the topic its last entry names, or its old value; a read-only accessor ignores the write, and `value` is left to its setter |
| CalcBase.AssignedKeys | server/lib/VirtualTopic/Calculators/DewPoint.js:17-18 | the copy touches no property that no entry names |
| CalcBase.CopyFields | server/lib/VirtualTopic/Calculators/AbsoluteHumidity.js:17-18 | the `forEach` copy loop computes the field copy, setter included, and stops at the first raise |
| CalcBase.SetterStores | server/lib/VirtualTopic/Calculators/Calculator.js:17-22 | the `value` setter stores a non-number unchanged; a number is stored as its `toPrecision` text, and the setter raises exactly when `toPrecision` refuses the precision |
| CalcBase.CopiedProps | server/lib/Mqtt/Calculators/WetBulb.js:20-21 | a copy that does not raise leaves the plain properties of `Assigned`; it only appends to what was handed on; a raise needs an entry named `value` whose cached value is a number |
| CalcBase.CopiedValue | server/lib/VirtualTopic/Calculators/Calculator.js:17-26 | without a `value` entry the copy leaves `_value`, the hand-ons and the raise alone; with one, a copy that does not raise ends holding the setter's rendering of the entry's value, and its last hand-on is that value |
| CalcBase.CopiedStops | server/lib/VirtualTopic/Calculators/AbsoluteHumidity.js:17-18 | once the copy raised, the remaining entries change nothing |
| CalcBase.PsychrometricChecks | server/lib/VirtualTopic/Psychrometrics.js:150-162 | a relative humidity outside [0, 1], or NaN, makes the wet bulb, dew point and humidity-ratio functions raise; a negative or NaN humidity ratio makes `GetMoistAirVolume` raise; in range each is its formula |
| Js.Rounded | server/lib/Mqtt/Calculators/Calculator.js:27-28 | `toPrecision` raises exactly for a finite number and a defined precision outside [1, 100]; NaN prints as `NaN` |
| CalcBase.ResetFieldIgnoresHistory | server/lib/Mqtt/Calculators/WetBulb.js:16-21 | a property reset before the copy reads the same whatever it held before |
| Js.Contribution | server/lib/VirtualTopic/Calculators/Average.js:17 | `parseFloat(v) \|\| 0` adds 0 for NaN and the parsed number otherwise |
| MqttCalculators.CatalogSpec | server/lib/Mqtt/Calculators/index.js:10-19 | the export table has eight distinct names; no other name yields a class; every modelled class is exported under exactly its own `name` |
| MqttCalculators.DensityIdentifier | server/lib/Mqtt/Calculators/MoistAirDensity.js:3-7 | `moistairdensity` is a class declared with the identifier `MoistAirVolume`, distinct from the class exported as `moistairvolume` |
| MqttCalculators.CalculatedPublishes | server/lib/Mqtt/Calculators/Calculator.js:26-35 | the copy's publishes come first, in order; an assigned number raises iff the copy raised or `toPrecision` refuses the parent's or the instance's precision, and otherwise publishes exactly its rounded text, which becomes `_value`; a call that assigns nothing adds nothing and raises iff its body did; `average` and `maptopic` copy nothing, `average` raises exactly for a non-list source, and a field calculator on an `undefined` source raises with nothing published |
| MqttCalculators.FreshDefaults | server/lib/Mqtt/Calculators/WetBulbHuman.js:9 | without a parent precision a new instance rounds to 4 digits; `wetbulbhuman` has `options.max`, or 42 when that is falsy |
| MqttCalculators.ListedCountFull | server/lib/Mqtt/Calculators/Average.js:28-36 | the count never exceeds the list, and reaches it iff every listed topic is cached |
| MqttCalculators.ListedIgnoresUnlisted | server/lib/Mqtt/Calculators/Average.js:28-33 | neither count nor sum depends on a topic the list does not name |
| MqttCalculators.StrictAverageSpec | server/lib/Mqtt/Calculators/Average.js:13-40 | the average raises unless the source is a list, assigns iff every listed topic is cached, and ignores unlisted topics |
| MqttCalculators.StrictAverageExample | server/lib/Mqtt/Calculators/Average.js:13-40 | two cached readings 2 and 4 average to 3 |
| MqttCalculators.MapTopicSpec | server/lib/Mqtt/Calculators/MapTopic.js:13-30 | the state is not touched before the assignment; a falsy cached value assigns nothing; `string-boolean` assigns 1 for 'true', 0 for 'false' and nothing otherwise; `string-float` assigns `parseFloat`; other transforms assign nothing |
| MqttCalculators.MoistAirDensitySpec | server/lib/Mqtt/Calculators/MoistAirDensity.js:13-24 | raises iff the copy raised; otherwise assigns iff the copied humidity is truthy, and then assigns it times 1000; of two calls that do not raise, neither depends on what was held before |
| MqttCalculators.ThreeInputsRead | server/lib/Mqtt/Calculators/WetBulb.js:16-21 | after the reset and copy, the three inputs do not depend on what the calculator held |
| MqttCalculators.MoistAirVolumeGate | server/lib/Mqtt/Calculators/MoistAirVolume.js:13-32 | assigns iff the copy did not raise, all three cached inputs are truthy (the text `"0"` is truthy) and `GetMoistAirVolume` accepts the humidity, passed unscaled with the pressure times 100; raises iff the copy did or the formula did; a negative or NaN humidity raises |
| MqttCalculators.WetBulbGate | server/lib/Mqtt/Calculators/WetBulb.js:13-32 | assigns iff the copy did not raise, all three inputs are truthy and the formula accepts them, passing the humidity divided by 100 and the pressure times 100; raises iff the copy did or the formula did; a humidity outside [0, 100] % raises |
| MqttCalculators.MagicExample | server/lib/Mqtt/Calculators/WetBulbHuman.js:37-39 | `_magic(15, 20)` with max 42 is 47 |
| MqttCalculators.WetBulbHumanSpec | server/lib/Mqtt/Calculators/WetBulbHuman.js:14-35 | raises iff the copy raised; otherwise assigns iff both raw fields and both parsed numbers are truthy, then assigns `T + (max - wbT)`; `max` is the constructor's unless the source names a `max` field |
| MqttCalculators.Calculator.constructor | server/lib/Mqtt/Calculators/Calculator.js:4-12 | a new instance has precision 4, the class's `name`, and no value |
| MqttCalculators.Calculator.Calculate | server/lib/Mqtt/Calculators/Calculator.js:26-35 | one `calculate()` with the setter: the new state, every value it published and whether it raised are those of `Calculated` |
| MqttCalculators.StrictAverageOf | server/lib/Mqtt/Calculators/Average.js:28-40 | the `forEach` loop computes the strict average |
| VirtualCalculators.CatalogNames | server/lib/VirtualTopic/Topic.js:117-120 | every class is found under its own `name`, and a name found yields the class carrying that name |
| VirtualCalculators.Calculator.constructor | server/lib/VirtualTopic/Calculators/Average.js:5-10 | a new instance has the class's `name`, no properties and no value |
| VirtualCalculators.Calculator.Calculate | server/lib/VirtualTopic/Calculators/Calculator.js:17-26 | one `calculate()` with the setter: the new state, every value it elevated and whether it raised are those of `Calculated` |
| VirtualCalculators.AverageOf | server/lib/VirtualTopic/Calculators/Average.js:13-24 | the `forEach` over every cached topic computes the lenient average |
| VirtualCalculators.SumBounds | server/lib/VirtualTopic/Calculators/Average.js:16-19 | bounds on every contribution bound the sum |
| VirtualCalculators.MeanBounds | server/lib/VirtualTopic/Calculators/Average.js:24 | dividing a bounded sum by a positive count bounds the mean |
| VirtualCalculators.AverageBetween | server/lib/VirtualTopic/Calculators/Average.js:13-24 | the average is assigned iff some value is cached, and lies between the least and greatest contribution |
| VirtualCalculators.DewPointGate | server/lib/VirtualTopic/Calculators/DewPoint.js:13-27 | assigns iff the copy did not raise, both inputs are truthy and `GetTDewPointFromRelHum` accepts the humidity, passed from percent; raises iff the copy did or the formula did; a humidity outside [0, 100] % raises; the inputs do not depend on what was held before |
| VirtualCalculators.AbsoluteHumidityPressure | server/lib/VirtualTopic/Calculators/AbsoluteHumidity.js:14-20 | `pressure` comes from the source when it has such a field; otherwise it carries over, so a calculator that never had one never assigns |
| VirtualCalculators.AbsoluteHumidityGate | server/lib/VirtualTopic/Calculators/AbsoluteHumidity.js:13-29 | assigns iff the copy did not raise, all three inputs are truthy and `GetHumRatioFromRelHum` accepts them, and then assigns the humidity ratio times 100 with humidity and pressure rescaled; raises iff the copy did or the formula did; a humidity outside [0, 100] % raises |
| VirtualCalculators.MapTopicBinary | server/lib/VirtualTopic/Calculators/MapTopic.js:12-16 | always assigns: 1 exactly for the cached string 'true', 0 for anything else |
| VirtualCalculators.CalculatedElevates | server/lib/VirtualTopic/Calculators/Calculator.js:17-26 | the copy's elevations come first, in order; an assigned number raises iff the copy raised or `toPrecision` refuses `parent.data.precision \|\| 4`, and otherwise elevates exactly its rounded text, which becomes `_value`; a call that assigns nothing adds nothing and raises iff its body did; `average` and `maptopic` copy nothing and never raise, and a field calculator on an `undefined` source raises with nothing elevated |
| VirtualTopic.PutAllSpec | server/lib/VirtualTopic/Topic.js:42 | each copied key holds its declared value; every other key keeps its value |
| VirtualTopic.OptionsCopied | server/lib/VirtualTopic/Topic.js:34-46 | every declared key other than `source` and `calculator` is copied; `hash` is set unless declared; other keys are untouched |
| VirtualTopic.ThunksStored | server/lib/VirtualTopic/Topic.js:45-46 | after `update`, `data.source` and `data.calculator` are the two accessor functions |
| VirtualTopic.CalculatorCases | server/lib/VirtualTopic/Topic.js:117-131 | an unknown name changes nothing; no calculator or a differently named one gives a fresh instance; the same name keeps the instance |
| VirtualTopic.DeclaredThunked | server/lib/VirtualTopic/Topic.js:6-58 | new and redeclared topics hold the accessor functions, and their cache stays well formed |
| VirtualTopic.RedeclarationKeepsCache | server/lib/VirtualTopic/Topic.js:105-111 | a redeclaration updates the binding in place: the cache and value are kept, and the binding watches what the new declaration names |
| VirtualTopic.PublishesWhenTruthy | server/lib/VirtualTopic/Topic.js:74-91 | the setter stores the value and publishes `value.toString()` under `data.topic` exactly when the value is truthy |
| VirtualTopic.ElevationsSpec | server/lib/VirtualTopic/Topic.js:88-91 | elevating a run of values changes only `_value`, which ends as the last of them; exactly the truthy ones are published, in order, under `data.topic`; nothing raises |
| VirtualTopic.CalculationKeeps | server/lib/VirtualTopic/Topic.js:70-72 | a calculation changes neither `data` nor the binding, as written or corrected; the corrected one raises exactly when a calculator is present and its `calculate()` raised |
| VirtualTopic.SourceTopicSetSpec | server/lib/VirtualTopic/Topic.js:66-68 | `setSourceTopic` caches the value, signals once, and keeps `data` and the declaration; without a calculator nothing else changes (corrected `calculate()`); with one, the calculator runs once on the updated cache, every truthy value it elevates is published in order, the last one becomes `_value`, and the call raises exactly when the calculator did |
| VirtualTopic.SeededSpec | server/lib/VirtualTopic/TopicSource.js:75-100 | a non-empty query result sets the topic to its last row; an empty or failed one changes nothing; nothing propagates a raise |
| VirtualTopic.Topic.constructor | server/lib/VirtualTopic/Topic.js:6-32 | a new topic is `update(topicData)` on an empty `data`, with a fresh binding |
| VirtualTopic.Topic.Update | server/lib/VirtualTopic/Topic.js:34-58 | the new state is `UpdatedTopic` of the old one |
| VirtualTopic.Topic.SetCalculator | server/lib/VirtualTopic/Topic.js:117-131 | the calculator becomes `WithCalculator` of the old one; `data` and value are unchanged |
| VirtualTopic.Topic.SetSourceTopic | server/lib/VirtualTopic/Topic.js:66-68 | the new state and publishes are `SourceTopicSet` of the old state |
| VirtualTopic.Topic.Calculate | server/lib/VirtualTopic/Topic.js:70-72 | the new state is the corrected `Calculation`, which does nothing without a calculator |
| VirtualTopic.Topic.CalculateAsWritten | server/lib/VirtualTopic/Topic.js:70-72 | the new state is `CalculationAsWritten`, which raises without a calculator |
| VirtualTopic.Topic.Elevate | server/lib/VirtualTopic/Calculators/Calculator.js:17-26 | the calculator's step, then the parent's setter for every value it elevated, in order, give `Elevated` |
| VirtualTopic.Topic.SetValue | server/lib/VirtualTopic/Topic.js:88-91 | the new state and publishes are `WithValue` |
| VirtualTopic.Topic.Seed | server/lib/VirtualTopic/TopicSource.js:87-96 | one settled query gives `Seeded` |
| VirtualTopic.NewCalculator | server/lib/VirtualTopic/Topic.js:117-123 | a known name gives a fresh calculator with that class's name; an unknown one gives none |
| VirtualTopic.ApplyOptions | server/lib/VirtualTopic/Topic.js:37-46 | the `data` part of `update` is `WithOptions` |
| VirtualTopic.CopyOptions | server/lib/VirtualTopic/Topic.js:42 | the key copy loop is `PutAll` |
| VirtualTopics.NoTopics | server/lib/VirtualTopic/Topics.js:15 | an empty registry is well formed |
| VirtualTopics.StoredAsWritten | server/lib/VirtualTopic/Topics.js:21-31 | the Proxy `set` as written keeps `keys` distinct and equal to the stored names |
| VirtualTopics.Stored | server/lib/VirtualTopic/Topics.js:21-31 | the Proxy `set` as intended keeps `keys` distinct and equal to the stored names |
| VirtualTopics.NewTopicKey | server/lib/VirtualTopic/Topics.js:54-56 | `add` stores under the declared output name |
| VirtualTopics.AddedAsWritten | server/lib/VirtualTopic/Topics.js:54-57 | `add` as written keeps the registry well formed |
| VirtualTopics.Added | server/lib/VirtualTopic/Topics.js:54-57 | `add` keeps the registry well formed |
| VirtualTopics.LoadedAll | server/lib/VirtualTopic/Topics.js:37 | loading every declaration keeps the registry well formed |
| VirtualTopics.AddedSpec | server/lib/VirtualTopic/Topics.js:21-31 | a new name is appended to `keys` with a new topic and `topic-added`; a known name keeps its place, is updated from the declaration, and emits `topic-update`; no other topic changes |
| VirtualTopics.LoadedKeys | server/lib/VirtualTopic/Topics.js:34-39 | loading from nothing leaves exactly the declared names as `keys`, in first-declared order |
| VirtualTopics.DeclaredNamesSpec | server/lib/VirtualTopic/Topics.js:59-61 | the names in `keys` are exactly the declared ones, each once |
| VirtualTopics.RedeclaredFromData | server/lib/VirtualTopic/Topics.js:27 | updating from another topic's `data` leaves a binding that watches nothing, and keeps the calculator |
| VirtualTopics.RedeclarationDropsSource | server/lib/VirtualTopic/Topics.js:27 | as written, redeclaring a registered name makes it watch nothing and keeps its calculator |
| VirtualTopics.RedeclarationWatchesDeclared | server/lib/VirtualTopic/Topics.js:26-28 | as intended, a redeclared topic watches exactly the declared source |
| VirtualTopics.DuplicateDeclarationExample | server/lib/VirtualTopic/Topics.js:21-31 | the same declaration added twice watches nothing as written, and its topic as intended |
| VirtualTopics.NotifiedOk | server/lib/Mqtt/Topic.js:62-63 | one watcher's step keeps its cache well formed and its declaration, and equals `setSourceTopic` as written or as intended |
| VirtualTopics.NotifiedCaches | server/lib/VirtualTopic/Topic.js:66-72 | the write always lands in the cache; without a calculator it raises iff `calculate()` is the as-written one |
| VirtualTopics.Notify | server/lib/Mqtt/Topic.js:60-64 | the fan-out keeps the set of stored topics |
| VirtualTopics.NotifyStep | server/lib/Mqtt/Topic.js:60-64 | one more key visits that topic, unless a raise already ended the loop or the topic does not watch the name |
| VirtualTopics.OnUpdateAsWritten | server/lib/Mqtt/Topic.js:54-65 | the as-written fan-out keeps the set of stored topics |
| VirtualTopics.OnUpdate | server/lib/Mqtt/Topic.js:54-65 | the intended fan-out keeps the set of stored topics |
| VirtualTopics.NotifySpec | server/lib/Mqtt/Topic.js:60-64 | a topic that does not watch the name, or is not reached, is untouched; with no raise, each watcher got exactly one `setSourceTopic` |
| VirtualTopics.NotifyStops | server/lib/Mqtt/Topic.js:60-64 | once a step raised, the remaining topics are not visited |
| VirtualTopics.CalculatorlessWatcherAborts | server/lib/VirtualTopic/Topic.js:70-72 | as written, a watcher without a calculator raises and a later watcher never receives the value |
| VirtualTopics.CalculatorlessWatcherSkipped | server/lib/Mqtt/Topic.js:60-64 | as intended, the later watcher receives the value |
| VirtualTopics.Topics.constructor | server/lib/VirtualTopic/Topics.js:5-15 | a new registry is empty |
| VirtualTopics.Topics.Keys | server/lib/VirtualTopic/Topics.js:59-61 | `keys` lists exactly the stored names, each once |
| VirtualTopics.Topics.Set | server/lib/VirtualTopic/Topics.js:21-31 | the new state is the intended Proxy `set` |
| VirtualTopics.Topics.Add | server/lib/VirtualTopic/Topics.js:54-57 | the new state is `Added` |
| VirtualTopics.Topics.Load | server/lib/VirtualTopic/Topics.js:34-39 | the new state is `LoadedAll` |
| VirtualTopics.Topics.FanOut | server/lib/Mqtt/Topic.js:60-64 | the loop's result is the intended fan-out `OnUpdate`; keys and events are unchanged |
| VirtualTopics.Topics.Visit | server/lib/Mqtt/Topic.js:61-63 | one loop turn extends the fan-out by one key |
| OpenSenseMap.ParseSensor | server/lib/OpenSenseMap/index.js:22-33 | an entry gives a sensor iff it contains a colon; the sensor has no value and no timestamp yet |
| OpenSenseMap.KeptSpec | server/lib/OpenSenseMap/index.js:35 | the filter keeps exactly the present sensors, never more than there were entries |
| OpenSenseMap.ParseSensorsSpec | server/lib/OpenSenseMap/index.js:21-35 | exactly the entries with a colon become sensors, none with a value or timestamp, and no more sensors than entries |
| OpenSenseMap.PayloadSpec | server/lib/OpenSenseMap/index.js:55-65 | the upload lists exactly one measurement per due sensor, with that sensor's id and value |
| OpenSenseMap.StampedSpec | server/lib/OpenSenseMap/index.js:56-59 | only a due sensor's timestamp changes, to now; a sensor with a positive age is then not due again before `now + age` |
| OpenSenseMap.ZeroReadingDropped | server/lib/OpenSenseMap/index.js:58 | as written, a due sensor whose reading is 0 is neither sent nor stamped |
| OpenSenseMap.ZeroReadingSent | server/lib/OpenSenseMap/index.js:55-65 | as intended, a due zero reading is sent and stamped |
| OpenSenseMap.FirstWithTopic | server/lib/OpenSenseMap/index.js:93 | the picked index is the first sensor of that topic, or none when no sensor has it |
| OpenSenseMap.Assigned | server/lib/OpenSenseMap/index.js:84-95 | `message` keeps the number of sensors |
| OpenSenseMap.AssignedSpec | server/lib/OpenSenseMap/index.js:84-95 | an unconfigured topic changes nothing; otherwise only the first sensor of the topic gets the value, and only its value |
| OpenSenseMap.Box.constructor | server/lib/OpenSenseMap/index.js:4-50 | the sensors are the parsed configuration; id and token default to 'change!me' |
| OpenSenseMap.Box.SendAll | server/lib/OpenSenseMap/index.js:52-71 | every due sensor is stamped in order, and the upload of their measurements is made only when there is one |
| OpenSenseMap.Box.Message | server/lib/OpenSenseMap/index.js:84-95 | the sensors become `Assigned` with `parseFloat(buffer)` |
| VentilationLog.EdgesSubseq | server/lib/Server/routes/VentilationLog.js:286-300 | edge detection only drops rows: the kept rows are a subsequence |
| VentilationLog.EdgesAlternate | server/lib/Server/routes/VentilationLog.js:274-300 | on a 0/1 series the kept rows start with 0 and alternate, and end with the series' last reading; nothing is kept only if every reading is 1 |
| VentilationLog.ClockOfSpec | server/lib/Server/routes/VentilationLog.js:331-336 | minutes and seconds are below 60, and the three parts make up the distance to the whole second |
| VentilationLog.TwoDigits | server/lib/Server/routes/VentilationLog.js:337 | `('0' + n).slice(-2)` is two characters long |
| VentilationLog.DurationSymmetric | server/lib/Server/routes/VentilationLog.js:331 | the duration does not depend on the order of the two instants |
| VentilationLog.TwoDigitsValue | server/lib/Server/routes/VentilationLog.js:337 | a number below 100, padded, reads back as itself |
| VentilationLog.DurationRoundTrip | server/lib/Server/routes/VentilationLog.js:330-338 | the `h:mm:ss` text reads back as the whole seconds between the instants |
| VentilationLog.ClockTextSeconds | server/lib/Server/routes/VentilationLog.js:337 | a clock with minutes and seconds below 60 reads back as its seconds |
| VentilationLog.HoursTextSeconds | server/lib/Server/routes/VentilationLog.js:337 | the unpadded hours part still reads back |
| VentilationLog.DigitTextSeconds | server/lib/Server/routes/VentilationLog.js:337 | three digit texts joined by colons read back as hours, minutes and seconds |
| VentilationLog.ClockSplit | server/lib/Server/routes/VentilationLog.js:337 | splitting the joined text at colons gives back the three parts |
| VentilationLog.WithDurations | server/lib/Server/routes/VentilationLog.js:312-328 | `getDuration` keeps the number of rows |
| VentilationLog.GetDuration | server/lib/Server/routes/VentilationLog.js:312-328 | the in-place loop leaves the array as `WithDurations` of its old contents |
| VentilationLog.CloseAt | server/lib/Server/routes/VentilationLog.js:318-324 | one loop turn closes row i iff it reads 0 and the next reads 1, and touches no other row |
| VentilationLog.WithDurationsSpec | server/lib/Server/routes/VentilationLog.js:317-326 | only a 0-row followed by a 1-row changes, gaining the next row's time as end and a duration; topic, time and value never change |
| VentilationLog.EveryOpeningClosed | server/lib/Server/routes/VentilationLog.js:286-301 | on a 0/1 series every kept 0-row except possibly the last gets a duration |
| VentilationLog.ToIntervals | server/lib/Server/routes/VentilationLog.js:302-306 | the filter never adds records |
| VentilationLog.ToIntervalsFrom | server/lib/Server/routes/VentilationLog.js:302-306 | every output record comes from a row with that duration, time and topic |
| VentilationLog.DurationOf | server/lib/Server/routes/VentilationLog.js:321 | two valid dates give `calcDuration` of their milliseconds; an invalid date gives `NaN:aN:aN`, which does not read back as a duration |
| VentilationLog.DurationNonEmpty | server/lib/Server/routes/VentilationLog.js:302 | a duration text is never empty, so the `r.duration` filter keeps every annotated row |
| VentilationLog.KeepEdges | server/lib/Server/routes/VentilationLog.js:286-300 | the row loop keeps exactly `Edges` |
| VentilationLog.ProcessRows | server/lib/Server/routes/VentilationLog.js:285-306 | one topic is its edges, annotated in place, filtered |
| VentilationLog.ProcessData | server/lib/Server/routes/VentilationLog.js:281-309 | every topic is processed, and the topics keep their order |
| VentilationLog.ProcessKey | server/lib/Server/routes/VentilationLog.js:284-307 | one loop turn adds the next topic's intervals after those before it |
| VentilationLog.FlattenLength | server/lib/Server/routes/VentilationLog.js:340-345 | the flat list is as long as all topic lists together |
| VentilationLog.FlattenMembers | server/lib/Server/routes/VentilationLog.js:340-345 | a record is in the flat list iff it is in some topic's list |
| VentilationLog.FlattenSnoc | server/lib/Server/routes/VentilationLog.js:343 | one more topic appends its list at the end |
| VentilationLog.PushAll | server/lib/Server/routes/VentilationLog.js:343 | the inner `forEach` appends the rows in order |
| VentilationLog.FlatData | server/lib/Server/routes/VentilationLog.js:340-345 | `flatData` concatenates the topic lists in key order |
| VentilationLog.QueryWindowSpan | server/lib/Server/routes/VentilationLog.js:98-120 | a missing year is the current one and a missing day the first; a given month spans one month, December wrapping into January; a missing month spans twelve months from January |
| VentilationLog.Pad2Digits | server/lib/Server/routes/VentilationLog.js:118-120 | a number below 100, padded, is two digits |

## Findings

| source | as written | input that shows it | evidently intended | confidence | as-written member | corrected member |
|---|---|---|---|---|---|---|
| server/lib/VirtualTopic/Topics.js:27 | A second declaration under a known name updates the stored topic from the new topic's `data`. There, `source` and `calculator` are accessor functions. | The same declaration with source `'a/b'` added twice. The topic then watches nothing and keeps its old calculator. | Update from the declaration itself, so that the topic watches the declared source. | not executed | VirtualTopics.RedeclarationDropsSource | VirtualTopics.RedeclarationWatchesDeclared |
| server/lib/VirtualTopic/Topic.js:70-72 | `calculate()` calls the calculator unconditionally. A topic whose calculator name is missing or unknown raises a TypeError inside the `onUpdate` loop of server/lib/Mqtt/Topic.js:60-64. | Two topics watch the same raw topic, and the first has no calculator. The second topic never receives the value. | A topic without a calculator only caches the value, and the loop goes on. | not executed | VirtualTopics.CalculatorlessWatcherAborts | VirtualTopics.CalculatorlessWatcherSkipped |
| server/lib/OpenSenseMap/index.js:58 | The send guard tests the stored reading for truthiness. | A due sensor whose last reading is 0, for example 0 °C. It is never uploaded. | Skip only sensors that have no reading. | not executed | OpenSenseMap.ZeroReadingDropped | OpenSenseMap.ZeroReadingSent |

## Left out

- I/O:
  - Reading and writing `excludes.json` and `virtualtopics.json`.
  - The InfluxDB queries. Their results are parameters: `VirtualTopic.QueryResult`, and the rows of the ventilation route.
  - The MQTT client connection. An MQTT publish is returned as a record.
  - The openSenseMap HTTP client. The upload is returned as `OpenSenseMap.Post`.
- Timers:
  - the 500 ms history sweep;
  - the upload interval.

  Each timed call is a method the caller makes.
- `Date.now()` and `new Date(...)`: the current time is a parameter, and dates become milliseconds through `Js.Runtime.millis`, which is `None` for an invalid date.
- Logging and debug output.
- The psychrometric formulas past their argument checks, number parsing and formatting, the digits of `toPrecision` and md5: these are foreign functions in `Js.Runtime`. A formula may still raise after the checks (a result outside a range of validity, no convergence); its `None` result stands for that.
- The unit system: `SetUnitSystem(SI)` is taken as done, and the IP branches of the formulas are not modelled.
- Promise ordering:
  - Store queries are settled one at a time, in the order given.
  - The concurrent resolution of `getData`/`getSensorData` is not modelled.
- The ventilation route:
  - the HTTP routing;
  - `getSensorData`;
  - `transformToCSV` and `orderData`, whose sort helper is not part of this model.
- The `keys` getter of server/lib/Mqtt/index.js:64-66: it reads `this.data`, which the class never sets.
- VirtualTopics.Topics: stored topics are values (`TopicModel`), not shared objects. Aliasing of `Topic` objects between the registry and other holders, and their in-place update through a reference, are not modelled. `VirtualTopic.Topic` models a single object with its own methods.
- Inherited property names: the `!target[...]` tests of both registries would find `Object.prototype` members such as `constructor` already present. The model treats every name without a stored topic as unseen.
- The `topic-update` event of a derived topic's own `data` Proxy (server/lib/VirtualTopic/Topic.js:21-26): nothing in this model listens to it.
- The other calculator files:
  - server/lib/VirtualTopic/Calculators/index.js is not part of this model. The derived-topic catalog is the four classes present, each under its own `name`.
  - The raw-topic `dewpoint` and `absolutehumidity` classes listed in server/lib/Mqtt/Calculators/index.js are not part of this model. They appear in the catalog by file name only.
- The base class's `update(name)`, which the `calculator` setter calls when the name is unchanged, is not part of this model. It is taken to change nothing.
- JavaScript `typeof null === 'object'`: a `null` source declaration is not a case of `Sources.Source`.
- MqttRegistry.Mqtt.Set: requires the topic to be stored under its own name, which is how `addTopic` always assigns. A direct Proxy assignment under a different name is not modelled.
- VirtualTopics.Topics.FanOut: proved against the intended fan-out. The as-written fan-out, which stops at a calculator-less watcher, is stated by `VirtualTopics.OnUpdateAsWritten` and its lemmas.
- OpenSenseMap.Box.SendAll: sends a stored reading of 0, as intended. The as-written guard is stated by `OpenSenseMap.ZeroReadingDropped`.
- VirtualTopics.Topics.Set: updates from the declaration, as intended. The as-written update is stated by `VirtualTopics.StoredAsWritten` and `VirtualTopics.RedeclarationDropsSource`.
- Infinities: JavaScript numbers are finite reals or NaN. `Infinity` is not modelled, and fixed floating-point precision is not modelled.
- Dict.Dict: keys are kept in insertion order. `Object.keys` lists array-index keys such as `"0"` or `"17"` first, in ascending order; the model does not reorder them.
- Sources.Source: a JSON number or boolean declaration, and an array with items that are not strings, are not cases. The cases are strings, arrays of strings, objects with string values, `undefined` and functions.
- CalcBase.Copied: a source field named after another member of the calculator, such as `pm`, `parent` or `debug`, is written as a plain property. What that later breaks is not modelled. Only the fields with setters that ignore the write, and `value`, are treated apart.
- RawTopic.MqttTopic.OnUpdate: proved against the corrected fan-out `VirtualTopics.OnUpdate`, in which a topic without a calculator does not raise. The as-written fan-out is `VirtualTopics.OnUpdateAsWritten`.
- RawTopic.MqttTopic.SetValue: runs the corrected fan-out, as `OnUpdate` does.
- RawTopic.MqttTopic.Update: runs the corrected fan-out, as `OnUpdate` does.
- MqttRegistry.Mqtt.UpdateStored: runs the corrected fan-out, as `RawTopic.MqttTopic.OnUpdate` does.
- MqttRegistry.Mqtt.AddTopic: runs the corrected fan-out for a known name.
- MqttRegistry.Mqtt.Message: runs the corrected fan-out for a known name.
- VirtualTopic.SourceTopicSetSpec: states the corrected `calculate()`. The as-written one, which raises without a calculator, is `VirtualTopic.SourceTopicSetAsWritten`.
- VirtualTopic.Topic.SetSourceTopic: runs the corrected `calculate()`. The as-written one is `VirtualTopic.Topic.CalculateAsWritten`.
- VirtualTopic.Topic.Calculate: the corrected `calculate()` of the Findings. As written, a topic without a calculator raises; that is `VirtualTopic.Topic.CalculateAsWritten`.
- VirtualTopics.AddedSpec: states the corrected Proxy `set`, which updates a known name from the declaration. The as-written update is `VirtualTopics.AddedAsWritten` and `VirtualTopics.RedeclarationDropsSource`.
- VirtualTopics.Topics.Add: stores through the corrected Proxy `set`.
- VirtualTopics.Topics.Load: stores through the corrected Proxy `set`.
