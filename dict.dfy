/** A JavaScript plain object used as a dictionary: string keys kept in
    insertion order and a value per key. `Object.keys` reports that order for
    keys that are not array indices; array-index keys (`"0"`, `"17"`), which
    it lists first in ascending order, are kept in insertion order too. */
module Dict {
  import opened Js

  datatype Dict<V> = Dict(keys: seq<string>, m: map<string, V>) {

    /** The map's keys are the listed keys, and none is listed twice
        (as many listed keys as map keys). */
    ghost predicate Wf() {
      m.Keys == KeySet(keys) && |m| == |keys|
    }

    /** `obj[k] = v`: a new key is listed last, an existing key keeps its place. */
    function Put(k: string, v: V): Dict<V> {
      Dict(if k in m then keys else keys + [k], m[k := v])
    }

    /** `delete obj[k]`: the other keys keep their order. */
    function Remove(k: string): (d: Dict<V>)
      ensures d.m == m - {k}
      ensures KeySet(d.keys) == KeySet(keys) - {k}
    {
      EraseSpec(keys, k);
      Dict(Erase(keys, k), m - {k})
    }

    function Get(k: string): Option<V> {
      if k in m then Some(m[k]) else None
    }
  }

  /** `obj[k] = v` keeps a dictionary well formed. */
  lemma PutWf<V>(d: Dict<V>, k: string, v: V)
    requires d.Wf()
    ensures d.Put(k, v).Wf()
  {
    assert (d.keys + [k])[..|d.keys|] == d.keys;
  }

  /** `delete obj[k]` keeps a dictionary well formed. */
  lemma RemoveWf<V>(d: Dict<V>, k: string)
    requires d.Wf()
    ensures d.Remove(k).Wf()
  {
    EraseSpec(d.keys, k);
    var r := d.m - {k};
    assert r.Keys == d.m.Keys - {k};
    if k in d.m {
      assert d.m.Keys == r.Keys + {k};
    }
  }

  /** The set of listed keys. */
  ghost function KeySet(s: seq<string>): set<string>
    decreases |s|
  {
    if s == [] then {} else KeySet(s[..|s| - 1]) + {s[|s| - 1]}
  }

  /** `KeySet` holds exactly the listed keys, and no more of them than are listed. */
  lemma {:induction false} KeySetSpec(s: seq<string>)
    ensures forall k :: k in KeySet(s) <==> k in s
    ensures |KeySet(s)| <= |s|
    decreases |s|
  {
    if s != [] {
      var init := s[..|s| - 1];
      KeySetSpec(init);
      assert s == init + [s[|s| - 1]];
    }
  }

  /** A prefix lists no key the whole list does not. */
  lemma KeySetPrefix(s: seq<string>, i: nat)
    requires i <= |s|
    ensures KeySet(s[..i]) <= KeySet(s)
  {
    KeySetSpec(s[..i]);
    KeySetSpec(s);
  }

  /** Walking a well-formed dictionary's keys in order meets each key of the
      map, and meets it for the first time. */
  lemma KeyAt<V>(d: Dict<V>, j: nat)
    requires d.Wf() && j < |d.keys|
    ensures d.keys[j] in d.m && d.keys[j] !in KeySet(d.keys[..j])
  {
    CardDistinct(d.keys);
    KeySetSpec(d.keys[..j]);
    KeySetPrefix(d.keys, j + 1);
    assert d.keys[..j + 1][..j] == d.keys[..j];
  }

  /** One more key of a list is its prefix plus that key. */
  lemma PrefixSnoc(s: seq<string>, j: nat)
    requires j < |s|
    ensures s[..j + 1] == s[..j] + [s[j]]
  {
  }

  /** No key occurs twice. */
  ghost predicate Distinct(s: seq<string>) {
    forall i, j :: 0 <= i < j < |s| ==> s[i] != s[j]
  }

  /** As many distinct listed keys as listed keys: none is listed twice. */
  lemma {:induction false} CardDistinct(s: seq<string>)
    requires |KeySet(s)| == |s|
    ensures Distinct(s)
    decreases |s|
  {
    if s != [] {
      var init := s[..|s| - 1];
      var last := s[|s| - 1];
      KeySetSpec(init);
      assert (KeySet(init) + {last}) == KeySet(s);
      assert last in KeySet(init) ==> KeySet(s) == KeySet(init);
      CardDistinct(init);
      forall i, j | 0 <= i < j < |s|
        ensures s[i] != s[j]
      {
        if j < |s| - 1 {
          assert s[i] == init[i] && s[j] == init[j];
        } else {
          assert s[i] in init by {
            assert init[i] == s[i];
          }
        }
      }
    }
  }

  /** What a well-formed dictionary's key list says: exactly the map's keys, none twice. */
  lemma KeysSpec<V>(d: Dict<V>)
    requires d.Wf()
    ensures forall k :: k in d.m <==> k in d.keys
    ensures Distinct(d.keys)
  {
    KeySetSpec(d.keys);
    CardDistinct(d.keys);
  }

  /** `keys` without `k`, order kept. */
  function Erase(keys: seq<string>, k: string): seq<string>
    decreases |keys|
  {
    if keys == [] then []
    else
      var init := keys[..|keys| - 1];
      var last := keys[|keys| - 1];
      if last == k then Erase(init, k) else Erase(init, k) + [last]
  }

  /** Erasing drops `k` from the key set and nothing else; when `k` is listed
      once, the list gets one shorter, and without it the length stays. */
  lemma {:induction false} EraseSpec(keys: seq<string>, k: string)
    ensures KeySet(Erase(keys, k)) == KeySet(keys) - {k}
    ensures |KeySet(keys)| == |keys| ==> |Erase(keys, k)| == |keys| - (if k in KeySet(keys) then 1 else 0)
    decreases |keys|
  {
    if keys != [] {
      var init := keys[..|keys| - 1];
      var last := keys[|keys| - 1];
      var rest := Erase(init, k);
      EraseSpec(init, k);
      KeySetSpec(keys);
      KeySetSpec(init);
      if last != k {
        assert (rest + [last])[..|rest|] == rest;
      }
      if |KeySet(keys)| == |keys| {
        assert KeySet(keys) == KeySet(init) + {last};
        assert last in KeySet(init) ==> KeySet(keys) == KeySet(init);
      }
    }
  }

  function Empty<V>(): (d: Dict<V>)
    ensures d.Wf() && d.keys == [] && d.m == map[]
  {
    Dict([], map[])
  }

  /** `obj[k]` on a dictionary of JavaScript values: `undefined` when absent. */
  function Lookup(d: Dict<Val>, k: string): Val {
    if k in d.m then d.m[k] else Undefined
  }

  /** `obj[k]` on a map of JavaScript values. */
  function Prop(m: map<string, Val>, k: string): Val {
    if k in m then m[k] else Undefined
  }
}
