/** The list of excluded topic names (server/lib/Mqtt/Excludes.js). Reading
    and writing `excludes.json` are not modelled; `add` and `remove` resolve
    their promise with the value the methods here return. */
module Excludes {
  import opened Subsequences

  /** No name occurs twice. */
  predicate NoDup(s: seq<string>) {
    forall i, j :: 0 <= i < j < |s| ==> s[i] != s[j]
  }

  /** `data.filter(t => t !== topic)`. */
  function Without(s: seq<string>, topic: string): (r: seq<string>)
    ensures forall x :: x in r <==> x in s && x != topic
    ensures |r| <= |s|
    decreases |s|
  {
    if s == [] then []
    else if s[0] == topic then Without(s[1..], topic)
    else [s[0]] + Without(s[1..], topic)
  }

  /** Removing keeps the other names in their original order. */
  lemma {:induction false} WithoutSubseq(s: seq<string>, topic: string)
    ensures IsSubseq(Without(s, topic), s)
    decreases |s|
  {
    if s != [] {
      var rest := Without(s[1..], topic);
      WithoutSubseq(s[1..], topic);
      if s[0] == topic {
        ExtendSubseq(rest, s);
      } else {
        assert ([s[0]] + rest)[1..] == rest;
      }
    }
  }

  /** Removing a name that is absent changes nothing. */
  lemma {:induction false} WithoutAbsent(s: seq<string>, topic: string)
    requires topic !in s
    ensures Without(s, topic) == s
    decreases |s|
  {
    if s != [] {
      WithoutAbsent(s[1..], topic);
      assert s == [s[0]] + s[1..];
    }
  }

  /** Removing keeps a duplicate-free list duplicate-free. */
  lemma {:induction false} WithoutNoDup(s: seq<string>, topic: string)
    requires NoDup(s)
    ensures NoDup(Without(s, topic))
    decreases |s|
  {
    if s != [] {
      assert NoDup(s[1..]) by {
        forall i, j | 0 <= i < j < |s[1..]| ensures s[1..][i] != s[1..][j] {
          assert s[1..][i] == s[i + 1] && s[1..][j] == s[j + 1];
        }
      }
      WithoutNoDup(s[1..], topic);
      if s[0] != topic {
        var rest := Without(s[1..], topic);
        assert s[0] !in s[1..];
        assert s[0] !in rest;
        var r := [s[0]] + rest;
        forall i, j | 0 <= i < j < |r| ensures r[i] != r[j] {
          if i == 0 { assert r[j] == rest[j - 1]; } else { assert r[i] == rest[i - 1] && r[j] == rest[j - 1]; }
        }
      }
    }
  }

  /** Appending a name the list lacks keeps it duplicate-free. */
  lemma AppendNoDup(s: seq<string>, topic: string)
    requires NoDup(s) && topic !in s
    ensures NoDup(s + [topic])
  {
    var r := s + [topic];
    forall i, j | 0 <= i < j < |r| ensures r[i] != r[j] {
      if j == |s| { assert r[i] == s[i]; } else { assert r[i] == s[i] && r[j] == s[j]; }
    }
  }

  class TopicExcludes {
    var data: seq<string>

    constructor()
      ensures data == []
    {
      data := [];
    }

    /** `contains`: `data.includes(topic)`. */
    predicate Contains(topic: string)
      reads this
    {
      topic in data
    }

    /** `add`: a name already listed resolves `false` and changes nothing;
        a new name goes to the end and resolves `true`. */
    method Add(topic: string) returns (added: bool)
      modifies this
      ensures added <==> !old(Contains(topic))
      ensures !added ==> data == old(data)
      ensures added ==> data == old(data) + [topic]
      ensures Contains(topic)
      ensures old(NoDup(data)) ==> NoDup(data)
    {
      if Contains(topic) {
        return false;
      }
      if NoDup(data) { AppendNoDup(data, topic); }
      data := data + [topic];
      return true;
    }

    /** `remove`: every occurrence goes, the rest keep their order, and the
        promise always resolves `true`. */
    method Remove(topic: string) returns (removed: bool)
      modifies this
      ensures data == Without(old(data), topic)
      ensures !Contains(topic)
      ensures IsSubseq(data, old(data))
      ensures old(NoDup(data)) ==> NoDup(data)
      ensures removed
    {
      WithoutSubseq(data, topic);
      if NoDup(data) { WithoutNoDup(data, topic); }
      data := Without(data, topic);
      return true;
    }
  }
}
