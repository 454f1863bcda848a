/** The newest-first value history of a raw MQTT topic and the sweep that
    bounds it by age and by length (server/lib/Mqtt/Topic.js). */
module MqttHistory {
  import opened Js
  import opened Subsequences

  /** One `{value, time}` record; `time` is in milliseconds. */
  datatype Entry = Entry(value: Val, time: int)

  /** The `value` getter: the newest value, or `false` for an empty history. */
  function Latest(h: seq<Entry>): Val {
    if |h| > 0 then h[0].value else Bool(false)
  }

  /** The `value` setter's `history.unshift({value, time})`. */
  function Prepended(h: seq<Entry>, v: Val, now: int): seq<Entry> {
    [Entry(v, now)] + h
  }

  /** Setting `value` adds exactly one entry, in front, keeps the rest in
      order, and the getter then reads the value just set. */
  lemma PrependedSpec(h: seq<Entry>, v: Val, now: int)
    ensures |Prepended(h, v, now)| == |h| + 1
    ensures Prepended(h, v, now)[0] == Entry(v, now) && Prepended(h, v, now)[1..] == h
    ensures Latest(Prepended(h, v, now)) == v
    ensures Latest(Prepended(h, v, now)) != Bool(false) || v == Bool(false)
  {
  }

  /** `history.filter(v => v.time > cutoff)`. */
  function KeepNewerThan(h: seq<Entry>, cutoff: int): (r: seq<Entry>)
    ensures forall e :: e in r <==> e in h && e.time > cutoff
    ensures |r| <= |h|
    decreases |h|
  {
    if h == [] then []
    else if h[0].time > cutoff then [h[0]] + KeepNewerThan(h[1..], cutoff)
    else KeepNewerThan(h[1..], cutoff)
  }

  lemma {:induction false} KeepNewerThanSubseq(h: seq<Entry>, cutoff: int)
    ensures IsSubseq(KeepNewerThan(h, cutoff), h)
    decreases |h|
  {
    if h != [] {
      var rest := KeepNewerThan(h[1..], cutoff);
      KeepNewerThanSubseq(h[1..], cutoff);
      if h[0].time > cutoff {
        assert ([h[0]] + rest)[1..] == rest;
      } else {
        ExtendSubseq(rest, h);
      }
    }
  }

  /** When every entry is newer than the cutoff the filter keeps them all. */
  lemma {:induction false} KeepNewerThanAll(h: seq<Entry>, cutoff: int)
    requires forall i :: 0 <= i < |h| ==> h[i].time > cutoff
    ensures KeepNewerThan(h, cutoff) == h
    decreases |h|
  {
    if h != [] {
      KeepNewerThanAll(h[1..], cutoff);
      assert h == [h[0]] + h[1..];
    }
  }

  /** `clearHistoryByAge`. `maxAge` is `parseInt` of the configured age, with
      `None` for NaN: then the cutoff is NaN and no entry passes the filter. */
  function ByAge(h: seq<Entry>, now: int, maxAge: Option<int>): seq<Entry> {
    if maxAge == Some(-1) then h
    else if maxAge.None? then []
    else KeepNewerThan(h, now - maxAge.value * 1000)
  }

  /** The end index `slice(0, end)` uses on a sequence of length `len`: a
      negative end counts from the back, a large end is clipped. */
  function SliceEnd(len: nat, end: int): (k: nat)
    ensures k <= len
  {
    if end < 0 then (if len + end < 0 then 0 else len + end)
    else if end > len then len
    else end
  }

  /** `clearHistoryByLength`: keep the first `maxLen - 1` entries (`None` is
      NaN, for which `slice(0, NaN)` is empty). */
  function ByLength(h: seq<Entry>, maxLen: Option<int>): seq<Entry> {
    if maxLen == Some(-1) then h
    else if maxLen.None? then []
    else h[..SliceEnd(|h|, maxLen.value - 1)]
  }

  /** `clearHistory`: both filters, then the newest entry is put back if they
      removed everything. */
  function Swept(h: seq<Entry>, now: int, maxLen: Option<int>, maxAge: Option<int>): seq<Entry> {
    var r := ByLength(ByAge(h, now, maxAge), maxLen);
    if r == [] && h != [] then [h[0]] else r
  }

  /** With -1 the age filter is off; otherwise it keeps exactly the entries
      newer than `now - maxAge * 1000`, in their order. */
  lemma ByAgeSpec(h: seq<Entry>, now: int, maxAge: int)
    ensures maxAge == -1 ==> ByAge(h, now, Some(maxAge)) == h
    ensures maxAge != -1 ==> forall e :: e in ByAge(h, now, Some(maxAge)) <==> e in h && e.time > now - maxAge * 1000
    ensures IsSubseq(ByAge(h, now, Some(maxAge)), h)
  {
    if maxAge == -1 { SubseqRefl(h); } else { KeepNewerThanSubseq(h, now - maxAge * 1000); }
  }

  /** With -1 the length filter is off; a positive bound keeps the first
      `maxLen - 1` entries (note the -1), or all of them if there are fewer. */
  lemma ByLengthSpec(h: seq<Entry>, maxLen: int)
    ensures maxLen == -1 ==> ByLength(h, Some(maxLen)) == h
    ensures maxLen >= 1 ==> ByLength(h, Some(maxLen)) == h[..if maxLen - 1 <= |h| then maxLen - 1 else |h|]
    ensures maxLen >= 1 && |h| >= maxLen ==> |ByLength(h, Some(maxLen))| == maxLen - 1
  {
  }

  lemma ByLengthSubseq(h: seq<Entry>, maxLen: Option<int>)
    ensures IsSubseq(ByLength(h, maxLen), h)
  {
    if maxLen == Some(-1) { SubseqRefl(h); }
    else if maxLen.Some? { PrefixIsSubseq(h, SliceEnd(|h|, maxLen.value - 1)); }
  }

  lemma ByAgeSubseq(h: seq<Entry>, now: int, maxAge: Option<int>)
    ensures IsSubseq(ByAge(h, now, maxAge), h)
  {
    if maxAge == Some(-1) { SubseqRefl(h); }
    else if maxAge.Some? { KeepNewerThanSubseq(h, now - maxAge.value * 1000); }
  }

  /** The sweep never fabricates or reorders entries. */
  lemma SweptSubseq(h: seq<Entry>, now: int, maxLen: Option<int>, maxAge: Option<int>)
    ensures IsSubseq(Swept(h, now, maxLen, maxAge), h)
  {
    var a := ByAge(h, now, maxAge);
    var r := ByLength(a, maxLen);
    if r == [] && h != [] {
      HeadIsSubseq(h);
    } else {
      ByAgeSubseq(h, now, maxAge);
      ByLengthSubseq(a, maxLen);
      SubseqTrans(r, a, h);
    }
  }

  /** The sweep never empties a non-empty history; if both filters dropped
      everything, exactly the former newest entry remains. */
  lemma SweptKeepsNewest(h: seq<Entry>, now: int, maxLen: Option<int>, maxAge: Option<int>)
    ensures h != [] <==> Swept(h, now, maxLen, maxAge) != []
    ensures h != [] && ByLength(ByAge(h, now, maxAge), maxLen) == [] ==> Swept(h, now, maxLen, maxAge) == [h[0]]
  {
    if h == [] {
      SweptSubseq(h, now, maxLen, maxAge);
      SubseqLength(Swept(h, now, maxLen, maxAge), h);
    }
  }

  /** A positive length bound holds after the sweep. */
  lemma SweptBound(h: seq<Entry>, now: int, maxLen: int, maxAge: Option<int>)
    requires maxLen >= 1
    ensures |Swept(h, now, Some(maxLen), maxAge)| <= maxLen
  {
  }

  /** A second sweep at the same instant changes nothing, as long as the
      length bound is positive or off. (With a bound of 0 or below the slice
      end is negative and every sweep drops more entries.) */
  lemma SweptIdempotent(h: seq<Entry>, now: int, maxLen: Option<int>, maxAge: Option<int>)
    requires maxLen.None? || maxLen.value == -1 || maxLen.value >= 1
    ensures Swept(Swept(h, now, maxLen, maxAge), now, maxLen, maxAge) == Swept(h, now, maxLen, maxAge)
  {
    var a := ByAge(h, now, maxAge);
    var r := ByLength(a, maxLen);
    var s := Swept(h, now, maxLen, maxAge);
    if h == [] {
    } else if r == [] {
      assert s == [h[0]];
      var a2 := ByAge(s, now, maxAge);
      SweptKeepsNewest(s, now, maxLen, maxAge);
      ByAgeSubseq(s, now, maxAge);
      SubseqOfSingleton(a2, h[0]);
      ByLengthSubseq(a2, maxLen);
      SubseqTrans(ByLength(a2, maxLen), a2, s);
      SubseqOfSingleton(ByLength(a2, maxLen), h[0]);
    } else {
      assert s == r;
      // the age filter keeps a prefix of its own output
      ByAgeStable(h, now, maxAge, |r|);
      assert r == a[..|r|];
      assert ByAge(s, now, maxAge) == s;
      // the length filter keeps a prefix that is already short enough
      ByLengthStable(a, maxLen);
    }
  }

  /** A prefix of the age filter's output passes the age filter again unchanged. */
  lemma ByAgeStable(h: seq<Entry>, now: int, maxAge: Option<int>, k: nat)
    requires k <= |ByAge(h, now, maxAge)|
    ensures ByAge(ByAge(h, now, maxAge)[..k], now, maxAge) == ByAge(h, now, maxAge)[..k]
  {
    var a := ByAge(h, now, maxAge);
    if maxAge.Some? && maxAge.value != -1 {
      var cutoff := now - maxAge.value * 1000;
      assert forall i :: 0 <= i < k ==> a[..k][i] in a;
      KeepNewerThanAll(a[..k], cutoff);
    }
  }

  /** A length-filtered sequence passes the length filter again unchanged. */
  lemma ByLengthStable(a: seq<Entry>, maxLen: Option<int>)
    requires maxLen.None? || maxLen.value == -1 || maxLen.value >= 1
    requires ByLength(a, maxLen) != []
    ensures ByLength(ByLength(a, maxLen), maxLen) == ByLength(a, maxLen)
  {
  }
}
