/** The data transforms of the ventilation log route
    (server/lib/Server/routes/VentilationLog.js): edge detection on window
    contact series, pairing an opening with the following closing, formatting
    a duration as `h:mm:ss`, flattening, and the date range of the query.
    The store queries themselves are inputs. */
module VentilationLog {
  import opened Js
  import opened Dict
  import opened Strings
  import opened Subsequences

  /** A stored contact reading `{topic, time, value}`, with the `duration`
      and `end` that `getDuration` may add to it. */
  datatype Row = Row(topic: Val, time: Val, value: Val, duration: Option<string>, end: Option<Val>)

  /** An output record `{topic, start, end, duration}`. */
  datatype Interval = Interval(topic: Val, start: Val, end: Val, duration: string)

  /** The two contact readings the route compares against with `===`. */
  const Zero: Val := Real(0.0)
  const One: Val := Real(1.0)

  // ---------------------------------------------------------------------
  // Edge detection (processData)

  /** Whether `processData` pushes row `i`: the first row when it reads 0,
      any later row that differs from its predecessor as 0 after 1 or 1
      after 0. */
  predicate IsEdge(rows: seq<Row>, i: nat)
    requires i < |rows|
  {
    if i == 0 then rows[0].value == Zero
    else (rows[i].value == Zero && rows[i - 1].value == One) || (rows[i].value == One && rows[i - 1].value == Zero)
  }

  /** The rows among the first `n` that `processData` keeps, in order. */
  function Edges(rows: seq<Row>, n: nat): seq<Row>
    requires n <= |rows|
    decreases n
  {
    if n == 0 then [] else Edges(rows, n - 1) + (if IsEdge(rows, n - 1) then [rows[n - 1]] else [])
  }

  /** Edge detection only drops rows: the kept rows are a subsequence. */
  lemma {:induction false} EdgesSubseq(rows: seq<Row>, n: nat)
    requires n <= |rows|
    ensures IsSubseq(Edges(rows, n), rows[..n])
    decreases n
  {
    if n > 0 {
      EdgesSubseq(rows, n - 1);
      assert rows[..n] == rows[..n - 1] + [rows[n - 1]];
      SubseqSnocMaybe(Edges(rows, n - 1), rows[..n - 1], rows[n - 1], IsEdge(rows, n - 1));
    }
  }

  /** A contact series whose readings are all 0 or 1. */
  predicate Binary(rows: seq<Row>) {
    forall i :: 0 <= i < |rows| ==> rows[i].value == Zero || rows[i].value == One
  }

  /** On a 0/1 series the kept rows start with a 0 and alternate, so repeated
      readings never survive. */
  lemma {:induction false} EdgesAlternate(rows: seq<Row>, n: nat)
    requires n <= |rows| && Binary(rows)
    ensures var e := Edges(rows, n);
      && (e != [] ==> e[0].value == Zero)
      && (forall j :: 0 <= j < |e| - 1 ==> e[j].value != e[j + 1].value)
      && (e != [] ==> e[|e| - 1].value == rows[n - 1].value)
      && (e == [] ==> forall i :: 0 <= i < n ==> rows[i].value == One)
    decreases n
  {
    if n > 0 {
      EdgesAlternate(rows, n - 1);
      var e0 := Edges(rows, n - 1);
      var e := Edges(rows, n);
      if IsEdge(rows, n - 1) {
        assert e == e0 + [rows[n - 1]];
        if e0 != [] {
          assert n - 1 > 0;
          assert e0[|e0| - 1].value == rows[n - 2].value;
          assert rows[n - 1].value != rows[n - 2].value;
          assert e[0] == e0[0];
          forall j | 0 <= j < |e| - 1 ensures e[j].value != e[j + 1].value {
            if j < |e0| - 1 { assert e[j] == e0[j] && e[j + 1] == e0[j + 1]; }
          }
        } else if n - 1 > 0 {
          assert rows[n - 2].value == One;
          assert rows[n - 1].value == Zero;
        }
      } else {
        assert e == e0;
        if n - 1 > 0 {
          assert rows[n - 1].value == rows[n - 2].value;
        } else {
          assert rows[0].value == One;
        }
      }
    }
  }

  // ---------------------------------------------------------------------
  // Durations (getDuration, calcDuration)

  /** Hours, minutes and seconds of a distance in milliseconds. */
  datatype Clock = Clock(hours: nat, minutes: nat, seconds: nat)

  /** The floor divisions of `calcDuration`, each taken off `distance`. */
  function ClockOf(distance: nat): Clock {
    var hours := distance / 3600000;
    var afterHours := distance - hours * 3600000;
    var minutes := afterHours / 60000;
    var afterMinutes := afterHours - minutes * 60000;
    var seconds := afterMinutes / 1000;
    Clock(hours, minutes, seconds)
  }

  /** The three parts are below 60 where they must be and add up to the
      distance, less the milliseconds below a whole second. */
  lemma ClockOfSpec(distance: nat)
    ensures var c := ClockOf(distance);
      && c.minutes < 60 && c.seconds < 60
      && c.hours * 3600000 + c.minutes * 60000 + c.seconds * 1000 <= distance
      && distance < c.hours * 3600000 + c.minutes * 60000 + c.seconds * 1000 + 1000
      && c.hours * 3600 + c.minutes * 60 + c.seconds == distance / 1000
  {
  }

  /** `('0' + n).slice(-2)`. */
  function TwoDigits(n: nat): (s: string)
    ensures |s| == 2
  {
    Last("0" + NatText(n), 2)
  }

  /** `calcDuration(date1, date2)`: the distance as `h:mm:ss`. */
  function CalcDuration(date1: int, date2: int): string {
    var distance := if date1 >= date2 then date1 - date2 else date2 - date1;
    ClockText(ClockOf(distance))
  }

  /** `${hours}:mm:ss`. */
  function ClockText(c: Clock): string {
    NatText(c.hours) + ":" + TwoDigits(c.minutes) + ":" + TwoDigits(c.seconds)
  }

  lemma DurationSymmetric(date1: int, date2: int)
    ensures CalcDuration(date1, date2) == CalcDuration(date2, date1)
  {
  }

  /** Reads a `h:mm:ss` text back as a number of whole seconds. */
  function DurationSeconds(s: string): Option<nat> {
    var p := Split(s, ':');
    if |p| == 3 && IsDigits(p[0]) && IsDigits(p[1]) && IsDigits(p[2]) then
      Some(DigitsValue(p[0]) * 3600 + DigitsValue(p[1]) * 60 + DigitsValue(p[2]))
    else None
  }

  predicate IsDigits(s: string) {
    forall i :: 0 <= i < |s| ==> '0' <= s[i] <= '9'
  }

  lemma TwoDigitsValue(n: nat)
    requires n < 100
    ensures IsDigits(TwoDigits(n)) && DigitsValue(TwoDigits(n)) == n
  {
    var t := "0" + NatText(n);
    if n < 10 {
      assert NatText(n) == [Digit(n)];
      assert TwoDigits(n) == t;
      assert t[..1] == "0";
      assert DigitsValue(t[..1]) == 0 by { assert t[..1][..0] == []; }
    } else {
      assert NatText(n) == NatText(n / 10) + [Digit(n % 10)];
      assert |NatText(n)| == 2;
      assert TwoDigits(n) == NatText(n);
      NatTextValue(n);
    }
  }

  /** The text `calcDuration` writes reads back as the whole seconds between
      the two instants. */
  lemma DurationRoundTrip(date1: int, date2: int)
    ensures DurationSeconds(CalcDuration(date1, date2)).Some?
    ensures DurationSeconds(CalcDuration(date1, date2)).value == (if date1 >= date2 then date1 - date2 else date2 - date1) / 1000
  {
    var distance := if date1 >= date2 then date1 - date2 else date2 - date1;
    ClockOfSpec(distance);
    ClockTextSeconds(ClockOf(distance));
  }

  lemma ClockTextSeconds(c: Clock)
    requires c.minutes < 60 && c.seconds < 60
    ensures DurationSeconds(ClockText(c)).Some?
    ensures DurationSeconds(ClockText(c)).value == c.hours * 3600 + c.minutes * 60 + c.seconds
  {
    TwoDigitsValue(c.minutes);
    TwoDigitsValue(c.seconds);
    HoursTextSeconds(c.hours, TwoDigits(c.minutes), TwoDigits(c.seconds));
  }

  /** The hours part is written without padding and still reads back. */
  lemma HoursTextSeconds(hours: nat, m: string, s: string)
    requires IsDigits(m) && IsDigits(s)
    ensures DurationSeconds(NatText(hours) + ":" + m + ":" + s).Some?
    ensures DurationSeconds(NatText(hours) + ":" + m + ":" + s).value == hours * 3600 + DigitsValue(m) * 60 + DigitsValue(s)
  {
    var h := NatText(hours);
    assert IsDigits(h);
    NatTextValue(hours);
    DigitTextSeconds(h, m, s);
  }

  /** Any three digit texts joined by colons read back as hours, minutes and
      seconds. */
  lemma DigitTextSeconds(h: string, m: string, s: string)
    requires IsDigits(h) && IsDigits(m) && IsDigits(s)
    ensures DurationSeconds(h + ":" + m + ":" + s).Some?
    ensures DurationSeconds(h + ":" + m + ":" + s).value == DigitsValue(h) * 3600 + DigitsValue(m) * 60 + DigitsValue(s)
  {
    ClockSplit(h, m, s);
    var text := h + ":" + m + ":" + s;
    var p := Split(text, ':');
    assert p == [h, m, s];
    var v := DurationSeconds(text);
    assert v.Some?;
    assert v.value == DigitsValue(p[0]) * 3600 + DigitsValue(p[1]) * 60 + DigitsValue(p[2]);
  }

  lemma ClockSplit(h: string, m: string, s: string)
    requires IsDigits(h) && IsDigits(m) && IsDigits(s)
    ensures Split(h + ":" + m + ":" + s, ':') == [h, m, s]
  {
    assert ':' !in h && ':' !in m && ':' !in s;
    SplitNoSep(s, ':');
    SplitAtSep(m, ':', s);
    SplitAtSep(h, ':', m + ":" + s);
    assert h + ":" + m + ":" + s == h + [':'] + (m + [':'] + s);
  }

  /** Row `i` after `getDuration`: a 0-row directly followed by a 1-row gets
      the duration up to that row's time and that time as its end. */
  function Paired(rows: seq<Row>, i: nat, rt: Runtime): Row
    requires i < |rows|
  {
    if i + 1 < |rows| && rows[i].value == Zero && rows[i + 1].value == One then Closed(rows[i], rows[i + 1], rt)
    else rows[i]
  }

  /** `calcDuration` of two `getTime()`s; an invalid date is NaN, which every
      step keeps, so `('0' + NaN).slice(-2)` leaves `aN`. */
  function DurationOf(date1: Option<int>, date2: Option<int>): (s: string)
    ensures date1.Some? && date2.Some? ==> s == CalcDuration(date1.value, date2.value)
    ensures date1.None? || date2.None? ==> s == "NaN:aN:aN" && DurationSeconds(s).None?
  {
    if date1.Some? && date2.Some? then CalcDuration(date1.value, date2.value) else "NaN:aN:aN"
  }

  /** A 0-row closed by the following row. */
  function Closed(row: Row, next: Row, rt: Runtime): Row {
    row.(duration := Some(DurationOf(rt.millis(row.time), rt.millis(next.time))), end := Some(next.time))
  }

  function WithDurations(rows: seq<Row>, rt: Runtime): (r: seq<Row>)
    ensures |r| == |rows|
  {
    seq(|rows|, i requires 0 <= i < |rows| => Paired(rows, i, rt))
  }

  /** `getDuration`: annotates the rows in place. */
  method GetDuration(rows: array<Row>, rt: Runtime)
    modifies rows
    ensures rows[..] == WithDurations(old(rows[..]), rt)
  {
    ghost var orig := rows[..];
    for i := 0 to rows.Length
      invariant forall k :: 0 <= k < i ==> rows[k] == Paired(orig, k, rt)
      invariant forall k :: i <= k < rows.Length ==> rows[k] == orig[k]
    {
      CloseAt(rows, i, orig, rt);
    }
    assert rows[..] == WithDurations(orig, rt);
  }

  /** One turn of `getDuration`'s loop: row `i` gets its duration when it
      reads 0 and the next row reads 1. */
  method CloseAt(rows: array<Row>, i: nat, ghost orig: seq<Row>, rt: Runtime)
    requires i < rows.Length == |orig| && rows[i] == orig[i]
    requires i + 1 < rows.Length ==> rows[i + 1] == orig[i + 1]
    modifies rows
    ensures rows[i] == Paired(orig, i, rt)
    ensures forall k :: 0 <= k < rows.Length && k != i ==> rows[k] == old(rows[k])
  {
    if i + 1 < rows.Length {
      if rows[i].value == Zero && rows[i + 1].value == One {
        rows[i] := Closed(rows[i], rows[i + 1], rt);
      }
    }
  }

  /** `getDuration` touches only 0-rows followed by a 1-row; every other row,
      and every row's topic, time and value, stay as they were. */
  lemma WithDurationsSpec(rows: seq<Row>, rt: Runtime, i: nat)
    requires i < |rows|
    ensures var r := WithDurations(rows, rt)[i];
      && r.topic == rows[i].topic && r.time == rows[i].time && r.value == rows[i].value
      && (r != rows[i] ==> i + 1 < |rows| && rows[i].value == Zero && rows[i + 1].value == One)
      && (i + 1 < |rows| && rows[i].value == Zero && rows[i + 1].value == One ==> r.end == Some(rows[i + 1].time) && r.duration.Some?)
  {
  }

  /** On a 0/1 series every kept 0-row except possibly the last is closed by
      the next kept row, so it gets a duration. */
  lemma EveryOpeningClosed(rows: seq<Row>, rt: Runtime, j: nat)
    requires Binary(rows)
    requires j + 1 < |Edges(rows, |rows|)| && Edges(rows, |rows|)[j].value == Zero
    ensures WithDurations(Edges(rows, |rows|), rt)[j].duration.Some?
  {
    var e := Edges(rows, |rows|);
    EdgesAlternate(rows, |rows|);
    EdgesSubseq(rows, |rows|);
    SubseqMembers(e, rows[..|rows|]);
    assert e[j + 1] in rows[..|rows|];
    assert e[j + 1].value == Zero || e[j + 1].value == One;
  }

  /** `filter(r => r.duration).map(r => ({topic, start: r.time, end, duration}))`. */
  function ToIntervals(rows: seq<Row>): (r: seq<Interval>)
    ensures |r| <= |rows|
    decreases |rows|
  {
    if rows == [] then []
    else
      var rest := ToIntervals(rows[1..]);
      var row := rows[0];
      if row.duration.Some? && row.duration.value != "" then
        [Interval(row.topic, row.time, if row.end.Some? then row.end.value else Undefined, row.duration.value)] + rest
      else rest
  }

  /** Every output record comes from a row that carries that duration. */
  lemma {:induction false} ToIntervalsFrom(rows: seq<Row>, x: Interval)
    requires x in ToIntervals(rows)
    ensures exists i :: 0 <= i < |rows| && rows[i].duration == Some(x.duration) && rows[i].time == x.start && rows[i].topic == x.topic
    decreases |rows|
  {
    var rest := ToIntervals(rows[1..]);
    var row := rows[0];
    if row.duration.Some? && row.duration.value != "" && x == ToIntervals(rows)[0] {
      assert rows[0].duration == Some(x.duration);
    } else {
      assert x in rest;
      ToIntervalsFrom(rows[1..], x);
      var i :| 0 <= i < |rows[1..]| && rows[1..][i].duration == Some(x.duration) && rows[1..][i].time == x.start && rows[1..][i].topic == x.topic;
      assert rows[i + 1] == rows[1..][i];
    }
  }

  /** What `processData` produces for one topic's rows. */
  function ProcessTopic(rows: seq<Row>, rt: Runtime): seq<Interval> {
    ToIntervals(WithDurations(Edges(rows, |rows|), rt))
  }

  /** A duration text is never empty, so the output keeps exactly the rows
      `getDuration` annotated. */
  lemma DurationNonEmpty(date1: int, date2: int)
    ensures CalcDuration(date1, date2) != ""
  {
  }

  /** The row loop of `processData` for one topic. */
  method KeepEdges(rows: seq<Row>) returns (kept: seq<Row>)
    ensures kept == Edges(rows, |rows|)
  {
    kept := [];
    for i := 0 to |rows|
      invariant kept == Edges(rows, i)
    {
      if i == 0 && rows[i].value == Zero {
        kept := kept + [rows[i]];
      }
      if i > 0 {
        if rows[i].value == Zero && rows[i - 1].value == One {
          kept := kept + [rows[i]];
        }
        if rows[i].value == One && rows[i - 1].value == Zero {
          kept := kept + [rows[i]];
        }
      }
    }
  }

  /** One topic of `processData`: the edges, annotated in place, filtered. */
  method ProcessRows(rows: seq<Row>, rt: Runtime) returns (intervals: seq<Interval>)
    ensures intervals == ProcessTopic(rows, rt)
  {
    var kept := KeepEdges(rows);
    var a := new Row[|kept|](k requires 0 <= k < |kept| => kept[k]);
    assert a[..] == kept;
    GetDuration(a, rt);
    intervals := ToIntervals(a[..]);
  }

  /** `processData`: every topic is processed, and the topics keep their order. */
  method ProcessData(data: Dict<seq<Row>>, rt: Runtime) returns (out: Dict<seq<Interval>>)
    requires data.Wf()
    ensures out.Wf() && out.keys == data.keys
    ensures forall t :: t in data.m ==> t in out.m && out.m[t] == ProcessTopic(data.m[t], rt)
  {
    out := Empty();
    for j := 0 to |data.keys|
      invariant out.Wf() && out.keys == data.keys[..j]
      invariant forall t :: t in out.m ==> t in data.m && out.m[t] == ProcessTopic(data.m[t], rt)
    {
      out := ProcessKey(data, j, out, rt);
    }
    assert data.keys[..|data.keys|] == data.keys;
  }

  /** One turn of `processData`'s loop: the topic `data.keys[j]` is processed
      and stored after the topics before it. */
  method ProcessKey(data: Dict<seq<Row>>, j: nat, out: Dict<seq<Interval>>, rt: Runtime) returns (next: Dict<seq<Interval>>)
    requires data.Wf() && j < |data.keys|
    requires out.Wf() && out.keys == data.keys[..j]
    requires forall t :: t in out.m ==> t in data.m && out.m[t] == ProcessTopic(data.m[t], rt)
    ensures next.Wf() && next.keys == data.keys[..j + 1]
    ensures forall t :: t in next.m ==> t in data.m && next.m[t] == ProcessTopic(data.m[t], rt)
  {
    KeyAt(data, j);
    var t := data.keys[j];
    var intervals := ProcessRows(data.m[t], rt);
    assert t !in out.m;
    PutWf(out, t, intervals);
    next := out.Put(t, intervals);
    PrefixSnoc(data.keys, j);
  }

  // ---------------------------------------------------------------------
  // Flattening (flatData)

  /** The per-topic lists of `keys`, concatenated in order. */
  function Flatten(keys: seq<string>, m: map<string, seq<Interval>>): seq<Interval>
    requires KeySet(keys) <= m.Keys
    decreases |keys|
  {
    if keys == [] then [] else Flatten(keys[..|keys| - 1], m) + m[keys[|keys| - 1]]
  }

  function TotalLength(keys: seq<string>, m: map<string, seq<Interval>>): nat
    requires KeySet(keys) <= m.Keys
    decreases |keys|
  {
    if keys == [] then 0 else TotalLength(keys[..|keys| - 1], m) + |m[keys[|keys| - 1]]|
  }

  lemma {:induction false} FlattenLength(keys: seq<string>, m: map<string, seq<Interval>>)
    requires KeySet(keys) <= m.Keys
    ensures |Flatten(keys, m)| == TotalLength(keys, m)
    decreases |keys|
  {
    if keys != [] { FlattenLength(keys[..|keys| - 1], m); }
  }

  /** A record is in the flat list iff it is in the list of some topic. */
  lemma {:induction false} FlattenMembers(keys: seq<string>, m: map<string, seq<Interval>>, x: Interval)
    requires KeySet(keys) <= m.Keys
    ensures x in Flatten(keys, m) <==> exists k :: k in KeySet(keys) && x in m[k]
    decreases |keys|
  {
    if keys != [] {
      var init := keys[..|keys| - 1];
      var last := keys[|keys| - 1];
      FlattenMembers(init, m, x);
    }
  }

  /** One more topic of the walk adds its list at the end. */
  lemma FlattenSnoc(keys: seq<string>, m: map<string, seq<Interval>>, j: nat)
    requires KeySet(keys) <= m.Keys && j < |keys|
    ensures KeySet(keys[..j]) <= m.Keys && KeySet(keys[..j + 1]) <= m.Keys && keys[j] in m
    ensures Flatten(keys[..j + 1], m) == Flatten(keys[..j], m) + m[keys[j]]
  {
    KeySetPrefix(keys, j + 1);
    KeySetPrefix(keys, j);
    KeySetSpec(keys);
    assert keys[..j + 1][..j] == keys[..j];
  }

  /** The inner `forEach` of `flatData`: each row pushed in order. */
  method PushAll(flat: seq<Interval>, rows: seq<Interval>) returns (r: seq<Interval>)
    ensures r == flat + rows
  {
    r := flat;
    for i := 0 to |rows|
      invariant r == flat + rows[..i]
    {
      r := r + [rows[i]];
      assert rows[..i + 1] == rows[..i] + [rows[i]];
    }
    assert rows[..|rows|] == rows;
  }

  /** `flatData`. */
  method FlatData(data: Dict<seq<Interval>>) returns (flat: seq<Interval>)
    requires data.Wf()
    ensures flat == Flatten(data.keys, data.m)
  {
    flat := [];
    for j := 0 to |data.keys|
      invariant KeySet(data.keys[..j]) <= data.m.Keys
      invariant flat == Flatten(data.keys[..j], data.m)
    {
      FlattenSnoc(data.keys, data.m, j);
      flat := PushAll(flat, data.m[data.keys[j]]);
    }
    assert data.keys[..|data.keys|] == data.keys;
  }

  // ---------------------------------------------------------------------
  // The date range of getData

  /** The numbers the query range is built from. */
  datatype Window = Window(year: int, month: int, day: int, yearEnd: int, monthEnd: int)

  /** The `parseInt`s and defaults of `getData`; `None` is NaN. A missing month
      spans the whole year, December wraps into January of the next year. */
  function QueryWindow(yearParam: Option<int>, monthParam: Option<int>, dayParam: Option<int>, currentYear: int): Window {
    var year := if yearParam.Some? && yearParam.value != 0 then yearParam.value else currentYear;
    var day := if dayParam.Some? && dayParam.value != 0 then dayParam.value else 1;
    if monthParam.None? || monthParam.value == 0 then Window(year, 1, day, year + 1, 1)
    else if monthParam.value == 12 then Window(year, 12, day, year + 1, 1)
    else Window(year, monthParam.value, day, year, monthParam.value + 1)
  }

  /** `${n}`.padStart(2, '0'). */
  function Pad2(n: int): string {
    PadStart(IntText(n), 2, '0')
  }

  function RangeStart(w: Window): string {
    IntText(w.year) + "-" + Pad2(w.month) + "-" + Pad2(w.day) + "T00:00:00Z"
  }

  function RangeStop(w: Window): string {
    IntText(w.yearEnd) + "-" + Pad2(w.monthEnd) + "-01T00:00:00Z"
  }

  /** Months counted from year 0, for comparing the two ends. */
  function MonthIndex(year: int, month: int): int {
    year * 12 + (month - 1)
  }

  /** A given month spans exactly one month, December included; a missing
      month spans twelve months from January; a missing day is the first. */
  lemma QueryWindowSpan(yearParam: Option<int>, monthParam: Option<int>, dayParam: Option<int>, currentYear: int)
    ensures var w := QueryWindow(yearParam, monthParam, dayParam, currentYear);
      && (yearParam.None? || yearParam == Some(0) ==> w.year == currentYear)
      && (dayParam.None? || dayParam == Some(0) ==> w.day == 1)
      && (monthParam.None? || monthParam == Some(0) ==> w.month == 1 && MonthIndex(w.yearEnd, w.monthEnd) == MonthIndex(w.year, 1) + 12)
      && (monthParam.Some? && 1 <= monthParam.value <= 12 ==>
            w.month == monthParam.value && MonthIndex(w.yearEnd, w.monthEnd) == MonthIndex(w.year, w.month) + 1
            && 1 <= w.monthEnd <= 12)
  {
  }

  lemma Pad2Digits(n: int)
    requires 0 <= n < 100
    ensures |Pad2(n)| == 2 && IsDigits(Pad2(n))
  {
    if n < 10 {
      assert NatText(n) == [Digit(n)];
    } else {
      assert NatText(n) == NatText(n / 10) + [Digit(n % 10)];
    }
  }
}
