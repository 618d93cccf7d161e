/** The collector's buffer `dataStore.data`: one entry per series that has
    received a point since the last flush, each holding the points in the
    order they were added and the optional `start`/`end` bounds. */
module Store {
  import opened Wrappers

  /** One buffered `[time, value]` pair. JavaScript numbers are reals here. */
  datatype Point = Point(time: real, value: real)

  /** `{name, data, start?, end?}`. An entry is created without `start` and
      `end`; both stay absent unless something sets them. */
  datatype Entry = Entry(name: string, data: seq<Point>, start: Option<real>, end: Option<real>)

  /** The series names of a buffer, in entry order. */
  function Names(s: seq<Entry>): (r: seq<string>)
    ensures |r| == |s|
    ensures forall i :: 0 <= i < |s| ==> r[i] == s[i].name
  {
    if s == [] then [] else [s[0].name] + Names(s[1..])
  }

  /** No series name appears twice. */
  predicate Unique(names: seq<string>) {
    forall i, j :: 0 <= i < j < |names| ==> names[i] != names[j]
  }

  /** The shape every buffer of a collector keeps: each entry belongs to a
      declared series, no series has two entries, and every entry holds at
      least the point that created it. */
  predicate WellFormed(s: seq<Entry>, declared: seq<string>) {
    && Unique(Names(s))
    && (forall i :: 0 <= i < |s| ==> s[i].name in declared)
    && (forall i :: 0 <= i < |s| ==> s[i].data != [])
  }

  /** No entry has a `start` or an `end`. */
  predicate Unbounded(s: seq<Entry>) {
    forall i :: 0 <= i < |s| ==> s[i].start.None? && s[i].end.None?
  }

  /** A new entry: `{name, data: [[time, value]]}`. */
  function NewEntry(name: string, p: Point): Entry {
    Entry(name, [p], None, None)
  }

  /** Pushing a point onto an existing entry. JavaScript's `>` and `<` with
      an undefined operand are false, so an absent bound stays absent; a
      present `start` moves down to the time and a present `end` up to it. */
  function Extend(e: Entry, p: Point): (r: Entry)
    ensures r.name == e.name && r.data == e.data + [p]
    ensures r.start.Some? <==> e.start.Some?
    ensures r.start.Some? ==>
              r.start.value == if e.start.value <= p.time then e.start.value else p.time
    ensures r.end.Some? <==> e.end.Some?
    ensures r.end.Some? ==>
              r.end.value == if e.end.value >= p.time then e.end.value else p.time
  {
    var start := if e.start.Some? && e.start.value > p.time then Some(p.time) else e.start;
    var end := if e.end.Some? && e.end.value < p.time then Some(p.time) else e.end;
    Entry(e.name, e.data + [p], start, end)
  }

  /** The buffer after `p` is added to series `name`: the first entry of that
      name is extended, or a new entry goes at the end when there is none. */
  function Append(s: seq<Entry>, name: string, p: Point): seq<Entry> {
    if s == [] then [NewEntry(name, p)]
    else if s[0].name == name then [Extend(s[0], p)] + s[1..]
    else [s[0]] + Append(s[1..], name, p)
  }

  /** `i` is the first entry of series `name`. */
  predicate FirstOf(s: seq<Entry>, name: string, i: int) {
    && 0 <= i < |s| && s[i].name == name
    && forall k :: 0 <= k < i ==> s[k].name != name
  }

  /** `findIndex(elm => elm.name === name)`: the first entry of the series,
      or -1 when the buffer has none. */
  method IndexOf(s: seq<Entry>, name: string) returns (idx: int)
    ensures idx == -1 || FirstOf(s, name, idx)
    ensures idx == -1 <==> name !in Names(s)
  {
    idx := 0;
    while idx < |s|
      invariant 0 <= idx <= |s|
      invariant forall k :: 0 <= k < idx ==> s[k].name != name
    {
      if s[idx].name == name {
        return;
      }
      idx := idx + 1;
    }
    idx := -1;
  }

  /** Every entry of a series comes at or after its first one. */
  lemma {:induction false} FirstIndex(s: seq<Entry>, name: string, i: int) returns (f: int)
    requires 0 <= i < |s| && s[i].name == name
    ensures f <= i && FirstOf(s, name, f)
  {
    if k :| 0 <= k < i && s[k].name == name {
      f := FirstIndex(s, name, k);
    } else {
      f := i;
    }
  }

  /** With no entry of the series, Append places a new one after all the
      others. */
  lemma {:induction false} AppendAbsent(s: seq<Entry>, name: string, p: Point)
    requires forall k :: 0 <= k < |s| ==> s[k].name != name
    ensures Append(s, name, p) == s + [NewEntry(name, p)]
  {
    if s != [] {
      AppendAbsent(s[1..], name, p);
      assert s == [s[0]] + s[1..];
    }
  }

  /** With `i` the first entry of the series, Append extends that entry and
      changes no other. */
  lemma {:induction false} AppendPresent(s: seq<Entry>, name: string, p: Point, i: int)
    requires FirstOf(s, name, i)
    ensures Append(s, name, p) == s[i := Extend(s[i], p)]
  {
    if i > 0 {
      var t := s[1..];
      assert FirstOf(t, name, i - 1) by {
        forall k | 0 <= k < i - 1 ensures t[k].name != name { assert t[k] == s[k + 1]; }
      }
      AppendPresent(t, name, p, i - 1);
      assert s[i := Extend(s[i], p)] == [s[0]] + t[i - 1 := Extend(t[i - 1], p)];
    }
  }

  /** The entry-by-entry reading of Append: the first entry of the series is
      extended, or, at -1 when there is none, a new entry is added last. */
  lemma AppendFirst(s: seq<Entry>, name: string, p: Point) returns (f: int)
    ensures f == -1 || FirstOf(s, name, f)
    ensures f == -1 <==> name !in Names(s)
    ensures Append(s, name, p) == if f == -1 then s + [NewEntry(name, p)] else s[f := Extend(s[f], p)]
  {
    if name in Names(s) {
      var i :| 0 <= i < |s| && s[i].name == name;
      f := FirstIndex(s, name, i);
    } else {
      f := -1;
    }
    if f == -1 {
      AppendAbsent(s, name, p);
    } else {
      AppendPresent(s, name, p, f);
    }
  }

  /** Appending keeps the entry order: the series list grows by the new name
      at the end on first use and is otherwise unchanged. */
  lemma {:induction false} AppendNames(s: seq<Entry>, name: string, p: Point)
    ensures Names(Append(s, name, p)) == if name in Names(s) then Names(s) else Names(s) + [name]
  {
    if s != [] && s[0].name != name {
      AppendNames(s[1..], name, p);
      assert Names(s) == [s[0].name] + Names(s[1..]);
    }
  }

  /** Appending a point for a declared series keeps the buffer well formed. */
  lemma AppendWellFormed(s: seq<Entry>, declared: seq<string>, name: string, p: Point)
    requires WellFormed(s, declared)
    requires name in declared
    ensures WellFormed(Append(s, name, p), declared)
  {
    AppendNames(s, name, p);
    var f := AppendFirst(s, name, p);
  }

  /** Where the point goes: the series' points gain `p` at the end (a new
      entry holds `p` alone), and every other entry is unchanged. */
  lemma AppendContents(s: seq<Entry>, name: string, p: Point)
    requires Unique(Names(s))
    ensures var r := Append(s, name, p);
      && |s| <= |r|
      && (forall i :: 0 <= i < |s| && s[i].name != name ==> r[i] == s[i])
      && (forall i :: 0 <= i < |s| && s[i].name == name ==> r[i].data == s[i].data + [p])
      && (name !in Names(s) ==> |r| == |s| + 1 && r[|s|] == NewEntry(name, p))
  {
    var f := AppendFirst(s, name, p);
  }

  /** `start` never increases and `end` never decreases, an absent bound
      stays absent, and a fresh entry has neither. */
  lemma AppendBounds(s: seq<Entry>, name: string, p: Point)
    ensures var r := Append(s, name, p);
      && |s| <= |r|
      && (forall i :: 0 <= i < |s| ==>
            && (r[i].start.Some? <==> s[i].start.Some?)
            && (r[i].start.Some? ==> r[i].start.value <= s[i].start.value)
            && (r[i].end.Some? <==> s[i].end.Some?)
            && (r[i].end.Some? ==> r[i].end.value >= s[i].end.value))
      && (|r| > |s| ==> r[|s|].start.None? && r[|s|].end.None?)
  {
    var f := AppendFirst(s, name, p);
  }

  /** Since entries are created without bounds and an absent bound stays
      absent, no buffer built by appends ever has one. */
  lemma AppendUnbounded(s: seq<Entry>, name: string, p: Point)
    requires Unbounded(s)
    ensures Unbounded(Append(s, name, p))
  {
    AppendBounds(s, name, p);
  }

  /** The number of buffered points. */
  function PointCount(s: seq<Entry>): nat {
    if s == [] then 0 else |s[0].data| + PointCount(s[1..])
  }

  /** Appending adds exactly one point to the buffer: none is lost. */
  lemma {:induction false} AppendCount(s: seq<Entry>, name: string, p: Point)
    ensures PointCount(Append(s, name, p)) == PointCount(s) + 1
  {
    if s == [] {
      assert Append(s, name, p)[1..] == [];
    } else if s[0].name == name {
      assert ([Extend(s[0], p)] + s[1..])[1..] == s[1..];
    } else {
      AppendCount(s[1..], name, p);
      assert ([s[0]] + Append(s[1..], name, p))[1..] == Append(s[1..], name, p);
    }
  }
}
