/** A channel's dictionary of named series (the dashboard's `SeriesDefaultDict`
    of `Series` objects), as an insertion-ordered table of name/points pairs. */
module SeriesStore {

  import opened Wrappers

  /** One sample of a series: a time and a value. */
  datatype Point = Point(time: real, value: real)

  /** A named, append-only sequence of samples. */
  datatype Series = Series(name: string, points: seq<Point>)

  /** The series of one channel in the order they were first used. */
  type Table = seq<Series>

  /** A (series name, point) pair that a parser appends. */
  type Entry = (string, Point)

  function Names(t: Table): seq<string>
  {
    seq(|t|, i requires 0 <= i < |t| => t[i].name)
  }

  ghost predicate DistinctNames(t: Table)
  {
    forall i, j :: 0 <= i < j < |t| ==> t[i].name != t[j].name
  }

  /** Position of the first occurrence of `x` in `s`. */
  function IndexOf(s: seq<string>, x: string): (r: Option<nat>)
    ensures r.Some? ==> r.value < |s| && s[r.value] == x
    ensures r.Some? ==> forall i :: 0 <= i < r.value ==> s[i] != x
    ensures r.None? ==> forall i :: 0 <= i < |s| ==> s[i] != x
  {
    if s == [] then None
    else if s[0] == x then Some(0)
    else match IndexOf(s[1..], x)
      case None => None
      case Some(k) => Some(k + 1)
  }

  /** Appending an element leaves every earlier first occurrence where it was. */
  lemma IndexOfAppend(s: seq<string>, y: string)
    ensures forall x :: IndexOf(s + [y], x) ==
                          (if IndexOf(s, x).Some? then IndexOf(s, x) else if x == y then Some(|s|) else None)
  {
    forall x ensures IndexOf(s + [y], x) ==
      if IndexOf(s, x).Some? then IndexOf(s, x) else if x == y then Some(|s|) else None
    {
      var r := IndexOf(s + [y], x);
      assert (s + [y])[|s|] == y;
      if IndexOf(s, x).Some? {
        var k := IndexOf(s, x).value;
        assert (s + [y])[k] == x;
      }
    }
  }

  /** Where the series called `name` sits in the table, if it exists. */
  function Find(t: Table, name: string): Option<nat>
  {
    IndexOf(Names(t), name)
  }

  /** The points recorded under `name`; a name never used has none. */
  function PointsOf(t: Table, name: string): seq<Point>
  {
    match Find(t, name)
    case None => []
    case Some(k) => t[k].points
  }

  /** The table after an access and the position of the accessed series. */
  datatype Access = Access(table: Table, index: nat)

  /** `table[name]` on a `SeriesDefaultDict`: an existing series is returned as
      it is, a missing one is created empty and stored at the end first. */
  function GetOrCreate(t: Table, name: string): (a: Access)
    ensures a.index < |a.table| && Find(a.table, name) == Some(a.index)
    ensures a.table[a.index].name == name
    ensures |t| <= |a.table| && a.table[..|t|] == t
    ensures |a.table| == |t| + 1 <==> Find(t, name).None?
    ensures |a.table| <= |t| + 1
    ensures forall n :: PointsOf(a.table, n) == PointsOf(t, n)
    ensures DistinctNames(t) ==> DistinctNames(a.table)
  {
    match Find(t, name)
    case Some(k) => Access(t, k)
    case None =>
      var t' := t + [Series(name, [])];
      assert Names(t') == Names(t) + [name];
      assert forall i :: 0 <= i < |t| ==> t[i].name == Names(t)[i] != name;
      IndexOfAppend(Names(t), name);
      assert forall n :: n != name ==> Find(t', n) == Find(t, n) by {
        forall n | n != name ensures Find(t', n) == Find(t, n) { IndexOfAppend(Names(t), n); }
      }
      Access(t', |t|)
  }

  /** `table[name].add(time, value)`: the point goes at the end of that series,
      creating the series first if needed; every other series is untouched. */
  function Add(t: Table, name: string, p: Point): (r: Table)
    ensures forall n :: PointsOf(r, n) == if n == name then PointsOf(t, n) + [p] else PointsOf(t, n)
    ensures Names(r) == Names(GetOrCreate(t, name).table)
    ensures DistinctNames(t) ==> DistinctNames(r)
  {
    var a := GetOrCreate(t, name);
    var r := a.table[a.index := a.table[a.index].(points := a.table[a.index].points + [p])];
    assert Names(r) == Names(a.table);
    assert forall n :: PointsOf(r, n) == if n == name then PointsOf(t, n) + [p] else PointsOf(t, n) by {
      forall n ensures PointsOf(r, n) == if n == name then PointsOf(t, n) + [p] else PointsOf(t, n) {
        assert Find(r, n) == Find(a.table, n);
        assert PointsOf(a.table, n) == PointsOf(t, n);
      }
    }
    assert DistinctNames(t) ==> DistinctNames(r) by {
      if DistinctNames(t) {
        assert DistinctNames(a.table);
        assert forall i :: 0 <= i < |r| ==> r[i].name == a.table[i].name;
      }
    }
    r
  }

  /** Appends every entry in order. */
  function AddAll(t: Table, es: seq<Entry>): (r: Table)
    ensures DistinctNames(t) ==> DistinctNames(r)
  {
    if es == [] then t
    else
      var last := es[|es| - 1];
      Add(AddAll(t, es[..|es| - 1]), last.0, last.1)
  }

  /** A batch keeps every existing series where it was: new names only ever
      go at the end. */
  lemma {:induction false} AddAllKeepsNames(t: Table, es: seq<Entry>)
    ensures Names(t) <= Names(AddAll(t, es))
  {
    if es != [] {
      var last := es[|es| - 1];
      var before := AddAll(t, es[..|es| - 1]);
      AddAllKeepsNames(t, es[..|es| - 1]);
      var a := GetOrCreate(before, last.0);
      assert Names(before) == Names(a.table)[..|before|];
    }
  }

  /** The points of the entries named `n`, in order. */
  function PointsFor(es: seq<Entry>, n: string): seq<Point>
  {
    if es == [] then []
    else PointsFor(es[..|es| - 1], n) + (if es[|es| - 1].0 == n then [es[|es| - 1].1] else [])
  }

  ghost predicate DistinctEntryNames(es: seq<Entry>)
  {
    forall i, j :: 0 <= i < j < |es| ==> es[i].0 != es[j].0
  }

  /** Appending a batch adds to each series exactly the batch's points for
      that name, in batch order. */
  lemma {:induction false} AddAllPoints(t: Table, es: seq<Entry>, n: string)
    ensures PointsOf(AddAll(t, es), n) == PointsOf(t, n) + PointsFor(es, n)
  {
    if es != [] {
      AddAllPoints(t, es[..|es| - 1], n);
    }
  }

  /** A name the batch does not mention gets no point. */
  lemma {:induction false} PointsForAbsent(es: seq<Entry>, n: string)
    requires forall i :: 0 <= i < |es| ==> es[i].0 != n
    ensures PointsFor(es, n) == []
  {
    if es != [] {
      PointsForAbsent(es[..|es| - 1], n);
    }
  }

  /** In a batch whose names are distinct, each name gets exactly its own point. */
  lemma {:induction false} PointsForUnique(es: seq<Entry>, k: nat)
    requires k < |es| && DistinctEntryNames(es)
    ensures PointsFor(es, es[k].0) == [es[k].1]
  {
    var init := es[..|es| - 1];
    if k == |es| - 1 {
      PointsForAbsent(init, es[k].0);
    } else {
      PointsForUnique(init, k);
    }
  }

  /** In a batch with distinct names, each named series gets exactly its own
      point. */
  lemma AddAllDistinctAt(t: Table, es: seq<Entry>, k: nat)
    requires k < |es| && DistinctEntryNames(es)
    ensures PointsOf(AddAll(t, es), es[k].0) == PointsOf(t, es[k].0) + [es[k].1]
  {
    AddAllPoints(t, es, es[k].0);
    PointsForUnique(es, k);
  }

  /** A series the batch does not name is left as it was. */
  lemma AddAllAbsent(t: Table, es: seq<Entry>, n: string)
    requires forall k :: 0 <= k < |es| ==> es[k].0 != n
    ensures PointsOf(AddAll(t, es), n) == PointsOf(t, n)
  {
    AddAllPoints(t, es, n);
    PointsForAbsent(es, n);
  }

  /** Accessing the same name twice is the same as accessing it once: the
      second access finds the series the first one created. */
  lemma GetOrCreateIdempotent(t: Table, name: string)
    ensures GetOrCreate(GetOrCreate(t, name).table, name) == GetOrCreate(t, name)
  {
  }
}
