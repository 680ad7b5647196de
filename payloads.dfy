/** Decoded bus messages as the parsers receive them: a message type, a
    timestamp and a `data` dictionary whose keys keep their insertion order. */
module Payloads {

  import opened Wrappers

  /** A field value: a number, a text (an enum name such as a sensor id) or a
      list of raw analog samples. */
  datatype Value = Num(x: real) | Text(s: string) | Samples(xs: seq<real>)

  /** What a value is, as far as the parsers can fail on it. */
  datatype Tag = NumTag | TextTag | SamplesTag(nonEmpty: bool)

  function TagOf(v: Value): Tag
  {
    match v
    case Num(_) => NumTag
    case Text(_) => TextTag
    case Samples(xs) => SamplesTag(|xs| > 0)
  }

  /** A Python dict: key/value pairs in insertion order. */
  type Dict = seq<(string, Value)>

  datatype Payload = Payload(msgType: string, timestamp: real, data: Dict)

  /** `d[k]`, or None when `k` is not a key. */
  function Lookup(d: Dict, k: string): Option<Value>
  {
    if d == [] then None
    else if d[0].0 == k then Some(d[0].1)
    else Lookup(d[1..], k)
  }

  /** `d[k] = v` for a key already present: the value is replaced where it is. */
  function Store(d: Dict, k: string, v: Value): (r: Dict)
    requires Lookup(d, k).Some?
    ensures Lookup(r, k) == Some(v)
    ensures forall j :: j != k ==> Lookup(r, j) == Lookup(d, j)
    ensures |r| == |d| && forall i :: 0 <= i < |d| ==> r[i].0 == d[i].0
  {
    if d[0].0 == k then [(k, v)] + d[1..]
    else [d[0]] + Store(d[1..], k, v)
  }

  /** Keys with the tag of each value: what a dict looks like to a parser. */
  type Fields = seq<(string, Tag)>

  /** The keys of a dict with the tag of each value. */
  function Shape(d: Dict): Fields
  {
    seq(|d|, i requires 0 <= i < |d| => (d[i].0, TagOf(d[i].1)))
  }

  /** The tag stored under `k` in a shape. */
  function TagAt(sh: Fields, k: string): Option<Tag>
  {
    if sh == [] then None
    else if sh[0].0 == k then Some(sh[0].1)
    else TagAt(sh[1..], k)
  }

  /** The shape of a dict tells what `d[k]` is without looking at values. */
  lemma {:induction false} TagAtShape(d: Dict, k: string)
    ensures TagAt(Shape(d), k) == if Lookup(d, k).Some? then Some(TagOf(Lookup(d, k).value)) else None
  {
    if d != [] {
      assert Shape(d)[1..] == Shape(d[1..]);
      TagAtShape(d[1..], k);
    }
  }

  /** Replacing a value by one of the same kind leaves the shape as it was. */
  lemma {:induction false} StoreKeepsShape(d: Dict, k: string, v: Value)
    requires Lookup(d, k).Some? && TagOf(Lookup(d, k).value) == TagOf(v)
    ensures Shape(Store(d, k, v)) == Shape(d)
  {
    ShapeCons(d[0], d[1..]);
    assert [d[0]] + d[1..] == d;
    if d[0].0 != k {
      StoreKeepsShape(d[1..], k, v);
      ShapeCons(d[0], Store(d[1..], k, v));
    } else {
      ShapeCons((k, v), d[1..]);
    }
  }

  /** The shape of a dict is built entry by entry. */
  lemma ShapeCons(e: (string, Value), d: Dict)
    ensures Shape([e] + d) == [(e.0, TagOf(e.1))] + Shape(d)
  {
    assert forall i :: 0 <= i < |d| ==> ([e] + d)[i + 1] == d[i];
  }

  /** Storing twice under one key keeps only the second value. */
  lemma {:induction false} StoreTwice(d: Dict, k: string, v: Value, w: Value)
    requires Lookup(d, k).Some?
    ensures Store(Store(d, k, v), k, w) == Store(d, k, w)
  {
    if d[0].0 != k {
      StoreTwice(d[1..], k, v, w);
    }
  }

  /** The number under `k`, for a dict whose shape promises one. */
  function NumAt(d: Dict, k: string): (x: real)
    requires TagAt(Shape(d), k) == Some(NumTag)
    ensures Lookup(d, k) == Some(Num(x))
  {
    TagAtShape(d, k);
    Lookup(d, k).value.x
  }

  /** The text under `k`, for a dict whose shape promises one. */
  function TextAt(d: Dict, k: string): (s: string)
    requires TagAt(Shape(d), k) == Some(TextTag)
    ensures Lookup(d, k) == Some(Text(s))
  {
    TagAtShape(d, k);
    Lookup(d, k).value.s
  }

  /** Whatever is under `k`, for a dict whose shape says it is there. */
  function ValueAt(d: Dict, k: string): (v: Value)
    requires TagAt(Shape(d), k).Some?
    ensures Lookup(d, k) == Some(v)
  {
    TagAtShape(d, k);
    Lookup(d, k).value
  }
}
