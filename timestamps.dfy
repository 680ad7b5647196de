/** Correction of the wrapping millisecond timestamps of CAN messages, as a
    `ParsleyParser` does it (sinks/dashboard/parsers.py, lines 96-111). */
module Timestamps {

  /** A parser's unwrapping state: the last raw time seen (in seconds) and the
      amount added to every raw time. */
  datatype Clock = Clock(lastTime: real, timeOffset: real)

  /** A fresh parser starts with both at zero. */
  const Start := Clock(0.0, 0.0)

  datatype Unwrapped = Unwrapped(clock: Clock, time: real)

  /** One raw time in milliseconds becomes seconds; a drop below the previous
      raw time is a wrap-around, after which the previous raw time is added to
      the offset for good. */
  function Unwrap(c: Clock, rawMillis: real): (u: Unwrapped)
    ensures u.clock.lastTime == rawMillis / 1000.0
    ensures u.time == u.clock.lastTime + u.clock.timeOffset
    ensures c.lastTime >= 0.0 ==> u.clock.timeOffset >= c.timeOffset
    ensures rawMillis >= 0.0 ==> u.time >= c.lastTime + c.timeOffset
  {
    var t := rawMillis / 1000.0;
    var offset := if t < c.lastTime then c.timeOffset + c.lastTime else c.timeOffset;
    Unwrapped(Clock(t, offset), t + offset)
  }

  /** How far one message moves the corrected clock: without a wrap-around
      by the raw difference, across one by the new raw time; and the offset
      changes only on a wrap-around. */
  lemma UnwrapAdvance(c: Clock, rawMillis: real)
    ensures var u := Unwrap(c, rawMillis);
      u.time - (c.lastTime + c.timeOffset) ==
        if rawMillis / 1000.0 < c.lastTime then rawMillis / 1000.0 else rawMillis / 1000.0 - c.lastTime
    ensures Unwrap(c, rawMillis).clock.timeOffset != c.timeOffset ==> rawMillis / 1000.0 < c.lastTime
  {
  }

  datatype Run = Run(clock: Clock, times: seq<real>)

  /** The corrected times of successive messages on one parser. */
  function UnwrapAll(c: Clock, raws: seq<real>): (r: Run)
    ensures |r.times| == |raws|
    decreases |raws|
  {
    if raws == [] then Run(c, [])
    else
      var u := Unwrap(c, raws[0]);
      var rest := UnwrapAll(u.clock, raws[1..]);
      Run(rest.clock, [u.time] + rest.times)
  }

  ghost predicate NonDecreasing(s: seq<real>)
  {
    forall i, j :: 0 <= i < j < |s| ==> s[i] <= s[j]
  }

  /** For non-negative raw times the corrected times never go back, none is
      before the last one the clock handed out, and the offset never shrinks. */
  lemma {:induction false} UnwrapAllMonotone(c: Clock, raws: seq<real>)
    requires c.lastTime >= 0.0
    requires forall i :: 0 <= i < |raws| ==> raws[i] >= 0.0
    ensures NonDecreasing(UnwrapAll(c, raws).times)
    ensures forall i :: 0 <= i < |raws| ==> UnwrapAll(c, raws).times[i] >= c.lastTime + c.timeOffset
    ensures UnwrapAll(c, raws).clock.timeOffset >= c.timeOffset
    ensures UnwrapAll(c, raws).clock.lastTime >= 0.0
    decreases |raws|
  {
    if raws != [] {
      var u := Unwrap(c, raws[0]);
      UnwrapAllMonotone(u.clock, raws[1..]);
      var r := UnwrapAll(c, raws);
      assert r.times == [u.time] + UnwrapAll(u.clock, raws[1..]).times;
    }
  }

  /** Raw milliseconds as seconds. */
  function Seconds(raws: seq<real>): (ts: seq<real>)
    ensures |ts| == |raws|
  {
    seq(|raws|, i requires 0 <= i < |raws| => raws[i] / 1000.0)
  }

  /** The total of the wrap-arounds in a run of times (in seconds): at each
      drop below the time before it, that earlier time. */
  function Drops(prev: real, ts: seq<real>): real
    decreases |ts|
  {
    if ts == [] then 0.0
    else (if ts[0] < prev then prev else 0.0) + Drops(ts[0], ts[1..])
  }

  /** After a run, the offset is the starting offset plus every raw time that
      was followed by a drop, and `last_time` is the last raw time. */
  lemma {:induction false} UnwrapAllOffset(c: Clock, raws: seq<real>)
    ensures UnwrapAll(c, raws).clock.timeOffset == c.timeOffset + Drops(c.lastTime, Seconds(raws))
    ensures raws != [] ==> UnwrapAll(c, raws).clock.lastTime == raws[|raws| - 1] / 1000.0
    ensures raws == [] ==> UnwrapAll(c, raws).clock == c
    decreases |raws|
  {
    if raws != [] {
      var u := Unwrap(c, raws[0]);
      UnwrapAllOffset(u.clock, raws[1..]);
      assert Seconds(raws)[1..] == Seconds(raws[1..]);
      if |raws| > 1 {
        assert raws[1..][|raws[1..]| - 1] == raws[|raws| - 1];
      }
    }
  }

  /** The worked example: raw 5, 10, 3, 8 ms give 0.005, 0.010, 0.013 and
      0.018 s, the offset growing by 0.010 at the drop from 10 to 3. */
  lemma UnwrapExample()
    ensures UnwrapAll(Start, [5.0, 10.0, 3.0, 8.0]).times == [0.005, 0.010, 0.013, 0.018]
    ensures UnwrapAll(Start, [5.0, 10.0, 3.0, 8.0]).clock == Clock(0.008, 0.010)
  {
  }
}
