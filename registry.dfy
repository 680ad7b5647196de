/** The parser registry as the program holds it: one object whose channel
    list grows as parsers are created and whose series tables and parser
    states change as messages arrive (sinks/dashboard/parsers.py). Every
    method is proved against the functions of module Dispatch. */
module Registry {

  import opened Wrappers
  import opened SeriesStore
  import opened Payloads
  import opened Timestamps
  import opened Decoders
  import opened Dispatch

  /** `Parser.parsers`: the registered channels in registration order, each
      with its parsers and the series table they share. */
  class ParserRegistry {
    var groups: seq<Group>

    ghost predicate Valid()
      reads this
    {
      ValidGroups(groups)
    }

    /** An empty registry, before any parser is created. */
    constructor ()
      ensures groups == [] && Valid()
    {
      groups := [];
    }

    /** The registry once the module has been loaded: the DAQ parser, then
        one Parsley parser per CAN message type in the order the module
        creates them. The altitude sensor parser is defined but never
        created. */
    constructor Startup()
      ensures Valid()
      ensures groups == StartupGroups()
    {
      groups := [];
      new;
      Register("DAQ", DaqParser(None));
      RegisterParsley(StartupDecoders());
    }

    /** The Parsley parsers created one after the other, each with a fresh
        clock, after the DAQ parser. */
    method RegisterParsley(ds: seq<Decoder>)
      requires Valid() && groups == [Group("DAQ", [DaqParser(None)], [])] && |ds| > 0
      modifies this
      ensures Valid()
      ensures groups == [Group("DAQ", [DaqParser(None)], []), Group("CAN/Parsley", ParsleyParsers(ds), [])]
    {
      assert "DAQ" != "CAN/Parsley" by { assert "DAQ"[0] != "CAN/Parsley"[0]; }
      Register("CAN/Parsley", ParsleyParser(ds[0], Start));
      assert ParsleyParsers(ds[..1]) == [ParsleyParser(ds[0], Start)];
      var k := 1;
      while k < |ds|
        invariant 1 <= k <= |ds|
        invariant Valid()
        invariant groups == [Group("DAQ", [DaqParser(None)], []), Group("CAN/Parsley", ParsleyParsers(ds[..k]), [])]
      {
        ghost var before := groups;
        assert ChannelIndex(before, "CAN/Parsley") == Some(1);
        Register("CAN/Parsley", ParsleyParser(ds[k], Start));
        assert groups == [before[0], Group("CAN/Parsley", ParsleyParsers(ds[..k + 1]), [])] by {
          assert ds[..k + 1][..k] == ds[..k];
          assert ParsleyParsers(ds[..k + 1]) == ParsleyParsers(ds[..k]) + [ParsleyParser(ds[k], Start)];
        }
        k := k + 1;
      }
      assert ds[..k] == ds;
    }

    /** `Parser.__init__(channel)`: a parser on a known channel joins its
        list and shares its table; on a new channel it opens a new entry at
        the end with an empty table. */
    method Register(channel: string, p: Parser)
      requires Valid()
      modifies this
      ensures Valid()
      ensures match ChannelIndex(old(groups), channel)
        case Some(i) => groups == old(groups)[i := old(groups)[i].(parsers := old(groups)[i].parsers + [p])]
        case None => groups == old(groups) + [Group(channel, [p], [])]
    {
      match ChannelIndex(groups, channel)
      case Some(i) =>
        var g := groups[i];
        groups := groups[i := g.(parsers := g.parsers + [p])];
      case None =>
        groups := groups + [Group(channel, [p], [])];
    }

    /** `Parser.get_series(channel, name)`: nothing for an unknown channel;
        otherwise the named series of that channel, added empty to its table
        when it was not there yet. */
    method GetSeries(channel: string, name: string) returns (s: Option<Series>)
      requires Valid()
      modifies this
      ensures Valid()
      ensures ChannelIndex(old(groups), channel).None? ==> s.None? && groups == old(groups)
      ensures ChannelIndex(old(groups), channel).Some? ==>
        var i := ChannelIndex(old(groups), channel).value;
        var a := GetOrCreate(old(groups)[i].table, name);
        && s == Some(a.table[a.index])
        && groups == old(groups)[i := old(groups)[i].(table := a.table)]
    {
      match ChannelIndex(groups, channel)
      case None =>
        s := None;
      case Some(i) =>
        var g := groups[i];
        var a := GetOrCreate(g.table, name);
        groups := groups[i := g.(table := a.table)];
        s := Some(a.table[a.index]);
    }

    /** `Parser.get_all_series(prefix)`: the tables of the channels that start
        with the prefix, in registration order. */
    method AllSeries(prefix: string) returns (res: seq<Series>)
      ensures res == AllSeriesOf(groups, prefix)
    {
      res := [];
      var i := 0;
      while i < |groups|
        invariant 0 <= i <= |groups|
        invariant res == AllSeriesOf(groups[..i], prefix)
      {
        assert groups[..i + 1][..i] == groups[..i];
        if StartsWith(groups[i].channel, prefix) {
          res := res + groups[i].table;
        }
        i := i + 1;
      }
      assert groups[..i] == groups;
    }

    /** `self.series[name].add(time, value)` for each entry in turn, on the
        table of group `gi`. */
    method AddPoints(gi: nat, es: seq<Entry>)
      requires gi < |groups|
      modifies this
      ensures groups == old(groups)[gi := old(groups)[gi].(table := AddAll(old(groups)[gi].table, es))]
    {
      var t := groups[gi].table;
      ghost var t0 := t;
      var k := 0;
      while k < |es|
        invariant 0 <= k <= |es|
        invariant t == AddAll(t0, es[..k])
      {
        assert es[..k + 1][..k] == es[..k];
        t := Add(t, es[k].0, es[k].1);
        k := k + 1;
      }
      assert es[..k] == es;
      groups := groups[gi := groups[gi].(table := t)];
    }

    /** `parser.parse(payload)` for the parser at slot (gi, pi), with the
        payload's dict changed in place as the Parsley parsers change it. */
    method ParseAt(gi: nat, pi: nat, m: Payload) returns (out: Payload)
      requires gi < |groups| && pi < |groups[gi].parsers|
      requires Accepts(groups[gi].parsers[pi], m)
      modifies this
      ensures World(groups, out) == Step(World(old(groups), m), Slot(gi, pi))
    {
      var g := groups[gi];
      var next, es;
      next, es, out := Handle(g.parsers[pi], g.table, m);
      ghost var g' := g.(parsers := g.parsers[pi := next], table := AddAll(g.table, es));
      assert Step(World(groups, m), Slot(gi, pi)) == World(groups[gi := g'], out);
      AddPoints(gi, es);
      groups := groups[gi := groups[gi].(parsers := g.parsers[pi := next])];
      assert groups == old(groups)[gi := g'];
    }

    /** What one parser does with one message: its next state, the points it
        adds to its channel's table, and the payload as it leaves it. */
    static method Handle(p: Parser, t: Table, m: Payload) returns (next: Parser, es: seq<Entry>, out: Payload)
      requires Accepts(p, m)
      ensures Parse(p, t, m) == Outcome(next, AddAll(t, es), out)
    {
      match p {
        case DaqParser(None) =>
          next, es, out := DaqParser(Some(m.timestamp)), DaqEntries(m.data, m.timestamp - m.timestamp), m;
          assert Parse(p, t, m) == DaqParse(None, t, m);
        case DaqParser(Some(s)) =>
          next, es, out := p, DaqEntries(m.data, m.timestamp - s), m;
          assert Parse(p, t, m) == DaqParse(Some(s), t, m);
        case ParsleyParser(d, c) =>
          if m.msgType != MsgType(d) {
            next, es, out := p, [], m;
            assert Parse(p, t, m) == ParsleyParse(d, c, t, m);
          } else {
            TagAtShape(m.data, "time");
            var r := CorrectTime(c, m.data);
            next, es, out := ParsleyParser(d, r.clock), CanEntries(d, r.data), m.(data := r.data);
            assert Parse(p, t, m) == ParsleyParse(d, c, t, m);
          }
      }
    }

    /** The time correction at the top of `ParsleyParser.parse`, in the
        order the program does it: divide in place, detect a wrap-around
        against the last raw time, remember the raw time, add the offset in
        place. */
    static method CorrectTime(c: Clock, data: Dict) returns (r: Corrected)
      requires Lookup(data, "time").Some? ==> Lookup(data, "time").value.Num?
      ensures r == UnwrapField(c, data)
    {
      r := Corrected(c, data);
      if Lookup(data, "time").Some? {
        var raw := Lookup(data, "time").value.x;
        var d := Store(data, "time", Num(raw / 1000.0));
        var lastTime, offset := c.lastTime, c.timeOffset;
        if raw / 1000.0 < lastTime {
          offset := offset + lastTime;
        }
        lastTime := raw / 1000.0;
        d := Store(d, "time", Num(raw / 1000.0 + offset));
        StoreTwice(data, "time", Num(raw / 1000.0), Num(raw / 1000.0 + offset));
        r := Corrected(Clock(lastTime, offset), d);
      }
    }

    /** `Parser.all_parse(channel, payload)`: every parser of every channel
        that is a prefix of `channel`, channel by channel and parser by
        parser, each seeing the payload as the previous one left it. */
    method AllParse(channel: string, payload: Payload) returns (m: Payload)
      requires Valid() && CanDispatch(groups, channel, payload)
      modifies this
      ensures Valid()
      ensures World(groups, m) == Dispatch.AllParse(old(groups), channel, payload)
    {
      ghost var lay := Layout(groups);
      ghost var w0 := World(groups, payload);
      RouteAdmitted(groups, channel, payload);
      m := payload;
      var i := 0;
      while i < |groups|
        invariant 0 <= i <= |groups| == |lay|
        invariant Layout(groups) == lay
        invariant Admits(lay, Route(lay[..i], channel), payload.msgType, Shape(payload.data))
        invariant World(groups, m) == Apply(w0, Route(lay[..i], channel))
      {
        RouteNext(w0, channel, i);
        if StartsWith(channel, groups[i].channel) {
          assert |groups[i].parsers| == |lay[i].kinds|;
          m := ParseGroup(i, m);
        }
        i := i + 1;
      }
      assert lay[..i] == lay;
    }

    /** The inner loop of `all_parse`: the parsers of group `gi` in list
        order, each handed the payload the previous one returned. */
    method ParseGroup(gi: nat, m: Payload) returns (out: Payload)
      requires gi < |groups|
      requires Admits(Layout(groups), GroupRoute(gi, |groups[gi].parsers|, true), m.msgType, Shape(m.data))
      modifies this
      ensures World(groups, out) == Apply(World(old(groups), m), GroupRoute(gi, |old(groups)[gi].parsers|, true))
    {
      ghost var w := World(groups, m);
      ghost var n := |groups[gi].parsers|;
      ghost var all := GroupRoute(gi, n, true);
      out := m;
      var j := 0;
      while j < |groups[gi].parsers|
        invariant |groups| == |w.groups| && Layout(groups) == Layout(w.groups)
        invariant |groups[gi].parsers| == n && 0 <= j <= n
        invariant World(groups, out) == Apply(w, GroupRoute(gi, j, true))
      {
        ghost var r := GroupRoute(gi, j, true);
        GroupRouteSplit(gi, n, j);
        AdmitsSplit(Layout(w.groups), r + [Slot(gi, j)], all[j + 1..], m.msgType, Shape(m.data));
        ApplySnoc(w, r, Slot(gi, j));
        out := ParseAt(gi, j, out);
        j := j + 1;
      }
      assert j == n;
    }
  }

  /** The Parsley parsers the module creates, in the order it creates them. */
  function StartupDecoders(): seq<Decoder>
  {
    [FillSensing, Temperature, Accel, Gyro, Mag, AnalogSensor,
     ActuatorState, GpsInfo, GpsAltitude, GpsLatitude, GpsLongitude]
  }

  /** Fresh Parsley parsers for the given decoders. */
  function ParsleyParsers(ds: seq<Decoder>): seq<Parser>
  {
    seq(|ds|, k requires 0 <= k < |ds| => ParsleyParser(ds[k], Start))
  }

  function StartupGroups(): seq<Group>
  {
    [Group("DAQ", [DaqParser(None)], []),
     Group("CAN/Parsley", ParsleyParsers(StartupDecoders()), [])]
  }

  /** Handling one more group of the registry extends the route by that
      group's slots, if it fires, and the dispatch by their steps. */
  lemma RouteNext(w0: World, channel: string, i: nat)
    requires i < |w0.groups|
    requires Admits(Layout(w0.groups), Route(Layout(w0.groups), channel), w0.payload.msgType, Shape(w0.payload.data))
    ensures var lay := Layout(w0.groups);
      var here := GroupRoute(i, |lay[i].kinds|, StartsWith(channel, lay[i].channel));
      && Admits(lay, Route(lay[..i], channel), w0.payload.msgType, Shape(w0.payload.data))
      && Admits(lay, Route(lay[..i + 1], channel), w0.payload.msgType, Shape(w0.payload.data))
      && Admits(lay, here, w0.payload.msgType, Shape(w0.payload.data))
      && Apply(w0, Route(lay[..i + 1], channel)) == Apply(Apply(w0, Route(lay[..i], channel)), here)
  {
    var lay := Layout(w0.groups);
    assert lay[..i + 1][..i] == lay[..i];
    var here := GroupRoute(i, |lay[i].kinds|, StartsWith(channel, lay[i].channel));
    assert Route(lay[..i + 1], channel) == Route(lay[..i], channel) + here;
    RouteGroupDone(lay, channel, w0.payload, i);
    ApplyAppend(w0, Route(lay[..i], channel), here);
  }

  /** Every group handled so far was reached by admitted slots. */
  lemma RouteGroupDone(lay: seq<Slots>, channel: string, m: Payload, i: nat)
    requires i < |lay|
    requires Admits(lay, Route(lay, channel), m.msgType, Shape(m.data))
    ensures Admits(lay, Route(lay[..i + 1], channel), m.msgType, Shape(m.data))
  {
    RouteExact(lay, channel);
    RouteExact(lay[..i + 1], channel);
    var r := Route(lay[..i + 1], channel);
    forall k | 0 <= k < |r|
      ensures r[k] in Route(lay, channel)
    {
      assert r[k] in r;
    }
    AdmitsMembers(lay, Route(lay, channel), r, m);
  }

  /** Admission is per slot, so any route made of admitted slots is admitted. */
  lemma AdmitsMembers(lay: seq<Slots>, r: seq<Slot>, r': seq<Slot>, m: Payload)
    requires Admits(lay, r, m.msgType, Shape(m.data))
    requires forall k :: 0 <= k < |r'| ==> r'[k] in r
    ensures Admits(lay, r', m.msgType, Shape(m.data))
  {
    forall k | 0 <= k < |r'|
      ensures r'[k].group < |lay| && r'[k].parser < |lay[r'[k].group].kinds|
      ensures AcceptsKind(lay[r'[k].group].kinds[r'[k].parser], m.msgType, Shape(m.data))
    {
      var n :| 0 <= n < |r| && r[n] == r'[k];
    }
  }

  /** The registry at start-up: "DAQ" with its one parser, then "CAN/Parsley"
      with one fresh parser per decoder of `StartupDecoders`, all tables
      still empty. */
  lemma StartupRegistry()
    ensures var gs := StartupGroups();
      && ValidGroups(gs)
      && |gs| == 2 && gs[0].channel == "DAQ" && gs[1].channel == "CAN/Parsley"
      && gs[0].parsers == [DaqParser(None)]
      && |gs[1].parsers| == 11
      && (forall j :: 0 <= j < |gs[1].parsers| ==> gs[1].parsers[j] == ParsleyParser(StartupDecoders()[j], Start))
      && (forall i :: 0 <= i < |gs| ==> gs[i].table == [])
  {
    assert "DAQ"[0] != "CAN/Parsley"[0];
  }

  /** Every CAN message type but the altitude sensor's has a start-up
      parser. */
  lemma StartupCovers()
    ensures forall d :: d in StartupDecoders() <==> d != SensorAltitude
  {
    var ds := StartupDecoders();
    forall d ensures d in ds <==> d != SensorAltitude {
      match d
      case FillSensing => assert ds[0] == d;
      case Temperature => assert ds[1] == d;
      case Accel => assert ds[2] == d;
      case Gyro => assert ds[3] == d;
      case Mag => assert ds[4] == d;
      case AnalogSensor => assert ds[5] == d;
      case ActuatorState => assert ds[6] == d;
      case GpsInfo => assert ds[7] == d;
      case GpsAltitude => assert ds[8] == d;
      case GpsLatitude => assert ds[9] == d;
      case GpsLongitude => assert ds[10] == d;
      case SensorAltitude =>
    }
  }

  /** No two start-up Parsley parsers listen for the same message type. */
  lemma StartupTypesDistinct()
    ensures forall j, k :: 0 <= j < k < |StartupDecoders()| ==> MsgType(StartupDecoders()[j]) != MsgType(StartupDecoders()[k])
  {
  }

  /** The altitude sensor parser is never created, so at start-up a
      SENSOR_ALTITUDE message on the CAN channel reaches only parsers that
      ignore it: nothing changes, neither the registry nor the payload. */
  lemma AltitudeIgnoredAtStartup(channel: string, m: Payload)
    requires StartsWith(channel, "CAN/Parsley") && m.msgType == MsgType(SensorAltitude)
    ensures CanDispatch(StartupGroups(), channel, m)
    ensures AllParse(StartupGroups(), channel, m) == World(StartupGroups(), m)
  {
    var gs := StartupGroups();
    var r := Route(Layout(gs), channel);
    assert !StartsWith(channel, "DAQ") by {
      assert channel[0] == "CAN/Parsley"[0] != "DAQ"[0];
    }
    StartupIgnoresAltitude(m.msgType);
    forall k | 0 <= k < |r|
      ensures r[k].group < |gs| && r[k].parser < |gs[r[k].group].parsers|
      ensures Ignores(gs[r[k].group].parsers[r[k].parser], m.msgType)
    {
      RouteExact(Layout(gs), channel);
      assert r[k] in r;
    }
    assert CanDispatch(gs, channel, m);
    ApplyIgnored(World(gs, m), r);
  }

  /** Every parser registered at start-up ignores SENSOR_ALTITUDE messages,
      the DAQ parser only because it sits on another channel. */
  lemma StartupIgnoresAltitude(msgType: string)
    requires msgType == MsgType(SensorAltitude)
    ensures var gs := StartupGroups();
      |gs| == 2 && gs[0].channel == "DAQ" && gs[1].channel == "CAN/Parsley" &&
      forall j :: 0 <= j < |gs[1].parsers| ==> Ignores(gs[1].parsers[j], msgType)
  {
    var gs := StartupGroups();
    StartupRegistry();
    StartupCovers();
    forall j | 0 <= j < |gs[1].parsers| ensures Ignores(gs[1].parsers[j], msgType) {
      var d := StartupDecoders()[j];
      assert d in StartupDecoders();
      OnlyAltitudeType(d);
    }
  }

  /** SENSOR_ALTITUDE is the message type of the altitude sensor parser
      alone. */
  lemma OnlyAltitudeType(d: Decoder)
    requires d != SensorAltitude
    ensures MsgType(d) != MsgType(SensorAltitude)
  {
  }

  /** At start-up a message on "DAQ" reaches the DAQ parser and no other. */
  lemma DaqChannelAtStartup()
    ensures Route(Layout(StartupGroups()), "DAQ") == [Slot(0, 0)]
  {
    var lay := Layout(StartupGroups());
    assert !StartsWith("DAQ", "CAN/Parsley");
    assert lay[..1] == [lay[0]] && lay[..1][..0] == [] && lay[..2] == lay;
  }
}
