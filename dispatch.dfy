/** The behaviour of the parser registry as functions on values: what one
    parser does with one message, which parsers a message on a channel
    reaches and in what order, and what the registry reports as its series
    (sinks/dashboard/parsers.py). */
module Dispatch {

  import opened Wrappers
  import opened SeriesStore
  import opened Payloads
  import opened Timestamps
  import opened Decoders

  /** The state of one registered parser. */
  datatype Parser =
    | DaqParser(start: Option<real>)
    | ParsleyParser(decoder: Decoder, clock: Clock)

  /** What a parser is, apart from the state it updates. */
  datatype Kind = DaqKind | ParsleyKind(decoder: Decoder)

  function KindOf(p: Parser): Kind
  {
    match p
    case DaqParser(_) => DaqKind
    case ParsleyParser(d, _) => ParsleyKind(d)
  }

  /** A parser of this kind handles a message of this type and shape without
      raising. A Parsley parser returns at once on another message type. */
  predicate AcceptsKind(k: Kind, msgType: string, sh: Fields)
  {
    match k
    case DaqKind => DaqFits(sh)
    case ParsleyKind(d) => msgType != MsgType(d) || CanFits(d, sh)
  }

  predicate Accepts(p: Parser, m: Payload)
  {
    AcceptsKind(KindOf(p), m.msgType, Shape(m.data))
  }

  datatype Corrected = Corrected(clock: Clock, data: Dict)

  /** The time correction of `ParsleyParser.parse`: a `time` field is turned
      into corrected seconds in place and the clock advances; a message
      without one leaves both as they were. */
  function UnwrapField(c: Clock, data: Dict): (r: Corrected)
    requires Lookup(data, "time").Some? ==> Lookup(data, "time").value.Num?
    ensures Shape(r.data) == Shape(data)
    ensures Lookup(data, "time") == None ==> r == Corrected(c, data)
    ensures Lookup(data, "time").Some? ==>
      var u := Unwrap(c, Lookup(data, "time").value.x);
      && r.clock == u.clock
      && Lookup(r.data, "time") == Some(Num(u.time))
      && forall k :: k != "time" ==> Lookup(r.data, k) == Lookup(data, k)
  {
    match Lookup(data, "time")
    case None => Corrected(c, data)
    case Some(v) =>
      var u := Unwrap(c, v.x);
      StoreKeepsShape(data, "time", Num(u.time));
      Corrected(u.clock, Store(data, "time", Num(u.time)))
  }

  /** The parser, the channel's series table and the payload after one parser
      has handled one message. */
  datatype Outcome = Outcome(parser: Parser, table: Table, payload: Payload)

  /** `parser.parse(payload)`. */
  function Parse(p: Parser, t: Table, m: Payload): (o: Outcome)
    requires Accepts(p, m)
    ensures KindOf(o.parser) == KindOf(p)
    ensures o.payload.msgType == m.msgType && o.payload.timestamp == m.timestamp
    ensures Shape(o.payload.data) == Shape(m.data)
    ensures DistinctNames(t) ==> DistinctNames(o.table)
  {
    match p
    case DaqParser(start) => DaqParse(start, t, m)
    case ParsleyParser(d, c) => ParsleyParse(d, c, t, m)
  }

  /** `DAQParser.parse`: the first timestamp is latched as time zero, then
      every sensor's mean is appended at the time elapsed since it. */
  function DaqParse(start: Option<real>, t: Table, m: Payload): (o: Outcome)
    requires DaqFits(Shape(m.data))
  {
    match start
    case None => Outcome(DaqParser(Some(m.timestamp)), AddAll(t, DaqEntries(m.data, m.timestamp - m.timestamp)), m)
    case Some(s) => Outcome(DaqParser(start), AddAll(t, DaqEntries(m.data, m.timestamp - s)), m)
  }

  /** `ParsleyParser.parse` followed by the subclass's `parse_can`. */
  function ParsleyParse(d: Decoder, c: Clock, t: Table, m: Payload): (o: Outcome)
    requires m.msgType != MsgType(d) || CanFits(d, Shape(m.data))
  {
    if m.msgType != MsgType(d) then Outcome(ParsleyParser(d, c), t, m)
    else
      TagAtShape(m.data, "time");
      var r := UnwrapField(c, m.data);
      Outcome(ParsleyParser(d, r.clock), AddAll(t, CanEntries(d, r.data)), m.(data := r.data))
  }

  /** The first message a DAQ parser sees sets time zero: its timestamp is
      latched as `start`, its points are at time 0, the payload is left as
      it was. */
  lemma DaqFirstMessage(t: Table, m: Payload)
    requires Accepts(DaqParser(None), m)
    ensures var o := Parse(DaqParser(None), t, m);
      && o.parser == DaqParser(Some(m.timestamp))
      && o.payload == m
      && o.table == AddAll(t, DaqEntries(m.data, 0.0))
  {
    assert Parse(DaqParser(None), t, m) == DaqParse(None, t, m);
  }

  /** Once `start` is set it never changes, and every later message's points
      are at its timestamp minus `start`; the payload is left as it was. */
  lemma DaqLaterMessage(s: real, t: Table, m: Payload)
    requires Accepts(DaqParser(Some(s)), m)
    ensures var o := Parse(DaqParser(Some(s)), t, m);
      && o.parser == DaqParser(Some(s))
      && o.payload == m
      && o.table == AddAll(t, DaqEntries(m.data, m.timestamp - s))
  {
    assert Parse(DaqParser(Some(s)), t, m) == DaqParse(Some(s), t, m);
  }

  /** The first DAQ message at timestamp 100 carrying samples 10, 20, 30 for
      "s1" gives that series the single point (0, 20). */
  lemma DaqExample()
    ensures var m := Payload("", 100.0, [("s1", Samples([10.0, 20.0, 30.0]))]);
      Accepts(DaqParser(None), m) &&
      PointsOf(Parse(DaqParser(None), [], m).table, "s1") == [Point(0.0, 20.0)]
  {
    var m := Payload("", 100.0, [("s1", Samples([10.0, 20.0, 30.0]))]);
    assert Accepts(DaqParser(None), m);
    DaqOnePointPerSensor([], m.data, 0.0, 0);
    assert m.data[0].1.xs == [10.0, 20.0, 30.0];
    MeanExample();
  }

  /** A Parsley parser ignores every other message type: its clock, the
      series and the payload stay as they were. */
  lemma ParsleyIgnoresOtherTypes(d: Decoder, c: Clock, t: Table, m: Payload)
    requires m.msgType != MsgType(d)
    ensures Accepts(ParsleyParser(d, c), m)
    ensures Parse(ParsleyParser(d, c), t, m) == Outcome(ParsleyParser(d, c), t, m)
  {
  }

  /** On its own message type a Parsley parser corrects the time in place,
      advances its clock as `Unwrap` says and appends what its decoder
      emits at the corrected time. */
  lemma ParsleyHandlesOwnType(d: Decoder, c: Clock, t: Table, m: Payload)
    requires m.msgType == MsgType(d) && CanFits(d, Shape(m.data))
    ensures var o := Parse(ParsleyParser(d, c), t, m);
      var u := Unwrap(c, NumAt(m.data, "time"));
      && o.parser == ParsleyParser(d, u.clock)
      && Lookup(o.payload.data, "time") == Some(Num(u.time))
      && (forall k :: k != "time" ==> Lookup(o.payload.data, k) == Lookup(m.data, k))
      && o.table == AddAll(t, CanEntries(d, o.payload.data))
      && NumAt(o.payload.data, "time") == u.time
  {
    TagAtShape(m.data, "time");
    var o := Parse(ParsleyParser(d, c), t, m);
    TagAtShape(o.payload.data, "time");
  }

  /** One registered channel: its parsers in registration order and the
      series table they all share. */
  datatype Group = Group(channel: string, parsers: seq<Parser>, table: Table)

  /** A group's channel and its parsers' kinds: what no message changes. */
  datatype Slots = Slots(channel: string, kinds: seq<Kind>)

  function Kinds(ps: seq<Parser>): seq<Kind>
  {
    seq(|ps|, j requires 0 <= j < |ps| => KindOf(ps[j]))
  }

  function Layout(gs: seq<Group>): seq<Slots>
  {
    seq(|gs|, i requires 0 <= i < |gs| => Slots(gs[i].channel, Kinds(gs[i].parsers)))
  }

  /** The registry's invariant: each channel once, each with at least one
      parser, each table with each series name once. */
  ghost predicate ValidGroups(gs: seq<Group>)
  {
    && (forall i, j :: 0 <= i < j < |gs| ==> gs[i].channel != gs[j].channel)
    && (forall i :: 0 <= i < |gs| ==> |gs[i].parsers| > 0 && DistinctNames(gs[i].table))
  }

  /** `channel.startswith(prefix)`. */
  predicate StartsWith(channel: string, prefix: string)
  {
    prefix <= channel
  }

  /** The position of a parser: its group and its place in the group. */
  datatype Slot = Slot(group: nat, parser: nat)

  /** The first `n` parsers of group `g`, if the group fires. (The ensures
      only spell out the comprehension, for the proofs that use it.) */
  function GroupRoute(g: nat, n: nat, fires: bool): (r: seq<Slot>)
    ensures |r| == if fires then n else 0
    ensures forall k :: 0 <= k < |r| ==> r[k] == Slot(g, k)
  {
    if fires then seq(n, j requires 0 <= j < n => Slot(g, j)) else []
  }

  /** A group's route grows one slot at a time, and splits after any of
      them. */
  lemma GroupRouteSplit(g: nat, n: nat, j: nat)
    requires j < n
    ensures GroupRoute(g, j + 1, true) == GroupRoute(g, j, true) + [Slot(g, j)]
    ensures GroupRoute(g, n, true) == GroupRoute(g, j + 1, true) + GroupRoute(g, n, true)[j + 1..]
  {
    var all := GroupRoute(g, n, true);
    assert all[..j + 1] == GroupRoute(g, j + 1, true);
    assert all == all[..j + 1] + all[j + 1..];
  }

  /** The parsers `all_parse(channel, ...)` calls, in the order it calls them:
      every parser of every group whose channel is a prefix of `channel`,
      groups in registration order and parsers in list order. */
  function Route(lay: seq<Slots>, channel: string): seq<Slot>
  {
    if lay == [] then []
    else
      var i := |lay| - 1;
      Route(lay[..i], channel) + GroupRoute(i, |lay[i].kinds|, StartsWith(channel, lay[i].channel))
  }

  /** Slot `a` comes strictly before slot `b` in registration order. */
  predicate Before(a: Slot, b: Slot)
  {
    a.group < b.group || (a.group == b.group && a.parser < b.parser)
  }

  /** A message reaches exactly the parsers of the groups whose channel is a
      prefix of its channel, each once and in registration order. */
  lemma {:induction false} RouteExact(lay: seq<Slots>, channel: string)
    ensures forall s :: s in Route(lay, channel) <==>
      s.group < |lay| && StartsWith(channel, lay[s.group].channel) && s.parser < |lay[s.group].kinds|
    ensures forall a, b :: 0 <= a < b < |Route(lay, channel)| ==> Before(Route(lay, channel)[a], Route(lay, channel)[b])
  {
    if lay != [] {
      var i := |lay| - 1;
      RouteExact(lay[..i], channel);
      var front := Route(lay[..i], channel);
      var back := GroupRoute(i, |lay[i].kinds|, StartsWith(channel, lay[i].channel));
      assert Route(lay, channel) == front + back;
      forall s: Slot ensures s in front + back <==>
        s.group < |lay| && StartsWith(channel, lay[s.group].channel) && s.parser < |lay[s.group].kinds|
      {
        if s in back {
          var k :| 0 <= k < |back| && back[k] == s;
        }
        if s.group == i && StartsWith(channel, lay[i].channel) && s.parser < |lay[i].kinds| {
          assert back[s.parser] == s;
        }
      }
      forall a, b | 0 <= a < b < |front + back|
        ensures Before((front + back)[a], (front + back)[b])
      {
        if b >= |front| && a < |front| {
          assert front[a] in front;
        }
      }
    }
  }

  /** Every slot of the route is a parser that accepts the message. */
  ghost predicate Admits(lay: seq<Slots>, r: seq<Slot>, msgType: string, sh: Fields)
  {
    forall k :: 0 <= k < |r| ==>
      && r[k].group < |lay| && r[k].parser < |lay[r[k].group].kinds|
      && AcceptsKind(lay[r[k].group].kinds[r[k].parser], msgType, sh)
  }

  /** The registry's groups and the payload as it travels from parser to
      parser (each parser sees the changes the previous ones made to it). */
  datatype World = World(groups: seq<Group>, payload: Payload)

  /** The parser at slot `s` handles the payload. */
  function Step(w: World, s: Slot): (w': World)
    requires s.group < |w.groups| && s.parser < |w.groups[s.group].parsers|
    requires Accepts(w.groups[s.group].parsers[s.parser], w.payload)
    ensures Layout(w'.groups) == Layout(w.groups)
    ensures w'.payload.msgType == w.payload.msgType && Shape(w'.payload.data) == Shape(w.payload.data)
    ensures w'.payload.timestamp == w.payload.timestamp
    ensures ValidGroups(w.groups) ==> ValidGroups(w'.groups)
    ensures forall i :: 0 <= i < |w.groups| && i != s.group ==> w'.groups[i] == w.groups[i]
  {
    var g := w.groups[s.group];
    var o := Parse(g.parsers[s.parser], g.table, w.payload);
    var g' := g.(parsers := g.parsers[s.parser := o.parser], table := o.table);
    assert Kinds(g'.parsers) == Kinds(g.parsers);
    var gs' := w.groups[s.group := g'];
    assert Layout(gs') == Layout(w.groups);
    World(gs', o.payload)
  }

  /** The slots of `r` handle the payload one after the other. */
  function Apply(w: World, r: seq<Slot>): (w': World)
    requires Admits(Layout(w.groups), r, w.payload.msgType, Shape(w.payload.data))
    ensures Layout(w'.groups) == Layout(w.groups)
    ensures w'.payload.msgType == w.payload.msgType && Shape(w'.payload.data) == Shape(w.payload.data)
    ensures w'.payload.timestamp == w.payload.timestamp
    ensures ValidGroups(w.groups) ==> ValidGroups(w'.groups)
  {
    if r == [] then w
    else
      var s := r[|r| - 1];
      var w1 := Apply(w, r[..|r| - 1]);
      assert Layout(w1.groups)[s.group].kinds[s.parser] == KindOf(w1.groups[s.group].parsers[s.parser]);
      Step(w1, s)
  }

  /** Applying one more slot is one more step, taken by a parser that
      accepts the payload as the earlier slots left it. */
  lemma ApplySnoc(w: World, r: seq<Slot>, s: Slot)
    requires Admits(Layout(w.groups), r + [s], w.payload.msgType, Shape(w.payload.data))
    ensures Admits(Layout(w.groups), r, w.payload.msgType, Shape(w.payload.data))
    ensures var w1 := Apply(w, r);
      && s.group < |w1.groups| && s.parser < |w1.groups[s.group].parsers|
      && Accepts(w1.groups[s.group].parsers[s.parser], w1.payload)
      && Apply(w, r + [s]) == Step(w1, s)
  {
    assert (r + [s])[..|r|] == r;
    assert (r + [s])[|r|] == s;
    var w1 := Apply(w, r);
    assert Layout(w1.groups)[s.group].kinds[s.parser] == KindOf(w1.groups[s.group].parsers[s.parser]);
  }

  /** Admission is per slot, so both parts of an admitted route are admitted. */
  lemma AdmitsSplit(lay: seq<Slots>, r1: seq<Slot>, r2: seq<Slot>, msgType: string, sh: Fields)
    requires Admits(lay, r1 + r2, msgType, sh)
    ensures Admits(lay, r1, msgType, sh) && Admits(lay, r2, msgType, sh)
  {
    forall k | 0 <= k < |r2|
      ensures r2[k].group < |lay| && r2[k].parser < |lay[r2[k].group].kinds|
      ensures AcceptsKind(lay[r2[k].group].kinds[r2[k].parser], msgType, sh)
    {
      assert r2[k] == (r1 + r2)[|r1| + k];
    }
    forall k | 0 <= k < |r1|
      ensures r1[k].group < |lay| && r1[k].parser < |lay[r1[k].group].kinds|
      ensures AcceptsKind(lay[r1[k].group].kinds[r1[k].parser], msgType, sh)
    {
      assert r1[k] == (r1 + r2)[k];
    }
  }

  /** Applying a route in two parts is applying it whole. */
  lemma {:induction false} ApplyAppend(w: World, r1: seq<Slot>, r2: seq<Slot>)
    requires Admits(Layout(w.groups), r1 + r2, w.payload.msgType, Shape(w.payload.data))
    ensures Admits(Layout(w.groups), r1, w.payload.msgType, Shape(w.payload.data))
    ensures Admits(Layout(w.groups), r2, w.payload.msgType, Shape(w.payload.data))
    ensures Apply(w, r1 + r2) == Apply(Apply(w, r1), r2)
    decreases |r2|
  {
    AdmitsSplit(Layout(w.groups), r1, r2, w.payload.msgType, Shape(w.payload.data));
    if r2 == [] {
      assert r1 + r2 == r1;
    } else {
      var n := |r2| - 1;
      var s := r2[n];
      assert r1 + r2 == (r1 + r2[..n]) + [s];
      assert r2 == r2[..n] + [s];
      ApplySnoc(w, r1 + r2[..n], s);
      ApplyAppend(w, r1, r2[..n]);
      ApplySnoc(Apply(w, r1), r2[..n], s);
    }
  }

  /** A Parsley parser for another message type: it returns at once. */
  predicate Ignores(p: Parser, msgType: string)
  {
    p.ParsleyParser? && MsgType(p.decoder) != msgType
  }

  /** A route whose parsers all ignore the message leaves the registry and
      the payload exactly as they were. */
  lemma {:induction false} ApplyIgnored(w: World, r: seq<Slot>)
    requires forall k :: 0 <= k < |r| ==>
      && r[k].group < |w.groups| && r[k].parser < |w.groups[r[k].group].parsers|
      && Ignores(w.groups[r[k].group].parsers[r[k].parser], w.payload.msgType)
    ensures Admits(Layout(w.groups), r, w.payload.msgType, Shape(w.payload.data))
    ensures Apply(w, r) == w
  {
    assert Admits(Layout(w.groups), r, w.payload.msgType, Shape(w.payload.data)) by {
      forall k | 0 <= k < |r|
        ensures AcceptsKind(Layout(w.groups)[r[k].group].kinds[r[k].parser], w.payload.msgType, Shape(w.payload.data))
      {
        assert Layout(w.groups)[r[k].group].kinds[r[k].parser] == KindOf(w.groups[r[k].group].parsers[r[k].parser]);
      }
    }
    if r != [] {
      var n := |r| - 1;
      var s := r[n];
      SplitLast(r);
      ApplyIgnored(w, r[..n]);
      ApplySnoc(w, r[..n], s);
      assert Step(w, s) == w by {
        var g := w.groups[s.group];
        var p := g.parsers[s.parser];
        ParsleyIgnoresOtherTypes(p.decoder, p.clock, g.table, w.payload);
        assert g.parsers[s.parser := p] == g.parsers;
        assert w.groups[s.group := g] == w.groups;
      }
    }
  }

  /** A non-empty route is its front followed by its last slot. */
  lemma SplitLast(r: seq<Slot>)
    requires r != []
    ensures r[..|r| - 1] + [r[|r| - 1]] == r
  {
  }

  /** A group that no slot of the route names is left exactly as it was. */
  lemma {:induction false} ApplyFrame(w: World, r: seq<Slot>, i: nat)
    requires Admits(Layout(w.groups), r, w.payload.msgType, Shape(w.payload.data))
    requires i < |w.groups|
    requires forall k :: 0 <= k < |r| ==> r[k].group != i
    ensures Apply(w, r).groups[i] == w.groups[i]
  {
    if r != [] {
      ApplyFrame(w, r[..|r| - 1], i);
    }
  }

  /** Every parser of every group the channel reaches accepts the message:
      what `all_parse` needs in order not to raise. */
  ghost predicate CanDispatch(gs: seq<Group>, channel: string, m: Payload)
  {
    forall i, j :: 0 <= i < |gs| && 0 <= j < |gs[i].parsers| && StartsWith(channel, gs[i].channel) ==>
      Accepts(gs[i].parsers[j], m)
  }

  lemma RouteAdmitted(gs: seq<Group>, channel: string, m: Payload)
    requires CanDispatch(gs, channel, m)
    ensures Admits(Layout(gs), Route(Layout(gs), channel), m.msgType, Shape(m.data))
  {
    var lay := Layout(gs);
    var r := Route(lay, channel);
    RouteExact(lay, channel);
    forall k | 0 <= k < |r|
      ensures r[k].group < |lay| && r[k].parser < |lay[r[k].group].kinds|
      ensures AcceptsKind(lay[r[k].group].kinds[r[k].parser], m.msgType, Shape(m.data))
    {
      assert r[k] in r;
      var s := r[k];
      assert lay[s.group].kinds[s.parser] == KindOf(gs[s.group].parsers[s.parser]);
    }
  }

  /** `Parser.all_parse(channel, payload)`. */
  function AllParse(gs: seq<Group>, channel: string, m: Payload): World
    requires CanDispatch(gs, channel, m)
  {
    RouteAdmitted(gs, channel, m);
    Apply(World(gs, m), Route(Layout(gs), channel))
  }

  /** Groups whose channel is not a prefix of the message's channel are not
      touched; every group keeps its channel and its parsers' kinds. */
  lemma DispatchLeavesOthers(gs: seq<Group>, channel: string, m: Payload, i: nat)
    requires CanDispatch(gs, channel, m)
    requires i < |gs| && !StartsWith(channel, gs[i].channel)
    ensures AllParse(gs, channel, m).groups[i] == gs[i]
    ensures Layout(AllParse(gs, channel, m).groups) == Layout(gs)
  {
    var lay := Layout(gs);
    var r := Route(lay, channel);
    RouteExact(lay, channel);
    RouteAdmitted(gs, channel, m);
    forall k | 0 <= k < |r| ensures r[k].group != i {
      assert r[k] in r;
    }
    ApplyFrame(World(gs, m), r, i);
  }

  /** Prefix matching is on strings, not path segments: a message on
      "CAN/Parsley/INJECTOR" reaches both the "CAN" and the "CAN/Parsley"
      parsers, and not the "DAQ" ones. */
  lemma RouteExample(k0: Kind, k1: Kind, k2: Kind)
    ensures Route([Slots("CAN", [k0]), Slots("DAQ", [k1]), Slots("CAN/Parsley", [k2, k2])], "CAN/Parsley/INJECTOR")
      == [Slot(0, 0), Slot(2, 0), Slot(2, 1)]
  {
    var lay := [Slots("CAN", [k0]), Slots("DAQ", [k1]), Slots("CAN/Parsley", [k2, k2])];
    assert StartsWith("CAN/Parsley/INJECTOR", "CAN");
    assert StartsWith("CAN/Parsley/INJECTOR", "CAN/Parsley");
    assert !StartsWith("CAN/Parsley/INJECTOR", "DAQ") by {
      assert "CAN/Parsley/INJECTOR"[0] != "DAQ"[0];
    }
    assert lay[..2][..1] == lay[..1];
    assert lay[..1][..0] == [];
    assert lay[..3] == lay;
    assert Route(lay[..1], "CAN/Parsley/INJECTOR") == [Slot(0, 0)];
    assert Route(lay[..2], "CAN/Parsley/INJECTOR") == [Slot(0, 0)];
    assert GroupRoute(2, 2, true) == [Slot(2, 0), Slot(2, 1)];
  }

  /** `Parser.get_all_series(prefix)`: the series of every channel that starts
      with `prefix`, channel by channel in registration order. */
  function AllSeriesOf(gs: seq<Group>, prefix: string): seq<Series>
  {
    if gs == [] then []
    else
      var i := |gs| - 1;
      AllSeriesOf(gs[..i], prefix) + (if StartsWith(gs[i].channel, prefix) then gs[i].table else [])
  }

  /** A series is reported iff it belongs to a channel that starts with the
      prefix; with the empty prefix that is every series of every channel. */
  lemma {:induction false} AllSeriesMembers(gs: seq<Group>, prefix: string, s: Series)
    ensures s in AllSeriesOf(gs, prefix) <==>
      exists i :: 0 <= i < |gs| && StartsWith(gs[i].channel, prefix) && s in gs[i].table
    ensures prefix == [] ==> (s in AllSeriesOf(gs, prefix) <==> exists i :: 0 <= i < |gs| && s in gs[i].table)
  {
    if gs != [] {
      var i := |gs| - 1;
      AllSeriesMembers(gs[..i], prefix, s);
      if s in AllSeriesOf(gs[..i], prefix) {
        var j :| 0 <= j < i && StartsWith(gs[..i][j].channel, prefix) && s in gs[..i][j].table;
        assert gs[j] == gs[..i][j];
      }
      if exists j :: 0 <= j < |gs| && StartsWith(gs[j].channel, prefix) && s in gs[j].table {
        var j :| 0 <= j < |gs| && StartsWith(gs[j].channel, prefix) && s in gs[j].table;
        if j < i {
          assert gs[..i][j] == gs[j];
        }
      }
    }
  }

  /** Position of a channel among the registered ones. */
  function ChannelIndex(gs: seq<Group>, channel: string): (r: Option<nat>)
    ensures r.Some? ==> r.value < |gs| && gs[r.value].channel == channel
    ensures r.None? ==> forall i :: 0 <= i < |gs| ==> gs[i].channel != channel
  {
    if gs == [] then None
    else if gs[|gs| - 1].channel == channel then Some(|gs| - 1)
    else ChannelIndex(gs[..|gs| - 1], channel)
  }
}
