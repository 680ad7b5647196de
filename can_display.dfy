/** Per-board CAN node state of the dashboard: the board table, the bounded
    message history, the board status and its colour, and the health table
    the display refreshes from its nodes (sinks/dashboard/can_display.py).
    Widgets, labels, buttons and timers are not part of this model. */
module CanDisplay {

  import opened Wrappers

  const HealthyColor := "green"
  const UnhealthyColor := "red"
  const MaxMsgQueueSize := 50
  const GeneralBoardStatus := "GENERAL_BOARD_STATUS"

  /** One entry of `BOARD_DATA`: the board's name, CAN id, display slot and
      text colour. */
  datatype Board = Board(name: string, id: nat, index: nat, color: string)

  /** `BOARD_DATA`, in the order the dict lists its keys. */
  const Boards: seq<Board> := [
    Board("DUMMY", 0x00, 0, "black"),
    Board("INJECTOR", 0x01, 1, "chocolate"),
    Board("LOGGER", 0x03, 2, "darkCyan"),
    Board("RADIO", 0x05, 3, "blue"),
    Board("SENSOR", 0x07, 4, "darkblue"),
    Board("VENT", 0x0B, 5, "slategray"),
    Board("GPS", 0x0D, 6, "darkMagenta"),
    Board("ARMING", 0x11, 7, "darkGreen"),
    Board("PAPA", 0x13, 8, "olive"),
    Board("ROCKET_PI", 0x15, 9, "purple"),
    Board("ROCKET_PI_2", 0x16, 10, "deeppink"),
    Board("SENSOR_2", 0x19, 11, "steelblue"),
    Board("SENSOR_3", 0x1B, 12, "darkorange")
  ]

  /** The position of the board called `name`, if the table has one. */
  function FindBoard(bs: seq<Board>, name: string): (r: Option<nat>)
    ensures r.Some? ==> r.value < |bs| && bs[r.value].name == name
    ensures r.None? ==> forall k :: 0 <= k < |bs| ==> bs[k].name != name
  {
    if bs == [] then None
    else if bs[|bs| - 1].name == name then Some(|bs| - 1)
    else FindBoard(bs[..|bs| - 1], name)
  }

  predicate IsBoard(name: string)
  {
    FindBoard(Boards, name).Some?
  }

  /** The CAN ids strictly increase down the table, so no two boards share
      one. */
  lemma BoardIds()
    ensures forall j, k :: 0 <= j < k < |Boards| ==> Boards[j].id < Boards[k].id
  {
  }

  /** Thirteen boards; each board's display slot is its position, so the
      slots are distinct and cover 0..12; names are distinct and every name
      finds its own entry. */
  lemma BoardTable()
    ensures |Boards| == 13
    ensures forall k :: 0 <= k < |Boards| ==> Boards[k].index == k
    ensures forall j, k :: 0 <= j < k < |Boards| ==> Boards[j].name != Boards[k].name
    ensures forall k :: 0 <= k < |Boards| ==> FindBoard(Boards, Boards[k].name) == Some(k)
  {
    forall j, k | 0 <= j < k < |Boards| ensures Boards[j].name != Boards[k].name {
      NamesDiffer(j, k);
    }
  }

  /** Every board of the table is found, at its own position. */
  lemma NameFindsBoard(k: nat)
    requires k < |Boards|
    ensures IsBoard(Boards[k].name) && SlotOf(Boards[k].name) == k
  {
    BoardTable();
  }

  /** `BOARD_DATA[name]["index"]`: the display slot of a board, which is
      the one place the table lists it. */
  function SlotOf(name: string): (r: nat)
    requires IsBoard(name)
    ensures r < |Boards| && Boards[r].name == name
    ensures forall k :: 0 <= k < |Boards| && Boards[k].name == name ==> k == r
  {
    BoardTable();
    Boards[FindBoard(Boards, name).value].index
  }

  lemma NamesDiffer(j: nat, k: nat)
    requires j < k < |Boards|
    ensures Boards[j].name != Boards[k].name
  {
    var a, b := Boards[j].name, Boards[k].name;
    if |a| == |b| {
      if j == 0 || j == 2 || j == 3 || j == 5 {
        assert a[0] != b[0];
      } else if j == 11 {
        assert a[7] != b[7];
      } else {
        assert a[0] != b[0];
      }
    }
  }

  /** `get_status_color`: green exactly for the two healthy statuses. */
  function StatusColor(status: string): (c: string)
    ensures c == HealthyColor <==> status == "E_NOMINAL" || status == "RECEIVED_MSG_NO_STATUS"
    ensures c == HealthyColor || c == UnhealthyColor
  {
    if status in ["E_NOMINAL", "RECEIVED_MSG_NO_STATUS"] then HealthyColor else UnhealthyColor
  }

  /** A node starts "DEAD" and red, which is the colour "DEAD" maps to. */
  lemma DeadIsRed()
    ensures StatusColor("DEAD") == UnhealthyColor
  {
    assert "DEAD"[0] != "E_NOMINAL"[0] && "DEAD"[0] != "RECEIVED_MSG_NO_STATUS"[0];
  }

  /** The last `n` elements of `s`, or all of them if there are fewer. */
  function Newest(s: seq<string>, n: nat): (r: seq<string>)
    ensures |r| == if |s| < n then |s| else n
    ensures r == s[|s| - |r|..]
  {
    if |s| <= n then s else s[|s| - n..]
  }

  /** Appending to the history deque: when it is full the oldest line goes
      first, so the result is the newest lines, at most 50, in order. */
  function Pushed(q: seq<string>, line: string): (r: seq<string>)
    requires |q| <= MaxMsgQueueSize
    ensures r == Newest(q + [line], MaxMsgQueueSize)
    ensures |r| <= MaxMsgQueueSize && r[|r| - 1] == line
  {
    (if |q| == MaxMsgQueueSize then q[1..] else q) + [line]
  }

  /** The history after the lines arrive one by one. */
  function PushedAll(q: seq<string>, lines: seq<string>): (r: seq<string>)
    requires |q| <= MaxMsgQueueSize
    ensures |r| <= MaxMsgQueueSize
  {
    if lines == [] then q
    else Pushed(PushedAll(q, lines[..|lines| - 1]), lines[|lines| - 1])
  }

  /** Whatever arrives, the history holds exactly the newest 50 lines (or all
      of them, if fewer arrived), oldest first. */
  lemma {:induction false} HistoryKeepsNewest(q: seq<string>, lines: seq<string>)
    requires |q| <= MaxMsgQueueSize
    ensures PushedAll(q, lines) == Newest(q + lines, MaxMsgQueueSize)
  {
    if lines != [] {
      var n := |lines| - 1;
      HistoryKeepsNewest(q, lines[..n]);
      AppendLast(q, lines);
      NewestSnoc(q + lines[..n], lines[n], MaxMsgQueueSize);
    }
  }

  lemma AppendLast(q: seq<string>, lines: seq<string>)
    requires lines != []
    ensures q + lines == (q + lines[..|lines| - 1]) + [lines[|lines| - 1]]
  {
    assert lines == lines[..|lines| - 1] + [lines[|lines| - 1]];
  }

  lemma NewestSnoc(s: seq<string>, x: string, n: nat)
    ensures Newest(Newest(s, n) + [x], n) == Newest(s + [x], n)
  {
    var a := Newest(Newest(s, n) + [x], n);
    var b := Newest(s + [x], n);
    assert |a| == |b|;
    forall k | 0 <= k < |a| ensures a[k] == b[k] {
      if k < |a| - 1 {
        assert a[k] == (s + [x])[|s| + 1 - |a| + k];
      }
    }
  }

  /** What the node reads from the newest message: its type, `data.time`,
      `data.status` when it has one, and the line the formatter made of it. */
  datatype CanMessage = CanMessage(msgType: string, time: real, status: Option<string>, line: string)

  /** `CanNodeWidgetDashItem`: one board's last message time, its history and
      its status. */
  class CanNode {
    const props: Option<string>
    const boardId: string
    const boardIndex: nat
    var oldCanMsgTime: real
    var currCanMsgTime: real
    var history: seq<string>
    var boardStatus: string
    var statusColor: string

    /** The history never exceeds its bound and the colour always matches
        the status; the board is in the table at `boardIndex`. */
    ghost predicate Valid()
      reads this
    {
      && boardIndex < |Boards| && Boards[boardIndex].name == boardId
      && |history| <= MaxMsgQueueSize
      && statusColor == StatusColor(boardStatus)
    }

    /** A node for the named board ("DUMMY" without one): no messages yet,
        "DEAD" and red. */
    constructor (props: Option<string>)
      requires IsBoard(if props.None? then "DUMMY" else props.value)
      ensures Valid()
      ensures this.props == props && boardId == (if props.None? then "DUMMY" else props.value)
      ensures boardIndex == SlotOf(boardId)
      ensures oldCanMsgTime == 0.0 && currCanMsgTime == 0.0 && history == []
      ensures boardStatus == "DEAD" && statusColor == UnhealthyColor
    {
      this.props := props;
      var id := if props.None? then "DUMMY" else props.value;
      boardId := id;
      boardIndex := SlotOf(id);
      oldCanMsgTime := 0.0;
      currCanMsgTime := 0.0;
      history := [];
      boardStatus := "DEAD";
      DeadIsRed();
      statusColor := UnhealthyColor;
    }

    /** `updateCanMsgTimes`: the newest message's time becomes current. */
    method UpdateCanMsgTimes(msg: CanMessage)
      modifies this
      ensures currCanMsgTime == msg.time
      ensures history == old(history) && boardStatus == old(boardStatus) && statusColor == old(statusColor)
      ensures oldCanMsgTime == old(oldCanMsgTime)
    {
      currCanMsgTime := msg.time;
    }

    /** `on_data_update`: record the time, push the formatted line onto the
        bounded history, and take a new status (and its colour) only from a
        board status message. */
    method OnDataUpdate(msg: CanMessage)
      requires Valid()
      requires msg.msgType == GeneralBoardStatus ==> msg.status.Some?
      modifies this
      ensures Valid()
      ensures currCanMsgTime == msg.time && oldCanMsgTime == old(oldCanMsgTime)
      ensures history == Pushed(old(history), msg.line + "\n")
      ensures msg.msgType == GeneralBoardStatus ==> boardStatus == msg.status.value
      ensures msg.msgType != GeneralBoardStatus ==>
        boardStatus == old(boardStatus) && statusColor == old(statusColor)
    {
      UpdateCanMsgTimes(msg);
      if |history| == MaxMsgQueueSize {
        history := history[1..];
      }
      history := history + [msg.line + "\n"];
      if msg.msgType == GeneralBoardStatus {
        boardStatus := msg.status.value;
        statusColor := StatusColor(boardStatus);
      }
    }
  }

  /** A node as its constructor leaves it: no messages yet, "DEAD" and red. */
  ghost predicate NewNode(n: CanNode)
    reads n
  {
    && n.boardStatus == "DEAD" && n.statusColor == UnhealthyColor && n.history == []
    && n.currCanMsgTime == 0.0 && n.oldCanMsgTime == 0.0
  }

  /** `CanDisplayDashItem` with the module's two health lists, which it is
      the only one to write. */
  class CanDashboard {
    var nodes: seq<CanNode>
    const healthStates: array<string>
    const healthColors: array<string>

    ghost predicate Valid()
      reads this, nodes
    {
      && |nodes| == |Boards|
      && healthStates.Length == |Boards| && healthColors.Length == |Boards|
      && healthStates != healthColors
      && forall k :: 0 <= k < |nodes| ==> nodes[k].boardIndex == k && nodes[k].Valid()
    }

    /** One node per board, in table order, each a new node as its
        constructor leaves it; every board starts "DEAD" and red in the
        health lists. */
    constructor ()
      ensures Valid() && fresh(healthStates) && fresh(healthColors)
      ensures forall k :: 0 <= k < |nodes| ==> nodes[k].boardId == Boards[k].name
      ensures forall k :: 0 <= k < |Boards| ==> healthStates[k] == "DEAD" && healthColors[k] == UnhealthyColor
      ensures forall k :: 0 <= k < |nodes| ==> fresh(nodes[k]) && NewNode(nodes[k])
    {
      var states := new string[|Boards|](_ => "DEAD");
      var colors := new string[|Boards|](_ => UnhealthyColor);
      var ns: seq<CanNode> := [];
      var k := 0;
      while k < |Boards|
        invariant 0 <= k <= |Boards| && |ns| == k
        invariant forall j :: 0 <= j < k ==> ns[j].boardIndex == j && ns[j].boardId == Boards[j].name && ns[j].Valid()
        invariant forall j :: 0 <= j < |Boards| ==> states[j] == "DEAD" && colors[j] == UnhealthyColor
        invariant forall j :: 0 <= j < k ==> fresh(ns[j]) && NewNode(ns[j])
      {
        NameFindsBoard(k);
        var node := new CanNode(Some(Boards[k].name));
        ns := ns + [node];
        k := k + 1;
      }
      nodes := ns;
      healthStates := states;
      healthColors := colors;
    }

    /** `update_board_health_state`: each node's status and colour go to
        the slot its board has in the table; afterwards every slot shows a
        colour that matches its status. */
    method UpdateBoardHealthState()
      requires Valid()
      modifies healthStates, healthColors
      ensures forall k :: 0 <= k < |nodes| ==>
        healthStates[nodes[k].boardIndex] == nodes[k].boardStatus &&
        healthColors[nodes[k].boardIndex] == nodes[k].statusColor
      ensures forall k :: 0 <= k < healthStates.Length ==> healthColors[k] == StatusColor(healthStates[k])
    {
      var ns := nodes;
      var k := 0;
      while k < |ns|
        invariant 0 <= k <= |ns|
        invariant forall j :: 0 <= j < k ==>
          healthStates[j] == ns[j].boardStatus && healthColors[j] == ns[j].statusColor
      {
        var node := ns[k];
        assert node.boardIndex == k && node.Valid();
        var slot := SlotOf(node.boardId);
        assert slot == k;
        healthStates[slot] := node.boardStatus;
        healthColors[slot] := node.statusColor;
        k := k + 1;
      }
    }
  }
}
