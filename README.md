# Telemetry parser registry and CAN node state, in Dafny

This project models the part of the dashboard that turns telemetry messages into named, time-stamped series. It covers:

- **The parser registry** (`sinks/dashboard/parsers.py`):
  - every parser registers under a channel string, and parsers on the same channel share one table of series;
  - `all_parse` hands a message to every parser whose channel is a string prefix of the message's channel, in registration order;
  - `get_series` and `get_all_series` read the tables back.
- **The two parser families:**
  - the DAQ parser latches its first timestamp as time zero and appends each sensor's mean;
  - the Parsley (CAN) parsers filter on message type, rewrite the wrapping millisecond `time` field in place into corrected seconds, and append the points their `parse_can` body computes.
- **Per-board CAN node state** (`sinks/dashboard/can_display.py`):
  - the board table;
  - the bounded history of formatted lines;
  - the board status and its colour;
  - the health lists the display refreshes from its nodes.

Modules, one per file:

- `wrappers.dfy`: `Option`.
- `series_store.dfy` (`SeriesStore`): a channel's series table as an insertion-ordered list of named point sequences. `GetOrCreate` is the create-on-access of `SeriesDefaultDict`; `Add` is `series[name].add(t, v)`.
- `payloads.dfy` (`Payloads`):
  - a message's `data` dict, as an insertion-ordered association list with `Lookup` and in-place `Store`;
  - its `Shape`, which lists the keys and the kind of each value.
- `timestamps.dfy` (`Timestamps`): the Parsley wrap-around correction (`Unwrap`) and its behaviour over a run of messages.
- `decoders.dfy` (`Decoders`):
  - the eleven `parse_can` bodies, plus the one of the parser that is never created, and the DAQ averaging;
  - each is written as the list of (series name, point) entries it appends.
- `dispatch.dfy` (`Dispatch`): the registry's behaviour as functions on values.
  - `Parse` is one parser handling one message.
  - `Route` lists the parsers a message reaches.
  - `Apply` threads the payload through them.
  - `AllSeriesOf` is the read side.
- `registry.dfy` (`Registry`): the registry object itself, `ParserRegistry`, a class whose `groups` field the methods update in place. Each method is proved against the `Dispatch` functions. `Startup` builds the registry that loading the module creates.
- `can_display.dfy` (`CanDisplay`): the board table, `get_status_color`, the history deque, the `CanNode` class and the `CanDashboard` class. `CanDashboard` holds the two module-level health lists as arrays.

Design points:

- **Parsers are values.** A parser is `DaqParser(start)` or `ParsleyParser(decoder, clock)`. A registered channel is a `Group(channel, parsers, table)`. Parsers of one channel therefore share one table by construction.
- **Order follows the dicts.** Channels are kept in the order they were first registered, which is the iteration order of the Python class-level dict.
- **The payload is threaded.** A Parsley parser rewrites `data["time"]` in the caller's dict, so the payload is passed from each parser to the next, and each parser sees what the previous ones left.
- **Crashes are preconditions.** A message the Python code would crash on is excluded by a precondition:
  - `Accepts` / `CanFits` / `DaqFits` cover a missing field, a value of the wrong kind, and an empty DAQ sample list;
  - `IsBoard` covers an unknown board name;
  - a status message must carry its status.
- **Preconditions depend on shape, not values.** They depend only on the parser's kind, the message type and the payload's `Shape`. Every parse step keeps those, so whether a whole dispatch can run is known before it starts (`CanDispatch`).

`get_series` creates a missing series, as its docstring says (parsers.py:57-59) and as indexing the channel's `SeriesDefaultDict` does (parsers.py:11-13, 62). `ParserRegistry.GetSeries` therefore creates the series and says so in its contract.

## Model

| member | source | states |
|---|---|---|
| SeriesStore.GetOrCreate | sinks/dashboard/parsers.py:11-13 | Accessing a name returns a series with that name, stored in the table. A missing name adds exactly one empty series at the end; an existing one changes nothing. Earlier series keep their places and no series' points change. Distinct names stay distinct. |
| SeriesStore.GetOrCreateIdempotent | sinks/dashboard/parsers.py:11-13 | A second access with the same name finds the series the first created and changes nothing more. |
| SeriesStore.Add | sinks/dashboard/parsers.py:11-13 | `series[name].add(p)` appends `p` to the points of `name`, creating the series if needed. Every other name's points are unchanged, and distinct names stay distinct. |
| SeriesStore.AddAll | sinks/dashboard/parsers.py:81-82 | Adding a batch to a table whose names are distinct keeps them distinct. |
| SeriesStore.AddAllKeepsNames | sinks/dashboard/parsers.py:11-13 | Adding a batch keeps every existing series name, in its place; new names only go at the end. |
| SeriesStore.AddAllPoints | sinks/dashboard/parsers.py:81-82 | After a batch, each name's points are its old points followed by exactly the batch's points for that name, in batch order. |
| SeriesStore.AddAllAbsent | sinks/dashboard/parsers.py:81-82 | A series the batch does not name keeps its points. |
| Payloads.Store | sinks/dashboard/parsers.py:106-111 | Writing an existing key in place changes the value under that key only. The keys keep their positions. |
| Payloads.StoreTwice | sinks/dashboard/parsers.py:106-111 | Two in-place writes to `time` leave only the second value. |
| Timestamps.Unwrap | sinks/dashboard/parsers.py:104-111 | The new `last_time` is raw/1000. The output is `last_time + time_offset`. The offset never shrinks while `last_time` is non-negative. For a non-negative raw time, the output is at least the previous `last_time + time_offset`. |
| Timestamps.UnwrapAdvance | sinks/dashboard/parsers.py:106-111 | Without a wrap-around the corrected time advances by the raw difference; across one it advances by the new raw time. The offset changes only on a wrap-around. |
| Timestamps.UnwrapAllMonotone | sinks/dashboard/parsers.py:96-111 | Over any run of non-negative raw times, wrap-arounds included, the corrected times never decrease and the offset never shrinks. |
| Timestamps.UnwrapAllOffset | sinks/dashboard/parsers.py:97-110 | After any run of messages the offset is the starting offset plus the sum of the raw times (in seconds) that were followed by a drop, and `last_time` is the last raw time. |
| Timestamps.UnwrapExample | sinks/dashboard/parsers.py:104-111 | Raw 5, 10, 3, 8 ms give 0.005, 0.010, 0.013, 0.018 s, and the offset ends at 0.010. |
| Decoders.MsgType | sinks/dashboard/parsers.py:119-289 | The `msg_type` each Parsley subclass passes to its base constructor. `Registry.StartupTypesDistinct` states that the start-up ones are pairwise different. |
| Decoders.CanEntries | sinks/dashboard/parsers.py:123-290 | The `parse_can` bodies, as the (series name, point) entries each appends. What each one appends, and that it touches no other series, is stated by the rows `ReadingAppends`, `AxesAppendOnePointEach`, `ActuatorAppendsCode`, `GpsInfoAppends`, `GpsAltitudeAppends` and `GpsCoordinateAppends`. |
| Decoders.ActuatorCode | sinks/dashboard/parsers.py:205-224 | The code is in 0..3. Bit 1 is set iff the requested state is "ACTUATOR_CLOSED"; bit 0 is set iff the current state is. Any other value counts as open. |
| Decoders.ActuatorCodeExamples | sinks/dashboard/parsers.py:205-208 | The four open/closed combinations map to 0, 1, 2 and 3, as the comment above the parser lists them. |
| Decoders.Coordinate | sinks/dashboard/parsers.py:264 | A coordinate is the degrees plus the minutes over 60, where `dmins` counts ten-thousandths of a minute. |
| Decoders.Altitude | sinks/dashboard/parsers.py:250 | The altitude in hundredths is the whole part times 100 plus `daltitude`. |
| Decoders.DaqEntryWithinSamples | sinks/dashboard/parsers.py:79-82 | The entry a DAQ message makes for a sensor carries the sensor's name and the elapsed time, and its value lies between any lower and upper bound of that sensor's samples. |
| Decoders.Mean | sinks/dashboard/parsers.py:82 | `sum(data)/len(data)` of one sensor's samples. Its bounds are stated by `MeanWithinSamples`, and a concrete value by `MeanExample`. |
| Decoders.MeanWithinSamples | sinks/dashboard/parsers.py:82 | `sum(data)/len(data)` lies between any lower and upper bound of the samples. |
| Decoders.MeanExample | sinks/dashboard/parsers.py:82 | The mean of 10, 20, 30 is 20. |
| Decoders.DaqOnePointPerSensor | sinks/dashboard/parsers.py:79-82 | Each sensor of a DAQ message gets exactly one new point, its mean at the elapsed time. |
| Decoders.DaqLeavesOtherSeries | sinks/dashboard/parsers.py:81-82 | Series of sensors the message does not carry get no point. |
| Decoders.AxesAppendOnePointEach | sinks/dashboard/parsers.py:148-187 | An accelerometer, gyroscope or magnetometer message appends exactly one point to each of its three axis series, all at the message's time, and nothing to any other series. |
| Decoders.ActuatorAppendsCode | sinks/dashboard/parsers.py:213-224 | An actuator message appends its 2-bit code to the series of its actuator at the message's time. No other series changes. |
| Decoders.GpsCoordinateAppends | sinks/dashboard/parsers.py:255-278 | A latitude or longitude message appends its coordinate in degrees. No other series changes. 40, 30 and 300000 give 41. |
| Decoders.ReadingAppends | sinks/dashboard/parsers.py:119-202 | The fill-level, temperature and analog-sensor parsers (and the never-created altitude-sensor parser, parsers.py:283-290) append one point to one series: the reading at the message's time. The series is named after the sensor id where the source says so. No other series changes. |
| Decoders.GpsInfoAppends | sinks/dashboard/parsers.py:229-240 | A GPS info message appends the satellite count and the fix quality to their two series, both at the message's time. No other series changes. |
| Decoders.GpsAltitudeAppends | sinks/dashboard/parsers.py:246-250 | An altitude message appends `altitude + daltitude/100` to "GPS Altitude". No other series changes. |
| Dispatch.UnwrapField | sinks/dashboard/parsers.py:104-111 | A message without `time` leaves the clock and the dict as they were. Otherwise the clock advances as `Unwrap` says, `time` holds the corrected value, every other key is unchanged and the shape is kept. |
| Dispatch.Parse | sinks/dashboard/parsers.py:34-38 | A parse keeps the parser's kind, the message type and timestamp, and the payload's shape. It keeps the table's names distinct. |
| Dispatch.DaqParse | sinks/dashboard/parsers.py:75-82 | `DAQParser.parse`. Its behaviour is stated by `DaqFirstMessage`, `DaqLaterMessage`, `DaqOnePointPerSensor`, `DaqLeavesOtherSeries` and `DaqExample`. |
| Dispatch.ParsleyParse | sinks/dashboard/parsers.py:100-113 | `ParsleyParser.parse`. Its behaviour is stated by `ParsleyIgnoresOtherTypes` and `ParsleyHandlesOwnType`. |
| Dispatch.DaqFirstMessage | sinks/dashboard/parsers.py:75-82 | On the first message the parser latches its timestamp as `start`, so the elapsed time is 0. The table gets the per-sensor means at time 0 and the payload is not modified. |
| Dispatch.DaqLaterMessage | sinks/dashboard/parsers.py:75-82 | Once `start` is set it never changes. The table gets the per-sensor means at `timestamp - start` and the payload is not modified. |
| Dispatch.DaqExample | sinks/dashboard/parsers.py:75-82 | A first DAQ message at 100 with samples 10, 20, 30 gives the series the single point (0, 20). |
| Dispatch.ParsleyIgnoresOtherTypes | sinks/dashboard/parsers.py:101-102 | A Parsley parser given another message type changes nothing: not its clock, not the table, not the payload. |
| Dispatch.ParsleyHandlesOwnType | sinks/dashboard/parsers.py:100-113 | On its own message type the parser corrects `time` in place, advances its clock by `Unwrap`, leaves the other fields alone and appends what its decoder emits at the corrected time. |
| Dispatch.Route | sinks/dashboard/parsers.py:41-45 | The parsers `all_parse` calls, in order. The channel filter and the order are stated by `RouteExact` and `RouteExample`. |
| Dispatch.RouteExact | sinks/dashboard/parsers.py:41-45 | A slot is reached iff its channel is a prefix of the message's channel. Every such parser is reached once, in registration order. |
| Dispatch.RouteExample | sinks/dashboard/parsers.py:41-45 | With "CAN", "DAQ" and "CAN/Parsley" registered, a message on "CAN/Parsley/INJECTOR" reaches the "CAN" parser and then both "CAN/Parsley" parsers, and not "DAQ". |
| Dispatch.Step | sinks/dashboard/parsers.py:44-45 | One parser's turn changes only its own channel's entry. It keeps every channel and parser kind, the message type and the payload's shape, and the registry invariant. |
| Dispatch.Apply | sinks/dashboard/parsers.py:42-45 | Running a route keeps the channels, the parser kinds, the message type, the shape and the registry invariant. |
| Dispatch.RouteAdmitted | sinks/dashboard/parsers.py:42-45 | If every reachable parser accepts the message, every step of the dispatch is defined. |
| Dispatch.DispatchLeavesOthers | sinks/dashboard/parsers.py:42-45 | Channels that are not a prefix of the message's channel are left exactly as they were. |
| Dispatch.ApplyIgnored | sinks/dashboard/parsers.py:100-102 | A route made only of Parsley parsers for other message types changes neither the registry nor the payload. |
| Dispatch.AllSeriesOf | sinks/dashboard/parsers.py:47-53 | What `get_all_series` returns. Its members are stated by `AllSeriesMembers`, and `ParserRegistry.AllSeries` is proved equal to it. |
| Dispatch.AllSeriesMembers | sinks/dashboard/parsers.py:48-53 | A series is reported iff it belongs to a channel that starts with the prefix. With the empty prefix, every series of every channel is reported. |
| Dispatch.ChannelIndex | sinks/dashboard/parsers.py:26 | Finds the registered channel with that exact name, or reports that there is none. |
| Registry.ParserRegistry.constructor | sinks/dashboard/parsers.py:21 | The registry starts with no channels. |
| Registry.ParserRegistry.Register | sinks/dashboard/parsers.py:23-32 | On a known channel the parser goes at the end of that channel's list and shares its table unchanged. On a new channel a new entry with an empty table goes at the end. No other channel changes and the registry invariant is kept. |
| Registry.ParserRegistry.Startup | sinks/dashboard/parsers.py:85-280 | Loading the module registers the DAQ parser, then the eleven Parsley parsers in the order the module creates them. |
| Registry.ParserRegistry.RegisterParsley | sinks/dashboard/parsers.py:93-95 | Registering Parsley parsers one after another, after the DAQ parser, gives a "CAN/Parsley" channel that lists them in creation order, each with a fresh clock, sharing one empty table. The DAQ channel is untouched. |
| Registry.StartupRegistry | sinks/dashboard/parsers.py:85-280 | At start-up there are two channels: "DAQ" with one DAQ parser that has no `start` yet, and "CAN/Parsley" with the eleven Parsley parsers in creation order, each with a fresh clock. All tables are empty. |
| Registry.StartupCovers | sinks/dashboard/parsers.py:119-290 | Every decoder other than the altitude sensor's has a parser at start-up, and the altitude sensor's has none. |
| Registry.StartupTypesDistinct | sinks/dashboard/parsers.py:119-280 | No two start-up Parsley parsers handle the same message type. |
| Registry.StartupIgnoresAltitude | sinks/dashboard/parsers.py:283-290 | Every Parsley parser registered at start-up ignores SENSOR_ALTITUDE messages. |
| Registry.AltitudeIgnoredAtStartup | sinks/dashboard/parsers.py:283-290 | The altitude sensor parser is never created, so a SENSOR_ALTITUDE message on the CAN channel changes nothing. |
| Registry.DaqChannelAtStartup | sinks/dashboard/parsers.py:41-45 | At start-up a message on "DAQ" reaches the DAQ parser and no other. |
| Registry.ParserRegistry.GetSeries | sinks/dashboard/parsers.py:55-62 | An unknown channel gives None and changes nothing. Otherwise the result is the named series, created empty in that channel's table if it was missing, and no other channel changes. |
| Registry.ParserRegistry.AllSeries | sinks/dashboard/parsers.py:47-53 | The result is the concatenation, in registration order, of the tables of the channels that start with the prefix. |
| Registry.ParserRegistry.AddPoints | sinks/dashboard/parsers.py:81-82 | The `add` calls of one parse, in order, on one channel's table. |
| Registry.ParserRegistry.CorrectTime | sinks/dashboard/parsers.py:104-111 | The in-place divide, wrap check, `last_time` update and offset add give exactly `UnwrapField`. |
| Registry.ParserRegistry.Handle | sinks/dashboard/parsers.py:75-113 | The parser's next state, its appended entries and the resulting payload are exactly `Parse`. |
| Registry.ParserRegistry.ParseAt | sinks/dashboard/parsers.py:34-38 | `parser.parse(payload)` on the parser at one slot updates the registry and payload as `Step` says. |
| Registry.ParserRegistry.ParseGroup | sinks/dashboard/parsers.py:44-45 | The inner loop over one channel's parsers is `Apply` of that channel's slots in list order. |
| Registry.ParserRegistry.AllParse | sinks/dashboard/parsers.py:40-45 | The nested loops leave the registry and payload exactly as `Dispatch.AllParse` says: the route's parsers applied in order. The registry invariant is kept. |
| CanDisplay.Boards | sinks/dashboard/can_display.py:16-28 | `BOARD_DATA`, in the order the dict lists its keys. Its properties are stated by `BoardTable`, `BoardIds`, `SlotOf` and `NameFindsBoard`. |
| CanDisplay.FindBoard | sinks/dashboard/can_display.py:140 | `BOARD_DATA[name]`: the entry with that name, or none. |
| CanDisplay.BoardTable | sinks/dashboard/can_display.py:16-28 | The table has 13 boards. Each board's index is its position, so the indices are distinct and cover 0..12. Names are distinct and each name finds its own entry. |
| CanDisplay.BoardIds | sinks/dashboard/can_display.py:16-28 | The CAN ids strictly increase down the table, so they are distinct. |
| CanDisplay.SlotOf | sinks/dashboard/can_display.py:86-87 | `BOARD_DATA[id]["index"]` is the one position in the table where the board is listed. |
| CanDisplay.NameFindsBoard | sinks/dashboard/can_display.py:58-59 | Every board name of the table is a known board, and its slot is its own position. |
| CanDisplay.StatusColor | sinks/dashboard/can_display.py:222-226 | Green iff the status is "E_NOMINAL" or "RECEIVED_MSG_NO_STATUS", red otherwise. |
| CanDisplay.DeadIsRed | sinks/dashboard/can_display.py:145-147 | The initial status "DEAD" maps to red, the initial colour. |
| CanDisplay.Pushed | sinks/dashboard/can_display.py:197-200 | The history after one push holds the newest at most 50 lines of old history plus the new line, in order, with the new line last. |
| CanDisplay.HistoryKeepsNewest | sinks/dashboard/can_display.py:143 | After any number of updates the history is exactly the newest 50 lines (all of them if fewer), oldest first. |
| CanDisplay.CanNode.constructor | sinks/dashboard/can_display.py:131-147 | The board id defaults to "DUMMY" and its index comes from the board table. Times start at 0 and the history empty; the status is "DEAD" and the colour red. |
| CanDisplay.CanNode.UpdateCanMsgTimes | sinks/dashboard/can_display.py:186-187 | `currCanMsgTime` becomes the message's time and nothing else changes. |
| CanDisplay.CanNode.OnDataUpdate | sinks/dashboard/can_display.py:190-204 | The current time becomes the message's time and the formatted line is pushed onto the bounded history. Status and colour change only on a GENERAL_BOARD_STATUS message. The history bound and "colour matches status" are kept. |
| CanDisplay.CanDashboard.constructor | sinks/dashboard/can_display.py:29-59 | One node per board in table order, node k for board k (lines 58-59). Each node is new and as its constructor leaves it: "DEAD", red, empty history and both times 0 (lines 141-147). Both health lists start all "DEAD" and all red (lines 29-30). |
| CanDisplay.CanDashboard.UpdateBoardHealthState | sinks/dashboard/can_display.py:81-87 | Each node's status and colour land in its board's slot. Afterwards every slot's colour is the colour of its status. |

## Left out

- Qt and pyqtgraph code is not modelled (can_display.py:42-76, 89-123, 154-172, 206-218): widgets, layouts, buttons, labels, the timer, the text browser and scrolling. Nothing in it can be stated beyond the node state kept here.
- `get_formatted_msg` (can_display.py:229-231) only calls `fmt_line`, which comes from a module that is not part of this model. The formatted line is an opaque field of `CanMessage`, and `on_data_update` pushes it followed by a newline.
- The `Series` class comes from a module that is not part of this model. A series is a name with an append-only list of points, and `add` appends at the end.
- `CanDisplayParser`, `BOARD_NAME_LIST`, `DashboardItem` and the series subscription (can_display.py:8, 151-152) are not part of this model. `CanNode.OnDataUpdate` takes the newest message as a parameter.
- Python exceptions are not modelled. Every input the code would raise on is excluded by a precondition:
  - a `KeyError` on a missing field;
  - a `TypeError` on a value of the wrong kind;
  - a `ZeroDivisionError` on an empty DAQ sample list;
  - a `KeyError` on an unknown board name.
- Floating point is not modelled: times and values are exact reals, and Python's `/` on integers is real division.
- Payload values come in three kinds: numbers, text, and sample lists.
- Temperature, analog and actuator names are built from text fields. The f-strings in the source accept any value there.
- Registry.ParserRegistry.GetSeries: returns the series as a value. A caller that later adds points through the returned object changes the registry in the Python code, and that aliasing is not captured here.
- Registry.ParserRegistry.AllSeries: returns copies of the series, not the live `Series` objects that `get_all_series` returns (parsers.py:47-53). Later adds do not reach the caller's copies, and that aliasing is not captured here.
- Registry.ParserRegistry: the class-level `Parser.parsers` dict becomes one registry object. Parsers are registered through `Register`, not by constructing parser objects.
- CanDisplay.CanDashboard: the module-level `CAN_HEALTH_STATES` lists become two arrays owned by the display object. `canNodes` becomes a sequence indexed by board position.
- `HEALTHY_STATE_TIMEOUT` is defined (can_display.py:14) but used only inside the commented-out `updateHealthChecks` (can_display.py:174-184), whose call is commented out too (line 195). The constant is not modelled, and `oldCanMsgTime` is never updated after construction.
- `get_props`, `enable_widget`, `disable_widget`, `add_node_widget`, `delete_node_widget` and `update` only manage widgets and are not modelled.
- sinks/dashboard/dashboard.py, sources/ni/config.py and sinks/calibration/main.py are not part of this model.
