/** What each concrete parser turns a message into: the `parse_can` bodies of
    the Parsley parsers and the averaging of `DAQParser`, as the list of
    (series name, point) entries they append (sinks/dashboard/parsers.py). */
module Decoders {

  import opened Wrappers
  import opened SeriesStore
  import opened Payloads

  /** The concrete `ParsleyParser` subclasses. */
  datatype Decoder =
    | FillSensing | Temperature | Accel | Gyro | Mag | AnalogSensor
    | ActuatorState | GpsInfo | GpsAltitude | GpsLatitude | GpsLongitude | SensorAltitude

  /** The `msg_type` each subclass passes to `ParsleyParser.__init__`. */
  function MsgType(d: Decoder): string
  {
    match d
    case FillSensing => "FILL_LVL"
    case Temperature => "SENSOR_TEMP"
    case Accel => "SENSOR_ACC"
    case Gyro => "SENSOR_GYRO"
    case Mag => "SENSOR_MAG"
    case AnalogSensor => "SENSOR_ANALOG"
    case ActuatorState => "ACTUATOR_STATUS"
    case GpsInfo => "GPS_INFO"
    case GpsAltitude => "GPS_ALTITUDE"
    case GpsLatitude => "GPS_LATITUDE"
    case GpsLongitude => "GPS_LONGITUDE"
    case SensorAltitude => "SENSOR_ALTITUDE"
  }

  predicate HasNum(sh: Fields, k: string) { TagAt(sh, k) == Some(NumTag) }
  predicate HasText(sh: Fields, k: string) { TagAt(sh, k) == Some(TextTag) }
  predicate HasKey(sh: Fields, k: string) { TagAt(sh, k).Some? }

  /** The fields a decoder reads from `payload["data"]` exist and have the kind
      it uses them as; otherwise the Python code raises. */
  predicate CanFits(d: Decoder, sh: Fields)
  {
    && HasNum(sh, "time")
    && match d
       case FillSensing => HasNum(sh, "level")
       case Temperature => HasText(sh, "sensor_id") && HasNum(sh, "temperature")
       case Accel => HasNum(sh, "x") && HasNum(sh, "y") && HasNum(sh, "z")
       case Gyro => HasNum(sh, "x") && HasNum(sh, "y") && HasNum(sh, "z")
       case Mag => HasNum(sh, "x") && HasNum(sh, "y") && HasNum(sh, "z")
       case AnalogSensor => HasText(sh, "sensor_id") && HasNum(sh, "value")
       case ActuatorState => HasText(sh, "actuator") && HasKey(sh, "req_state") && HasKey(sh, "cur_state")
       case GpsInfo => HasNum(sh, "num_sats") && HasNum(sh, "quality")
       case GpsAltitude => HasNum(sh, "altitude") && HasNum(sh, "daltitude")
       case GpsLatitude => HasNum(sh, "degs") && HasNum(sh, "mins") && HasNum(sh, "dmins")
       case GpsLongitude => HasNum(sh, "degs") && HasNum(sh, "mins") && HasNum(sh, "dmins")
       case SensorAltitude => HasNum(sh, "altitude")
  }

  const ActuatorClosed := "ACTUATOR_CLOSED"

  /** The 2-bit actuator code: bit 1 is "requested closed", bit 0 is
      "currently closed"; any other state value counts as open. */
  function ActuatorCode(req: Value, cur: Value): (v: int)
    ensures 0 <= v <= 3
    ensures v / 2 == 1 <==> req == Text(ActuatorClosed)
    ensures v % 2 == 1 <==> cur == Text(ActuatorClosed)
  {
    var v0: bv2 := 0;
    var v1 := if req == Text(ActuatorClosed) then v0 | 2 else v0;
    var v2 := if cur == Text(ActuatorClosed) then v1 | 1 else v1;
    v2 as int
  }

  /** A GPS coordinate from whole degrees, whole minutes and ten-thousandths of
      a minute. */
  function Coordinate(degs: real, mins: real, dmins: real): (r: real)
    ensures r == degs + (mins + dmins / 10000.0) / 60.0
  {
    degs + mins / 60.0 + dmins / 600000.0
  }

  /** A GPS altitude from its whole part and its hundredths. */
  function Altitude(alt: real, dalt: real): (r: real)
    ensures r * 100.0 == alt * 100.0 + dalt
  {
    alt + dalt / 100.0
  }

  /** The three per-axis entries of the accelerometer, gyroscope and
      magnetometer parsers, all at time `t`. */
  function AxisEntries(title: string, t: real, data: Dict): seq<Entry>
    requires HasNum(Shape(data), "x") && HasNum(Shape(data), "y") && HasNum(Shape(data), "z")
  {
    [ (title + " (x)", Point(t, NumAt(data, "x"))),
      (title + " (y)", Point(t, NumAt(data, "y"))),
      (title + " (z)", Point(t, NumAt(data, "z"))) ]
  }

  /** The entries `parse_can` appends for a message whose time is already
      corrected. */
  function CanEntries(d: Decoder, data: Dict): seq<Entry>
    requires CanFits(d, Shape(data))
  {
    var t := NumAt(data, "time");
    match d
    case FillSensing => [("Fill Level", Point(t, NumAt(data, "level")))]
    case Temperature =>
      [("Temperature " + TextAt(data, "sensor_id"), Point(t, NumAt(data, "temperature")))]
    case Accel => AxisEntries("Acceleration", t, data)
    case Gyro => AxisEntries("Gyro", t, data)
    case Mag => AxisEntries("Magnetometer", t, data)
    case AnalogSensor =>
      [("CAN Sensor " + TextAt(data, "sensor_id"), Point(t, NumAt(data, "value")))]
    case ActuatorState =>
      var code := ActuatorCode(ValueAt(data, "req_state"), ValueAt(data, "cur_state"));
      [("Actuator State (" + TextAt(data, "actuator") + ")", Point(t, code as real))]
    case GpsInfo =>
      [ ("GPS Satellites", Point(t, NumAt(data, "num_sats"))),
        ("GPS Quality", Point(t, NumAt(data, "quality"))) ]
    case GpsAltitude =>
      [("GPS Altitude", Point(t, Altitude(NumAt(data, "altitude"), NumAt(data, "daltitude"))))]
    case GpsLatitude =>
      [("GPS Latitude", Point(t, Coordinate(NumAt(data, "degs"), NumAt(data, "mins"), NumAt(data, "dmins"))))]
    case GpsLongitude =>
      [("GPS Longitude", Point(t, Coordinate(NumAt(data, "degs"), NumAt(data, "mins"), NumAt(data, "dmins"))))]
    case SensorAltitude => [("Sensor Altitude", Point(t, NumAt(data, "altitude")))]
  }

  function Sum(xs: seq<real>): real
  {
    if xs == [] then 0.0 else xs[0] + Sum(xs[1..])
  }

  /** `sum(data)/len(data)` of one sensor's samples. */
  function Mean(xs: seq<real>): real
    requires |xs| > 0
  {
    Sum(xs) / (|xs| as real)
  }

  /** Every DAQ data value is a non-empty sample list (an empty one would
      divide by zero). */
  predicate DaqFits(sh: Fields)
  {
    forall i :: 0 <= i < |sh| ==> sh[i].1 == SamplesTag(true)
  }

  /** The mean of the `i`th sensor's samples. */
  function SensorMean(data: Dict, i: nat): real
    requires DaqFits(Shape(data)) && i < |data|
  {
    assert Shape(data)[i].1 == SamplesTag(true);
    Mean(data[i].1.xs)
  }

  /** One entry per sensor, in the dict's order: the mean of its samples at
      the elapsed time. */
  function DaqEntries(data: Dict, elapsed: real): (es: seq<Entry>)
    requires DaqFits(Shape(data))
    ensures |es| == |data|
  {
    seq(|data|, i requires 0 <= i < |data| && DaqFits(Shape(data)) => (data[i].0, Point(elapsed, SensorMean(data, i))))
  }

  lemma {:induction false} SumBounds(xs: seq<real>, lo: real, hi: real)
    requires forall i :: 0 <= i < |xs| ==> lo <= xs[i] <= hi
    ensures (|xs| as real) * lo <= Sum(xs) <= (|xs| as real) * hi
  {
    if xs != [] {
      SumBounds(xs[1..], lo, hi);
      assert (|xs| as real) * lo == lo + ((|xs| - 1) as real) * lo;
      assert (|xs| as real) * hi == hi + ((|xs| - 1) as real) * hi;
    }
  }

  /** The mean of a sensor's samples lies between their least and greatest. */
  lemma MeanWithinSamples(xs: seq<real>, lo: real, hi: real)
    requires |xs| > 0
    requires forall i :: 0 <= i < |xs| ==> lo <= xs[i] <= hi
    ensures lo <= Mean(xs) <= hi
  {
    SumBounds(xs, lo, hi);
    DivBetween(Sum(xs), |xs| as real, lo, hi);
  }

  /** Dividing by a positive count keeps a total's bounds per element. */
  lemma DivBetween(s: real, n: real, lo: real, hi: real)
    requires n > 0.0 && n * lo <= s <= n * hi
    ensures lo <= s / n <= hi
  {
    var q := s / n;
    assert (q - lo) * n == s - n * lo;
    assert (hi - q) * n == n * hi - s;
  }

  /** The `i`th entry of a DAQ message is the `i`th sensor's, at the elapsed
      time, and its value lies within any bounds of that sensor's samples. */
  lemma DaqEntryWithinSamples(data: Dict, elapsed: real, i: nat, lo: real, hi: real)
    requires DaqFits(Shape(data)) && i < |data|
    requires data[i].1.Samples? && forall k :: 0 <= k < |data[i].1.xs| ==> lo <= data[i].1.xs[k] <= hi
    ensures |DaqEntries(data, elapsed)| == |data|
    ensures var e := DaqEntries(data, elapsed)[i];
      e.0 == data[i].0 && e.1.time == elapsed && lo <= e.1.value <= hi
  {
    assert Shape(data)[i].1 == SamplesTag(true);
    MeanWithinSamples(data[i].1.xs, lo, hi);
  }

  /** A DAQ message gives each of its sensors exactly one point, the mean of
      its samples at the elapsed time. */
  lemma DaqOnePointPerSensor(t: Table, data: Dict, elapsed: real, i: nat)
    requires DaqFits(Shape(data)) && i < |data|
    requires forall i, j :: 0 <= i < j < |data| ==> data[i].0 != data[j].0
    ensures PointsOf(AddAll(t, DaqEntries(data, elapsed)), data[i].0) ==
      PointsOf(t, data[i].0) + [Point(elapsed, SensorMean(data, i))]
  {
    var es := DaqEntries(data, elapsed);
    assert DistinctEntryNames(es);
    AddAllDistinctAt(t, es, i);
  }

  /** Series of sensors the DAQ message does not carry get no point. */
  lemma DaqLeavesOtherSeries(t: Table, data: Dict, elapsed: real, n: string)
    requires DaqFits(Shape(data))
    requires forall i :: 0 <= i < |data| ==> data[i].0 != n
    ensures PointsOf(AddAll(t, DaqEntries(data, elapsed)), n) == PointsOf(t, n)
  {
    AddAllAbsent(t, DaqEntries(data, elapsed), n);
  }

  /** The example of a first DAQ message: samples 10, 20, 30 average to 20. */
  lemma MeanExample()
    ensures Mean([10.0, 20.0, 30.0]) == 20.0
  {
  }

  lemma {:induction false} AxisNamesDistinct(title: string)
    ensures title + " (x)" != title + " (y)" && title + " (x)" != title + " (z)" && title + " (y)" != title + " (z)"
  {
    var n := |title| + 2;
    assert (title + " (x)")[n] == 'x';
    assert (title + " (y)")[n] == 'y';
    assert (title + " (z)")[n] == 'z';
  }

  /** The three axis entries give each axis series exactly one point at
      time `time` and leave every other series alone. */
  lemma AxisEntriesAppend(title: string, time: real, data: Dict, t: Table, n: string)
    requires HasNum(Shape(data), "x") && HasNum(Shape(data), "y") && HasNum(Shape(data), "z")
    ensures var r := AddAll(t, AxisEntries(title, time, data));
      && PointsOf(r, title + " (x)") == PointsOf(t, title + " (x)") + [Point(time, NumAt(data, "x"))]
      && PointsOf(r, title + " (y)") == PointsOf(t, title + " (y)") + [Point(time, NumAt(data, "y"))]
      && PointsOf(r, title + " (z)") == PointsOf(t, title + " (z)") + [Point(time, NumAt(data, "z"))]
      && (n != title + " (x)" && n != title + " (y)" && n != title + " (z)" ==> PointsOf(r, n) == PointsOf(t, n))
  {
    AxisNamesDistinct(title);
    var es := AxisEntries(title, time, data);
    ThreeEntries(t, es[0], es[1], es[2], n);
    assert es == [es[0], es[1], es[2]];
  }

  /** A batch of three differently named entries gives each its own point
      and leaves every other series alone. */
  lemma ThreeEntries(t: Table, a: Entry, b: Entry, c: Entry, n: string)
    requires a.0 != b.0 && a.0 != c.0 && b.0 != c.0
    ensures var r := AddAll(t, [a, b, c]);
      && PointsOf(r, a.0) == PointsOf(t, a.0) + [a.1]
      && PointsOf(r, b.0) == PointsOf(t, b.0) + [b.1]
      && PointsOf(r, c.0) == PointsOf(t, c.0) + [c.1]
      && (n != a.0 && n != b.0 && n != c.0 ==> PointsOf(r, n) == PointsOf(t, n))
  {
    var es := [a, b, c];
    assert DistinctEntryNames(es);
    AddAllDistinctAt(t, es, 0);
    AddAllDistinctAt(t, es, 1);
    AddAllDistinctAt(t, es, 2);
    if n != a.0 && n != b.0 && n != c.0 {
      forall k | 0 <= k < |es| ensures es[k].0 != n {
        assert k == 0 || k == 1 || k == 2;
      }
      AddAllAbsent(t, es, n);
    }
  }

  /** The series title of each three-axis parser. */
  function AxisTitle(d: Decoder): string
  {
    match d
    case Accel => "Acceleration"
    case Gyro => "Gyro"
    case _ => "Magnetometer"
  }

  /** An accelerometer, gyroscope or magnetometer message appends exactly one
      point to each of its x, y and z series, all three at the message's time,
      and nothing to any other series. */
  lemma AxesAppendOnePointEach(d: Decoder, t: Table, data: Dict, n: string)
    requires d == Accel || d == Gyro || d == Mag
    requires CanFits(d, Shape(data))
    ensures |CanEntries(d, data)| == 3
    ensures var r := AddAll(t, CanEntries(d, data));
      var time := NumAt(data, "time");
      var title := AxisTitle(d);
      && PointsOf(r, title + " (x)") == PointsOf(t, title + " (x)") + [Point(time, NumAt(data, "x"))]
      && PointsOf(r, title + " (y)") == PointsOf(t, title + " (y)") + [Point(time, NumAt(data, "y"))]
      && PointsOf(r, title + " (z)") == PointsOf(t, title + " (z)") + [Point(time, NumAt(data, "z"))]
      && (n != title + " (x)" && n != title + " (y)" && n != title + " (z)" ==> PointsOf(r, n) == PointsOf(t, n))
  {
    assert CanEntries(d, data) == AxisEntries(AxisTitle(d), NumAt(data, "time"), data);
    AxisEntriesAppend(AxisTitle(d), NumAt(data, "time"), data, t, n);
  }

  /** An actuator status message appends one point to the series of its
      actuator, whose value is the 2-bit code of its requested and current
      states. */
  lemma ActuatorAppendsCode(t: Table, data: Dict, n: string)
    requires CanFits(ActuatorState, Shape(data))
    ensures var name := "Actuator State (" + TextAt(data, "actuator") + ")";
      var code := ActuatorCode(ValueAt(data, "req_state"), ValueAt(data, "cur_state"));
      && PointsOf(AddAll(t, CanEntries(ActuatorState, data)), name) == PointsOf(t, name) + [Point(NumAt(data, "time"), code as real)]
      && (n != name ==> PointsOf(AddAll(t, CanEntries(ActuatorState, data)), n) == PointsOf(t, n))
      && 0 <= code <= 3
      && (code >= 2 <==> Lookup(data, "req_state") == Some(Text(ActuatorClosed)))
      && (code % 2 == 1 <==> Lookup(data, "cur_state") == Some(Text(ActuatorClosed)))
  {
    var es := CanEntries(ActuatorState, data);
    AddAllDistinctAt(t, es, 0);
    if n != es[0].0 {
      AddAllAbsent(t, es, n);
    }
  }

  /** The four actuator combinations of the comment above
      `ActuatorStateParser`. */
  lemma ActuatorCodeExamples()
    ensures ActuatorCode(Text("ACTUATOR_OPEN"), Text("ACTUATOR_OPEN")) == 0
    ensures ActuatorCode(Text("ACTUATOR_OPEN"), Text("ACTUATOR_CLOSED")) == 1
    ensures ActuatorCode(Text("ACTUATOR_CLOSED"), Text("ACTUATOR_OPEN")) == 2
    ensures ActuatorCode(Text("ACTUATOR_CLOSED"), Text("ACTUATOR_CLOSED")) == 3
  {
  }

  /** A GPS latitude or longitude message appends one point: the coordinate
      in degrees; 40 degrees, 30 minutes and 300000 ten-thousandths make 41. */
  lemma GpsCoordinateAppends(d: Decoder, t: Table, data: Dict, n: string)
    requires d == GpsLatitude || d == GpsLongitude
    requires CanFits(d, Shape(data))
    ensures var name := if d == GpsLatitude then "GPS Latitude" else "GPS Longitude";
      && PointsOf(AddAll(t, CanEntries(d, data)), name) ==
        PointsOf(t, name) + [Point(NumAt(data, "time"), Coordinate(NumAt(data, "degs"), NumAt(data, "mins"), NumAt(data, "dmins")))]
      && (n != name ==> PointsOf(AddAll(t, CanEntries(d, data)), n) == PointsOf(t, n))
    ensures Coordinate(40.0, 30.0, 300000.0) == 41.0
  {
    var es := CanEntries(d, data);
    AddAllDistinctAt(t, es, 0);
    if n != es[0].0 {
      AddAllAbsent(t, es, n);
    }
  }

  /** A GPS altitude message appends one point: metres plus hundredths. */
  lemma GpsAltitudeAppends(t: Table, data: Dict, n: string)
    requires CanFits(GpsAltitude, Shape(data))
    ensures PointsOf(AddAll(t, CanEntries(GpsAltitude, data)), "GPS Altitude") ==
      PointsOf(t, "GPS Altitude") + [Point(NumAt(data, "time"), NumAt(data, "altitude") + NumAt(data, "daltitude") / 100.0)]
    ensures n != "GPS Altitude" ==> PointsOf(AddAll(t, CanEntries(GpsAltitude, data)), n) == PointsOf(t, n)
  {
    var alt, dalt := NumAt(data, "altitude"), NumAt(data, "daltitude");
    var es := CanEntries(GpsAltitude, data);
    assert es == [("GPS Altitude", Point(NumAt(data, "time"), Altitude(alt, dalt)))];
    AddAllDistinctAt(t, es, 0);
    if n != "GPS Altitude" {
      AddAllAbsent(t, es, n);
    }
  }

  /** The series a single-reading parser writes to. */
  function ReadingSeries(d: Decoder, data: Dict): string
    requires d in {FillSensing, Temperature, AnalogSensor, SensorAltitude} && CanFits(d, Shape(data))
  {
    match d
    case FillSensing => "Fill Level"
    case Temperature => "Temperature " + TextAt(data, "sensor_id")
    case AnalogSensor => "CAN Sensor " + TextAt(data, "sensor_id")
    case _ => "Sensor Altitude"
  }

  /** The field a single-reading parser plots. */
  function ReadingField(d: Decoder): string
  {
    match d
    case FillSensing => "level"
    case Temperature => "temperature"
    case AnalogSensor => "value"
    case _ => "altitude"
  }

  /** The fill, temperature, analog and altitude parsers append one point,
      the reading at the message's time, to one series, and nothing to any
      other series. */
  lemma ReadingAppends(d: Decoder, t: Table, data: Dict, n: string)
    requires d in {FillSensing, Temperature, AnalogSensor, SensorAltitude}
    requires CanFits(d, Shape(data))
    ensures HasNum(Shape(data), ReadingField(d))
    ensures var r := AddAll(t, CanEntries(d, data));
      var name := ReadingSeries(d, data);
      && PointsOf(r, name) == PointsOf(t, name) + [Point(NumAt(data, "time"), NumAt(data, ReadingField(d)))]
      && (n != name ==> PointsOf(r, n) == PointsOf(t, n))
  {
    var es := CanEntries(d, data);
    AddAllDistinctAt(t, es, 0);
    if n != ReadingSeries(d, data) {
      AddAllAbsent(t, es, n);
    }
  }

  /** A GPS info message appends the satellite count and the fix quality,
      both at the message's time, and nothing to any other series. */
  lemma GpsInfoAppends(t: Table, data: Dict, n: string)
    requires CanFits(GpsInfo, Shape(data))
    ensures var r := AddAll(t, CanEntries(GpsInfo, data));
      var time := NumAt(data, "time");
      && PointsOf(r, "GPS Satellites") == PointsOf(t, "GPS Satellites") + [Point(time, NumAt(data, "num_sats"))]
      && PointsOf(r, "GPS Quality") == PointsOf(t, "GPS Quality") + [Point(time, NumAt(data, "quality"))]
      && (n != "GPS Satellites" && n != "GPS Quality" ==> PointsOf(r, n) == PointsOf(t, n))
  {
    var time := NumAt(data, "time");
    var es := CanEntries(GpsInfo, data);
    assert es == [("GPS Satellites", Point(time, NumAt(data, "num_sats"))), ("GPS Quality", Point(time, NumAt(data, "quality")))];
    assert "GPS Satellites"[4] != "GPS Quality"[4];
    assert DistinctEntryNames(es);
    AddAllDistinctAt(t, es, 0);
    AddAllDistinctAt(t, es, 1);
    if n != "GPS Satellites" && n != "GPS Quality" {
      forall k | 0 <= k < |es| ensures es[k].0 != n {
        assert k == 0 || k == 1;
      }
      AddAllAbsent(t, es, n);
    }
  }
}
