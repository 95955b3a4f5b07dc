/**
 * The openSenseMap pipeline of scr/endpoints/temperature.py: fetch the boxes of
 * the Berlin bounding box, keep the ids of those measured within the last three
 * hours, collect the raw value strings of their sensors titled "Temperature",
 * and average them (with the source's 0.1 offset).
 *
 * The HTTP session is replaced by its answers: the status and body of the box
 * listing, and a map from box id to the sensor list of that box's detail record.
 * Python's float() is the parameter `parse`. Instants are integer microseconds.
 * Exceptions the source lets escape are `Err` values.
 */
module Temperature {
  import opened Wrappers

  type BoxId = string

  /** Microseconds in one hour. */
  const HourMicros: int := 3_600_000_000

  /** A box is fresh when its last measurement is at most three hours old; the bound is inclusive. */
  const FreshWindow: int := 3 * HourMicros

  /** The only sensor title whose value is collected. */
  const TemperatureTitle: string := "Temperature"

  /**
   * The `lastMeasurementAt` text of a box: either in the form
   * `%Y-%m-%dT%H:%M:%S.%fZ`, given by the instant it denotes, or text that
   * `strptime` rejects.
   */
  datatype Stamp = WellFormed(micros: int) | Malformed(text: string)

  /** A box of the listing: its `_id` and its `lastMeasurementAt`, when the key is there. */
  datatype Box = Box(id: BoxId, lastMeasurementAt: Option<Stamp>)

  /** A sensor of a box's detail record: its title and `lastMeasurement.value`, when present. */
  datatype Sensor = Sensor(title: string, lastValue: Option<string>)

  /** The exceptions the pipeline lets escape. */
  datatype Error =
    | MalformedTimestamp(box: BoxId)  // strptime raises ValueError
    | NoSensorList(box: BoxId)        // the detail record has no "sensors" list
    | NoMeasurement(box: BoxId)       // a "Temperature" sensor without lastMeasurement.value
    | NotANumber(text: string)        // float() raises ValueError
    | DivisionByZero                  // no value was collected

  // ---------------------------------------------------------------------------
  // get_boxes

  /** The box listing: the body of a 200 answer, and no boxes for any other status. */
  function GetBoxes(status: int, body: seq<Box>): (boxes: seq<Box>)
    ensures status == 200 ==> boxes == body
    ensures status != 200 ==> boxes == []
  {
    if status == 200 then body else []
  }

  // ---------------------------------------------------------------------------
  // check_boxs

  /**
   * The clock as the freshness test sees it: `now` written with millisecond
   * precision and parsed back, which drops the sub-millisecond part.
   */
  function ReadClock(now: int): (t: int)
    ensures t <= now < t + 1000
    ensures t % 1000 == 0
  {
    now - now % 1000
  }

  predicate IsFresh(measuredAt: int, now: int)
  {
    ReadClock(now) - measuredAt <= FreshWindow
  }

  predicate IsMalformed(b: Box)
  {
    b.lastMeasurementAt.Some? && b.lastMeasurementAt.value.Malformed?
  }

  /** The box has a readable timestamp that is fresh at `now`. */
  predicate Kept(b: Box, now: int)
  {
    b.lastMeasurementAt.Some? && b.lastMeasurementAt.value.WellFormed?
    && IsFresh(b.lastMeasurementAt.value.micros, now)
  }

  /**
   * What check_boxs returns: the ids of the kept boxes in listing order, or the
   * error of the first box whose timestamp does not parse. Boxes without the
   * key are skipped.
   */
  function FreshIds(boxes: seq<Box>, now: int): Result<seq<BoxId>, Error>
    decreases |boxes|
  {
    if boxes == [] then Ok([])
    else
      var last := boxes[|boxes| - 1];
      match FreshIds(boxes[..|boxes| - 1], now)
      case Err(e) => Err(e)
      case Ok(ids) =>
        if IsMalformed(last) then Err(MalformedTimestamp(last.id))
        else if Kept(last, now) then Ok(ids + [last.id])
        else Ok(ids)
  }

  function IdsOf(boxes: seq<Box>): (ids: seq<BoxId>)
    ensures |ids| == |boxes|
    ensures forall i :: 0 <= i < |boxes| ==> ids[i] == boxes[i].id
  {
    seq(|boxes|, i requires 0 <= i < |boxes| => boxes[i].id)
  }

  /** `xs` is `ys` with some elements left out, the rest in their order. */
  predicate IsSubsequence<T(==)>(xs: seq<T>, ys: seq<T>)
    decreases |ys|
  {
    if ys == [] then xs == []
    else
      (xs != [] && xs[|xs| - 1] == ys[|ys| - 1] && IsSubsequence(xs[..|xs| - 1], ys[..|ys| - 1]))
      || IsSubsequence(xs, ys[..|ys| - 1])
  }

  lemma {:induction false} SubsequenceLength<T>(xs: seq<T>, ys: seq<T>)
    requires IsSubsequence(xs, ys)
    ensures |xs| <= |ys|
    decreases |ys|
  {
    if ys != [] {
      if xs != [] && xs[|xs| - 1] == ys[|ys| - 1] && IsSubsequence(xs[..|xs| - 1], ys[..|ys| - 1]) {
        SubsequenceLength(xs[..|xs| - 1], ys[..|ys| - 1]);
      } else {
        SubsequenceLength(xs, ys[..|ys| - 1]);
      }
    }
  }

  /** Once a prefix of the listing fails, the whole listing fails the same way. */
  lemma {:induction false} FreshIdsErrPersists(boxes: seq<Box>, k: nat, now: int)
    requires k <= |boxes| && FreshIds(boxes[..k], now).Err?
    ensures FreshIds(boxes, now) == FreshIds(boxes[..k], now)
    decreases |boxes|
  {
    if k == |boxes| {
      assert boxes[..k] == boxes;
    } else {
      var init := boxes[..|boxes| - 1];
      assert init[..k] == boxes[..k];
      FreshIdsErrPersists(init, k, now);
    }
  }

  /** check_boxs: the loop of the source, appending kept ids to `ok`. */
  method CheckBoxes(boxes: seq<Box>, now: int) returns (r: Result<seq<BoxId>, Error>)
    ensures r == FreshIds(boxes, now)
  {
    var ok: seq<BoxId> := [];
    var i := 0;
    while i < |boxes|
      invariant 0 <= i <= |boxes|
      invariant FreshIds(boxes[..i], now) == Ok(ok)
    {
      var box := boxes[i];
      assert boxes[..i + 1][..i] == boxes[..i];
      if box.lastMeasurementAt.Some? {
        match box.lastMeasurementAt.value
        case Malformed(_) =>
          r := Err(MalformedTimestamp(box.id));
          FreshIdsErrPersists(boxes, i + 1, now);
          return;
        case WellFormed(lastMeasurement) =>
          var clock := now - now % 1000;
          if clock - lastMeasurement <= FreshWindow {
            ok := ok + [box.id];
          }
      }
      i := i + 1;
    }
    assert boxes[..i] == boxes;
    r := Ok(ok);
  }

  /** The filter fails exactly when some box carries an unparseable timestamp. */
  lemma {:induction false} FreshIdsOkIff(boxes: seq<Box>, now: int)
    ensures FreshIds(boxes, now).Ok? <==> forall i :: 0 <= i < |boxes| ==> !IsMalformed(boxes[i])
    decreases |boxes|
  {
    if boxes != [] {
      var init := boxes[..|boxes| - 1];
      FreshIdsOkIff(init, now);
      assert forall i :: 0 <= i < |init| ==> init[i] == boxes[i];
    }
  }

  /** An id is kept exactly when some box with that id is fresh. */
  lemma {:induction false} FreshIdsMembers(boxes: seq<Box>, now: int)
    requires FreshIds(boxes, now).Ok?
    ensures forall id :: id in FreshIds(boxes, now).value <==>
      exists i :: 0 <= i < |boxes| && boxes[i].id == id && Kept(boxes[i], now)
    decreases |boxes|
  {
    if boxes != [] {
      var init := boxes[..|boxes| - 1];
      FreshIdsMembers(init, now);
      assert forall i :: 0 <= i < |init| ==> init[i] == boxes[i];
    }
  }

  /** The kept ids are the listing's ids with some left out, in listing order. */
  lemma {:induction false} FreshIdsSubsequence(boxes: seq<Box>, now: int)
    requires FreshIds(boxes, now).Ok?
    ensures IsSubsequence(FreshIds(boxes, now).value, IdsOf(boxes))
    ensures |FreshIds(boxes, now).value| <= |boxes|
    decreases |boxes|
  {
    var ids := FreshIds(boxes, now).value;
    if boxes != [] {
      var init := boxes[..|boxes| - 1];
      FreshIdsSubsequence(init, now);
      assert IdsOf(boxes)[..|boxes| - 1] == IdsOf(init);
      if Kept(boxes[|boxes| - 1], now) {
        assert ids[..|ids| - 1] == FreshIds(init, now).value;
      }
    }
    SubsequenceLength(ids, IdsOf(boxes));
  }

  /**
   * The window at its edges: three hours exactly is kept, one microsecond more
   * (on the clock as read) is dropped, four and five hours are dropped, one
   * hour and the future are kept, a box without the key is skipped and one
   * with unparseable text is an error.
   */
  lemma FreshnessBoundaries(id: BoxId, now: int, text: string)
    ensures FreshIds([Box(id, Some(WellFormed(now - FreshWindow)))], now) == Ok([id])
    ensures FreshIds([Box(id, Some(WellFormed(ReadClock(now) - FreshWindow)))], now) == Ok([id])
    ensures FreshIds([Box(id, Some(WellFormed(ReadClock(now) - FreshWindow - 1)))], now) == Ok([])
    ensures FreshIds([Box(id, Some(WellFormed(now - 4 * HourMicros)))], now) == Ok([])
    ensures FreshIds([Box(id, Some(WellFormed(now - 5 * HourMicros)))], now) == Ok([])
    ensures FreshIds([Box(id, Some(WellFormed(now - HourMicros)))], now) == Ok([id])
    ensures FreshIds([Box(id, Some(WellFormed(now + HourMicros)))], now) == Ok([id])
    ensures FreshIds([Box(id, None)], now) == Ok([])
    ensures FreshIds([Box(id, Some(Malformed(text)))], now) == Err(MalformedTimestamp(id))
  {
    FreshIdsSingle(Box(id, Some(WellFormed(now - FreshWindow))), now);
    FreshIdsSingle(Box(id, Some(WellFormed(ReadClock(now) - FreshWindow))), now);
    FreshIdsSingle(Box(id, Some(WellFormed(ReadClock(now) - FreshWindow - 1))), now);
    FreshIdsSingle(Box(id, Some(WellFormed(now - 4 * HourMicros))), now);
    FreshIdsSingle(Box(id, Some(WellFormed(now - 5 * HourMicros))), now);
    FreshIdsSingle(Box(id, Some(WellFormed(now - HourMicros))), now);
    FreshIdsSingle(Box(id, Some(WellFormed(now + HourMicros))), now);
    FreshIdsSingle(Box(id, None), now);
    FreshIdsSingle(Box(id, Some(Malformed(text))), now);
  }

  lemma FreshIdsSingle(b: Box, now: int)
    ensures FreshIds([b], now) == if IsMalformed(b) then Err(MalformedTimestamp(b.id))
                                  else if Kept(b, now) then Ok([b.id]) else Ok([])
  {
    assert [b][..0] == [];
    assert FreshIds([b][..0], now) == Ok([]);
    assert [] + [b.id] == [b.id];
  }

  // ---------------------------------------------------------------------------
  // get_boxes_temp

  /**
   * The values one box contributes: the `lastMeasurement.value` strings of its
   * sensors titled exactly "Temperature", unchanged and in sensor order.
   */
  function Readings(box: BoxId, sensors: seq<Sensor>): Result<seq<string>, Error>
    decreases |sensors|
  {
    if sensors == [] then Ok([])
    else
      var last := sensors[|sensors| - 1];
      match Readings(box, sensors[..|sensors| - 1])
      case Err(e) => Err(e)
      case Ok(vs) =>
        if last.title != TemperatureTitle then Ok(vs)
        else if last.lastValue.None? then Err(NoMeasurement(box))
        else Ok(vs + [last.lastValue.value])
  }

  /** What get_boxes_temp returns: the readings of every box, box after box. */
  function BoxesTemps(ids: seq<BoxId>, details: map<BoxId, seq<Sensor>>): Result<seq<string>, Error>
    decreases |ids|
  {
    if ids == [] then Ok([])
    else
      var id := ids[|ids| - 1];
      match BoxesTemps(ids[..|ids| - 1], details)
      case Err(e) => Err(e)
      case Ok(vs) =>
        if id !in details then Err(NoSensorList(id))
        else
          match Readings(id, details[id])
          case Err(e) => Err(e)
          case Ok(ws) => Ok(vs + ws)
  }

  lemma {:induction false} ReadingsErrPersists(box: BoxId, sensors: seq<Sensor>, k: nat)
    requires k <= |sensors| && Readings(box, sensors[..k]).Err?
    ensures Readings(box, sensors) == Readings(box, sensors[..k])
    decreases |sensors|
  {
    if k == |sensors| {
      assert sensors[..k] == sensors;
    } else {
      var init := sensors[..|sensors| - 1];
      assert init[..k] == sensors[..k];
      ReadingsErrPersists(box, init, k);
    }
  }

  lemma {:induction false} BoxesTempsErrPersists(ids: seq<BoxId>, k: nat, details: map<BoxId, seq<Sensor>>)
    requires k <= |ids| && BoxesTemps(ids[..k], details).Err?
    ensures BoxesTemps(ids, details) == BoxesTemps(ids[..k], details)
    decreases |ids|
  {
    if k == |ids| {
      assert ids[..k] == ids;
    } else {
      var init := ids[..|ids| - 1];
      assert init[..k] == ids[..k];
      BoxesTempsErrPersists(init, k, details);
    }
  }

  /** get_boxes_temp: the nested loops of the source, appending to `temps`. */
  method GetBoxesTemp(ids: seq<BoxId>, details: map<BoxId, seq<Sensor>>) returns (r: Result<seq<string>, Error>)
    ensures r == BoxesTemps(ids, details)
  {
    var temps: seq<string> := [];
    var i := 0;
    while i < |ids|
      invariant 0 <= i <= |ids|
      invariant BoxesTemps(ids[..i], details) == Ok(temps)
    {
      var id := ids[i];
      assert ids[..i + 1][..i] == ids[..i];
      if id !in details {
        r := Err(NoSensorList(id));
        BoxesTempsErrPersists(ids, i + 1, details);
        return;
      }
      var sensors := details[id];
      ghost var before := temps;
      var j := 0;
      while j < |sensors|
        invariant 0 <= j <= |sensors|
        invariant Readings(id, sensors[..j]).Ok?
        invariant temps == before + Readings(id, sensors[..j]).value
      {
        var sensor := sensors[j];
        assert sensors[..j + 1][..j] == sensors[..j];
        if sensor.title == TemperatureTitle {
          if sensor.lastValue.None? {
            r := Err(NoMeasurement(id));
            ReadingsErrPersists(id, sensors, j + 1);
            BoxesTempsErrPersists(ids, i + 1, details);
            return;
          }
          temps := temps + [sensor.lastValue.value];
        }
        j := j + 1;
      }
      assert sensors[..j] == sensors;
      i := i + 1;
    }
    assert ids[..i] == ids;
    r := Ok(temps);
  }

  /** Every "Temperature" sensor of the list carries a value. */
  predicate HasMeasurements(sensors: seq<Sensor>)
  {
    forall k :: 0 <= k < |sensors| && sensors[k].title == TemperatureTitle ==> sensors[k].lastValue.Some?
  }

  /** Every listed box has a sensor list whose "Temperature" sensors all carry a value. */
  predicate AllReadable(ids: seq<BoxId>, details: map<BoxId, seq<Sensor>>)
  {
    forall i :: 0 <= i < |ids| ==> ids[i] in details && HasMeasurements(details[ids[i]])
  }

  function TemperatureCount(sensors: seq<Sensor>): nat
    decreases |sensors|
  {
    if sensors == [] then 0
    else TemperatureCount(sensors[..|sensors| - 1]) + (if sensors[|sensors| - 1].title == TemperatureTitle then 1 else 0)
  }

  function BoxesTemperatureCount(ids: seq<BoxId>, details: map<BoxId, seq<Sensor>>): nat
    decreases |ids|
  {
    if ids == [] then 0
    else
      var id := ids[|ids| - 1];
      BoxesTemperatureCount(ids[..|ids| - 1], details) + (if id in details then TemperatureCount(details[id]) else 0)
  }

  lemma {:induction false} ReadingsOkIff(box: BoxId, sensors: seq<Sensor>)
    ensures Readings(box, sensors).Ok? <==> HasMeasurements(sensors)
    decreases |sensors|
  {
    if sensors != [] {
      var init := sensors[..|sensors| - 1];
      ReadingsOkIff(box, init);
      assert forall k :: 0 <= k < |init| ==> init[k] == sensors[k];
    }
  }

  /** Collecting fails exactly when some box has no sensor list or a valueless "Temperature" sensor. */
  lemma {:induction false} BoxesTempsOkIff(ids: seq<BoxId>, details: map<BoxId, seq<Sensor>>)
    ensures BoxesTemps(ids, details).Ok? <==> AllReadable(ids, details)
    decreases |ids|
  {
    if ids != [] {
      var init := ids[..|ids| - 1];
      var id := ids[|ids| - 1];
      BoxesTempsOkIff(init, details);
      assert forall i :: 0 <= i < |init| ==> init[i] == ids[i];
      if id in details {
        ReadingsOkIff(id, details[id]);
      }
    }
  }

  /** A box contributes one entry per "Temperature" sensor: no per-box averaging. */
  lemma {:induction false} ReadingsCount(box: BoxId, sensors: seq<Sensor>)
    requires Readings(box, sensors).Ok?
    ensures |Readings(box, sensors).value| == TemperatureCount(sensors)
    decreases |sensors|
  {
    if sensors != [] {
      ReadingsCount(box, sensors[..|sensors| - 1]);
    }
  }

  lemma {:induction false} BoxesTempsCount(ids: seq<BoxId>, details: map<BoxId, seq<Sensor>>)
    requires BoxesTemps(ids, details).Ok?
    ensures |BoxesTemps(ids, details).value| == BoxesTemperatureCount(ids, details)
    decreases |ids|
  {
    if ids != [] {
      var id := ids[|ids| - 1];
      BoxesTempsCount(ids[..|ids| - 1], details);
      ReadingsCount(id, details[id]);
    }
  }

  /** A string is collected from a box exactly when one of its sensors is titled "Temperature" and holds it. */
  lemma {:induction false} ReadingsMembers(box: BoxId, sensors: seq<Sensor>)
    requires Readings(box, sensors).Ok?
    ensures forall v :: v in Readings(box, sensors).value <==> Sensor(TemperatureTitle, Some(v)) in sensors
    decreases |sensors|
  {
    if sensors != [] {
      var init := sensors[..|sensors| - 1];
      ReadingsMembers(box, init);
      assert sensors == init + [sensors[|sensors| - 1]];
    }
  }

  /** A string is collected exactly when some listed box has a "Temperature" sensor holding it. */
  lemma {:induction false} BoxesTempsMembers(ids: seq<BoxId>, details: map<BoxId, seq<Sensor>>)
    requires BoxesTemps(ids, details).Ok?
    ensures forall v :: v in BoxesTemps(ids, details).value <==>
      exists i :: 0 <= i < |ids| && ids[i] in details && Sensor(TemperatureTitle, Some(v)) in details[ids[i]]
    decreases |ids|
  {
    if ids != [] {
      var init := ids[..|ids| - 1];
      var id := ids[|ids| - 1];
      BoxesTempsMembers(init, details);
      ReadingsMembers(id, details[id]);
      assert forall i :: 0 <= i < |init| ==> init[i] == ids[i];
    }
  }

  /** The cases of testing/test_temperature.py: "Humidity" is ignored, and no boxes collect nothing. */
  lemma CollectExamples(details: map<BoxId, seq<Sensor>>)
    ensures BoxesTemps([], details) == Ok([])
    ensures BoxesTemps(["box1"], map["box1" := [Sensor("Temperature", Some("24.5")), Sensor("Humidity", Some("55"))]])
            == Ok(["24.5"])
    ensures BoxesTemps(["box1"], map["box1" := [Sensor("Humidity", Some("55"))]]) == Ok([])
  {
    var t := Sensor("Temperature", Some("24.5"));
    var h := Sensor("Humidity", Some("55"));
    assert [t, h][..1] == [t];
    assert [t][..0] == [];
    assert [h][..0] == [];
    assert ["box1"][..0] == [];
    assert Readings("box1", [t][..0]) == Ok([]);
    assert [] + ["24.5"] == ["24.5"];
    assert Readings("box1", [t]) == Ok(["24.5"]);
    assert Readings("box1", [t, h]) == Ok(["24.5"]);
    assert Readings("box1", [h][..0]) == Ok([]);
    assert Readings("box1", [h]) == Ok([]);
    assert BoxesTemps(["box1"][..0], map["box1" := [t, h]]) == Ok([]);
    assert BoxesTemps(["box1"][..0], map["box1" := [h]]) == Ok([]);
    assert (map["box1" := [h]])["box1"] == [h];
    var none: seq<string> := [];
    assert none + none == none;
  }

  // ---------------------------------------------------------------------------
  // get_avg_temp

  function Sum(xs: seq<real>): real
    decreases |xs|
  {
    if xs == [] then 0.0 else Sum(xs[..|xs| - 1]) + xs[|xs| - 1]
  }

  /** float() applied to every collected string, stopping at the first one it rejects. */
  function ParseAll(texts: seq<string>, parse: string -> Option<real>): (r: Result<seq<real>, Error>)
    ensures r.Ok? <==> forall i :: 0 <= i < |texts| ==> parse(texts[i]).Some?
    ensures r.Ok? ==> |r.value| == |texts| && forall i :: 0 <= i < |texts| ==> parse(texts[i]) == Some(r.value[i])
    decreases |texts|
  {
    if texts == [] then Ok([])
    else
      var last := texts[|texts| - 1];
      match ParseAll(texts[..|texts| - 1], parse)
      case Err(e) => Err(e)
      case Ok(xs) => if parse(last).None? then Err(NotANumber(last)) else Ok(xs + [parse(last).value])
  }

  lemma {:induction false} ParseAllErrPersists(texts: seq<string>, k: nat, parse: string -> Option<real>)
    requires k <= |texts| && ParseAll(texts[..k], parse).Err?
    ensures ParseAll(texts, parse) == ParseAll(texts[..k], parse)
    decreases |texts|
  {
    if k == |texts| {
      assert texts[..k] == texts;
    } else {
      var init := texts[..|texts| - 1];
      assert init[..k] == texts[..k];
      ParseAllErrPersists(init, k, parse);
    }
  }

  /**
   * The value get_avg_temp rounds: 0.1 plus the sum of the values, divided by
   * their number; no values is a division by zero.
   */
  function OffsetMean(texts: seq<string>, parse: string -> Option<real>): Result<real, Error>
  {
    match ParseAll(texts, parse)
    case Err(e) => Err(e)
    case Ok(xs) => if |xs| == 0 then Err(DivisionByZero) else Ok((0.1 + Sum(xs)) / |xs| as real)
  }

  /** The averaging loop of get_avg_temp, accumulating into `counter` from 0.1. */
  method AverageTemp(texts: seq<string>, parse: string -> Option<real>) returns (r: Result<real, Error>)
    ensures r == OffsetMean(texts, parse)
  {
    var counter := 0.1;
    ghost var xs: seq<real> := [];
    var i := 0;
    while i < |texts|
      invariant 0 <= i <= |texts|
      invariant ParseAll(texts[..i], parse) == Ok(xs)
      invariant counter == 0.1 + Sum(xs)
    {
      assert texts[..i + 1][..i] == texts[..i];
      var value := parse(texts[i]);
      if value.None? {
        r := Err(NotANumber(texts[i]));
        ParseAllErrPersists(texts, i + 1, parse);
        return;
      }
      counter := counter + value.value;
      ghost var prev := xs;
      xs := xs + [value.value];
      assert xs[..|xs| - 1] == prev;
      assert ParseAll(texts[..i + 1], parse) == Ok(xs);
      i := i + 1;
    }
    assert texts[..i] == texts;
    if |texts| == 0 {
      r := Err(DivisionByZero);
    } else {
      r := Ok(counter / |texts| as real);
    }
  }

  lemma {:induction false} SumBounds(xs: seq<real>, lo: real, hi: real)
    requires forall i :: 0 <= i < |xs| ==> lo <= xs[i] <= hi
    ensures lo * |xs| as real <= Sum(xs) <= hi * |xs| as real
    decreases |xs|
  {
    if xs != [] {
      SumBounds(xs[..|xs| - 1], lo, hi);
    }
  }

  /**
   * With n values all within [lo, hi], the average lies within
   * [lo + 0.1/n, hi + 0.1/n]: the offset shifts the result upwards by 0.1/n.
   */
  lemma OffsetMeanBounds(texts: seq<string>, parse: string -> Option<real>, lo: real, hi: real)
    requires |texts| > 0
    requires forall i :: 0 <= i < |texts| ==> parse(texts[i]).Some? && lo <= parse(texts[i]).value <= hi
    ensures OffsetMean(texts, parse).Ok?
    ensures lo + 0.1 / |texts| as real <= OffsetMean(texts, parse).value <= hi + 0.1 / |texts| as real
  {
    var xs := ParseAll(texts, parse).value;
    var n := |texts| as real;
    SumBounds(xs, lo, hi);
    QuotientBounds(Sum(xs), n, lo, hi);
  }

  lemma QuotientBounds(s: real, n: real, lo: real, hi: real)
    requires n > 0.0 && lo * n <= s <= hi * n
    ensures lo + 0.1 / n <= (0.1 + s) / n <= hi + 0.1 / n
  {
    var q := (0.1 + s) / n;
    assert q * n == 0.1 + s;
    assert (q - (lo + 0.1 / n)) * n == s - lo * n;
    assert ((hi + 0.1 / n) - q) * n == hi * n - s;
  }

  /** The whole of get_avg_temp before rounding: listing, freshness filter, collection, averaging. */
  function AvgTemp(status: int, body: seq<Box>, now: int, details: map<BoxId, seq<Sensor>>,
                   parse: string -> Option<real>): Result<real, Error>
  {
    match FreshIds(GetBoxes(status, body), now)
    case Err(e) => Err(e)
    case Ok(ids) =>
      match BoxesTemps(ids, details)
      case Err(e) => Err(e)
      case Ok(texts) => OffsetMean(texts, parse)
  }

  method GetAvgTemp(status: int, body: seq<Box>, now: int, details: map<BoxId, seq<Sensor>>,
                    parse: string -> Option<real>) returns (r: Result<real, Error>)
    ensures r == AvgTemp(status, body, now, details, parse)
  {
    var boxes := GetBoxes(status, body);
    var ids := CheckBoxes(boxes, now);
    if ids.Err? {
      return Err(ids.error);
    }
    var texts := GetBoxesTemp(ids.value, details);
    if texts.Err? {
      return Err(texts.error);
    }
    r := AverageTemp(texts.value, parse);
  }

  /** A failed listing or a listing with no fresh box ends in a division by zero, never in a sentinel value. */
  lemma NoFreshBoxDividesByZero(status: int, body: seq<Box>, now: int, details: map<BoxId, seq<Sensor>>,
                                parse: string -> Option<real>)
    requires status != 200 || FreshIds(body, now) == Ok([])
    ensures AvgTemp(status, body, now, details, parse) == Err(DivisionByZero)
  {
  }

  /**
   * The scenario of testing/test_temperature.py:16-77: of a box measured one
   * hour ago and one four hours ago only the first is kept; its single
   * reading "20.5" averages to 20.6, not the 20.5 that test asserts.
   */
  lemma AvgTempTestScenario(now: int, parse: string -> Option<real>)
    requires parse("20.5") == Some(20.5)
    ensures var boxes := [Box("box1", Some(WellFormed(now - HourMicros))),
                          Box("box2", Some(WellFormed(now - 4 * HourMicros)))];
            var reading := [Sensor("Temperature", Some("20.5"))];
            AvgTemp(200, boxes, now, map["box1" := reading, "box2" := reading], parse) == Ok(20.6)
  {
    var reading := [Sensor("Temperature", Some("20.5"))];
    ScenarioFreshIds(now);
    ScenarioReadings(reading, map["box1" := reading, "box2" := reading]);
    ScenarioMean(parse);
  }

  /** Of the scenario's boxes only the one measured an hour ago is fresh. */
  lemma ScenarioFreshIds(now: int)
    ensures FreshIds([Box("box1", Some(WellFormed(now - HourMicros))),
                      Box("box2", Some(WellFormed(now - 4 * HourMicros)))], now) == Ok(["box1"])
  {
    var boxes := [Box("box1", Some(WellFormed(now - HourMicros))),
                  Box("box2", Some(WellFormed(now - 4 * HourMicros)))];
    assert boxes[..1] == [boxes[0]];
    FreshIdsSingle(boxes[0], now);
    assert !Kept(boxes[1], now);
  }

  /** The fresh box's one "Temperature" sensor yields its reading. */
  lemma ScenarioReadings(reading: seq<Sensor>, details: map<BoxId, seq<Sensor>>)
    requires reading == [Sensor("Temperature", Some("20.5"))]
    requires "box1" in details && details["box1"] == reading
    ensures BoxesTemps(["box1"], details) == Ok(["20.5"])
  {
    assert reading[..0] == [];
    assert Readings("box1", reading[..0]) == Ok([]);
    var none: seq<string> := [];
    assert none + ["20.5"] == ["20.5"];
    assert Readings("box1", reading) == Ok(["20.5"]);
    assert ["box1"][..0] == [];
    assert BoxesTemps(["box1"][..0], details) == Ok([]);
  }

  /** A single reading "20.5" averages to 20.6 because of the 0.1 offset. */
  lemma ScenarioMean(parse: string -> Option<real>)
    requires parse("20.5") == Some(20.5)
    ensures OffsetMean(["20.5"], parse) == Ok(20.6)
  {
    assert ["20.5"][..0] == [];
    assert ParseAll(["20.5"][..0], parse) == Ok([]);
    assert [] + [20.5] == [20.5];
    assert ParseAll(["20.5"], parse) == Ok([20.5]);
    assert Sum([20.5]) == 20.5 by {
      assert [20.5][..0] == [];
    }
  }
}
