/**
 * The data pipeline of src/components/dashboard/predictions-chart.tsx: the
 * selected range gives the number of hours requested, and the predicted
 * points are filtered to the future, mapped to a water-level percentage and
 * sorted in place by timestamp.
 */
module PredictionsChart {
  import opened Js
  import WaterLevel

  datatype TimeRange = Range12h | Range24h | Range48h {
    /** The select's value for the range. */
    function Label(): string {
      match this
      case Range12h => "12h"
      case Range24h => "24h"
      case Range48h => "48h"
    }
  }

  /** The range the chart opens with. */
  const DefaultRange := Range24h

  predicate IsDigit(c: char) { '0' <= c <= '9' }

  /** The longest prefix of decimal digits. */
  function LeadingDigits(s: string): (d: string)
    ensures |d| <= |s| && d == s[..|d|]
    ensures forall i :: 0 <= i < |d| ==> IsDigit(d[i])
    ensures |d| < |s| ==> !IsDigit(s[|d|])
  {
    if s == [] || !IsDigit(s[0]) then [] else [s[0]] + LeadingDigits(s[1..])
  }

  function DecimalValue(digits: string): nat
    requires forall i :: 0 <= i < |digits| ==> IsDigit(digits[i])
  {
    if digits == [] then 0
    else
      var last := digits[|digits| - 1];
      assert IsDigit(last);
      DecimalValue(digits[..|digits| - 1]) * 10 + (last as int - '0' as int)
  }

  /**
   * `parseInt(s)` for strings that start with a digit: the value of the
   * leading digits; a string with no leading digit is NaN (`None`).
   */
  function ParseInt(s: string): (r: Option<nat>)
    ensures r.None? <==> (s == [] || !IsDigit(s[0]))
  {
    var digits := LeadingDigits(s);
    if digits == [] then None else Some(DecimalValue(digits))
  }

  /** `parseInt(timeRange)`: the number of hours the chart requests. */
  function Hours(range: TimeRange): (hours: nat)
    ensures range == Range12h ==> hours == 12
    ensures range == Range24h ==> hours == 24
    ensures range == Range48h ==> hours == 48
  {
    LabelParses(range);
    ParseInt(range.Label()).GetOr(0)
  }

  lemma LabelParses(range: TimeRange)
    ensures ParseInt(range.Label()) == Some(match range case Range12h => 12 case Range24h => 24 case Range48h => 48)
  {
    var text := range.Label();
    assert text[1..][1..] == [text[2]] && text[2] == 'h';
    assert LeadingDigits(text[1..][1..]) == [];
    var digits := [text[0], text[1]];
    assert LeadingDigits(text) == digits;
    assert digits[..1] == [text[0]] && [text[0]][..0] == [];
    assert DecimalValue([text[0]]) == text[0] as int - '0' as int;
    assert DecimalValue(digits) == DecimalValue([text[0]]) * 10 + (text[1] as int - '0' as int);
    assert DecimalValue(digits) == (text[0] as int - '0' as int) * 10 + (text[1] as int - '0' as int);
  }

  /** A predicted point; `timestamp` is `new Date(point.timestamp)` in milliseconds. */
  datatype PredictionPoint = PredictionPoint(timestamp: int, value: real)

  /** A chart entry: its timestamp and `nivel`, the predicted percentage. */
  datatype ChartPoint = ChartPoint(timestamp: int, nivel: real)

  /** The sensor fields the chart passes to the water-level calculation. */
  datatype SensorGeometry = SensorGeometry(capacity: real, height: Option<real>, waterDistance: Option<real>)

  /** `sensor.height ?? 0` and `sensor.water_distance ?? 0` do not coincide. */
  predicate Nondegenerate(sensor: SensorGeometry) {
    sensor.height.GetOr(0.0) != sensor.waterDistance.GetOr(0.0)
  }

  /** `.filter(point => new Date(point.timestamp) > new Date())` */
  function FuturePoints(points: seq<PredictionPoint>, now: int): (r: seq<PredictionPoint>)
    ensures |r| <= |points|
    ensures forall i :: 0 <= i < |r| ==> r[i].timestamp > now
    ensures forall p :: p in r <==> p in points && p.timestamp > now
  {
    if points == [] then []
    else (if points[0].timestamp > now then [points[0]] else []) + FuturePoints(points[1..], now)
  }

  /** The filter keeps order and multiplicity: filtering a concatenation concatenates the parts. */
  lemma {:induction false} FuturePointsAppend(a: seq<PredictionPoint>, b: seq<PredictionPoint>, now: int)
    ensures FuturePoints(a + b, now) == FuturePoints(a, now) + FuturePoints(b, now)
  {
    if a == [] {
      assert a + b == b;
    } else {
      assert (a + b)[1..] == a[1..] + b;
      FuturePointsAppend(a[1..], b, now);
    }
  }

  /** One point is kept, once, exactly when it lies after now. */
  lemma FuturePointsSingleton(p: PredictionPoint, now: int)
    ensures FuturePoints([p], now) == if p.timestamp > now then [p] else []
  {
    assert [p][1..] == [];
  }

  /** The `.map` step for one point. */
  function ToChartPoint(sensor: SensorGeometry, point: PredictionPoint): (c: ChartPoint)
    requires Nondegenerate(sensor)
    ensures c.timestamp == point.timestamp
    ensures 0.0 <= c.nivel <= 100.0
    ensures c.nivel == WaterLevel.CalculateWaterLevel(sensor.capacity, sensor.height.GetOr(0.0),
                                                      sensor.waterDistance.GetOr(0.0), point.value).percentage
  {
    var waterLevel := WaterLevel.CalculateWaterLevel(
      sensor.capacity, sensor.height.GetOr(0.0), sensor.waterDistance.GetOr(0.0), point.value);
    ChartPoint(point.timestamp, waterLevel.percentage)
  }

  function ChartPoints(sensor: SensorGeometry, points: seq<PredictionPoint>): (r: seq<ChartPoint>)
    requires points != [] ==> Nondegenerate(sensor)
    ensures |r| == |points|
    ensures forall i :: 0 <= i < |points| ==> r[i] == ToChartPoint(sensor, points[i])
  {
    seq(|points|, i requires 0 <= i < |points| => ToChartPoint(sensor, points[i]))
  }

  predicate SortedByTimestamp(s: seq<ChartPoint>) {
    forall i, j :: 0 <= i < j < |s| ==> s[i].timestamp <= s[j].timestamp
  }

  /** Exchanges two neighbouring entries. */
  method SwapWithPrevious(a: array<ChartPoint>, j: int)
    requires 0 < j < a.Length
    modifies a
    ensures a[..] == old(a[..])[j - 1 := old(a[j])][j := old(a[j - 1])]
    ensures multiset(a[..]) == old(multiset(a[..]))
  {
    a[j - 1], a[j] := a[j], a[j - 1];
  }

  /** Moves `a[i]` left into the sorted prefix `a[..i]`. */
  method InsertAt(a: array<ChartPoint>, i: int)
    requires 0 <= i < a.Length && SortedByTimestamp(a[..i])
    modifies a
    ensures SortedByTimestamp(a[..i + 1])
    ensures multiset(a[..]) == old(multiset(a[..]))
  {
    var j := i;
    while j > 0 && a[j - 1].timestamp > a[j].timestamp
      invariant 0 <= j <= i
      invariant forall k, l :: 0 <= k < l <= i && k != j && l != j ==> a[k].timestamp <= a[l].timestamp
      invariant forall l :: j < l <= i ==> a[j].timestamp < a[l].timestamp
      invariant multiset(a[..]) == old(multiset(a[..]))
    {
      SwapWithPrevious(a, j);
      j := j - 1;
    }
  }

  /** `chartData.sort((a, b) => a.timestamp - b.timestamp)`, in place. */
  method SortByTimestamp(a: array<ChartPoint>)
    modifies a
    ensures SortedByTimestamp(a[..])
    ensures multiset(a[..]) == old(multiset(a[..]))
  {
    for i := 0 to a.Length
      invariant SortedByTimestamp(a[..i])
      invariant multiset(a[..]) == old(multiset(a[..]))
    {
      InsertAt(a, i);
    }
    assert a[..a.Length] == a[..];
  }

  /**
   * `sortedChartData`: the future points, mapped and sorted by timestamp;
   * undefined while the predictions are not loaded.
   */
  method SortedChartData(predictions: Option<seq<PredictionPoint>>, now: int, sensor: SensorGeometry)
    returns (r: Option<seq<ChartPoint>>)
    requires predictions.Some? && FuturePoints(predictions.value, now) != [] ==> Nondegenerate(sensor)
    ensures r.None? <==> predictions.None?
    ensures r.Some? ==> SortedByTimestamp(r.value)
    ensures r.Some? ==> multiset(r.value) == multiset(ChartPoints(sensor, FuturePoints(predictions.value, now)))
    ensures r.Some? ==> |r.value| <= |predictions.value|
    ensures r.Some? ==> forall i :: 0 <= i < |r.value| ==>
      r.value[i].timestamp > now && 0.0 <= r.value[i].nivel <= 100.0
  {
    if predictions.None? {
      return None;
    }
    var chartData := ChartPoints(sensor, FuturePoints(predictions.value, now));
    var a := new ChartPoint[|chartData|](i requires 0 <= i < |chartData| => chartData[i]);
    assert a[..] == chartData;
    SortByTimestamp(a);
    r := Some(a[..]);
    forall i | 0 <= i < |a[..]|
      ensures a[..][i].timestamp > now && 0.0 <= a[..][i].nivel <= 100.0
    {
      assert a[..][i] in multiset(chartData);
    }
  }

  /** The reference line's position: the first point of the sorted data. */
  function ReferencePoint(data: seq<ChartPoint>): (r: Option<ChartPoint>)
    ensures r.None? <==> data == []
    ensures r.Some? ==> r.value in data
    ensures r.Some? && SortedByTimestamp(data) ==> forall p :: p in data ==> r.value.timestamp <= p.timestamp
  {
    if data == [] then None else Some(data[0])
  }
}
