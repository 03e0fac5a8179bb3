/**
 * The pure helpers of src/components/sensors/sensors-map.tsx: the five-band
 * marker colour, the filter that keeps the sensors with a location, and the
 * map centre, the mean of their coordinates.
 */
module SensorsMap {
  import opened Js
  import WaterLevel

  /** The fields of a sensor the map reads. */
  datatype Sensor = Sensor(
    id: string,
    name: string,
    capacity: real,
    latitude: Option<real>,
    longitude: Option<real>,
    waterLevel: Option<WaterLevel.WaterLevelInfo>)

  datatype MarkerColor = Red | Orange | Yellow | Lime | Green {
    /** The CSS colour the marker is drawn with. */
    function Hex(): string {
      match this
      case Red => "#ef4444"
      case Orange => "#f97316"
      case Yellow => "#eab308"
      case Lime => "#84cc16"
      case Green => "#22c55e"
    }

    /** The band's position, from emptiest to fullest. */
    function Rank(): nat {
      match this
      case Red => 0
      case Orange => 1
      case Yellow => 2
      case Lime => 3
      case Green => 4
    }
  }

  /** `getWaterLevelColor(percentage)`: each band includes its upper bound. */
  function WaterLevelColor(percentage: real): (c: MarkerColor)
    ensures c == Red <==> percentage <= 20.0
    ensures c == Orange <==> 20.0 < percentage <= 40.0
    ensures c == Yellow <==> 40.0 < percentage <= 60.0
    ensures c == Lime <==> 60.0 < percentage <= 80.0
    ensures c == Green <==> 80.0 < percentage
  {
    if percentage <= 20.0 then Red
    else if percentage <= 40.0 then Orange
    else if percentage <= 60.0 then Yellow
    else if percentage <= 80.0 then Lime
    else Green
  }

  /** A fuller tank never gets a colour of a lower band. */
  lemma ColorMonotone(p: real, q: real)
    requires p <= q
    ensures WaterLevelColor(p).Rank() <= WaterLevelColor(q).Rank()
  {
  }

  /** The five colours are distinct, so the band can be read back from the colour. */
  lemma HexInjective(a: MarkerColor, b: MarkerColor)
    requires a.Hex() == b.Hex()
    ensures a == b
  {
    assert a.Hex()[1] == b.Hex()[1] && a.Hex()[2] == b.Hex()[2];
  }

  /** `sensor.water_level?.percentage ?? 0`, coloured: no level reads as 0 %. */
  function SensorColor(s: Sensor): (c: MarkerColor)
    ensures s.waterLevel.None? ==> c == Red
    ensures s.waterLevel.Some? ==> c == WaterLevelColor(s.waterLevel.value.percentage)
  {
    var percentage := if s.waterLevel.Some? then s.waterLevel.value.percentage else 0.0;
    WaterLevelColor(percentage)
  }

  /** `sensor.latitude && sensor.longitude`: a 0 coordinate counts as missing. */
  predicate HasLocation(s: Sensor) {
    TruthyNumber(s.latitude) && TruthyNumber(s.longitude)
  }

  /** `sensors.filter(sensor => sensor.latitude && sensor.longitude)` */
  function SensorsWithLocation(sensors: seq<Sensor>): (r: seq<Sensor>)
    ensures |r| <= |sensors|
    ensures forall i :: 0 <= i < |r| ==> HasLocation(r[i])
    ensures forall s :: s in r <==> s in sensors && HasLocation(s)
  {
    if sensors == [] then []
    else (if HasLocation(sensors[0]) then [sensors[0]] else []) + SensorsWithLocation(sensors[1..])
  }

  /** The filter keeps order: filtering a concatenation concatenates the parts. */
  lemma {:induction false} FilterAppend(a: seq<Sensor>, b: seq<Sensor>)
    ensures SensorsWithLocation(a + b) == SensorsWithLocation(a) + SensorsWithLocation(b)
  {
    if a == [] {
      assert a + b == b;
    } else {
      assert (a + b)[1..] == a[1..] + b;
      FilterAppend(a[1..], b);
    }
  }

  /** The latitude the centre's `reduce` adds for one sensor (0 when it skips it). */
  function LatitudeTerm(s: Sensor): real {
    if HasLocation(s) then s.latitude.value else 0.0
  }

  function LongitudeTerm(s: Sensor): real {
    if HasLocation(s) then s.longitude.value else 0.0
  }

  function SumLatitudes(s: seq<Sensor>): real {
    if s == [] then 0.0 else SumLatitudes(s[..|s| - 1]) + LatitudeTerm(s[|s| - 1])
  }

  function SumLongitudes(s: seq<Sensor>): real {
    if s == [] then 0.0 else SumLongitudes(s[..|s| - 1]) + LongitudeTerm(s[|s| - 1])
  }

  /** The centre of the map: the reduce over the sensors, divided by their number. */
  method Center(located: seq<Sensor>) returns (lat: real, lng: real)
    requires |located| > 0
    ensures lat == SumLatitudes(located) / |located| as real
    ensures lng == SumLongitudes(located) / |located| as real
  {
    var acc0, acc1 := 0.0, 0.0;
    for i := 0 to |located|
      invariant acc0 == SumLatitudes(located[..i])
      invariant acc1 == SumLongitudes(located[..i])
    {
      assert located[..i + 1][..i] == located[..i];
      var sensor := located[i];
      if TruthyNumber(sensor.latitude) && TruthyNumber(sensor.longitude) {
        acc0 := acc0 + sensor.latitude.value;
        acc1 := acc1 + sensor.longitude.value;
      }
    }
    assert located[..|located|] == located;
    lat := acc0 / |located| as real;
    lng := acc1 / |located| as real;
  }

  /** Sums of located sensors whose latitudes lie in [lo, hi]. */
  lemma {:induction false} SumLatitudesBounds(s: seq<Sensor>, lo: real, hi: real)
    requires forall i :: 0 <= i < |s| ==> HasLocation(s[i]) && lo <= s[i].latitude.value <= hi
    ensures lo * |s| as real <= SumLatitudes(s) <= hi * |s| as real
  {
    if s != [] {
      SumLatitudesBounds(s[..|s| - 1], lo, hi);
    }
  }

  lemma {:induction false} SumLongitudesBounds(s: seq<Sensor>, lo: real, hi: real)
    requires forall i :: 0 <= i < |s| ==> HasLocation(s[i]) && lo <= s[i].longitude.value <= hi
    ensures lo * |s| as real <= SumLongitudes(s) <= hi * |s| as real
  {
    if s != [] {
      SumLongitudesBounds(s[..|s| - 1], lo, hi);
    }
  }

  lemma MeanBetween(sum: real, n: real, lo: real, hi: real)
    requires n > 0.0 && lo * n <= sum <= hi * n
    ensures lo <= sum / n <= hi
  {
    assert sum / n - lo == (sum - lo * n) / n;
    assert hi - sum / n == (hi * n - sum) / n;
  }

  lemma MeanLatitudeBetween(s: seq<Sensor>, lo: real, hi: real)
    requires |s| > 0
    requires forall i :: 0 <= i < |s| ==> HasLocation(s[i]) && lo <= s[i].latitude.value <= hi
    ensures lo <= SumLatitudes(s) / |s| as real <= hi
  {
    SumLatitudesBounds(s, lo, hi);
    MeanBetween(SumLatitudes(s), |s| as real, lo, hi);
  }

  lemma MeanLongitudeBetween(s: seq<Sensor>, lo: real, hi: real)
    requires |s| > 0
    requires forall i :: 0 <= i < |s| ==> HasLocation(s[i]) && lo <= s[i].longitude.value <= hi
    ensures lo <= SumLongitudes(s) / |s| as real <= hi
  {
    SumLongitudesBounds(s, lo, hi);
    MeanBetween(SumLongitudes(s), |s| as real, lo, hi);
  }

  /** The centre of located sensors lies inside any box that holds them all. */
  lemma CenterInsideBox(s: seq<Sensor>, latLo: real, latHi: real, lngLo: real, lngHi: real)
    requires |s| > 0
    requires forall i :: 0 <= i < |s| ==>
      HasLocation(s[i]) && latLo <= s[i].latitude.value <= latHi && lngLo <= s[i].longitude.value <= lngHi
    ensures latLo <= SumLatitudes(s) / |s| as real <= latHi
    ensures lngLo <= SumLongitudes(s) / |s| as real <= lngHi
  {
    MeanLatitudeBetween(s, latLo, latHi);
    MeanLongitudeBetween(s, lngLo, lngHi);
  }

  datatype Marker = Marker(sensor: Sensor, color: MarkerColor)

  datatype MapView =
    | Loading
    | NoLocations
    | MapAt(centerLatitude: real, centerLongitude: real, markers: seq<Marker>)

  /**
   * What `SensorsMap` renders: a loading placeholder before mount, a
   * placeholder when no sensor has a location, and otherwise the map centred
   * on the located sensors with one coloured marker each.
   */
  method Render(sensors: seq<Sensor>, isClient: bool) returns (view: MapView)
    ensures !isClient ==> view == Loading
    ensures isClient && SensorsWithLocation(sensors) == [] ==> view == NoLocations
    ensures isClient && SensorsWithLocation(sensors) != [] ==>
      var located := SensorsWithLocation(sensors);
      view.MapAt?
      && view.centerLatitude == SumLatitudes(located) / |located| as real
      && view.centerLongitude == SumLongitudes(located) / |located| as real
      && |view.markers| == |located|
      && forall i :: 0 <= i < |located| ==> view.markers[i] == Marker(located[i], SensorColor(located[i]))
  {
    var sensorsWithLocation := SensorsWithLocation(sensors);
    if !isClient {
      return Loading;
    }
    if |sensorsWithLocation| == 0 {
      return NoLocations;
    }
    var lat, lng := Center(sensorsWithLocation);
    var markers := seq(|sensorsWithLocation|, i requires 0 <= i < |sensorsWithLocation| =>
      Marker(sensorsWithLocation[i], SensorColor(sensorsWithLocation[i])));
    view := MapAt(lat, lng, markers);
  }
}
