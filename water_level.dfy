/**
 * The water-level derivation of src/lib/utils.ts: a distance reading and the
 * tank's geometry become a percentage clamped to [0, 100] and a volume in
 * litres, both rounded to one decimal.
 */
module WaterLevel {

  datatype WaterLevelInfo = WaterLevelInfo(currentLevel: real, percentage: real)

  function Max(a: real, b: real): real { if a >= b then a else b }
  function Min(a: real, b: real): real { if a <= b then a else b }

  /** JavaScript's `Math.round`: the nearest integer, halves rounded up. */
  function MathRound(x: real): (r: int)
    ensures x - 0.5 < r as real <= x + 0.5
  {
    (x + 0.5).Floor
  }

  /** A value that is an integer number of tenths. */
  predicate OneDecimal(v: real) {
    (v * 10.0).Floor as real == v * 10.0
  }

  /** `Math.round(x * 10) / 10` */
  function Round1(x: real): (r: real)
    ensures OneDecimal(r)
    ensures x - 0.05 < r <= x + 0.05
  {
    MathRound(x * 10.0) as real / 10.0
  }

  lemma Round1Monotone(x: real, y: real)
    requires x <= y
    ensures Round1(x) <= Round1(y)
  {
    var a, b := MathRound(x * 10.0), MathRound(y * 10.0);
    assert x * 10.0 <= y * 10.0;
    assert a as real < b as real + 1.0;
    assert a <= b;
    assert a as real / 10.0 <= b as real / 10.0;
  }

  /** Rounding leaves a value that already has one decimal as it is. */
  lemma {:induction false} Round1OfOneDecimal(v: real)
    requires OneDecimal(v)
    ensures Round1(v) == v
  {
    var k := (v * 10.0).Floor;
    assert (v * 10.0 + 0.5).Floor == k;
  }

  /** The clamped, unrounded percentage (utils.ts lines 19-26). */
  function ClampedPercentage(height: real, waterDistance: real, reading: real): (p: real)
    requires height != waterDistance
    ensures 0.0 <= p <= 100.0
  {
    var actualWaterHeight := height - reading;
    var maxWaterHeight := height - waterDistance;
    Max(0.0, Min(100.0, (actualWaterHeight / maxWaterHeight) * 100.0))
  }

  /** The unrounded volume for a percentage, never negative (line 29). */
  function Volume(percentage: real, capacity: real): real {
    Max(0.0, (percentage / 100.0) * capacity)
  }

  /**
   * `calculateWaterLevel(capacity, height, waterDistance, reading)`.
   * The source divides by `height - waterDistance` without a guard, so the
   * two must differ; every other input is accepted.
   */
  function CalculateWaterLevel(capacity: real, height: real, waterDistance: real, reading: real): (r: WaterLevelInfo)
    requires height != waterDistance
    ensures 0.0 <= r.percentage <= 100.0
    ensures 0.0 <= r.currentLevel
    ensures capacity >= 0.0 ==> r.currentLevel <= Round1(capacity)
    ensures OneDecimal(r.percentage) && OneDecimal(r.currentLevel)
  {
    var percentage := ClampedPercentage(height, waterDistance, reading);
    RoundedBounds(percentage, capacity);
    WaterLevelInfo(Round1(Volume(percentage, capacity)), Round1(percentage))
  }

  /** The bounds of the two rounded outputs, given a clamped percentage. */
  lemma RoundedBounds(percentage: real, capacity: real)
    requires 0.0 <= percentage <= 100.0
    ensures 0.0 <= Round1(percentage) <= 100.0
    ensures 0.0 <= Round1(Volume(percentage, capacity))
    ensures capacity >= 0.0 ==> Round1(Volume(percentage, capacity)) <= Round1(capacity)
  {
    var currentLevel := Volume(percentage, capacity);
    Round1Monotone(0.0, percentage);
    Round1Monotone(percentage, 100.0);
    assert Round1(0.0) == 0.0 && Round1(100.0) == 100.0;
    Round1Monotone(0.0, currentLevel);
    if capacity >= 0.0 {
      assert (percentage / 100.0) * capacity <= 1.0 * capacity;
      Round1Monotone(currentLevel, capacity);
    }
  }

  /** A reading at or beyond the tank's bottom is an empty tank. */
  lemma EmptyAtOrBelowBottom(capacity: real, height: real, waterDistance: real, reading: real)
    requires height > waterDistance && reading >= height
    ensures CalculateWaterLevel(capacity, height, waterDistance, reading) == WaterLevelInfo(0.0, 0.0)
  {
    var q := (height - reading) / (height - waterDistance);
    assert q <= 0.0;
  }

  /** A reading at or above the "full" mark is a full tank. */
  lemma FullAtOrAboveFullMark(capacity: real, height: real, waterDistance: real, reading: real)
    requires height > waterDistance && reading <= waterDistance
    ensures CalculateWaterLevel(capacity, height, waterDistance, reading)
         == WaterLevelInfo(Round1(Max(0.0, capacity)), 100.0)
  {
    var q := (height - reading) / (height - waterDistance);
    assert q >= 1.0;
    assert Round1(100.0) == 100.0;
  }

  lemma QuotientMonotone(a: real, b: real, m: real)
    requires m > 0.0 && a <= b
    ensures a / m <= b / m
  {
    assert (b - a) / m >= 0.0;
    assert b / m - a / m == (b - a) / m;
  }

  lemma ScaleMonotone(p: real, q: real, capacity: real)
    requires p <= q && capacity >= 0.0
    ensures Volume(p, capacity) <= Volume(q, capacity)
  {
    assert (q / 100.0) * capacity - (p / 100.0) * capacity == ((q - p) / 100.0) * capacity;
  }

  /** For a fixed tank, a larger distance reading never shows more water. */
  lemma PercentageAntitone(capacity: real, height: real, waterDistance: real, r1: real, r2: real)
    requires height > waterDistance && r1 <= r2
    ensures CalculateWaterLevel(capacity, height, waterDistance, r2).percentage
         <= CalculateWaterLevel(capacity, height, waterDistance, r1).percentage
    ensures capacity >= 0.0 ==>
      CalculateWaterLevel(capacity, height, waterDistance, r2).currentLevel
         <= CalculateWaterLevel(capacity, height, waterDistance, r1).currentLevel
  {
    var m := height - waterDistance;
    QuotientMonotone(height - r2, height - r1, m);
    var p1, p2 := ClampedPercentage(height, waterDistance, r1), ClampedPercentage(height, waterDistance, r2);
    assert p2 <= p1;
    Round1Monotone(p2, p1);
    if capacity >= 0.0 {
      ScaleMonotone(p2, p1, capacity);
      Round1Monotone(Volume(p2, capacity), Volume(p1, capacity));
    }
  }

  /**
   * The volume is computed from the unrounded percentage: 69.2 % of 200 L
   * would be 138.4 L, but the function returns 138.5 L.
   */
  lemma VolumeFromUnroundedPercentage()
    ensures CalculateWaterLevel(200.0, 150.0, 20.0, 60.0) == WaterLevelInfo(138.5, 69.2)
    ensures Round1((69.2 / 100.0) * 200.0) == 138.4
  {
    var p := (90.0 / 130.0) * 100.0;
    assert 69.23 < p < 69.24;
    assert MathRound(p * 10.0) == 692;
    var v := (p / 100.0) * 200.0;
    assert 138.46 < v < 138.47;
    assert MathRound(v * 10.0) == 1385;
    assert MathRound(((69.2 / 100.0) * 200.0) * 10.0) == 1384;
  }

  /** Two worked examples: a full tank and an empty tank. */
  lemma FullAndEmptyExamples()
    ensures CalculateWaterLevel(100.0, 100.0, 10.0, 10.0) == WaterLevelInfo(100.0, 100.0)
    ensures CalculateWaterLevel(100.0, 100.0, 10.0, 100.0) == WaterLevelInfo(0.0, 0.0)
  {
    FullAtOrAboveFullMark(100.0, 100.0, 10.0, 10.0);
    assert Round1(100.0) == 100.0;
    EmptyAtOrBelowBottom(100.0, 100.0, 10.0, 100.0);
  }

  /**
   * The empty-tank rule needs `height > waterDistance`: with the "full" mark
   * below the bottom, a reading past the bottom divides two negative heights
   * and the tank shows as full.
   */
  lemma InvertedGeometryShowsFull()
    ensures CalculateWaterLevel(100.0, 100.0, 150.0, 200.0) == WaterLevelInfo(100.0, 100.0)
  {
    assert ClampedPercentage(100.0, 150.0, 200.0) == 100.0;
    assert Round1(100.0) == 100.0;
  }
}
