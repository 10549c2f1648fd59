/**
 * The temperature colour map: a temperature is normalised into [0, 1]
 * over [MIN_TEMP, MAX_TEMP] and mapped through four linear segments,
 * blue to cyan to green to yellow to red, each channel truncated to an
 * integer.
 */
module ColourMap {
  import opened Maths
  import opened ScalarField

  datatype Rgb = Rgb(red: int, green: int, blue: int)

  predicate IsChannel(v: int) {
    0 <= v <= 255
  }

  /** The temperature's position in the range, clamped into [0, 1]. */
  function NormalizedTemperature(temperature: real): (n: real)
    ensures 0.0 <= n <= 1.0
    ensures temperature <= MIN_TEMP ==> n == 0.0
    ensures MAX_TEMP <= temperature ==> n == 1.0
    ensures MIN_TEMP <= temperature <= MAX_TEMP ==> MIN_TEMP + n * (MAX_TEMP - MIN_TEMP) == temperature
  {
    Max(0.0, Min(1.0, (temperature - MIN_TEMP) / (MAX_TEMP - MIN_TEMP)))
  }

  lemma NormalizedMonotone(t1: real, t2: real)
    requires t1 <= t2
    ensures NormalizedTemperature(t1) <= NormalizedTemperature(t2)
  {
  }

  /** Which quarter of the normalised range a value falls in: 0 (cold) to 3 (hot). */
  function Segment(n: real): (k: int)
    ensures 0 <= k <= 3
  {
    if n < 0.25 then 0 else if n < 0.5 then 1 else if n < 0.75 then 2 else 3
  }

  /**
   * The colour of a temperature. Every channel is an integer in [0, 255];
   * at or below MIN_TEMP the colour is pure blue and at or above MAX_TEMP
   * pure red.
   */
  function TemperatureColor(temperature: real): (colour: Rgb)
    ensures IsChannel(colour.red) && IsChannel(colour.green) && IsChannel(colour.blue)
    ensures temperature <= MIN_TEMP ==> colour == Rgb(0, 0, 255)
    ensures MAX_TEMP <= temperature ==> colour == Rgb(255, 0, 0)
  {
    var n := NormalizedTemperature(temperature);
    match Segment(n)
    case 0 =>
      var t := n / 0.25;
      Rgb(0, (255.0 * t).Floor, 255)
    case 1 =>
      var t := (n - 0.25) / 0.25;
      Rgb(0, 255, (255.0 * (1.0 - t)).Floor)
    case 2 =>
      var t := (n - 0.5) / 0.25;
      Rgb((255.0 * t).Floor, 255, 0)
    case _ =>
      var t := (n - 0.75) / 0.25;
      Rgb(255, (255.0 * (1.0 - t)).Floor, 0)
  }

  /** The four segment boundaries inside the range: cyan, green and yellow. */
  lemma ColourStops()
    ensures TemperatureColor(MIN_TEMP + 0.25 * (MAX_TEMP - MIN_TEMP)) == Rgb(0, 255, 255)
    ensures TemperatureColor(MIN_TEMP + 0.5 * (MAX_TEMP - MIN_TEMP)) == Rgb(0, 255, 0)
    ensures TemperatureColor(MIN_TEMP + 0.75 * (MAX_TEMP - MIN_TEMP)) == Rgb(255, 255, 0)
  {
  }

  /**
   * Within one quarter of the range exactly one channel moves, and it moves
   * one way: green rises in the first, blue falls in the second, red rises
   * in the third and green falls in the fourth; the other two channels stay
   * fixed.
   */
  lemma SegmentMonotone(t1: real, t2: real)
    requires t1 <= t2
    requires Segment(NormalizedTemperature(t1)) == Segment(NormalizedTemperature(t2))
    ensures var k, c1, c2 := Segment(NormalizedTemperature(t1)), TemperatureColor(t1), TemperatureColor(t2);
      (k == 0 ==> c1.red == c2.red == 0 && c1.blue == c2.blue == 255 && c1.green <= c2.green) &&
      (k == 1 ==> c1.red == c2.red == 0 && c1.green == c2.green == 255 && c1.blue >= c2.blue) &&
      (k == 2 ==> c1.green == c2.green == 255 && c1.blue == c2.blue == 0 && c1.red <= c2.red) &&
      (k == 3 ==> c1.red == c2.red == 255 && c1.blue == c2.blue == 0 && c1.green >= c2.green)
  {
    NormalizedMonotone(t1, t2);
  }

  /** Over the whole range red never decreases and blue never increases as the temperature rises. */
  lemma RedRisesBlueFalls(t1: real, t2: real)
    requires t1 <= t2
    ensures TemperatureColor(t1).red <= TemperatureColor(t2).red
    ensures TemperatureColor(t1).blue >= TemperatureColor(t2).blue
  {
    NormalizedMonotone(t1, t2);
  }

  /** Green is full over the middle half of the range, from cyan to yellow. */
  lemma GreenFullInMiddle(temperature: real)
    requires MIN_TEMP + 0.25 * (MAX_TEMP - MIN_TEMP) <= temperature < MIN_TEMP + 0.75 * (MAX_TEMP - MIN_TEMP)
    ensures TemperatureColor(temperature).green == 255
  {
  }
}
