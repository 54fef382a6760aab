/** backend/src/pricing/pricing.service.ts: the tow price in OMR, a base
    fare plus a rate per kilometre, never below the minimum fare, rounded
    to three decimals (the fils). Arithmetic is exact over `real`. */
module Pricing {

  const BaseFare: real := 5.000
  const RatePerKm: real := 0.350
  const MinimumFare: real := 5.000

  /** `Math.round(x)`: the nearest integer, halves rounded up. */
  function Round(x: real): (n: int)
    ensures x - 0.5 < n as real <= x + 0.5
  {
    (x + 0.5).Floor
  }

  /** `Math.round(x * 1000) / 1000`: a whole number of thousandths, within
      half a thousandth of `x`. */
  function Round3(x: real): (r: real)
    ensures r * 1000.0 == Round(x * 1000.0) as real
    ensures x - 0.0005 < r <= x + 0.0005
  {
    Round(x * 1000.0) as real / 1000.0
  }

  /** `calculatePrice(distanceInKm)`. */
  function CalculatePrice(distanceInKm: real): (r: real)
  {
    var price := BaseFare + distanceInKm * RatePerKm;
    var floored := if price < MinimumFare then MinimumFare else price;
    Round3(floored)
  }

  /** Rounding keeps order. */
  lemma Round3Monotone(x: real, y: real)
    requires x <= y
    ensures Round3(x) <= Round3(y)
  {
    assert (x * 1000.0 + 0.5).Floor <= (y * 1000.0 + 0.5).Floor;
  }

  /** A whole number of thousandths is left as it is. */
  lemma Round3Exact(n: int)
    ensures Round3(n as real / 1000.0) == n as real / 1000.0
  {
    assert (n as real / 1000.0) * 1000.0 == n as real;
    assert (n as real + 0.5).Floor == n;
  }

  /** The price is never below the minimum fare. */
  lemma PriceAtLeastMinimum(d: real)
    ensures CalculatePrice(d) >= MinimumFare
  {
    var price := BaseFare + d * RatePerKm;
    var floored := if price < MinimumFare then MinimumFare else price;
    Round3Monotone(MinimumFare, floored);
    Round3Exact(5000);
  }

  /** For a non-negative distance the floor never applies: the price is
      the base plus the distance charge, rounded. */
  lemma PriceOfDistance(d: real)
    requires d >= 0.0
    ensures CalculatePrice(d) == Round3(BaseFare + d * RatePerKm)
  {
  }

  /** A distance that would price below the minimum (a negative one) is
      charged the minimum fare. */
  lemma NegativeDistanceClamped(d: real)
    requires d < 0.0
    ensures CalculatePrice(d) == MinimumFare
  {
    Round3Exact(5000);
  }

  /** A longer distance never costs less. */
  lemma PriceMonotone(d1: real, d2: real)
    requires d1 <= d2
    ensures CalculatePrice(d1) <= CalculatePrice(d2)
  {
    var p1 := BaseFare + d1 * RatePerKm;
    var p2 := BaseFare + d2 * RatePerKm;
    assert p1 <= p2;
    Round3Monotone(if p1 < MinimumFare then MinimumFare else p1, if p2 < MinimumFare then MinimumFare else p2);
  }

  /** The worked prices: 10 km, 20 km, 0 km, 0.5 km, 100 km, and 1.2345 km
      (5.432075 rounded to 5.432). */
  lemma WorkedPrices()
    ensures CalculatePrice(10.0) == 8.5
    ensures CalculatePrice(20.0) == 12.0
    ensures CalculatePrice(0.0) == 5.0
    ensures CalculatePrice(0.5) == 5.175
    ensures CalculatePrice(100.0) == 40.0
    ensures CalculatePrice(1.2345) == 5.432
  {
    Round3Exact(8500);
    Round3Exact(12000);
    Round3Exact(5000);
    Round3Exact(5175);
    Round3Exact(40000);
    assert (5432.075 + 0.5).Floor == 5432;
  }
}
