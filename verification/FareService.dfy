/** backend/dist/src/pricing/pricing.service.js: the configurable fare.
    The three constants are read once from the configuration, each falling
    back to its default when unset, empty or not a finite number; a fare is
    the base plus the non-negative distance times the rate, raised to the
    minimum fare, reported with its breakdown. */
module FareService {
  import opened Wrappers

  /** What JavaScript's `Number(text)` yields. */
  datatype JsNumber = Finite(value: real) | NaN | PositiveInfinity | NegativeInfinity

  datatype FareConfig = FareConfig(baseFare: real, perKmRate: real, minimumFare: real)

  datatype Fare = Fare(base: real, distanceKm: real, perKmRate: real, subtotal: real, total: real)

  const BaseFareKey := "PRICING_BASE_FARE"
  const PerKmRateKey := "PRICING_PER_KM_RATE"
  const MinFareKey := "PRICING_MIN_FARE"

  /** `getNumericEnv(key, fallback)`, with `value` what the configuration
      holds for the key and `toNumber` the conversion `Number` performs. */
  function GetNumericEnv(value: Option<string>, fallback: real, toNumber: string -> JsNumber): (r: real)
    ensures value == None || value == Some("") ==> r == fallback
    ensures value.Some? && value.value != "" && toNumber(value.value).Finite? ==> r == toNumber(value.value).value
    ensures value.Some? && value.value != "" && !toNumber(value.value).Finite? ==> r == fallback
  {
    if value.None? || value.value == "" then fallback
    else
      match toNumber(value.value)
      case Finite(v) => v
      case _ => fallback
  }

  /** The constructor: each constant from its key, or its default. */
  function Configure(env: string -> Option<string>, defaults: FareConfig, toNumber: string -> JsNumber): (r: FareConfig)
    ensures r.baseFare == GetNumericEnv(env(BaseFareKey), defaults.baseFare, toNumber)
    ensures r.perKmRate == GetNumericEnv(env(PerKmRateKey), defaults.perKmRate, toNumber)
    ensures r.minimumFare == GetNumericEnv(env(MinFareKey), defaults.minimumFare, toNumber)
  {
    FareConfig(GetNumericEnv(env(BaseFareKey), defaults.baseFare, toNumber),
               GetNumericEnv(env(PerKmRateKey), defaults.perKmRate, toNumber),
               GetNumericEnv(env(MinFareKey), defaults.minimumFare, toNumber))
  }

  /** With no configuration at all the defaults are used. */
  lemma EmptyEnvGivesDefaults(env: string -> Option<string>, defaults: FareConfig, toNumber: string -> JsNumber)
    requires forall k :: env(k) == None
    ensures Configure(env, defaults, toNumber) == defaults
  {
  }

  /** `Math.max` on two finite numbers. */
  function Max(a: real, b: real): (r: real)
    ensures r >= a && r >= b
    ensures r == a || r == b
  {
    if a >= b then a else b
  }

  /** `calculateFare(distanceKm)`. */
  function CalculateFare(c: FareConfig, distanceKm: real): (r: Fare)
    ensures r.base == c.baseFare && r.perKmRate == c.perKmRate
    ensures r.distanceKm >= 0.0 && r.distanceKm >= distanceKm
    ensures r.distanceKm == distanceKm || r.distanceKm == 0.0
    ensures r.subtotal == c.baseFare + r.distanceKm * c.perKmRate
    ensures r.total >= c.minimumFare && r.total >= r.subtotal
    ensures r.total == r.subtotal || r.total == c.minimumFare
  {
    var normalizedDistance := Max(0.0, distanceKm);
    var subtotal := c.baseFare + normalizedDistance * c.perKmRate;
    var total := Max(subtotal, c.minimumFare);
    Fare(c.baseFare, normalizedDistance, c.perKmRate, subtotal, total)
  }

  /** Every distance at or below zero is charged as zero. */
  lemma NonPositiveDistanceIsZero(c: FareConfig, d: real)
    requires d <= 0.0
    ensures CalculateFare(c, d) == CalculateFare(c, 0.0)
  {
  }

  /** With a non-negative rate a longer distance never costs less. */
  lemma FareMonotone(c: FareConfig, d1: real, d2: real)
    requires c.perKmRate >= 0.0 && d1 <= d2
    ensures CalculateFare(c, d1).total <= CalculateFare(c, d2).total
  {
    SubtotalMonotone(c, d1, d2);
  }

  /** The subtotal grows with the distance when the rate is not negative. */
  lemma SubtotalMonotone(c: FareConfig, d1: real, d2: real)
    requires c.perKmRate >= 0.0 && d1 <= d2
    ensures CalculateFare(c, d1).subtotal <= CalculateFare(c, d2).subtotal
  {
    if d1 <= 0.0 {
      NonPositiveDistanceIsZero(c, d1);
      if d2 <= 0.0 {
        NonPositiveDistanceIsZero(c, d2);
      } else {
        PositiveSubtotalMonotone(c, 0.0, d2);
      }
    } else {
      PositiveSubtotalMonotone(c, d1, d2);
    }
  }

  lemma PositiveSubtotalMonotone(c: FareConfig, d1: real, d2: real)
    requires 0.0 <= d1 <= d2 && c.perKmRate >= 0.0
    ensures CalculateFare(c, d1).subtotal <= CalculateFare(c, d2).subtotal
  {
    var f1, f2 := CalculateFare(c, d1), CalculateFare(c, d2);
    assert f1.distanceKm == d1;
    assert f2.distanceKm == d2;
    ScaleMonotone(d1, d2, c.perKmRate);
    assert f1.subtotal == c.baseFare + d1 * c.perKmRate;
    assert f2.subtotal == c.baseFare + d2 * c.perKmRate;
  }

  lemma ScaleMonotone(x: real, y: real, k: real)
    requires x <= y && k >= 0.0
    ensures x * k <= y * k
  {
  }
}
