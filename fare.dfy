/**
 * The fare estimate of the request route (backend/routes/rides.js:12-16):
 * a base fare plus a per-kilometre rate, both looked up by vehicle type,
 * rounded with JavaScript's Math.round. A missing or unknown vehicle type is
 * priced as a bike. Distance is a real number of kilometres.
 */
module Fare {
  import opened Wrappers
  import opened RideSchema

  function BaseFare(v: VehicleType): int {
    match v
    case Bike => 20
    case Auto => 30
    case Car => 50
  }

  function RatePerKm(v: VehicleType): int {
    match v
    case Bike => 10
    case Auto => 15
    case Car => 25
  }

  /** Math.round: the nearest integer, with halves rounded up (floor(x + 1/2)). */
  function RoundHalfUp(x: real): (r: int)
    ensures r as real - 0.5 <= x < r as real + 0.5
  {
    (x + 0.5).Floor
  }

  /** The tier whose rates apply: `rates[vehicleType] || rates.bike`. Every
      table entry is non-zero, so the fallback fires exactly when the lookup
      misses. Both lookups use the same key, so they fall back together. */
  function PricingTier(vehicleType: Option<string>): VehicleType {
    if vehicleType.Some? && ParseVehicle(vehicleType.value).Some? then ParseVehicle(vehicleType.value).value
    else Bike
  }

  /** The fare of a ride of a known type. */
  function Quote(v: VehicleType, distance: real): int {
    RoundHalfUp(BaseFare(v) as real + RatePerKm(v) as real * distance)
  }

  /** `estimatedFare` for the type string the client sent, if any. */
  function Estimate(vehicleType: Option<string>, distance: real): int {
    Quote(PricingTier(vehicleType), distance)
  }

  /** The three tables, written out: bike 20 + 10/km, auto 30 + 15/km, car 50 + 25/km. */
  lemma QuoteTable(distance: real)
    ensures Quote(Bike, distance) == (20.0 + 10.0 * distance + 0.5).Floor
    ensures Quote(Auto, distance) == (30.0 + 15.0 * distance + 0.5).Floor
    ensures Quote(Car, distance) == (50.0 + 25.0 * distance + 0.5).Floor
  {
  }

  /** An auto ride of 5 km costs 30 + 15 * 5 = 105. */
  lemma AutoFiveKm()
    ensures Estimate(Some("auto"), 5.0) == 105
  {
  }

  /** A missing type, or any string outside the three names, is priced at bike rates. */
  lemma FallbackToBike(vehicleType: Option<string>, distance: real)
    requires vehicleType.None? || ParseVehicle(vehicleType.value).None?
    ensures Estimate(vehicleType, distance) == Quote(Bike, distance)
    ensures Estimate(vehicleType, distance) == Estimate(Some("bike"), distance)
  {
  }

  /** A listed type is priced at its own rates. */
  lemma KnownTypePricedAsItself(v: VehicleType, distance: real)
    ensures Estimate(Some(VehicleName(v)), distance) == Quote(v, distance)
  {
    VehicleNameRoundTrip(v);
  }

  /** At zero distance the fare is the base fare. */
  lemma ZeroDistanceIsBase(v: VehicleType)
    ensures Quote(v, 0.0) == BaseFare(v)
  {
  }

  lemma {:induction false} RoundHalfUpMonotone(x: real, y: real)
    requires x <= y
    ensures RoundHalfUp(x) <= RoundHalfUp(y)
  {
    var a, b := RoundHalfUp(x), RoundHalfUp(y);
    assert a as real - 0.5 <= x <= y < b as real + 0.5;
  }

  /** The fare never decreases as the distance grows. */
  lemma {:induction false} QuoteMonotone(v: VehicleType, d1: real, d2: real)
    requires d1 <= d2
    ensures Quote(v, d1) <= Quote(v, d2)
  {
    var rate := RatePerKm(v) as real;
    assert rate > 0.0;
    assert rate * d1 <= rate * d2;
    RoundHalfUpMonotone(BaseFare(v) as real + rate * d1, BaseFare(v) as real + rate * d2);
  }
}
