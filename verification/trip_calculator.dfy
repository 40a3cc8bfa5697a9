/**
  The trip cost calculator of `src/components/TripCalculator.tsx`: the nightly
  price table and the arithmetic of `calculateTrip`.

  Numbers are exact reals. A JavaScript number that is not finite (`NaN` from an
  accommodation type missing from the table, `Infinity` or `NaN` from a zero fuel
  efficiency) is `None`; `toFixed` formatting is not modelled.
 */
module TripCalculator {
  import opened Wrappers

  /** The form state `tripData`. */
  datatype TripData = TripData(
    distance: real,
    fuelEfficiency: real,
    fuelPrice: real,
    accommodationType: string,
    accommodationNights: real,
    tollCharges: real,
    vehicleType: string)

  /** The figures `calculateTrip` stores in `results`, before formatting. */
  datatype TripResult = TripResult(
    fuelCost: Option<real>,
    accommodationCost: Option<real>,
    tollCharges: real,
    totalCost: Option<real>,
    carbonFootprint: real)

  /** The form's initial state. */
  const InitialTrip: TripData :=
    TripData(0.0, 25.0, 3.5, "hotel", 2.0, 0.0, "gasoline")

  /** `accommodationPrices[type]`; None is `undefined`. */
  function NightlyPrice(accommodationType: string): Option<real> {
    match accommodationType
    case "budget" => Some(60.0)
    case "hotel" => Some(120.0)
    case "luxury" => Some(250.0)
    case "camping" => Some(25.0)
    case _ => None
  }

  /** The four values the accommodation select offers all have a price. */
  lemma SelectableTypesPriced()
    ensures NightlyPrice("budget") == Some(60.0)
    ensures NightlyPrice("hotel") == Some(120.0)
    ensures NightlyPrice("luxury") == Some(250.0)
    ensures NightlyPrice("camping") == Some(25.0)
  {
  }

  /** `(distance / fuelEfficiency) * fuelPrice`, not finite when the efficiency is 0. */
  function FuelCost(t: TripData): (r: Option<real>)
    ensures r.Some? <==> t.fuelEfficiency != 0.0
    ensures r.Some? ==> r.value * t.fuelEfficiency == t.distance * t.fuelPrice
  {
    if t.fuelEfficiency == 0.0 then None
    else Some((t.distance / t.fuelEfficiency) * t.fuelPrice)
  }

  /** The nightly price times the number of nights; `NaN` for an unknown type. */
  function AccommodationCost(t: TripData): (r: Option<real>)
    ensures r.Some? <==> NightlyPrice(t.accommodationType).Some?
    ensures r.Some? ==> r.value == NightlyPrice(t.accommodationType).value * t.accommodationNights
  {
    match NightlyPrice(t.accommodationType)
    case None => None
    case Some(p) => Some(p * t.accommodationNights)
  }

  /** Carbon footprint: 0.1 per unit of distance for "electric", 0.4 for every other
      vehicle type, "hybrid" included. */
  function CarbonFootprint(t: TripData): real {
    if t.vehicleType == "electric" then t.distance * 0.1 else t.distance * 0.4
  }

  /** "hybrid" is charged like "gasoline", and "electric" emits a quarter of either. */
  lemma CarbonByVehicle(t: TripData)
    ensures CarbonFootprint(t.(vehicleType := "hybrid")) == CarbonFootprint(t.(vehicleType := "gasoline"))
    ensures 4.0 * CarbonFootprint(t.(vehicleType := "electric")) == CarbonFootprint(t.(vehicleType := "gasoline"))
  {
  }

  /** `calculateTrip`. */
  function CalculateTrip(t: TripData): (r: TripResult)
    ensures r.fuelCost == FuelCost(t)
    ensures r.accommodationCost == AccommodationCost(t)
    ensures r.tollCharges == t.tollCharges
    // the total is finite exactly when both costs are, and then is their sum plus tolls
    ensures r.totalCost.Some? <==> r.fuelCost.Some? && r.accommodationCost.Some?
    ensures r.totalCost.Some? ==>
              r.totalCost.value == r.fuelCost.value + r.accommodationCost.value + t.tollCharges
    ensures r.carbonFootprint == (if t.vehicleType == "electric" then 0.1 else 0.4) * t.distance
  {
    var fuel := FuelCost(t);
    var accommodation := AccommodationCost(t);
    var total :=
      if fuel.Some? && accommodation.Some? then Some(fuel.value + accommodation.value + t.tollCharges)
      else None;
    TripResult(fuel, accommodation, t.tollCharges, total, CarbonFootprint(t))
  }

  /** Inputs a user would normally enter: nothing negative, a positive efficiency
      and an accommodation type from the select. */
  predicate Ordinary(t: TripData) {
    && 0.0 <= t.distance
    && 0.0 < t.fuelEfficiency
    && 0.0 <= t.fuelPrice
    && NightlyPrice(t.accommodationType).Some?
    && 0.0 <= t.accommodationNights
    && 0.0 <= t.tollCharges
  }

  /** For ordinary inputs every figure is finite and the total is at least each part. */
  lemma TotalBoundsComponents(t: TripData)
    requires Ordinary(t)
    ensures var r := CalculateTrip(t);
      && r.fuelCost.Some? && r.accommodationCost.Some? && r.totalCost.Some?
      && 0.0 <= r.fuelCost.value <= r.totalCost.value
      && 0.0 <= r.accommodationCost.value <= r.totalCost.value
      && r.tollCharges <= r.totalCost.value
  {
    var p := NightlyPrice(t.accommodationType).value;
    assert 0.0 <= p;
    assert 0.0 <= p * t.accommodationNights;
    assert 0.0 <= t.distance / t.fuelEfficiency;
    assert 0.0 <= (t.distance / t.fuelEfficiency) * t.fuelPrice;
  }

  /** A longer trip, more nights or higher tolls never lower the total. */
  lemma TotalMonotone(t: TripData, u: TripData)
    requires Ordinary(t) && Ordinary(u)
    requires u.fuelEfficiency == t.fuelEfficiency && u.fuelPrice == t.fuelPrice
    requires u.accommodationType == t.accommodationType
    requires t.distance <= u.distance
    requires t.accommodationNights <= u.accommodationNights
    requires t.tollCharges <= u.tollCharges
    ensures CalculateTrip(t).totalCost.value <= CalculateTrip(u).totalCost.value
  {
    var e, f := t.fuelEfficiency, t.fuelPrice;
    var p := NightlyPrice(t.accommodationType).value;
    var fuelT, fuelU := (t.distance / e) * f, (u.distance / e) * f;
    var roomT, roomU := p * t.accommodationNights, p * u.accommodationNights;
    assert fuelT <= fuelU by {
      DivideMonotone(t.distance, u.distance, e);
      ScaleMonotone(t.distance / e, u.distance / e, f);
    }
    assert roomT <= roomU by {
      ScaleMonotone(t.accommodationNights, u.accommodationNights, p);
    }
    assert CalculateTrip(t).totalCost.value == fuelT + roomT + t.tollCharges;
    assert CalculateTrip(u).totalCost.value == fuelU + roomU + u.tollCharges;
  }

  lemma DivideMonotone(x: real, y: real, e: real)
    requires x <= y && 0.0 < e
    ensures x / e <= y / e
  {
    assert y / e - x / e == (y - x) / e;
  }

  lemma ScaleMonotone(x: real, y: real, k: real)
    requires x <= y && 0.0 <= k
    ensures x * k <= y * k
  {
    assert (y - x) * k >= 0.0;
  }

  /** The initial form computes a zero fuel cost, two standard-hotel nights (240)
      and no emissions. */
  lemma InitialTripResult()
    ensures CalculateTrip(InitialTrip) ==
      TripResult(Some(0.0), Some(240.0), 0.0, Some(240.0), 0.0)
  {
  }
}
