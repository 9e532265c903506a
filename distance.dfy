/**
 * Transport maths: travel time, fuel cost and the share of a crop lost in transit
 * (backend/tools/distance.py).
 */
module Distance {
  import opened Basics
  import opened Numeric
  import opened Text
  import opened Spoilage

  /** A point given by latitude and longitude in decimal degrees. */
  datatype Coord = Coord(lat: real, lng: real)

  /**
   * The great-circle distance in km (`haversine_distance`, rounded to one decimal). Its
   * trigonometry is not modelled: callers pass the function in, and all the model knows of it
   * is that it is never negative.
   */
  type DistanceFn = f: (Coord, Coord) -> real | forall a, b :: f(a, b) >= 0.0
    witness (a: Coord, b: Coord) => 0.0

  const DefaultSpeedKmh: real := 30.0
  const DefaultFuelRatePerKm: real := 8.0
  const UnknownCropTransitPct: real := 5.0
  const MaxTransitPct: real := 50.0

  /** Minutes needed to cover `distanceKm` at `avgSpeedKmh`, before rounding. */
  function TravelMinutes(distanceKm: real, avgSpeedKmh: real): (m: real)
    requires avgSpeedKmh != 0.0
    ensures m * avgSpeedKmh == distanceKm * 60.0
  {
    distanceKm / avgSpeedKmh * 60.0
  }

  /** `estimate_travel_time`: the minutes, rounded to one decimal (a zero speed makes Python raise). */
  function EstimateTravelTime(distanceKm: real, avgSpeedKmh: real): (m: real)
    requires avgSpeedKmh != 0.0
    ensures -0.05 < m - TravelMinutes(distanceKm, avgSpeedKmh) <= 0.05
  {
    RoundError(TravelMinutes(distanceKm, avgSpeedKmh), 1);
    RoundTo(TravelMinutes(distanceKm, avgSpeedKmh), 1)
  }

  /** 150 km at 30 km/h take 300 minutes. */
  lemma TravelTimeExample()
    ensures EstimateTravelTime(150.0, DefaultSpeedKmh) == 300.0
  {
    assert TravelMinutes(150.0, 30.0) == 300.0;
    RoundOfInt(300, 1);
  }

  /** The rupees of fuel for `distanceKm`, doubled for a round trip, before rounding. */
  function FuelCost(distanceKm: real, ratePerKm: real, roundTrip: bool): real {
    (if roundTrip then distanceKm * 2.0 else distanceKm) * ratePerKm
  }

  /** A round trip costs exactly twice the one-way trip, and cost is linear in the distance. */
  lemma FuelCostLinear(d1: real, d2: real, rate: real)
    ensures FuelCost(d1, rate, true) == 2.0 * FuelCost(d1, rate, false)
    ensures FuelCost(d1 + d2, rate, false) == FuelCost(d1, rate, false) + FuelCost(d2, rate, false)
    ensures FuelCost(d1, rate, false) == d1 * rate
  {
  }

  /** `estimate_fuel_cost`: the rupees, rounded to two decimals. */
  function EstimateFuelCost(distanceKm: real, ratePerKm: real, roundTrip: bool): (c: real)
    ensures -0.005 < c - FuelCost(distanceKm, ratePerKm, roundTrip) <= 0.005
    ensures distanceKm >= 0.0 && ratePerKm >= 0.0 ==> c >= 0.0
  {
    var exact := FuelCost(distanceKm, ratePerKm, roundTrip);
    RoundError(exact, 2);
    assert distanceKm >= 0.0 && ratePerKm >= 0.0 ==> RoundTo(exact, 2) >= 0.0 by {
      if distanceKm >= 0.0 && ratePerKm >= 0.0 {
        assert exact >= 0.0;
        RoundNonNegative(exact, 2);
      }
    }
    RoundTo(exact, 2)
  }

  /** 100 km at 8 rupees per km: 1600 rupees there and back, 800 one way. */
  lemma FuelCostExample()
    ensures EstimateFuelCost(100.0, DefaultFuelRatePerKm, true) == 1600.0
    ensures EstimateFuelCost(100.0, DefaultFuelRatePerKm, false) == 800.0
  {
    RoundOfInt(1600, 2);
    RoundOfInt(800, 2);
  }

  /** The open-floor shelf life the transit model reads, if the crop's row has it. */
  function OpenFloorHours(table: SpoilageTable, crop: string, tempC: real): Option<real> {
    Entry(table, Lower(crop), OpenFloor, TempBand(tempC))
  }

  /**
   * `calculate_transit_spoilage_pct`. The crop is looked up after lower-casing only (no strip);
   * an unknown crop, a missing entry or a zero entry (a ZeroDivisionError) gives the default 5.0.
   * Otherwise the percentage of open-floor shelf life used up by the trip at 30 km/h, rounded to
   * one decimal and capped at 50. Neither the storage method nor heat decay plays a part.
   */
  function CalculateTransitSpoilagePct(table: SpoilageTable, distanceKm: real, crop: string, tempC: real): (pct: real)
    ensures Lower(crop) !in table ==> pct == UnknownCropTransitPct
    ensures OpenFloorHours(table, crop, tempC).None? || OpenFloorHours(table, crop, tempC).value == 0.0 ==>
      pct == UnknownCropTransitPct
    ensures pct <= MaxTransitPct
    ensures OpenFloorHours(table, crop, tempC).Some? && OpenFloorHours(table, crop, tempC).value != 0.0 ==>
      pct == Min(RoundTo(distanceKm / DefaultSpeedKmh / OpenFloorHours(table, crop, tempC).value * 100.0, 1),
                 MaxTransitPct)
  {
    var hours := OpenFloorHours(table, crop, tempC);
    if hours.None? || hours.value == 0.0 then UnknownCropTransitPct
    else
      var transitHours := distanceKm / DefaultSpeedKmh;
      Min(RoundTo(transitHours / hours.value * 100.0, 1), MaxTransitPct)
  }

  /** With a positive shelf-life entry, a trip of non-negative length loses between 0 and 50 %. */
  lemma TransitPctBounds(table: SpoilageTable, distanceKm: real, crop: string, tempC: real)
    requires distanceKm >= 0.0
    requires OpenFloorHours(table, crop, tempC).None? || OpenFloorHours(table, crop, tempC).value > 0.0
    ensures 0.0 <= CalculateTransitSpoilagePct(table, distanceKm, crop, tempC) <= MaxTransitPct
  {
    var hours := OpenFloorHours(table, crop, tempC);
    if hours.Some? {
      var raw := distanceKm / DefaultSpeedKmh / hours.value * 100.0;
      assert raw >= 0.0 by {
        assert distanceKm / DefaultSpeedKmh >= 0.0;
        DivMonotone(0.0, distanceKm / DefaultSpeedKmh, hours.value);
      }
      RoundNonNegative(raw, 1);
    }
  }

  /** With a positive shelf-life entry, a longer trip never loses less. */
  lemma TransitPctMonotone(table: SpoilageTable, d1: real, d2: real, crop: string, tempC: real)
    requires d1 <= d2
    requires OpenFloorHours(table, crop, tempC).None? || OpenFloorHours(table, crop, tempC).value > 0.0
    ensures CalculateTransitSpoilagePct(table, d1, crop, tempC) <= CalculateTransitSpoilagePct(table, d2, crop, tempC)
  {
    var hours := OpenFloorHours(table, crop, tempC);
    if hours.Some? {
      var h := hours.value;
      DivMonotone(d1, d2, DefaultSpeedKmh);
      DivMonotone(d1 / DefaultSpeedKmh, d2 / DefaultSpeedKmh, h);
      RoundMonotone(d1 / DefaultSpeedKmh / h * 100.0, d2 / DefaultSpeedKmh / h * 100.0, 1);
    }
  }

  /** In the shipped data every known crop has a usable open-floor entry, so only an unknown
      crop falls back to 5.0. */
  lemma TransitUsesOpenFloorRow(table: SpoilageTable, distanceKm: real, crop: string, tempC: real)
    requires ValidTable(table) && Lower(crop) in table
    ensures OpenFloorHours(table, crop, tempC).Some? && OpenFloorHours(table, crop, tempC).value > 0.0
    ensures CalculateTransitSpoilagePct(table, distanceKm, crop, tempC)
         == Min(RoundTo(distanceKm / DefaultSpeedKmh / OpenFloorHours(table, crop, tempC).value * 100.0, 1),
                MaxTransitPct)
  {
    var hours, rate := ValidEntry(table, Lower(crop), OpenFloor, TempBand(tempC));
  }

  /** Up to 35 °C, for a crop name without surrounding spaces and a positive open-floor entry,
      the transit loss is the trip's share of the open-floor shelf life the spoilage model
      predicts. */
  lemma TransitMatchesSpoilageModel(table: SpoilageTable, distanceKm: real, crop: string, tempC: real)
    requires LowerStripped(crop) == Lower(crop) && tempC <= 35.0
    requires OpenFloorHours(table, crop, tempC).Some? && OpenFloorHours(table, crop, tempC).value > 0.0
    ensures PredictRemainingHours(table, crop, OpenFloor, tempC, 0.0).Success?
    ensures PredictRemainingHours(table, crop, OpenFloor, tempC, 0.0).value.totalSafeHours
         == OpenFloorHours(table, crop, tempC).value
    ensures CalculateTransitSpoilagePct(table, distanceKm, crop, tempC)
         == Min(RoundTo(distanceKm / DefaultSpeedKmh
                        / PredictRemainingHours(table, crop, OpenFloor, tempC, 0.0).value.totalSafeHours * 100.0, 1),
                MaxTransitPct)
  {
    var key := Lower(crop);
    var h := OpenFloorHours(table, crop, tempC).value;
    assert key in table && Entry(table, key, OpenFloor, TempBand(tempC)) == Some(h);
    assert EffectiveMethod(table[key], OpenFloor) == OpenFloor;
    var e := PredictRemainingHours(table, crop, OpenFloor, tempC, 0.0);
    assert e.Success? && e.value.totalSafeHours == h;
  }

  /** The transit lookup does not strip the crop name, the spoilage lookup does: " tomato" finds
      the "tomato" row when predicting shelf life but travels with the default 5 % loss. */
  lemma TransitDoesNotStrip(table: SpoilageTable, distanceKm: real, tempC: real)
    requires "tomato" in table && " tomato" !in table
    ensures CalculateTransitSpoilagePct(table, distanceKm, " tomato", tempC) == UnknownCropTransitPct
    ensures PredictRemainingHours(table, " tomato", OpenFloor, tempC, 0.0) != Failure(CropNotFound(" tomato"))
  {
    PaddedName();
  }

  lemma PaddedName()
    ensures Lower(" tomato") == " tomato" && LowerStripped(" tomato") == "tomato"
  {
    var s := " tomato";
    assert forall i :: 0 <= i < |s| ==> s[i] == ' ' || 'a' <= s[i] <= 'z';
    LowerUnchanged(s);
    StripPadded();
  }

  lemma StripPadded()
    ensures Strip(" tomato") == "tomato"
  {
    var s := " tomato";
    assert TrimStart(s) == s[1..];
    assert TrimEnd(s[1..]) == "tomato";
  }
}
