/**
 * The cash a farmer takes home from one mandi once fuel and the crop lost in transit are paid
 * for (`calculate_pocket_cash`, backend/agents/market_agent.py).
 */
module Market {
  import opened Basics
  import Numeric
  import opened Spoilage
  import opened Distance

  /** The transit risk: under 5 % low, under 15 % medium, otherwise high. */
  function TransitRisk(spoilagePct: real): (r: Risk)
    ensures r == Low <==> spoilagePct < 5.0
    ensures r == Medium <==> 5.0 <= spoilagePct < 15.0
    ensures r == High <==> spoilagePct >= 15.0
  {
    if spoilagePct < 5.0 then Low else if spoilagePct < 15.0 then Medium else High
  }

  /** The dictionary `calculate_pocket_cash` returns. */
  datatype MarketEvaluation = MarketEvaluation(
    mandiName: string,
    distanceKm: real,
    pricePerKg: real,
    fuelCost: real,
    spoilagePct: real,
    spoilageLossRupees: real,
    effectiveVolumeKg: real,
    grossRevenue: real,
    pocketCash: real,
    risk: Risk)

  /** The kilograms that arrive when `spoilagePct` percent of `volumeKg` is lost on the way. */
  function EffectiveVolume(volumeKg: real, spoilagePct: real): (v: real)
    ensures volumeKg >= 0.0 && 0.0 <= spoilagePct <= MaxTransitPct ==> volumeKg / 2.0 <= v <= volumeKg
    ensures volumeKg >= 0.0 && spoilagePct == 0.0 ==> v == volumeKg
  {
    var f := 1.0 - spoilagePct / 100.0;
    assert volumeKg >= 0.0 && 0.0 <= spoilagePct <= MaxTransitPct ==> volumeKg / 2.0 <= volumeKg * f <= volumeKg by {
      if volumeKg >= 0.0 && 0.0 <= spoilagePct <= MaxTransitPct {
        ScaledWithin(volumeKg, f);
      }
    }
    volumeKg * f
  }

  /** Scaling by a factor between one half and one. */
  lemma ScaledWithin(v: real, f: real)
    requires v >= 0.0 && 0.5 <= f <= 1.0
    ensures v / 2.0 <= v * f <= v
  {
    Numeric.MulNonNegMonotone(0.5, f, v);
    Numeric.MulNonNegMonotone(f, 1.0, v);
  }

  /** Shorter name for the condition under which transit loss lies in [0, 50]: the crop's
      open-floor entry, if any, is positive. */
  predicate UsableOpenFloor(table: SpoilageTable, crop: string, tempC: real) {
    OpenFloorHours(table, crop, tempC).None? || OpenFloorHours(table, crop, tempC).value > 0.0
  }

  /**
   * The evaluation of a mandi `distanceKm` away: round-trip fuel at ₹8 per km, the open-floor
   * transit loss of the crop over that distance, and what the remaining load fetches.
   */
  function EvaluateAt(
    table: SpoilageTable, crop: string, volumeKg: real, mandiName: string, distanceKm: real,
    pricePerKg: real, tempC: real
  ): (e: MarketEvaluation)
    ensures e.mandiName == mandiName && e.pricePerKg == pricePerKg && e.distanceKm == distanceKm
    // fuel for the round trip at ₹8 per km, to the paisa
    ensures -0.005 < e.fuelCost - 2.0 * distanceKm * DefaultFuelRatePerKm <= 0.005
    ensures distanceKm >= 0.0 ==> e.fuelCost >= 0.0
    ensures e.spoilagePct == CalculateTransitSpoilagePct(table, distanceKm, crop, tempC)
    ensures e.spoilagePct <= MaxTransitPct
    ensures UsableOpenFloor(table, crop, tempC) && distanceKm >= 0.0 ==> 0.0 <= e.spoilagePct
    // what arrives is between half and all of what was loaded
    ensures e.effectiveVolumeKg == EffectiveVolume(volumeKg, e.spoilagePct)
    ensures UsableOpenFloor(table, crop, tempC) && distanceKm >= 0.0 && volumeKg >= 0.0 ==>
      volumeKg / 2.0 <= e.effectiveVolumeKg <= volumeKg
    ensures e.grossRevenue == Revenue(volumeKg, pricePerKg, e.spoilagePct)
    ensures e.spoilageLossRupees == LossValue(volumeKg, pricePerKg, e.spoilagePct)
    ensures e.fuelCost == EstimateFuelCost(distanceKm, DefaultFuelRatePerKm, true)
    ensures e.pocketCash == e.grossRevenue - e.fuelCost
    ensures e.risk == TransitRisk(e.spoilagePct)
  {
    var fuel := EstimateFuelCost(distanceKm, DefaultFuelRatePerKm, true);
    var pct := CalculateTransitSpoilagePct(table, distanceKm, crop, tempC);
    assert UsableOpenFloor(table, crop, tempC) && distanceKm >= 0.0 ==> 0.0 <= pct by {
      if UsableOpenFloor(table, crop, tempC) && distanceKm >= 0.0 {
        TransitPctBounds(table, distanceKm, crop, tempC);
      }
    }
    var gross := Revenue(volumeKg, pricePerKg, pct);
    MarketEvaluation(mandiName, distanceKm, pricePerKg, fuel, pct, LossValue(volumeKg, pricePerKg, pct),
                     EffectiveVolume(volumeKg, pct), gross, gross - fuel, TransitRisk(pct))
  }

  /** What the load that arrives fetches. */
  function Revenue(volumeKg: real, pricePerKg: real, spoilagePct: real): real {
    EffectiveVolume(volumeKg, spoilagePct) * pricePerKg
  }

  /** What the load lost on the way would have fetched. */
  function LossValue(volumeKg: real, pricePerKg: real, spoilagePct: real): real {
    (volumeKg - EffectiveVolume(volumeKg, spoilagePct)) * pricePerKg
  }

  /**
   * The evaluation's accounts balance: revenue and loss split the value of the whole load, the
   * loss is never negative for a usable crop entry, and the pocket cash is the value of the load
   * less the loss and the fuel, so the loss is charged once.
   */
  lemma EvaluationBalances(
    table: SpoilageTable, crop: string, volumeKg: real, mandiName: string, distanceKm: real,
    pricePerKg: real, tempC: real)
    ensures var e := EvaluateAt(table, crop, volumeKg, mandiName, distanceKm, pricePerKg, tempC);
      && e.grossRevenue + e.spoilageLossRupees == volumeKg * pricePerKg
      && e.pocketCash == volumeKg * pricePerKg - e.spoilageLossRupees - e.fuelCost
      && e.pocketCash == CashLeft(volumeKg, pricePerKg, e.spoilagePct, e.fuelCost)
      && (UsableOpenFloor(table, crop, tempC) && distanceKm >= 0.0 && volumeKg >= 0.0 && pricePerKg >= 0.0 ==>
            e.spoilageLossRupees >= 0.0)
  {
    var e := EvaluateAt(table, crop, volumeKg, mandiName, distanceKm, pricePerKg, tempC);
    LossSplit(volumeKg, e.effectiveVolumeKg, pricePerKg);
  }

  /**
   * `calculate_pocket_cash`: the evaluation at the distance `dist` reports between the farmer
   * and the mandi. The storage method the farmer names plays no part.
   */
  function CalculatePocketCash(
    table: SpoilageTable, dist: DistanceFn, crop: string, volumeKg: real,
    farmer: Coord, mandiName: string, mandi: Coord, pricePerKg: real, tempC: real, storageMethod: string
  ): (e: MarketEvaluation)
    ensures e == EvaluateAt(table, crop, volumeKg, mandiName, dist(farmer, mandi), pricePerKg, tempC)
    ensures e.distanceKm >= 0.0
  {
    EvaluateAt(table, crop, volumeKg, mandiName, dist(farmer, mandi), pricePerKg, tempC)
  }

  lemma LossSplit(volume: real, effective: real, price: real)
    ensures effective * price + (volume - effective) * price == volume * price
    ensures effective <= volume && price >= 0.0 ==> (volume - effective) * price >= 0.0
  {
  }

  /** More transit loss never leaves more kilograms. */
  lemma EffectiveVolumeAntitone(volumeKg: real, p1: real, p2: real)
    requires volumeKg >= 0.0 && p1 <= p2
    ensures EffectiveVolume(volumeKg, p2) <= EffectiveVolume(volumeKg, p1)
  {
    var f1, f2 := 1.0 - p1 / 100.0, 1.0 - p2 / 100.0;
    assert EffectiveVolume(volumeKg, p1) == volumeKg * f1;
    assert EffectiveVolume(volumeKg, p2) == volumeKg * f2;
    Numeric.MulNonNegMonotone(f2, f1, volumeKg);
  }

  /** Cash left from a load of `volumeKg` at `pricePerKg` after losing `spoilagePct` percent on
      the way and paying `fuel`. */
  function CashLeft(volumeKg: real, pricePerKg: real, spoilagePct: real, fuel: real): real {
    Revenue(volumeKg, pricePerKg, spoilagePct) - fuel
  }

  lemma CashLeftOrder(volumeKg: real, pricePerKg: real, p1: real, p2: real, fuel1: real, fuel2: real)
    requires volumeKg >= 0.0 && pricePerKg >= 0.0 && p1 <= p2 && fuel2 >= fuel1 - 0.01
    ensures CashLeft(volumeKg, pricePerKg, p2, fuel2) <= CashLeft(volumeKg, pricePerKg, p1, fuel1) + 0.01
  {
    var v1, v2 := EffectiveVolume(volumeKg, p1), EffectiveVolume(volumeKg, p2);
    EffectiveVolumeAntitone(volumeKg, p1, p2);
    Numeric.MulNonNegMonotone(v2, v1, pricePerKg);
    var g1, g2 := v1 * pricePerKg, v2 * pricePerKg;
    assert g2 <= g1;
    assert CashLeft(volumeKg, pricePerKg, p2, fuel2) == g2 - fuel2;
    assert CashLeft(volumeKg, pricePerKg, p1, fuel1) == g1 - fuel1;
  }

  /** A farther mandi with the same price never leaves more pocket cash (up to a paisa of fuel
      rounding), because both the fuel and the transit loss grow with distance. */
  lemma FartherNeverPaysMore(
    table: SpoilageTable, crop: string, volumeKg: real, pricePerKg: real, tempC: real, d1: real, d2: real)
    requires 0.0 <= d1 <= d2
    requires UsableOpenFloor(table, crop, tempC) && volumeKg >= 0.0 && pricePerKg >= 0.0
    ensures EvaluateAt(table, crop, volumeKg, "far", d2, pricePerKg, tempC).pocketCash
         <= EvaluateAt(table, crop, volumeKg, "near", d1, pricePerKg, tempC).pocketCash + 0.01
  {
    var p1, p2 := CalculateTransitSpoilagePct(table, d1, crop, tempC), CalculateTransitSpoilagePct(table, d2, crop, tempC);
    var f1, f2 := EstimateFuelCost(d1, DefaultFuelRatePerKm, true), EstimateFuelCost(d2, DefaultFuelRatePerKm, true);
    TransitPctMonotone(table, d1, d2, crop, tempC);
    CashLeftOrder(volumeKg, pricePerKg, p1, p2, f1, f2);
  }
}
