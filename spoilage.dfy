/**
 * The spoilage model: how many safe hours a harvested crop has left, given its storage method,
 * the temperature and the hours since harvest (backend/tools/spoilage.py).
 */
module Spoilage {
  import opened Basics
  import opened Text
  import Numeric

  /** The three temperature bands that index the shelf-life table. */
  datatype Band = Below25 | From25To35 | Above35

  /** Safe hours before spoilage, per temperature band, for one storage method. */
  type BandHours = map<Band, real>

  /** One crop's entry in spoilage_data.json. */
  datatype CropProfile = CropProfile(
    storageMethods: map<string, BandHours>,
    ratePerDegreeAbove35: Option<real>)

  /** spoilage_data.json, keyed by lower-case crop identifier. */
  type SpoilageTable = map<string, CropProfile>

  const OpenFloor: string := "open_floor"
  const DefaultRatePerDegree: real := 0.05
  const StorageMethodNames: set<string> := {"open_floor", "jute_bags", "plastic_crates", "cold_storage"}
  const AllBands: set<Band> := {Below25, From25To35, Above35}

  /** What the shipped data guarantees of every crop: four storage methods, three bands,
      positive hours and a positive decay rate. */
  ghost predicate ValidProfile(p: CropProfile) {
    && p.storageMethods.Keys == StorageMethodNames
    && (forall m :: m in p.storageMethods ==> p.storageMethods[m].Keys == AllBands)
    && (forall m, b :: m in p.storageMethods && b in p.storageMethods[m] ==> p.storageMethods[m][b] > 0.0)
    && p.ratePerDegreeAbove35.Some? && p.ratePerDegreeAbove35.value > 0.0
  }

  ghost predicate ValidTable(table: SpoilageTable) {
    forall c :: c in table ==> ValidProfile(table[c])
  }

  /** `_get_temp_band`: below 25 °C, 25 to 35 °C inclusive, above 35 °C. */
  function TempBand(tempC: real): (b: Band)
    ensures b == Below25 <==> tempC < 25.0
    ensures b == From25To35 <==> 25.0 <= tempC <= 35.0
    ensures b == Above35 <==> tempC > 35.0
  {
    if tempC < 25.0 then Below25
    else if tempC <= 35.0 then From25To35
    else Above35
  }

  /** The storage method actually used: the requested one if the crop lists it (exact,
      case-sensitive match), otherwise open floor. */
  function EffectiveMethod(profile: CropProfile, storageMethod: string): (m: string)
    ensures storageMethod in profile.storageMethods ==> m == storageMethod
    ensures storageMethod !in profile.storageMethods ==> m == OpenFloor
  {
    if storageMethod in profile.storageMethods then storageMethod else OpenFloor
  }

  /** Above 35 °C each degree removes `rate` of the table's hours, but never below one hour. */
  function HeatAdjustedHours(baseHours: real, rate: real, tempC: real): (h: real)
    ensures tempC <= 35.0 ==> h == baseHours
    ensures tempC > 35.0 ==> h >= 1.0 && h >= baseHours * (1.0 - rate * (tempC - 35.0))
    ensures tempC > 35.0 ==> h == 1.0 || h == baseHours * (1.0 - rate * (tempC - 35.0))
  {
    if tempC > 35.0 then Max(baseHours * (1.0 - rate * (tempC - 35.0)), 1.0) else baseHours
  }

  /** Hours left of the `total`, never negative. */
  function RemainingHours(total: real, elapsed: real): (r: real)
    ensures r >= 0.0 && r >= total - elapsed
    ensures r == 0.0 || r == total - elapsed
  {
    Max(0.0, total - elapsed)
  }

  /** The share of the safe period already used, as a percentage; 100 when there is none. */
  function SpoilagePct(total: real, remaining: real): real {
    if total > 0.0 then (total - remaining) / total * 100.0 else 100.0
  }

  /** Risk by remaining hours: above 48 low, above 12 medium, otherwise high. */
  function RiskOf(remainingHours: real): (r: Risk)
    ensures r == Low <==> remainingHours > 48.0
    ensures r == Medium <==> 12.0 < remainingHours <= 48.0
    ensures r == High <==> remainingHours <= 12.0
  {
    if remainingHours > 48.0 then Low
    else if remainingHours > 12.0 then Medium
    else High
  }

  /** The colour that goes with each risk level. */
  function ColorOf(risk: Risk): Color {
    match risk
    case Low => Green
    case Medium => Yellow
    case High => Red
  }

  /** The dictionary `predict_remaining_hours` returns on success. */
  datatype SpoilageEstimate = SpoilageEstimate(
    crop: string,
    storageMethod: string,
    tempC: real,
    tempBand: Band,
    totalSafeHours: real,
    hoursSinceHarvest: real,
    remainingHours: real,
    remainingDays: real,
    spoilagePct: real,
    risk: Risk,
    color: Color)

  /** The "Crop not found" dictionary, and the KeyError raised for a table without the entry. */
  datatype SpoilageError = CropNotFound(crop: string) | MissingEntry(storageMethod: string, band: Band)

  /**
   * The estimate for a table entry of `baseHours` safe hours, a decay rate of `rate` per degree
   * above 35 °C, and `elapsed` hours since harvest.
   */
  function Estimate(
    crop: string, storageMethod: string, tempC: real, baseHours: real, rate: real, elapsed: real
  ): (e: SpoilageEstimate)
    ensures e.crop == crop && e.storageMethod == storageMethod && e.hoursSinceHarvest == elapsed
    ensures e.tempC == tempC && e.tempBand == TempBand(tempC)
    // the total is the table entry up to 35 °C, heat-decayed with a one-hour floor above it
    ensures tempC <= 35.0 ==> e.totalSafeHours == baseHours
    ensures tempC > 35.0 ==> e.totalSafeHours == Max(baseHours * (1.0 - rate * (tempC - 35.0)), 1.0)
    ensures tempC > 35.0 ==> e.totalSafeHours >= 1.0
    ensures e.totalSafeHours == HeatAdjustedHours(baseHours, rate, tempC)
    // remaining hours are what is left of the total, never negative
    ensures e.remainingHours == Max(0.0, e.totalSafeHours - elapsed)
    ensures e.remainingHours >= 0.0
    ensures elapsed >= 0.0 && e.totalSafeHours >= 0.0 ==> e.remainingHours <= e.totalSafeHours
    ensures e.remainingDays * 24.0 == e.remainingHours
    // the percentage lies in [0, 100] and is 100 once the safe period is used up
    ensures elapsed >= 0.0 && e.totalSafeHours > 0.0 ==> 0.0 <= e.spoilagePct <= 100.0
    ensures elapsed >= e.totalSafeHours ==> e.spoilagePct == 100.0
    // risk is decided on the exact remaining hours, and the colour follows the risk
    ensures e.risk == RiskOf(e.remainingHours) && e.color == ColorOf(e.risk)
  {
    var total := HeatAdjustedHours(baseHours, rate, tempC);
    var remaining := RemainingHours(total, elapsed);
    var pct := SpoilagePct(total, remaining);
    assert total > 0.0 && elapsed >= 0.0 ==> 0.0 <= pct <= 100.0 by {
      if total > 0.0 && elapsed >= 0.0 {
        PercentOfWhole(total - remaining, total);
      }
    }
    assert elapsed >= total ==> pct == 100.0 by {
      if elapsed >= total && total > 0.0 {
        assert remaining == 0.0;
        Numeric.DivSelf(total);
      }
    }
    var risk := RiskOf(remaining);
    SpoilageEstimate(crop, storageMethod, tempC, TempBand(tempC), total, elapsed,
                     remaining, remaining / 24.0, pct, risk, ColorOf(risk))
  }

  /** The table entry for a crop, storage method and band, if the table has one. */
  function Entry(table: SpoilageTable, key: string, storageMethod: string, band: Band): Option<real> {
    if key in table && storageMethod in table[key].storageMethods
       && band in table[key].storageMethods[storageMethod]
    then Some(table[key].storageMethods[storageMethod][band])
    else None
  }

  /** `predict_remaining_hours`. */
  function PredictRemainingHours(
    table: SpoilageTable, crop: string, storageMethod: string, tempC: real, hoursSinceHarvest: real
  ): (r: Result<SpoilageEstimate, SpoilageError>)
    // an unknown crop, after lower-casing and stripping, is the only returned error
    ensures LowerStripped(crop) !in table <==> r == Failure(CropNotFound(crop))
    ensures ValidTable(table) && LowerStripped(crop) in table ==> r.Success?
    // otherwise the estimate is computed from the entry of the effective storage method
    ensures r.Success? ==>
      var p := table[LowerStripped(crop)];
      var used := EffectiveMethod(p, storageMethod);
      var base := Entry(table, LowerStripped(crop), used, TempBand(tempC));
      && base.Some?
      && r.value == Estimate(crop, used, tempC, base.value,
                             p.ratePerDegreeAbove35.GetOr(DefaultRatePerDegree), hoursSinceHarvest)
  {
    var key := LowerStripped(crop);
    if key !in table then Failure(CropNotFound(crop))
    else
      var profile := table[key];
      var used := EffectiveMethod(profile, storageMethod);
      var band := TempBand(tempC);
      var base := Entry(table, key, used, band);
      if base.None? then Failure(MissingEntry(used, band))
      else
        var rate := profile.ratePerDegreeAbove35.GetOr(DefaultRatePerDegree);
        Success(Estimate(crop, used, tempC, base.value, rate, hoursSinceHarvest))
  }

  lemma PercentOfWhole(part: real, whole: real)
    requires whole > 0.0 && 0.0 <= part <= whole
    ensures 0.0 <= part / whole * 100.0 <= 100.0
  {
    var q := part / whole;
    assert q * whole == part;
  }

  /** More hours since harvest never leave more hours remaining. */
  lemma ElapsedMonotone(
    table: SpoilageTable, crop: string, storageMethod: string, tempC: real, h1: real, h2: real)
    requires h1 <= h2
    ensures PredictRemainingHours(table, crop, storageMethod, tempC, h1).Success?
        <==> PredictRemainingHours(table, crop, storageMethod, tempC, h2).Success?
    ensures PredictRemainingHours(table, crop, storageMethod, tempC, h1).Success? ==>
      PredictRemainingHours(table, crop, storageMethod, tempC, h2).value.remainingHours
        <= PredictRemainingHours(table, crop, storageMethod, tempC, h1).value.remainingHours
  {
  }

  /** Above 35 °C, with a non-negative decay rate and non-negative table hours, a hotter day
      never gives more safe hours or more remaining hours. */
  lemma HeatMonotone(
    crop: string, storageMethod: string, t1: real, t2: real, base: real, rate: real, elapsed: real)
    requires 35.0 < t1 <= t2 && base >= 0.0 && rate >= 0.0
    ensures Estimate(crop, storageMethod, t2, base, rate, elapsed).totalSafeHours
         <= Estimate(crop, storageMethod, t1, base, rate, elapsed).totalSafeHours
    ensures Estimate(crop, storageMethod, t2, base, rate, elapsed).remainingHours
         <= Estimate(crop, storageMethod, t1, base, rate, elapsed).remainingHours
  {
    HeatDecayMonotone(base, rate, t1, t2);
  }

  /** Above 35 °C the heat-adjusted hours never grow with the temperature. */
  lemma HeatDecayMonotone(base: real, rate: real, t1: real, t2: real)
    requires 35.0 < t1 <= t2 && base >= 0.0 && rate >= 0.0
    ensures HeatAdjustedHours(base, rate, t2) <= HeatAdjustedHours(base, rate, t1)
  {
    var a1, a2 := base * (1.0 - rate * (t1 - 35.0)), base * (1.0 - rate * (t2 - 35.0));
    DecayMonotone(base, rate, t1 - 35.0, t2 - 35.0);
    FloorOneMonotone(a2, a1);
    assert HeatAdjustedHours(base, rate, t1) == Max(a1, 1.0);
    assert HeatAdjustedHours(base, rate, t2) == Max(a2, 1.0);
  }

  /** More safe hours in the table never give fewer heat-adjusted hours. */
  lemma HeatAdjustedMonotoneInBase(hw: real, hb: real, rate: real, tempC: real)
    requires 0.0 <= hw <= hb
    ensures HeatAdjustedHours(hw, rate, tempC) <= HeatAdjustedHours(hb, rate, tempC)
  {
    if tempC > 35.0 {
      ScaledFloorMonotone(hw, hb, 1.0 - rate * (tempC - 35.0));
    }
  }

  /** Scaling two non-negative amounts by the same factor, with a floor of one, keeps their order. */
  lemma ScaledFloorMonotone(hw: real, hb: real, f: real)
    requires 0.0 <= hw <= hb
    ensures Max(hw * f, 1.0) <= Max(hb * f, 1.0)
  {
    if f >= 0.0 {
      Numeric.MulNonNegMonotone(hw, hb, f);
      FloorOneMonotone(hw * f, hb * f);
    } else {
      Numeric.MulNonNegMonotone(f, 0.0, hw);
      Numeric.MulNonNegMonotone(f, 0.0, hb);
    }
  }

  lemma FloorOneMonotone(a: real, b: real)
    requires a <= b
    ensures Max(a, 1.0) <= Max(b, 1.0)
  {
  }

  /** The same for whole predictions over the shipped data. */
  lemma HotterNeverLonger(
    table: SpoilageTable, crop: string, storageMethod: string, t1: real, t2: real, elapsed: real)
    requires ValidTable(table) && LowerStripped(crop) in table
    requires 35.0 < t1 <= t2
    ensures
      var r1 := PredictRemainingHours(table, crop, storageMethod, t1, elapsed);
      var r2 := PredictRemainingHours(table, crop, storageMethod, t2, elapsed);
      && r1.Success? && r2.Success?
      && r2.value.totalSafeHours <= r1.value.totalSafeHours
      && r2.value.remainingHours <= r1.value.remainingHours
  {
    var key := LowerStripped(crop);
    var m := EffectiveMethod(table[key], storageMethod);
    var base, rate := ValidEntry(table, key, m, Above35);
    assert TempBand(t1) == Above35 && TempBand(t2) == Above35;
    HeatMonotone(crop, m, t1, t2, base, rate, elapsed);
  }

  /** In valid data every crop has a positive entry for each storage method and band. */
  lemma ValidEntry(table: SpoilageTable, key: string, storageMethod: string, band: Band)
    returns (hours: real, rate: real)
    requires ValidTable(table) && key in table
    requires storageMethod in StorageMethodNames
    ensures Entry(table, key, storageMethod, band) == Some(hours) && hours > 0.0
    ensures rate == table[key].ratePerDegreeAbove35.GetOr(DefaultRatePerDegree) && rate > 0.0
  {
    var p := table[key];
    assert ValidProfile(p);
    assert band in AllBands;
    hours := p.storageMethods[storageMethod][band];
    rate := p.ratePerDegreeAbove35.value;
  }

  lemma DecayMonotone(base: real, rate: real, d1: real, d2: real)
    requires base >= 0.0 && rate >= 0.0 && d1 <= d2
    ensures base * (1.0 - rate * d2) <= base * (1.0 - rate * d1)
  {
    Numeric.MulNonNegMonotone(d1, d2, rate);
    Numeric.MulNonNegMonotone(1.0 - rate * d2, 1.0 - rate * d1, base);
  }

  /** A storage method whose table entry is at least another's never leaves fewer hours, at the
      same temperature and elapsed time. */
  lemma StorageOrder(
    table: SpoilageTable, crop: string, better: string, worse: string, tempC: real, elapsed: real)
    requires LowerStripped(crop) in table
    requires better in table[LowerStripped(crop)].storageMethods && worse in table[LowerStripped(crop)].storageMethods
    requires TempBand(tempC) in table[LowerStripped(crop)].storageMethods[better]
    requires TempBand(tempC) in table[LowerStripped(crop)].storageMethods[worse]
    requires 0.0 <= table[LowerStripped(crop)].storageMethods[worse][TempBand(tempC)]
                 <= table[LowerStripped(crop)].storageMethods[better][TempBand(tempC)]
    ensures PredictRemainingHours(table, crop, better, tempC, elapsed).Success?
    ensures PredictRemainingHours(table, crop, worse, tempC, elapsed).Success?
    ensures PredictRemainingHours(table, crop, worse, tempC, elapsed).value.remainingHours
         <= PredictRemainingHours(table, crop, better, tempC, elapsed).value.remainingHours
  {
    var p := table[LowerStripped(crop)];
    var b := TempBand(tempC);
    var rate := p.ratePerDegreeAbove35.GetOr(DefaultRatePerDegree);
    HeatAdjustedMonotoneInBase(p.storageMethods[worse][b], p.storageMethods[better][b], rate, tempC);
  }
}
