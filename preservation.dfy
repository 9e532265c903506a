/**
 * Preservation methods for a crop, ranked by return on investment, and the benefit of switching
 * from the current storage to one of them (backend/tools/preservation.py).
 */
module Preservation {
  import opened Basics
  import opened Numeric
  import opened Text
  import opened Sorting
  import opened Spoilage

  /** One entry of preservation_methods.json; a field the entry lacks is `None`. */
  datatype PreservationMethod = PreservationMethod(
    id: Option<string>,
    name: string,
    costRupees: Option<real>,
    savesRupees: Option<real>,
    extraDays: Option<int>)

  /** preservation_methods.json: the methods of each crop, keyed by lower-case crop identifier. */
  type PreservationTable = map<string, seq<PreservationMethod>>

  /** A copy of a method entry with its `roi` added. */
  datatype PreservationOption = PreservationOption(entry: PreservationMethod, roi: real)

  /** The ROI reported for a method that costs nothing. */
  const FreeRoi: real := 9999.0

  function IdOf(m: PreservationMethod): string { m.id.GetOr("") }
  function CostOf(m: PreservationMethod): real { m.costRupees.GetOr(0.0) }
  function SavesOf(m: PreservationMethod): real { m.savesRupees.GetOr(0.0) }
  function ExtraDaysOf(m: PreservationMethod): int { m.extraDays.GetOr(0) }

  /** The method's id equals `name`, ignoring case. */
  predicate SameId(m: PreservationMethod, name: string) {
    Lower(IdOf(m)) == Lower(name)
  }

  /**
   * The ROI rule both functions of the tool apply: 9999 for a free method, the savings per
   * rupee spent (rounded to one decimal) for a positive cost, and 0 for a negative cost.
   */
  function Roi(cost: real, saves: real): (roi: real)
    ensures cost == 0.0 ==> roi == FreeRoi
    ensures cost < 0.0 ==> roi == 0.0
    ensures cost > 0.0 ==> -0.05 < roi - saves / cost <= 0.05
    ensures cost > 0.0 && saves >= 0.0 ==> roi >= 0.0
  {
    if cost == 0.0 then FreeRoi
    else if cost > 0.0 then
      RoundError(saves / cost, 1);
      assert saves >= 0.0 ==> RoundTo(saves / cost, 1) >= 0.0 by {
        if saves >= 0.0 {
          DivMonotone(0.0, saves, cost);
          RoundNonNegative(saves / cost, 1);
        }
      }
      RoundTo(saves / cost, 1)
    else 0.0
  }

  function OptionOf(m: PreservationMethod): PreservationOption {
    PreservationOption(m, Roi(CostOf(m), SavesOf(m)))
  }

  /**
   * The options before sorting: every method, in table order, whose id differs from `current`
   * (ignoring case), each with its ROI.
   */
  function Candidates(methods: seq<PreservationMethod>, current: string): (r: seq<PreservationOption>)
    ensures forall o :: o in r ==> o.entry in methods && !SameId(o.entry, current)
    ensures forall o :: o in r ==> o.roi == Roi(CostOf(o.entry), SavesOf(o.entry))
    ensures forall m :: m in methods && !SameId(m, current) ==> OptionOf(m) in r
    ensures |r| <= |methods|
  {
    if methods == [] then []
    else
      var init := methods[..|methods| - 1];
      var last := methods[|methods| - 1];
      assert methods == init + [last];
      Candidates(init, current) + (if SameId(last, current) then [] else [OptionOf(last)])
  }

  /** The key that sorts options by descending ROI. */
  function NegRoi(o: PreservationOption): real { -o.roi }

  /**
   * `get_preservation_options`: the candidates, stably sorted by ROI, best first; an unknown
   * crop (after lower-casing and stripping) has none.
   */
  method GetPreservationOptions(table: PreservationTable, crop: string, currentStorage: string)
    returns (results: seq<PreservationOption>)
    ensures LowerStripped(crop) !in table ==> results == []
    ensures LowerStripped(crop) in table ==>
      results == SortBy(Candidates(table[LowerStripped(crop)], currentStorage), NegRoi)
    ensures LowerStripped(crop) in table ==>
      multiset(results) == multiset(Candidates(table[LowerStripped(crop)], currentStorage))
    ensures forall o :: o in results ==> !SameId(o.entry, currentStorage)
    ensures forall i, j :: 0 <= i < j < |results| ==> results[i].roi >= results[j].roi
  {
    var cropLower := LowerStripped(crop);
    if cropLower !in table {
      return [];
    }
    var methods := table[cropLower];
    results := [];
    for i := 0 to |methods|
      invariant results == Candidates(methods[..i], currentStorage)
    {
      var m := methods[i];
      CandidatesStep(methods, i, currentStorage);
      if SameId(m, currentStorage) {
        continue;
      }
      var roi := Roi(CostOf(m), SavesOf(m));
      results := results + [PreservationOption(m, roi)];
    }
    assert methods[..|methods|] == methods;
    SortedCandidates(results, currentStorage);
    results := SortBy(results, NegRoi);
  }

  /** One more method of the table adds its option unless it is the current storage. */
  lemma CandidatesStep(methods: seq<PreservationMethod>, i: int, current: string)
    requires 0 <= i < |methods|
    ensures Candidates(methods[..i + 1], current)
         == Candidates(methods[..i], current)
            + (if SameId(methods[i], current) then [] else [OptionOf(methods[i])])
  {
    assert methods[..i + 1][..i] == methods[..i];
  }

  /** Sorting by descending ROI keeps the options of the candidates and orders them best first. */
  lemma SortedCandidates(candidates: seq<PreservationOption>, current: string)
    requires forall o :: o in candidates ==> !SameId(o.entry, current)
    ensures var sorted := SortBy(candidates, NegRoi);
      && (forall o :: o in sorted ==> !SameId(o.entry, current))
      && (forall i, j :: 0 <= i < j < |sorted| ==> sorted[i].roi >= sorted[j].roi)
  {
    var sorted := SortBy(candidates, NegRoi);
    forall o | o in sorted ensures !SameId(o.entry, current) {
      assert o in multiset(candidates);
    }
    assert forall i, j :: 0 <= i < j < |sorted| ==> NegRoi(sorted[i]) <= NegRoi(sorted[j]);
  }

  /** In options sorted best first, every free method comes before every method with a lower ROI. */
  lemma FreeMethodsFirst(results: seq<PreservationOption>, i: int, j: int)
    requires forall a, b :: 0 <= a < b < |results| ==> results[a].roi >= results[b].roi
    requires 0 <= i < |results| && 0 <= j < |results|
    requires CostOf(results[i].entry) == 0.0 && results[i].roi == Roi(0.0, SavesOf(results[i].entry))
    requires results[j].roi < FreeRoi
    ensures i < j
  {
  }

  /** The first method of the list whose id matches `methodId`, ignoring case. */
  function FindMethod(methods: seq<PreservationMethod>, methodId: string): (r: Option<PreservationMethod>)
    ensures r.Some? ==> r.value in methods && SameId(r.value, methodId)
    ensures r.None? <==> forall m :: m in methods ==> !SameId(m, methodId)
  {
    if methods == [] then None
    else if SameId(methods[0], methodId) then Some(methods[0])
    else FindMethod(methods[1..], methodId)
  }

  /** The search picks the first match: a matching method preceded only by non-matching ones. */
  lemma {:induction false} FindMethodFirst(methods: seq<PreservationMethod>, methodId: string, k: int)
    requires 0 <= k < |methods| && SameId(methods[k], methodId)
    requires forall j :: 0 <= j < k ==> !SameId(methods[j], methodId)
    ensures FindMethod(methods, methodId) == Some(methods[k])
  {
    if k > 0 {
      FindMethodFirst(methods[1..], methodId, k - 1);
    }
  }

  datatype Recommendation = WorthIt | ConsiderAlternatives

  /** The dictionary `calculate_preservation_benefit` returns on success. */
  datatype PreservationBenefit = PreservationBenefit(
    crop: string,
    currentMethod: string,
    newMethod: string,
    currentRemainingHours: real,
    newRemainingHours: real,
    extraHoursGained: real,
    extraDaysGained: int,
    costRupees: real,
    valueSavedRupees: real,
    roi: real,
    recommendation: Recommendation)

  /** The spoilage error passed through, or "Method '…' not found for crop '…'". */
  datatype BenefitError = SpoilageFailed(cause: SpoilageError) | MethodNotFound(methodId: string, crop: string)

  /** "Worth it" exactly when the ROI exceeds 1. */
  function RecommendationFor(roi: real): (rec: Recommendation)
    ensures rec == WorthIt <==> roi > 1.0
  {
    if roi > 1.0 then WorthIt else ConsiderAlternatives
  }

  /** A value rounded to one decimal plus a whole number is still a one-decimal value. */
  lemma RoundedPlusWhole(x: real, n: int)
    ensures RoundTo(RoundTo(x, 1) + n as real, 1) == RoundTo(x, 1) + n as real
  {
    var k := NearestUnits(x, 10.0);
    assert RoundTo(x, 1) == k as real / 10.0;
    assert RoundTo(x, 1) + n as real == (k + 10 * n) as real / 10.0;
    RoundOfMultiple(k + 10 * n, 1);
  }

  /**
   * The benefit of switching to method `m` from a storage that leaves `remainingHours`: the
   * shelf life now, reported to one decimal, the method's extra days as hours on top of it, and
   * the method's ROI with its recommendation.
   */
  function BenefitOf(crop: string, currentStorage: string, methodId: string, remainingHours: real,
                     m: PreservationMethod): (b: PreservationBenefit)
    ensures b.crop == crop && b.currentMethod == currentStorage && b.newMethod == methodId
    ensures b.currentRemainingHours == RoundTo(remainingHours, 1)
    ensures b.extraDaysGained == ExtraDaysOf(m)
    ensures b.extraHoursGained == 24.0 * ExtraDaysOf(m) as real
    ensures b.newRemainingHours == b.currentRemainingHours + b.extraHoursGained
    ensures b.costRupees == CostOf(m) && b.valueSavedRupees == SavesOf(m)
    ensures b.roi == Roi(CostOf(m), SavesOf(m))
    ensures b.recommendation == WorthIt <==> b.roi > 1.0
  {
    var currentRemaining := RoundTo(remainingHours, 1);
    var extraDays := ExtraDaysOf(m);
    var extraHours := extraDays * 24;
    var newRemaining := currentRemaining + extraHours as real;
    var roiValue := Roi(CostOf(m), SavesOf(m));
    RoundedPlusWhole(remainingHours, extraHours);
    RoundOfInt(extraHours, 1);
    PreservationBenefit(
      crop, currentStorage, methodId, currentRemaining, RoundTo(newRemaining, 1),
      RoundTo(extraHours as real, 1), extraDays, CostOf(m), SavesOf(m), roiValue,
      RecommendationFor(roiValue))
  }

  /** The methods listed for a crop, none for a crop the table lacks. */
  function MethodsFor(preservation: PreservationTable, crop: string): seq<PreservationMethod> {
    if LowerStripped(crop) in preservation then preservation[LowerStripped(crop)] else []
  }

  /**
   * `calculate_preservation_benefit`: the spoilage error for the current storage (predicted at
   * zero hours since harvest) is passed on; otherwise the first method whose id matches
   * `methodId`, ignoring case, is evaluated, and no match is an error.
   */
  method CalculatePreservationBenefit(
    spoilage: SpoilageTable, preservation: PreservationTable,
    crop: string, methodId: string, currentStorage: string, tempC: real
  ) returns (r: Result<PreservationBenefit, BenefitError>)
    ensures PredictRemainingHours(spoilage, crop, currentStorage, tempC, 0.0).Failure? ==>
      r == Failure(SpoilageFailed(PredictRemainingHours(spoilage, crop, currentStorage, tempC, 0.0).error))
    ensures PredictRemainingHours(spoilage, crop, currentStorage, tempC, 0.0).Success? ==>
      (FindMethod(MethodsFor(preservation, crop), methodId).None? <==> r == Failure(MethodNotFound(methodId, crop)))
    ensures PredictRemainingHours(spoilage, crop, currentStorage, tempC, 0.0).Success? &&
            FindMethod(MethodsFor(preservation, crop), methodId).Some? ==>
      r == Success(BenefitOf(crop, currentStorage, methodId,
                             PredictRemainingHours(spoilage, crop, currentStorage, tempC, 0.0).value.remainingHours,
                             FindMethod(MethodsFor(preservation, crop), methodId).value))
  {
    var current := PredictRemainingHours(spoilage, crop, currentStorage, tempC, 0.0);
    if current.Failure? {
      return Failure(SpoilageFailed(current.error));
    }
    var methodInfo := SearchMethod(MethodsFor(preservation, crop), methodId);
    if methodInfo.None? {
      return Failure(MethodNotFound(methodId, crop));
    }
    r := Success(BenefitOf(crop, currentStorage, methodId, current.value.remainingHours, methodInfo.value));
  }

  /** The search loop of `calculate_preservation_benefit`: the first method whose id matches. */
  method SearchMethod(methods: seq<PreservationMethod>, methodId: string) returns (found: Option<PreservationMethod>)
    ensures found == FindMethod(methods, methodId)
  {
    found := None;
    var i := 0;
    while i < |methods|
      invariant 0 <= i <= |methods|
      invariant found.None? ==> forall j :: 0 <= j < i ==> !SameId(methods[j], methodId)
      invariant found.Some? ==> found == FindMethod(methods, methodId)
    {
      if SameId(methods[i], methodId) {
        FindMethodFirst(methods, methodId, i);
        found := Some(methods[i]);
        break;
      }
      i := i + 1;
    }
    if found.None? {
      assert forall m :: m in methods ==> !SameId(m, methodId);
    }
  }

  /** A free method is always worth it. */
  lemma FreeIsWorthIt(saves: real)
    ensures RecommendationFor(Roi(0.0, saves)) == WorthIt
  {
  }
}
