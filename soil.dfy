/** Soil properties by soil type, with defaults for an unknown soil (backend/tools/soil.py). */
module Soil {
  import opened Basics
  import opened Text
  import Harvest

  /** One entry of soil_types.json; a field the entry lacks is `None`. */
  datatype SoilProps = SoilProps(id: string, moistureFactor: Option<real>, suitableCrops: Option<seq<string>>)

  /** "Unknown soil type: …". */
  datatype SoilError = UnknownSoil(soilType: string)

  const DefaultMoistureFactor: real := 1.0

  /** The entry's id, lower-cased (not stripped), equals `key`. */
  predicate IdMatches(s: SoilProps, key: string) {
    Lower(s.id) == key
  }

  /** The first entry whose id matches `key`. */
  function FindSoil(soils: seq<SoilProps>, key: string): (r: Option<SoilProps>)
    ensures r.Some? ==> r.value in soils && IdMatches(r.value, key)
    ensures r.None? <==> forall s :: s in soils ==> !IdMatches(s, key)
  {
    if soils == [] then None
    else if IdMatches(soils[0], key) then Some(soils[0])
    else FindSoil(soils[1..], key)
  }

  /** The search returns the first match: a matching entry preceded only by non-matching ones. */
  lemma {:induction false} FindSoilFirst(soils: seq<SoilProps>, key: string, k: int)
    requires 0 <= k < |soils| && IdMatches(soils[k], key)
    requires forall j :: 0 <= j < k ==> !IdMatches(soils[j], key)
    ensures FindSoil(soils, key) == Some(soils[k])
  {
    if k > 0 {
      FindSoilFirst(soils[1..], key, k - 1);
    }
  }

  /** `get_soil_properties`: the first soil whose lower-cased id equals the lower-cased, stripped
      query, or an error naming the query. */
  function GetSoilProperties(soils: seq<SoilProps>, soilType: string): (r: Result<SoilProps, SoilError>)
    ensures r.Success? ==> r.value in soils && Lower(r.value.id) == LowerStripped(soilType)
    ensures r.Success? ==> FindSoil(soils, LowerStripped(soilType)) == Some(r.value)
    ensures r.Failure? <==> forall s :: s in soils ==> Lower(s.id) != LowerStripped(soilType)
    ensures r.Failure? ==> r.error == UnknownSoil(soilType)
  {
    match FindSoil(soils, LowerStripped(soilType))
    case Some(s) => Success(s)
    case None => Failure(UnknownSoil(soilType))
  }

  /** `get_moisture_factor`: the soil's factor, 1.0 when the soil is unknown or has none. */
  function GetMoistureFactor(soils: seq<SoilProps>, soilType: string): (f: real)
    ensures GetSoilProperties(soils, soilType).Failure? ==> f == DefaultMoistureFactor
    ensures GetSoilProperties(soils, soilType).Success? ==>
      f == GetSoilProperties(soils, soilType).value.moistureFactor.GetOr(DefaultMoistureFactor)
  {
    match GetSoilProperties(soils, soilType)
    case Success(s) => s.moistureFactor.GetOr(DefaultMoistureFactor)
    case Failure(_) => DefaultMoistureFactor
  }

  /** `get_suitable_crops`: the soil's crops, none when the soil is unknown or lists none. */
  function GetSuitableCrops(soils: seq<SoilProps>, soilType: string): (crops: seq<string>)
    ensures GetSoilProperties(soils, soilType).Failure? ==> crops == []
    ensures GetSoilProperties(soils, soilType).Success? ==>
      crops == GetSoilProperties(soils, soilType).value.suitableCrops.GetOr([])
  {
    match GetSoilProperties(soils, soilType)
    case Success(s) => s.suitableCrops.GetOr([])
    case Failure(_) => []
  }

  /** Two queries that differ only in letter case find the same soil. */
  lemma LookupIgnoresCase(soils: seq<SoilProps>, a: string, b: string)
    requires Lower(a) == Lower(b)
    ensures GetSoilProperties(soils, a).Success? <==> GetSoilProperties(soils, b).Success?
    ensures GetSoilProperties(soils, a).Success? ==>
      GetSoilProperties(soils, a).value == GetSoilProperties(soils, b).value
  {
  }

  /** "black" and "BLACK" find the same soil. */
  lemma BlackAndUpperBlack(soils: seq<SoilProps>)
    ensures GetSoilProperties(soils, "BLACK").Success? <==> GetSoilProperties(soils, "black").Success?
    ensures GetSoilProperties(soils, "BLACK").Success? ==>
      GetSoilProperties(soils, "BLACK").value.id == GetSoilProperties(soils, "black").value.id
  {
    var upper, lower := "BLACK", "black";
    assert Lower(upper) == lower by {
      forall i | 0 <= i < 5 ensures Lower(upper)[i] == lower[i] {
        assert 'A' <= upper[i] <= 'Z';
      }
    }
    LowerUnchanged(lower);
    LookupIgnoresCase(soils, upper, lower);
  }

  /** What the shipped soil data guarantees: every factor lies in [0.3, 1.5]. */
  predicate FactorsInRange(soils: seq<SoilProps>) {
    forall s :: s in soils && s.moistureFactor.Some? ==> 0.3 <= s.moistureFactor.value <= 1.5
  }

  /** With such data every query, known or not, gets a factor in [0.3, 1.5]. */
  lemma MoistureFactorInRange(soils: seq<SoilProps>, soilType: string)
    requires FactorsInRange(soils)
    ensures 0.3 <= GetMoistureFactor(soils, soilType) <= 1.5
  {
  }

  /** An unknown soil counts as moisture factor 1.0, which earns 20 of the 30 readiness points. */
  lemma UnknownSoilReadiness(soils: seq<SoilProps>, soilType: string)
    requires GetSoilProperties(soils, soilType).Failure?
    ensures Harvest.ReadinessSubscore(GetMoistureFactor(soils, soilType)) == 20
  {
  }
}
