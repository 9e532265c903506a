/**
 * Mandi (wholesale market) prices for a crop, the nearest mandis, and the mandis ranked by the
 * cash left after transport (backend/tools/mandi.py).
 */
module Mandi {
  import opened Basics
  import opened Numeric
  import opened Text
  import opened Sorting
  import opened Distance
  import Market

  /** One entry of mandi_prices.json. */
  datatype MandiQuote = MandiQuote(mandi: string, pricePerKg: real, location: Coord)

  /** mandi_prices.json, keyed by lower-case crop identifier. */
  type MandiTable = map<string, seq<MandiQuote>>

  /** `get_mandi_prices`: the entries under the lower-cased, stripped crop, none if it is absent. */
  function GetMandiPrices(table: MandiTable, crop: string): (r: seq<MandiQuote>)
    ensures LowerStripped(crop) in table ==> r == table[LowerStripped(crop)]
    ensures LowerStripped(crop) !in table ==> r == []
  {
    if LowerStripped(crop) in table then table[LowerStripped(crop)] else []
  }

  /** The price lookup does not depend on the case of the crop name. */
  lemma PricesIgnoreCase(table: MandiTable, crop: string)
    ensures GetMandiPrices(table, Lower(crop)) == GetMandiPrices(table, crop)
  {
    LowerIdempotent(crop);
  }

  /** A copy of a price entry with its distance from the farmer. */
  datatype NearbyMandi = NearbyMandi(quote: MandiQuote, distanceKm: real)

  function DistanceKey(n: NearbyMandi): real { n.distanceKm }

  /** Every entry, in order, with its distance from `user`. */
  function Enriched(quotes: seq<MandiQuote>, dist: DistanceFn, user: Coord): (r: seq<NearbyMandi>)
    ensures |r| == |quotes|
    ensures forall i :: 0 <= i < |r| ==> r[i] == NearbyMandi(quotes[i], dist(user, quotes[i].location))
  {
    if quotes == [] then []
    else
      var init := quotes[..|quotes| - 1];
      var last := quotes[|quotes| - 1];
      Enriched(init, dist, user) + [NearbyMandi(last, dist(user, last.location))]
  }

  /**
   * `get_nearby_mandis`: the crop's mandis stably sorted by distance, of which the first
   * `maxCount` are kept (Python slicing: a negative count drops that many from the end).
   */
  method GetNearbyMandis(table: MandiTable, dist: DistanceFn, crop: string, user: Coord, maxCount: int)
    returns (results: seq<NearbyMandi>)
    ensures results == Prefix(SortBy(Enriched(GetMandiPrices(table, crop), dist, user), DistanceKey), maxCount)
    ensures GetMandiPrices(table, crop) == [] ==> results == []
    ensures maxCount >= 0 ==> |results| <= maxCount
    ensures forall i, j :: 0 <= i < j < |results| ==> results[i].distanceKm <= results[j].distanceKm
    // the kept mandis are the nearest: none left out is closer than any kept
    ensures var sorted := SortBy(Enriched(GetMandiPrices(table, crop), dist, user), DistanceKey);
      forall i, j :: 0 <= i < |results| <= j < |sorted| ==> results[i].distanceKm <= sorted[j].distanceKm
  {
    var mandis := GetMandiPrices(table, crop);
    if |mandis| == 0 {
      return [];
    }
    var enriched := EnrichMandis(mandis, dist, user);
    var sorted := SortBy(enriched, DistanceKey);
    results := Prefix(sorted, maxCount);
    PrefixOfSorted(sorted, maxCount);
  }

  /** The loop of `get_nearby_mandis`: a copy of each entry with its distance, in table order. */
  method EnrichMandis(mandis: seq<MandiQuote>, dist: DistanceFn, user: Coord) returns (enriched: seq<NearbyMandi>)
    ensures enriched == Enriched(mandis, dist, user)
  {
    enriched := [];
    for i := 0 to |mandis|
      invariant enriched == Enriched(mandis[..i], dist, user)
    {
      var m := mandis[i];
      assert mandis[..i + 1][..i] == mandis[..i];
      var distanceKm := dist(user, m.location);
      enriched := enriched + [NearbyMandi(m, distanceKm)];
    }
    assert mandis[..|mandis|] == mandis;
  }

  /** The first `maxCount` of a sequence sorted by distance are sorted too, and no element after
      them is nearer. */
  lemma PrefixOfSorted(sorted: seq<NearbyMandi>, maxCount: int)
    requires SortedBy(sorted, DistanceKey)
    ensures var kept := Prefix(sorted, maxCount);
      && (forall i, j :: 0 <= i < j < |kept| ==> kept[i].distanceKm <= kept[j].distanceKm)
      && (forall i, j :: 0 <= i < |kept| <= j < |sorted| ==> kept[i].distanceKm <= sorted[j].distanceKm)
  {
    var kept := Prefix(sorted, maxCount);
    assert forall i :: 0 <= i < |kept| ==> kept[i] == sorted[i];
    assert forall i, j :: 0 <= i < j < |sorted| ==> DistanceKey(sorted[i]) <= DistanceKey(sorted[j]);
  }

  /** One mandi in the pocket-cash ranking. */
  datatype RankedMandi = RankedMandi(
    quote: MandiQuote,
    distanceKm: real,
    transportCost: real,
    grossRevenue: real,
    pocketCash: real,
    recommended: bool)

  function NegPocket(r: RankedMandi): real { -r.pocketCash }

  /**
   * The ranking entry of one mandi: the sale value of the whole quantity less the round-trip
   * fuel, rounded to the paisa. No transit loss is deducted.
   */
  function RankOf(q: MandiQuote, quantityKg: real, dist: DistanceFn, user: Coord, fuelRatePerKm: real): (r: RankedMandi)
    ensures r.quote == q && !r.recommended
    ensures -0.005 < r.pocketCash - (quantityKg * q.pricePerKg - EstimateFuelCost(dist(user, q.location), fuelRatePerKm, true)) <= 0.005
    ensures -0.05 < r.distanceKm - dist(user, q.location) <= 0.05 && r.distanceKm >= 0.0
    ensures -0.005 < r.grossRevenue - quantityKg * q.pricePerKg <= 0.005
    ensures -0.005 < r.transportCost - EstimateFuelCost(dist(user, q.location), fuelRatePerKm, true) <= 0.005
  {
    var distanceKm := dist(user, q.location);
    var transport := EstimateFuelCost(distanceKm, fuelRatePerKm, true);
    var gross := quantityKg * q.pricePerKg;
    RoundError(gross - transport, 2);
    RoundError(distanceKm, 1);
    RoundNonNegative(distanceKm, 1);
    RoundError(gross, 2);
    RoundError(transport, 2);
    RankedMandi(q, RoundTo(distanceKm, 1), RoundTo(transport, 2), RoundTo(gross, 2),
                RoundTo(gross - transport, 2), false)
  }

  /** The ranking entries of all mandis, in table order. */
  function RankAll(quotes: seq<MandiQuote>, quantityKg: real, dist: DistanceFn, user: Coord, fuelRatePerKm: real)
    : (r: seq<RankedMandi>)
    ensures |r| == |quotes|
    ensures forall i :: 0 <= i < |r| ==> r[i] == RankOf(quotes[i], quantityKg, dist, user, fuelRatePerKm)
    ensures forall x :: x in r ==> !x.recommended
  {
    if quotes == [] then []
    else
      var init := quotes[..|quotes| - 1];
      RankAll(init, quantityKg, dist, user, fuelRatePerKm)
        + [RankOf(quotes[|quotes| - 1], quantityKg, dist, user, fuelRatePerKm)]
  }

  /** Marking the first of the sorted entries keeps them sorted and marks exactly that one. */
  lemma MarkFirst(ranked: seq<RankedMandi>, sorted: seq<RankedMandi>)
    requires forall x :: x in ranked ==> !x.recommended
    requires multiset(sorted) == multiset(ranked) && SortedBy(sorted, NegPocket) && |sorted| > 0
    ensures var marked := sorted[0 := sorted[0].(recommended := true)];
      && (forall i, j :: 0 <= i < j < |marked| ==> marked[i].pocketCash >= marked[j].pocketCash)
      && (forall i :: 0 <= i < |marked| ==> (marked[i].recommended <==> i == 0))
  {
    forall i | 0 <= i < |sorted| ensures !sorted[i].recommended {
      assert sorted[i] in multiset(ranked);
    }
    assert forall i, j :: 0 <= i < j < |sorted| ==> NegPocket(sorted[i]) <= NegPocket(sorted[j]);
  }

  /**
   * `get_best_pocket_cash_mandi`: every mandi of the crop, stably sorted by pocket cash, best
   * first, with exactly the first one marked recommended.
   */
  method GetBestPocketCashMandi(
    table: MandiTable, dist: DistanceFn, crop: string, quantityKg: real, user: Coord, fuelRatePerKm: real
  ) returns (results: seq<RankedMandi>)
    ensures var sorted := SortBy(RankAll(GetMandiPrices(table, crop), quantityKg, dist, user, fuelRatePerKm), NegPocket);
      && |results| == |sorted| == |GetMandiPrices(table, crop)|
      && forall i :: 0 <= i < |results| ==>
           results[i] == if i == 0 then sorted[i].(recommended := true) else sorted[i]
    ensures forall i, j :: 0 <= i < j < |results| ==> results[i].pocketCash >= results[j].pocketCash
    ensures forall i :: 0 <= i < |results| ==> (results[i].recommended <==> i == 0)
  {
    var mandis := GetMandiPrices(table, crop);
    if |mandis| == 0 {
      return [];
    }
    var ranked := RankMandis(mandis, quantityKg, dist, user, fuelRatePerKm);
    var sorted := SortBy(ranked, NegPocket);
    MarkFirst(ranked, sorted);
    results := sorted[0 := sorted[0].(recommended := true)];
  }

  /** The loop of `get_best_pocket_cash_mandi`: one ranking entry per mandi, in table order. */
  method RankMandis(mandis: seq<MandiQuote>, quantityKg: real, dist: DistanceFn, user: Coord, fuelRatePerKm: real)
    returns (ranked: seq<RankedMandi>)
    ensures ranked == RankAll(mandis, quantityKg, dist, user, fuelRatePerKm)
  {
    ranked := [];
    for i := 0 to |mandis|
      invariant ranked == RankAll(mandis[..i], quantityKg, dist, user, fuelRatePerKm)
    {
      var m := mandis[i];
      assert mandis[..i + 1][..i] == mandis[..i];
      ranked := ranked + [RankOf(m, quantityKg, dist, user, fuelRatePerKm)];
    }
    assert mandis[..|mandis|] == mandis;
  }

  /**
   * The ranking leaves transit loss out, the pocket-cash evaluation takes it in: at ₹8 per km to
   * the same mandi, the ranking shows the evaluation's pocket cash plus its spoilage loss (to a
   * paisa of rounding).
   */
  lemma RankingIgnoresSpoilage(
    spoilage: Market.Spoilage.SpoilageTable, dist: DistanceFn, crop: string, quantityKg: real,
    user: Coord, q: MandiQuote, tempC: real, storageMethod: string)
    ensures
      var ranked := RankOf(q, quantityKg, dist, user, DefaultFuelRatePerKm);
      var e := Market.CalculatePocketCash(spoilage, dist, crop, quantityKg, user, q.mandi, q.location,
                                          q.pricePerKg, tempC, storageMethod);
      -0.005 < ranked.pocketCash - (e.pocketCash + e.spoilageLossRupees) <= 0.005
  {
  }
}
