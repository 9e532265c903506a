# agrichain decision core in Dafny

agrichain gives farmers post-harvest advice. It predicts how long a harvested crop stays
sellable under a storage method and temperature, and ranks preservation upgrades by return on
investment. It scores harvest readiness from weather, market and soil. It compares mandis
(wholesale markets) by the cash the farmer takes home after fuel and transit loss. It also turns
agent text into cards for the mobile app. The prediction, scoring, ranking and formatting are
pure decisions over reference tables. This project models them, plus the in-memory response
cache and the request counters, and proves what those decisions promise.

Module layout, one module per source file, plus shared modules:

- `Basics`: `Option`, `Result`, `Risk`, `Color`, `Max`, `Min`, `ClampInt`.
- `Numeric`: rounding to decimals (`RoundTo`, which rounds the exact real to nearest, ties up), truncation, and small real-arithmetic lemmas.
- `Text`: ASCII `Lower`, whitespace `Strip`, substring search, and decimal digits.
- `Sorting`: a stable insertion sort `SortBy` by a real key, the model of Python's `list.sort`.
- `Spoilage`: backend/tools/spoilage.py.
- `Distance`: backend/tools/distance.py. The haversine distance is a parameter `dist` of type `DistanceFn`, a function that is never negative.
- `Preservation`: backend/tools/preservation.py.
- `Harvest`: `compute_harvest_score` in backend/agents/harvest_agent.py.
- `Market`: `calculate_pocket_cash` in backend/agents/market_agent.py.
- `Mandi`: backend/tools/mandi.py.
- `Soil`: backend/tools/soil.py.
- `Formatter`: backend/orchestrator/formatter.py.
- `Stats`: class `RequestStats` of backend/config/stats.py.
- `Cache`: class `SimpleCache` of backend/config/cache.py.

The JSON reference tables (spoilage, preservation, mandi prices, soils) become parameters. For
spoilage, `ValidTable` states the data's own invariants: the four storage methods, the three
temperature bands, positive hours and a positive decay rate. Lemmas that rely on those
invariants take `ValidTable` as a premise. Clock readings (`time.time()`) become `now`
parameters.

Loops of the source are methods with loop invariants. Each is proved equal to a function, and
the properties are proved about that function:

- `GetPreservationOptions` equals `Candidates` sorted by `NegRoi`.
- `SearchMethod` equals `FindMethod`.
- `EnrichMandis` equals `Enriched`.
- `RankMandis` equals `RankAll`.

Classes whose fields the source updates in place (`RequestStats`, `SimpleCache`) are Dafny
classes. Their methods state the whole new state.

## Model

| member | source | states |
|---|---|---|
| Spoilage.TempBand | backend/tools/spoilage.py:20-27 | The band is total and exact: below 25 for t < 25, 25–35 for 25 ≤ t ≤ 35, above 35 for t > 35 (each as an if-and-only-if). |
| Spoilage.EffectiveMethod | backend/tools/spoilage.py:48-50 | A storage method the crop lists is kept exactly as written (case-sensitive); any other method becomes open_floor. |
| Spoilage.HeatAdjustedHours | backend/tools/spoilage.py:55-61 | At or below 35 °C the table hours are kept. Above 35 °C the result is at least 1 and at least the linearly decayed hours, and it is one of the two. |
| Spoilage.RemainingHours | backend/tools/spoilage.py:63 | Remaining hours are never negative, are at least total − elapsed, and are either 0 or total − elapsed. |
| Spoilage.RiskOf | backend/tools/spoilage.py:70-79 | Low iff remaining > 48, medium iff 12 < remaining ≤ 48, high iff remaining ≤ 12, so exactly 48 is medium and exactly 12 is high. |
| Spoilage.Estimate | backend/tools/spoilage.py:52-93 | The record echoes the inputs and ties the total to the table hours and band with heat decay and the 1-hour floor. Remaining is max(0, total − elapsed) and lies in [0, total] for elapsed ≥ 0. Days are hours/24. The spoilage % lies in [0, 100] and is 100 once elapsed ≥ total. Risk is decided on the remaining hours and colour by risk. |
| Spoilage.PredictRemainingHours | backend/tools/spoilage.py:30-93 | A crop absent after lower-casing and stripping fails with CropNotFound, and only then. On valid data a known crop always succeeds. A success is the estimate for the crop's entry under the effective method and band, with the crop's decay rate or 0.05. |
| Spoilage.PercentOfWhole | backend/tools/spoilage.py:65-68 | A part of a positive whole is between 0 % and 100 % of it. |
| Spoilage.ElapsedMonotone | backend/tools/spoilage.py:63 | More time since harvest never leaves more remaining hours, and the success of the prediction does not depend on the elapsed time. |
| Spoilage.HeatMonotone | backend/tools/spoilage.py:55-63 | Above 35 °C, a hotter temperature never gives more safe hours or more remaining hours. |
| Spoilage.HeatDecayMonotone | backend/tools/spoilage.py:55-61 | The heat-adjusted hours are non-increasing in temperature above 35 °C, the 1-hour floor included. |
| Spoilage.HeatAdjustedMonotoneInBase | backend/tools/spoilage.py:53-61 | More table hours never give fewer heat-adjusted hours, for any decay factor, even a negative one. |
| Spoilage.HotterNeverLonger | backend/tools/spoilage.py:52-63 | On valid data, for a known crop, a hotter day above 35 °C succeeds and never predicts more total or remaining hours. |
| Spoilage.ValidEntry | backend/tools/spoilage.py:53-57 | On valid data every storage method and band has a positive entry and the crop's decay rate is positive. |
| Spoilage.StorageOrder | backend/tools/spoilage.py:49-63 | A storage method whose table hours are at least another's never predicts fewer remaining hours at the same temperature and elapsed time. |
| Distance.TravelMinutes | backend/tools/distance.py:49-54 | Exact travel minutes times the speed equal the distance times 60 (distance/speed·60). |
| Distance.EstimateTravelTime | backend/tools/distance.py:49-54 | The reported minutes are within 0.05 of distance/speed·60 (rounded to one decimal). |
| Distance.TravelTimeExample | backend/tools/distance.py:49-54 | 150 km at 30 km/h takes exactly 300 minutes. |
| Distance.FuelCostLinear | backend/tools/distance.py:57-65 | The unrounded fuel cost is linear: the round trip costs exactly twice the one-way trip, one-way cost is distance × rate, and it is additive in distance. |
| Distance.EstimateFuelCost | backend/tools/distance.py:57-65 | The reported cost is within half a paisa of the exact cost, and is never negative for a non-negative distance and rate. |
| Distance.FuelCostExample | backend/tools/distance.py:57-65 | 100 km at ₹8 per km costs exactly 1600 for the round trip and 800 one way. |
| Distance.CalculateTransitSpoilagePct | backend/tools/distance.py:68-104 | A crop absent after lower-casing (not stripping), a missing open-floor entry, or a zero entry (the ZeroDivisionError the source catches) gives 5.0. The result never exceeds 50. Otherwise it is min(round1(distance/30/hours·100), 50). |
| Distance.TransitPctBounds | backend/tools/distance.py:97-101 | For a non-negative distance and a positive (or absent) open-floor entry, transit loss lies in [0, 50]. |
| Distance.TransitPctMonotone | backend/tools/distance.py:97-101 | Under the same conditions, transit loss is non-decreasing in distance. |
| Distance.TransitUsesOpenFloorRow | backend/tools/distance.py:84-101 | On valid data a known crop has a positive open-floor entry for the band, and the loss is the fixed formula over that entry. |
| Distance.TransitMatchesSpoilageModel | backend/tools/distance.py:94-99 | At or below 35 °C, for a name that needs no stripping, the loss is the trip's share of the open-floor shelf life that predict_remaining_hours reports. No heat decay enters. |
| Distance.TransitDoesNotStrip | backend/tools/distance.py:80-82 | " tomato" gets the default 5 % transit loss although the shelf-life prediction finds the tomato row. |
| Distance.PaddedName | backend/tools/spoilage.py:41 | Lower-casing keeps " tomato" padded; lower-casing and stripping gives "tomato". |
| Preservation.Roi | backend/tools/preservation.py:42-50 | ROI is 9999 for a free method, 0 for a negative cost, and within 0.05 of saves/cost for a positive cost (never negative when the saving is not). |
| Preservation.Candidates | backend/tools/preservation.py:35-52 | Every option copies a table method whose id differs, case-insensitively, from the current storage, and carries that method's ROI. Every such method appears. |
| Preservation.CandidatesStep | backend/tools/preservation.py:35-52 | One more table method appends its option at the end, unless it is the current storage. So the options follow the table order, one per kept method. |
| Preservation.GetPreservationOptions | backend/tools/preservation.py:20-56 | An unknown crop gives no options. Otherwise the result is a permutation of the candidates, stably sorted by ROI best first. No option is the current storage, and ROIs never increase along the list. |
| Preservation.SortedCandidates | backend/tools/preservation.py:55 | Sorting best first keeps the exclusion of the current storage and orders ROIs non-increasingly. |
| Preservation.FreeMethodsFirst | backend/tools/preservation.py:45-55 | In the sorted list a free method comes before every method with an ROI below 9999. |
| Preservation.FindMethod | backend/tools/preservation.py:80-84 | A found method is in the list and matches the id case-insensitively. Nothing is found iff no method matches. |
| Preservation.FindMethodFirst | backend/tools/preservation.py:81-84 | The search returns the first matching method (the loop's break). |
| Preservation.SearchMethod | backend/tools/preservation.py:80-84 | The search loop returns exactly what `FindMethod` specifies. |
| Preservation.RecommendationFor | backend/tools/preservation.py:114 | "Worth it" iff ROI > 1. |
| Preservation.RoundedPlusWhole | backend/tools/preservation.py:92-108 | Rounding a one-decimal figure plus whole hours changes nothing, so the new remaining hours are exactly current plus extra. |
| Preservation.BenefitOf | backend/tools/preservation.py:89-115 | Extra hours are 24 × extra days, new remaining = current remaining + extra hours, and cost and saving are copied (0 when absent). ROI follows the same rule as the options, and "Worth it" holds iff ROI > 1. |
| Preservation.CalculatePreservationBenefit | backend/tools/preservation.py:59-115 | A failed shelf-life prediction is passed on as the error. Otherwise "method not found" is returned iff no method id matches case-insensitively, and a found method yields its benefit over the prediction's rounded remaining hours. |
| Preservation.FreeIsWorthIt | backend/tools/preservation.py:96-114 | A free method is always "Worth it". |
| Harvest.HeatPenalty | backend/agents/harvest_agent.py:67-70 | The penalty is 15 iff t > 40, 8 iff 35 < t ≤ 40, and 0 iff t ≤ 35. |
| Harvest.WeatherSubscore | backend/agents/harvest_agent.py:65-75 | The subscore lies in [0, 30]. It is 30 minus the stacked penalties (heat, humidity > 80: 10, rain: 15), or 0 when they exceed 30. It is 30 iff there is no penalty. |
| Harvest.TrendBase | backend/agents/harvest_agent.py:78-83 | The base is 40 for "falling" and 25 for "stable". Any other trend, "rising" included, gets 10. |
| Harvest.MarketSubscore | backend/agents/harvest_agent.py:77-88 | The subscore lies in [0, 40]. Prices in [10, 20] take the trend base. Prices above 20 add 10, clamped so "falling" stays 40. Prices below 10 subtract 10. |
| Harvest.ReadinessSubscore | backend/agents/harvest_agent.py:91 | The subscore is clamp(⌊20·moisture⌋, 0, 30), which equals the truncating int() after the clamp. |
| Harvest.ScoreColor | backend/agents/harvest_agent.py:95-100 | Green iff score ≥ 80, yellow iff 50 ≤ score < 80, red iff score < 50. |
| Harvest.ComputeHarvestScore | backend/agents/harvest_agent.py:54-111 | The breakdown reports the three clamped subscores. The score is their sum, lies in [0, 100] (so the outer clamp changes nothing), and colour and advice follow the score. |
| Harvest.WeatherMonotone | backend/agents/harvest_agent.py:65-75 | Hotter, more humid or rainier weather never raises the weather subscore. |
| Harvest.MarketMonotoneInPrice | backend/agents/harvest_agent.py:84-88 | A higher average mandi price never lowers the market subscore. |
| Harvest.TrendOrder | backend/agents/harvest_agent.py:78-88 | At any price, any other trend ≤ stable ≤ falling. |
| Harvest.ReadinessMonotone | backend/agents/harvest_agent.py:91 | A higher moisture factor never lowers readiness. |
| Harvest.ScoreExtremes | backend/agents/harvest_agent.py:65-93 | The best conditions reach exactly 100 and the worst exactly 0. |
| Market.TransitRisk | backend/agents/market_agent.py:66-71 | Low iff loss < 5 %, medium iff 5 ≤ loss < 15, high iff loss ≥ 15. |
| Market.EffectiveVolume | backend/agents/market_agent.py:61 | With loss in [0, 50] %, the arriving load lies in [volume/2, volume]. With no loss it is the whole volume. |
| Market.EvaluateAt | backend/agents/market_agent.py:58-84 | Fuel is the round trip at ₹8/km to the paisa and never negative. The loss is the transit loss, at most 50 and non-negative for usable data. The arriving load lies in [volume/2, volume]. Revenue, loss value, pocket = gross − fuel and the risk band follow from these. |
| Market.EvaluationBalances | backend/agents/market_agent.py:61-64 | Gross revenue plus the loss value is the whole load's value. Pocket cash = load value − loss − fuel, so the loss is charged once. The loss value is never negative for usable data. |
| Market.CalculatePocketCash | backend/agents/market_agent.py:40-84 | The evaluation is taken at the reported distance between farmer and mandi, which is never negative. The storage method plays no part. |
| Market.EffectiveVolumeAntitone | backend/agents/market_agent.py:61 | More transit loss never leaves more kilograms. |
| Market.CashLeftOrder | backend/agents/market_agent.py:59-63 | More loss and at least as much fuel (to a paisa) never leave more cash. |
| Market.FartherNeverPaysMore | backend/agents/market_agent.py:58-63 | At the same price a farther mandi never leaves more pocket cash, up to a paisa of fuel rounding. |
| Mandi.GetMandiPrices | backend/tools/mandi.py:20-27 | The crop's quotes after lower-casing and stripping, or none for an unknown crop. |
| Mandi.PricesIgnoreCase | backend/tools/mandi.py:26 | A lower-cased query finds the same quotes. |
| Mandi.Enriched | backend/tools/mandi.py:43-49 | One copy per quote, in table order, each with its distance from the user. |
| Mandi.EnrichMandis | backend/tools/mandi.py:43-49 | The loop produces exactly `Enriched`. |
| Mandi.GetNearbyMandis | backend/tools/mandi.py:30-52 | The result is the first max_count of the enriched quotes, stably sorted by distance (Python slice semantics for any max_count). It is empty for an unknown crop, at most max_count long, and sorted by distance. No mandi left out is nearer than one kept. |
| Mandi.PrefixOfSorted | backend/tools/mandi.py:51-52 | The kept prefix of a distance-sorted list is sorted, and nothing after it is nearer. |
| Mandi.RankOf | backend/tools/mandi.py:75-86 | One ranking entry. Gross is quantity × price and pocket is gross − round-trip fuel at the given rate, each to the paisa. The transport cost is within half a paisa of the round-trip fuel estimate for the user-to-mandi distance. Distance is within 0.05 and never negative. The entry is not yet recommended. |
| Mandi.RankAll | backend/tools/mandi.py:73-87 | One entry per quote in table order, none recommended. |
| Mandi.RankMandis | backend/tools/mandi.py:73-87 | The loop produces exactly `RankAll`. |
| Mandi.MarkFirst | backend/tools/mandi.py:89-93 | After sorting, marking the first entry gives a list sorted best first in which exactly the first is recommended. |
| Mandi.GetBestPocketCashMandi | backend/tools/mandi.py:55-95 | Every mandi of the crop is stably sorted by pocket cash, best first, and exactly the first is marked recommended. An unknown crop gives none. |
| Mandi.RankingIgnoresSpoilage | backend/tools/mandi.py:80-81 | At ₹8/km the ranking's pocket cash is the market evaluation's pocket cash plus its spoilage loss, to a paisa: the ranking leaves transit loss out. |
| Soil.FindSoil | backend/tools/soil.py:24-26 | A found soil is in the table and its lower-cased id equals the key. Nothing is found iff no id matches. |
| Soil.FindSoilFirst | backend/tools/soil.py:24-26 | The search returns the first matching soil. |
| Soil.GetSoilProperties | backend/tools/soil.py:18-27 | Success iff some id matches the lower-cased, stripped query, and the first match is returned. A failure names the query. |
| Soil.GetMoistureFactor | backend/tools/soil.py:30-36 | The soil's factor, or 1.0 when the soil is unknown or lists none. |
| Soil.GetSuitableCrops | backend/tools/soil.py:39-45 | The soil's crops, or none when the soil is unknown or lists none. |
| Soil.LookupIgnoresCase | backend/tools/soil.py:23-25 | Queries differing only in letter case find the same soil. |
| Soil.BlackAndUpperBlack | backend/tools/soil.py:23-25 | "BLACK" and "black" find the same soil. |
| Soil.MoistureFactorInRange | backend/tools/soil.py:30-36 | With every listed factor in [0.3, 1.5], every query's factor lies in [0.3, 1.5], the default included. |
| Soil.UnknownSoilReadiness | backend/tools/soil.py:36 | An unknown soil's default factor earns 20 of the 30 readiness points. |
| Formatter.ScoreLenAt | backend/orchestrator/formatter.py:11 | The greedy 3/2/1-digit match before "/100" at a position is the longest that exists. It is 0 iff none exists. |
| Formatter.FindScore | backend/orchestrator/formatter.py:11 | The leftmost position from which `\d{1,3}/100` matches, or none when no position matches. |
| Formatter.FindScoreLeftmost | backend/orchestrator/formatter.py:11 | A match preceded by no match is the one found. |
| Formatter.ParseScore | backend/orchestrator/formatter.py:11-12 | The score is 65 when there is no match, otherwise the decimal value of the matched digits, and never above 999. |
| Formatter.ScoreExample | backend/orchestrator/formatter.py:11-12 | "85/100" scores 85. |
| Formatter.ScoreInsideLongerNumber | backend/orchestrator/formatter.py:11-12 | "1234/100" scores 234, the regex's leftmost match. |
| Formatter.FormatHarvestResponse | backend/orchestrator/formatter.py:10-29 | A harvest card with the parsed score and the score's colour band. harvest_now iff score ≥ 80, wait iff 50 ≤ score < 80, do_not_harvest iff score < 50. Text and crop are copied. |
| Formatter.FormatMarketResponse | backend/orchestrator/formatter.py:32-39 | A market card copying the text, crop and volume. |
| Formatter.FormatPreservationResponse | backend/orchestrator/formatter.py:73-80 | A preservation card copying the text, crop and storage method. |
| Formatter.HoursAt | backend/orchestrator/formatter.py:43-46 | A number followed by optional spaces and "hour" (any case) starts at a digit and is never negative. |
| Formatter.HoursAtSound | backend/orchestrator/formatter.py:43-46 | Whenever the forward parse at a position succeeds, some split of the text matches `(\d+\.?\d*)\s*hours?` there (`HoursMatch`), and the parse's number is what `float()` reads from that split's group. |
| Formatter.HoursMatchFound | backend/orchestrator/formatter.py:43-46 | Conversely, every split that matches at a position makes the parse there succeed, with that split's number. So the parse succeeds exactly when the pattern matches. |
| Formatter.FindHours | backend/orchestrator/formatter.py:43-45 | A position the search returns is at or after its start, and a match starts there. |
| Formatter.FindHoursSkips | backend/orchestrator/formatter.py:43-45 | No match starts at a position the search passes over, and none starts anywhere when it finds nothing. |
| Formatter.FindHoursFirst | backend/orchestrator/formatter.py:43-45 | A match with no match before it is the one the search returns. |
| Formatter.FindHoursNone | backend/orchestrator/formatter.py:43-45 | A text with no match makes the search find nothing. |
| Formatter.ParseRemainingHours | backend/orchestrator/formatter.py:43-46 | 24 when nothing matches, otherwise the number at the leftmost match. Never negative. |
| Formatter.ParseRemainingHoursLeftmost | backend/orchestrator/formatter.py:43-46 | When the pattern matches at a position and nowhere before it, the hours figure is the number of that match. |
| Formatter.ParseRemainingHoursDefault | backend/orchestrator/formatter.py:43-46 | When the pattern matches nowhere, the hours figure is 24. |
| Formatter.HoursExample | backend/orchestrator/formatter.py:43-46 | "36 Hours" parses as 36. |
| Formatter.AlertIn | backend/orchestrator/formatter.py:55-58 | True iff the lower-cased text contains "alert", "⚠️", "heatwave" or "warning". |
| Formatter.TimerColor | backend/orchestrator/formatter.py:48-53 | Green iff > 48 h, yellow iff 12 < h ≤ 48, red iff ≤ 12. These are the shelf-life tool's bands. |
| Formatter.FormatSpoilageResponse | backend/orchestrator/formatter.py:42-70 | A timer card with the parsed hours and days within 0.05 of hours/24. It carries the colour band and its urgency, vibrate iff red, and the alert flag iff an alert word occurs. The text is copied. |
| Formatter.FormatResponse | backend/orchestrator/formatter.py:83-94 | Always success. MARKET, SPOILAGE and PRESERVATION pick their formatter, and any other intent (HARVEST included) gets the harvest card. |
| Stats.RecordKeepsConsistent | backend/config/stats.py:28-37 | One `record` keeps the counters consistent: success + error = total, cache hits ≤ total, exactly the six agents have counters, and the agents' sum ≤ total. |
| Stats.RatePct | backend/config/stats.py:41-47 | 0 when nothing is recorded. 0–100 when count ≤ total. Within 0.05 of count/total·100 when total > 0. |
| Stats.RequestStats.constructor | backend/config/stats.py:11-26 | Counters are zero with a zero counter for each of the six agents, the clock starts at `now`, and the state is consistent. |
| Stats.RequestStats.Record | backend/config/stats.py:28-37 | Total +1, success or error +1, cache hit +1 when cached, the agent's counter +1 only for a known agent, and nothing else changes. Consistency is preserved. |
| Stats.RequestStats.GetSummary | backend/config/stats.py:39-48 | Counters are copied. Uptime is the whole seconds elapsed, and the minutes are those seconds over 60 to one decimal. Rates use a total of at least 1, lie in [0, 100] and are 0 before any request. |
| Stats.AgentsWithinTotal | backend/config/stats.py:28-37 | In a consistent state no agent's counter exceeds the total. |
| Cache.Lookup | backend/config/cache.py:22-29 | A value is found iff its key is present and fewer than ttl seconds have passed since it was stored, and the value is the stored one. |
| Cache.AfterLookup | backend/config/cache.py:22-29 | Only an expired entry for the key is removed (size drops by one). Every other entry is unchanged. |
| Cache.SimpleCache.constructor | backend/config/cache.py:14-16 | An empty cache with the given lifetime. |
| Cache.SimpleCache.Get | backend/config/cache.py:22-29 | Returns `Lookup` on the old entries and leaves `AfterLookup` of them. |
| Cache.SimpleCache.Set | backend/config/cache.py:31-32 | Stores the value stamped `now` under the key, replacing any earlier entry, and nothing else. |
| Cache.SimpleCache.Clear | backend/config/cache.py:34-35 | No entries remain and the size is 0. |
| Cache.SimpleCache.Size | backend/config/cache.py:37-39 | The number of keys, expired entries not yet looked up included. |
| Cache.SetThenGet | backend/config/cache.py:22-32 | A value read back within its lifetime is the value stored. After ttl seconds or more, exactly ttl included, it is gone. |
| Cache.SetLeavesOthers | backend/config/cache.py:31-32 | Storing under one key changes no lookup of another. |
| Cache.LookupDoesNotRefresh | backend/config/cache.py:22-29 | A lookup does not extend an entry's lifetime. |
| Cache.LookupIdempotent | backend/config/cache.py:22-29 | Looking up twice at the same moment answers and leaves the same as once. |
| Cache.SetThenGetRoundTrip | backend/config/cache.py:22-32 | On a cache object, set then get within the lifetime returns the value, and the entries are the old ones plus the new one. |
| Text.Lower | backend/tools/spoilage.py:41 | Same length, each character lower-cased (ASCII). |
| Text.LowerIdempotent | backend/tools/preservation.py:37 | Lower-casing twice is lower-casing once. |
| Text.Strip | backend/tools/spoilage.py:41 | The result is the slice of the input between its leading and its trailing white space. It does not start or end with white space. |
| Sorting.SortBy | backend/tools/preservation.py:55 | The result is a permutation of the input, sorted by the key. |
| Sorting.SortStable | backend/tools/mandi.py:89 | The sort is stable: elements with equal keys keep their order. |
| Numeric.RoundError | backend/tools/distance.py:54 | Rounding to d decimals moves a value by at most half a unit in the last place. |
| Numeric.RoundMonotone | backend/tools/distance.py:101 | Rounding never reverses an order. |

## Left out

- The haversine distance (trigonometry on floats) is not modelled. Every caller takes `dist`, a function that is never negative.
- Floating point is not modelled. Hours, rupees and percentages are exact reals. `Numeric.RoundTo` rounds to nearest with ties upward, where Python's `round` rounds binary floats half to even. The rounding error bound (at most half a unit in the last place) and monotonicity hold under either tie rule.
- `Text.Lower`, `Text.Strip`, the `\d` and `\s` classes and `re.IGNORECASE` cover ASCII only. Unicode case mapping and Unicode whitespace are not modelled.
- Loading the JSON data files at import time is not modelled. The tables are parameters.
- Preservation.BenefitOf: a method's `extra_days` is taken as a whole number of days (`Option<int>`). The source multiplies whatever number the JSON holds by 24 (backend/tools/preservation.py:91-92).
- Spoilage.PredictRemainingHours: a storage method or band missing from a table that is not valid raises `KeyError` in the source. The model returns `MissingEntry` instead, and on valid data this case cannot occur.
- Spoilage.Estimate: the total, remaining hours, days and percentage are the unrounded values. The source rounds them to one decimal only in the returned dictionary, and decides risk and colour on the unrounded remaining hours, as the model does.
- Market.EvaluateAt: the evaluation holds the unrounded distance, loss, arriving load, revenue and pocket cash. It holds the fuel cost as the estimate to the paisa. The source rounds these only in the returned dictionary: the fuel cost to whole rupees (backend/agents/market_agent.py:77), the others to 0 or 1 decimal.
- Market.CalculatePocketCash: the storage method parameter is accepted and ignored, as in the source.
- Distance.TravelMinutes, Distance.EstimateTravelTime: both require a non-zero speed. At speed 0 the source raises `ZeroDivisionError`, which no caller triggers (every caller passes 30 km/h).
- Formatter.ParseRemainingHours: the matched number is read as an exact decimal. Python's `float()` reads it as the nearest binary float.
- Formatter.FindHours: the model's scanner reads the longest run of digits, an optional point and digits, then spaces, then "hour". This matches what the backtracking regex `\d+\.?\d*\s*hours?` finds at the same start.
- Stats.RequestStats.GetSummary: uptime is `Trunc` of the clock difference, which is Python's `int()`. The clock is a parameter, and the uptime bounds are stated only for a clock that has not gone backwards.
- `SimpleCache.make_key` (JSON serialisation and an MD5 digest) is not modelled. Keys are arbitrary strings.
- Cache.SimpleCache.Get: timestamps are real clock readings, and the lifetime is whole seconds, as in the source.
- The global instances `stats = RequestStats()` and `agent_cache = SimpleCache(ttl_seconds=300)` are not modelled as globals. `Cache.DefaultTtlSeconds` is the 300-second lifetime.
- `check_spoilage_with_weather` and backend/tools/weather.py are not modelled: they make HTTP calls to a weather service.
- The agents' LLM plumbing is not modelled: prompt building, tool registration, the `@tool` wrappers, the explanation tool and the intent router. Nor are the HTTP routes, voice handling, the database models, demo seeding or settings. All of these are I/O or configuration, outside the decision logic.
- Python's dictionaries as results are not modelled: entries that merely copy a table row ("entry = dict(m)") are datatypes holding the row. The source's table is never mutated, and the model's tables are immutable values.
