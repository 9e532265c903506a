/**
 * Turning an agent's free-text answer into the card the mobile app shows
 * (backend/orchestrator/formatter.py). The two regular-expression searches are written out as
 * scanners over ASCII text.
 */
module Formatter {
  import opened Basics
  import opened Numeric
  import opened Text
  import Spoilage
  import Harvest

  /** The request fields the cards copy; a field the request lacks is `None`. */
  datatype UserData = UserData(crop: Option<string>, volumeKg: Option<real>, storageMethod: Option<string>)

  // ---------------------------------------------------------------------------------------
  // The score search `(\d{1,3})/100`
  // ---------------------------------------------------------------------------------------

  predicate AllDigits(t: string) {
    forall m :: 0 <= m < |t| ==> IsDigit(t[m])
  }

  /** `k` digits start at position `i` and are followed at once by "/100". */
  predicate ScoreMatch(s: string, i: int, k: int) {
    1 <= k <= 3 && 0 <= i && i + k <= |s| && AllDigits(s[i..i + k]) && OccursAt(s, "/100", i + k)
  }

  /** The length of the digit run the search takes at `i` (the longest of 3, 2 or 1 that is
      followed by "/100"), or 0 when no match starts there. */
  function ScoreLenAt(s: string, i: int): (k: int)
    ensures k != 0 ==> ScoreMatch(s, i, k) && forall k' :: k < k' ==> !ScoreMatch(s, i, k')
    ensures k == 0 <==> forall k' :: !ScoreMatch(s, i, k')
  {
    if ScoreMatch(s, i, 3) then 3 else if ScoreMatch(s, i, 2) then 2 else if ScoreMatch(s, i, 1) then 1 else 0
  }

  /** The leftmost position at or after `from` where a score match starts, with its length. */
  function FindScore(s: string, from: nat): (r: Option<(nat, nat)>)
    ensures r.Some? ==> 1 <= r.value.1 <= 3 && r.value.0 + r.value.1 <= |s|
    ensures r.Some? ==> from <= r.value.0 && r.value.1 == ScoreLenAt(s, r.value.0) && r.value.1 != 0
    ensures r.Some? ==> forall i :: from <= i < r.value.0 ==> ScoreLenAt(s, i) == 0
    ensures r.None? ==> forall i :: from <= i ==> ScoreLenAt(s, i) == 0
    decreases |s| - from
  {
    if from >= |s| then None
    else if ScoreLenAt(s, from) != 0 then Some((from, ScoreLenAt(s, from)))
    else FindScore(s, from + 1)
  }

  const DefaultHarvestScore: nat := 65

  /** The score the harvest card shows: the digits of the leftmost match, or 65 without one.
      It is not clamped to 100. */
  function ParseScore(text: string): (score: nat)
    ensures score <= 999
    ensures FindScore(text, 0).None? ==> score == DefaultHarvestScore
    ensures FindScore(text, 0).Some? ==>
      var (i, k) := FindScore(text, 0).value;
      score == DigitsValue(text[i..i + k])
  {
    match FindScore(text, 0)
    case None => DefaultHarvestScore
    case Some((i, k)) =>
      Pow10AtMost3(k);
      DigitsValue(text[i..i + k])
  }

  datatype HarvestAction = HarvestNowAction | WaitAction | DoNotHarvest

  datatype Urgency = Safe | Attention | Urgent

  /** The card types the app knows. */
  datatype Card =
    | HarvestScoreCard(score: nat, color: Color, action: HarvestAction, explanationText: string,
                       crop: Option<string>, showVoiceButton: bool)
    | MarketComparison(explanationText: string, crop: Option<string>, volumeKg: Option<real>,
                       showVoiceButton: bool)
    | SpoilageTimer(remainingHours: real, remainingDays: real, color: Color, urgency: Urgency,
                    hasWeatherAlert: bool, vibratePhone: bool, explanationText: string,
                    showVoiceButton: bool)
    | PreservationList(explanationText: string, crop: Option<string>, currentStorage: Option<string>,
                       showVoiceButton: bool)

  /** `format_harvest_response`: the same 80 / 50 colour bands as the harvest score itself. */
  function FormatHarvestResponse(rawExplanation: string, userData: UserData): (c: Card)
    ensures c.HarvestScoreCard? && c.score == ParseScore(rawExplanation)
    ensures c.color == Harvest.ScoreColor(c.score)
    ensures c.action == HarvestNowAction <==> c.score >= 80
    ensures c.action == WaitAction <==> 50 <= c.score < 80
    ensures c.action == DoNotHarvest <==> c.score < 50
    ensures c.explanationText == rawExplanation && c.crop == userData.crop && c.showVoiceButton
  {
    var score := ParseScore(rawExplanation);
    var action := if score >= 80 then HarvestNowAction else if score >= 50 then WaitAction else DoNotHarvest;
    HarvestScoreCard(score, Harvest.ScoreColor(score), action, rawExplanation, userData.crop, true)
  }

  /** `format_market_response`. */
  function FormatMarketResponse(rawExplanation: string, userData: UserData): (c: Card)
    ensures c.MarketComparison? && c.explanationText == rawExplanation
    ensures c.crop == userData.crop && c.volumeKg == userData.volumeKg && c.showVoiceButton
  {
    MarketComparison(rawExplanation, userData.crop, userData.volumeKg, true)
  }

  /** `format_preservation_response`: the request's storage method is the current storage. */
  function FormatPreservationResponse(rawExplanation: string, userData: UserData): (c: Card)
    ensures c.PreservationList? && c.explanationText == rawExplanation
    ensures c.crop == userData.crop && c.currentStorage == userData.storageMethod && c.showVoiceButton
  {
    PreservationList(rawExplanation, userData.crop, userData.storageMethod, true)
  }

  // ---------------------------------------------------------------------------------------
  // The hours search `(\d+\.?\d*)\s*hours?`, ignoring case
  // ---------------------------------------------------------------------------------------

  /** The end of the run of digits that starts at `j` (what it spans: `DigitRunDigits`). */
  function DigitRunEnd(s: string, j: nat): (k: nat)
    requires j <= |s|
    ensures j <= k <= |s| && (k == |s| || !IsDigit(s[k]))
    decreases |s| - j
  {
    if j < |s| && IsDigit(s[j]) then DigitRunEnd(s, j + 1) else j
  }

  /** The run the scanner finds is made of digits. */
  lemma {:induction false} DigitRunDigits(s: string, j: nat)
    requires j <= |s|
    ensures forall m :: j <= m < DigitRunEnd(s, j) ==> IsDigit(s[m])
    ensures AllDigits(s[j..DigitRunEnd(s, j)])
    decreases |s| - j
  {
    if j < |s| && IsDigit(s[j]) {
      DigitRunDigits(s, j + 1);
    }
    var k := DigitRunEnd(s, j);
    forall m | 0 <= m < k - j ensures IsDigit(s[j..k][m]) {
      assert s[j..k][m] == s[j + m];
    }
  }

  /** The end of the run of white space that starts at `j` (what it spans: `SpaceRunSpaces`). */
  function SpaceRunEnd(s: string, j: nat): (k: nat)
    requires j <= |s|
    ensures j <= k <= |s| && (k == |s| || !IsSpace(s[k]))
    decreases |s| - j
  {
    if j < |s| && IsSpace(s[j]) then SpaceRunEnd(s, j + 1) else j
  }

  /** The run the scanner finds is made of white space. */
  lemma {:induction false} SpaceRunSpaces(s: string, j: nat)
    requires j <= |s|
    ensures forall m :: j <= m < SpaceRunEnd(s, j) ==> IsSpace(s[m])
    decreases |s| - j
  {
    if j < |s| && IsSpace(s[j]) {
      SpaceRunSpaces(s, j + 1);
    }
  }

  /** The number a string of digits, a point and more digits denotes. */
  function DecimalValue(intPart: string, fracPart: string): (v: real)
    requires AllDigits(intPart) && AllDigits(fracPart)
    ensures DigitsValue(intPart) as real <= v < DigitsValue(intPart) as real + 1.0
  {
    var n, p := DigitsValue(fracPart), Pow10(|fracPart|);
    FractionBelowOne(n, p);
    DigitsValue(intPart) as real + n as real / p as real
  }

  /** The word "hour" in any case at `d` (what `re.IGNORECASE` makes of `hour`). */
  predicate HourWordAt(s: string, d: nat) {
    && d + 4 <= |s|
    && LowerChar(s[d]) == 'h' && LowerChar(s[d + 1]) == 'o'
    && LowerChar(s[d + 2]) == 'u' && LowerChar(s[d + 3]) == 'r'
  }

  /**
   * The pattern `(\d+\.?\d*)\s*hours?` matches at `i` with this split: digits on [i, a), the
   * point, if any, on [a, b), digits on [b, c), white space on [c, d), and then "hour" in any
   * case (the optional "s" never decides whether the search succeeds).
   */
  predicate HoursMatch(s: string, i: nat, a: nat, b: nat, c: nat, d: nat) {
    && i < a <= b <= c <= d && HourWordAt(s, d)
    && AllDigits(s[i..a])
    && (b == a || (b == a + 1 && s[a] == '.'))
    && AllDigits(s[b..c])
    && (forall m :: c <= m < d ==> IsSpace(s[m]))
  }

  /** What `float()` reads from the group s[i..c] of such a split: without a point, both runs of
      digits together form the whole number. */
  function MatchValue(s: string, i: nat, a: nat, b: nat, c: nat): real
    requires i <= a <= b <= c <= |s| && AllDigits(s[i..a]) && AllDigits(s[b..c]) && (b == a || b == a + 1)
  {
    if b == a then
      DigitsJoin(s, i, a, c);
      DecimalValue(s[i..c], "")
    else DecimalValue(s[i..a], s[b..c])
  }

  lemma DigitsJoin(s: string, i: nat, a: nat, c: nat)
    requires i <= a <= c <= |s| && AllDigits(s[i..a]) && AllDigits(s[a..c])
    ensures AllDigits(s[i..c])
  {
    forall m | 0 <= m < c - i ensures IsDigit(s[i..c][m]) {
      if m < a - i {
        assert s[i..c][m] == s[i..a][m];
      } else {
        assert s[i..c][m] == s[a..c][m - (a - i)];
      }
    }
  }

  /**
   * The number matched by a search that starts at `i`, if one does. Greedy matching of the
   * pattern cannot succeed by giving characters back (a shorter digit run leaves a digit where
   * the point, the white space or "h" must follow), so one forward parse decides the match:
   * digits, an optional point, digits, white space, then "hour" in any case.
   */
  function HoursAt(s: string, i: nat): (r: Option<real>)
    ensures r.Some? ==> r.value >= 0.0
    ensures r.Some? ==> i < |s| && IsDigit(s[i])
  {
    if !(i < |s| && IsDigit(s[i])) then None
    else
      var a := DigitRunEnd(s, i);
      var b := if a < |s| && s[a] == '.' then a + 1 else a;
      var c := DigitRunEnd(s, b);
      var d := SpaceRunEnd(s, c);
      if HourWordAt(s, d) then
        DigitRunDigits(s, i);
        DigitRunDigits(s, b);
        Some(DecimalValue(s[i..a], s[b..c]))
      else None
  }

  /** The leftmost position at or after `from` where a match starts (the lemmas below state
      that every position before it fails and that the first match is the one found). */
  function FindHours(s: string, from: nat): (r: Option<nat>)
    ensures r.Some? ==> from <= r.value && HoursAt(s, r.value).Some?
    decreases |s| - from
  {
    if from >= |s| then None
    else if HoursAt(s, from).Some? then Some(from)
    else FindHours(s, from + 1)
  }

  /** No match starts at a position the search passes over, nor anywhere when it finds none. */
  lemma {:induction false} FindHoursSkips(s: string, from: nat, j: nat)
    requires from <= j
    requires FindHours(s, from).None? || j < FindHours(s, from).value
    ensures HoursAt(s, j).None?
    decreases j - from
  {
    if from < j && j < |s| {
      FindHoursSkips(s, from + 1, j);
    }
  }

  /** A match at `i` with none between `from` and `i` is the one the search finds. */
  lemma {:induction false} FindHoursFirst(s: string, from: nat, i: nat)
    requires from <= i && HoursAt(s, i).Some?
    requires forall j :: from <= j < i ==> HoursAt(s, j).None?
    ensures FindHours(s, from) == Some(i)
    decreases i - from
  {
    if from < i {
      FindHoursFirst(s, from + 1, i);
    }
  }

  /** A text in which no match starts at or after `from` makes the search find none. */
  lemma {:induction false} FindHoursNone(s: string, from: nat)
    requires forall j :: from <= j ==> HoursAt(s, j).None?
    ensures FindHours(s, from).None?
    decreases |s| - from
  {
    if from < |s| {
      FindHoursNone(s, from + 1);
    }
  }

  /** What the forward parse finds is a split at which the pattern matches, with its number. */
  lemma HoursAtSound(s: string, i: nat)
    ensures HoursAt(s, i).Some? ==>
      exists a, b, c, d :: HoursMatch(s, i, a, b, c, d) && HoursAt(s, i).value == MatchValue(s, i, a, b, c)
  {
    if HoursAt(s, i).Some? {
      var a := DigitRunEnd(s, i);
      var b := if a < |s| && s[a] == '.' then a + 1 else a;
      var c := DigitRunEnd(s, b);
      var d := SpaceRunEnd(s, c);
      assert HourWordAt(s, d);
      ParsedSplitMatches(s, i, a, b, c, d);
      assert HoursAt(s, i).value == DecimalValue(s[i..a], s[b..c]);
    }
  }

  /** The split the forward parse takes is a match, and its number is the parse's number. */
  lemma ParsedSplitMatches(s: string, i: nat, a: nat, b: nat, c: nat, d: nat)
    requires i < |s| && IsDigit(s[i]) && a == DigitRunEnd(s, i)
    requires b == if a < |s| && s[a] == '.' then a + 1 else a
    requires c == DigitRunEnd(s, b) && d == SpaceRunEnd(s, c)
    requires HourWordAt(s, d)
    ensures HoursMatch(s, i, a, b, c, d)
    ensures MatchValue(s, i, a, b, c) == DecimalValue(s[i..a], s[b..c])
  {
    DigitRunDigits(s, i);
    DigitRunDigits(s, b);
    SpaceRunSpaces(s, c);
    if b == a {
      assert c == a && s[b..c] == "";
    }
  }

  /** Every split at which the pattern matches is found by the forward parse, with the same
      number: the search at `i` succeeds exactly when some split matches there. */
  lemma HoursMatchFound(s: string, i: nat, a: nat, b: nat, c: nat, d: nat)
    requires HoursMatch(s, i, a, b, c, d)
    ensures HoursAt(s, i) == Some(MatchValue(s, i, a, b, c))
  {
    SlicedDigits(s, i, a);
    SlicedDigits(s, b, c);
    SpacesEnd(s, c, d);
    if b == a {
      MatchFoundNoPoint(s, i, a, c, d);
    } else {
      DigitsEnd(s, i, a);
      DigitsEnd(s, b, c);
      assert HoursAt(s, i) == Some(DecimalValue(s[i..a], s[b..c]));
    }
  }

  /** Without a point, the whole group is one run of digits that the parse reads at once. */
  lemma MatchFoundNoPoint(s: string, i: nat, a: nat, c: nat, d: nat)
    requires i < a <= c <= d && HourWordAt(s, d)
    requires forall m :: i <= m < a ==> IsDigit(s[m])
    requires forall m :: a <= m < c ==> IsDigit(s[m])
    requires AllDigits(s[i..a]) && AllDigits(s[a..c])
    requires SpaceRunEnd(s, c) == d
    ensures HoursAt(s, i) == Some(MatchValue(s, i, a, a, c))
  {
    NotDigitBeforeHour(s, c, d);
    DigitsEnd(s, i, c);
    DigitsEnd(s, c, c);
    DigitsJoin(s, i, a, c);
    assert s[c..c] == "";
    assert HoursAt(s, i) == Some(DecimalValue(s[i..c], s[c..c]));
  }

  /** A character of a slice of digits is a digit of the string. */
  lemma SlicedDigits(s: string, j: nat, k: nat)
    requires j <= k <= |s| && AllDigits(s[j..k])
    ensures forall m :: j <= m < k ==> IsDigit(s[m])
  {
    forall m | j <= m < k ensures IsDigit(s[m]) {
      assert s[m] == s[j..k][m - j];
    }
  }

  /** Where white space from `c` runs up to the "h" of "hour", `s[c]` is neither a digit
      nor the point. */
  lemma NotDigitBeforeHour(s: string, c: nat, d: nat)
    requires c <= d < |s| && LowerChar(s[d]) == 'h' && SpaceRunEnd(s, c) == d
    ensures !IsDigit(s[c]) && s[c] != '.'
  {
    if c < d {
      assert IsSpace(s[c]);
    } else {
      assert s[c] == 'h' || s[c] == 'H';
    }
  }

  /** A run of digits from `j` that stops at `k` is the run the scanner finds. */
  lemma {:induction false} DigitsEnd(s: string, j: nat, k: nat)
    requires j <= k <= |s| && (k == |s| || !IsDigit(s[k]))
    requires forall m :: j <= m < k ==> IsDigit(s[m])
    ensures DigitRunEnd(s, j) == k
    decreases k - j
  {
    if j < k {
      DigitsEnd(s, j + 1, k);
    }
  }

  /** White space from `j` up to a letter at `k` is the run the scanner finds. */
  lemma {:induction false} SpacesEnd(s: string, j: nat, k: nat)
    requires j <= k < |s| && LowerChar(s[k]) == 'h'
    requires forall m :: j <= m < k ==> IsSpace(s[m])
    ensures SpaceRunEnd(s, j) == k
    decreases k - j
  {
    if j < k {
      SpacesEnd(s, j + 1, k);
    }
  }

  const DefaultRemainingHours: real := 24.0

  /** The words whose presence in the lower-cased text raises the weather alert. */
  const AlertWords: seq<string> := ["alert", "\U{26A0}\U{FE0F}", "heatwave", "warning"]

  predicate HasWeatherAlert(text: string) {
    exists w :: w in AlertWords && Contains(Lower(text), w)
  }

  /** The weather alert, as the formatter tests it: one word after another in the lower-cased text. */
  function AlertIn(text: string): (b: bool)
    ensures b <==> HasWeatherAlert(text)
  {
    var lowered := Lower(text);
    var b := Contains(lowered, AlertWords[0]) || Contains(lowered, AlertWords[1])
             || Contains(lowered, AlertWords[2]) || Contains(lowered, AlertWords[3]);
    assert b ==> HasWeatherAlert(text);
    assert HasWeatherAlert(text) ==> b by {
      if HasWeatherAlert(text) {
        var w :| w in AlertWords && Contains(lowered, w);
      }
    }
    b
  }

  /** The timer colour: the same 48 / 12 hour thresholds as the spoilage model's risk levels. */
  function TimerColor(remainingHours: real): (c: Color)
    ensures c == Green <==> remainingHours > 48.0
    ensures c == Yellow <==> 12.0 < remainingHours <= 48.0
    ensures c == Red <==> remainingHours <= 12.0
    ensures c == Spoilage.ColorOf(Spoilage.RiskOf(remainingHours))
  {
    if remainingHours > 48.0 then Green else if remainingHours > 12.0 then Yellow else Red
  }

  function UrgencyOf(c: Color): Urgency {
    match c
    case Green => Safe
    case Yellow => Attention
    case Red => Urgent
  }

  /** The hours figure of the text, 24 without one; never negative. */
  function ParseRemainingHours(text: string): (h: real)
    ensures h >= 0.0
    ensures FindHours(text, 0).None? ==> h == DefaultRemainingHours
    ensures FindHours(text, 0).Some? ==> Some(h) == HoursAt(text, FindHours(text, 0).value)
  {
    match FindHours(text, 0)
    case None => DefaultRemainingHours
    case Some(i) => HoursAt(text, i).value
  }

  /** The figure read is the number of the leftmost split at which the pattern matches. */
  lemma ParseRemainingHoursLeftmost(text: string, i: nat, a: nat, b: nat, c: nat, d: nat)
    requires HoursMatch(text, i, a, b, c, d)
    requires forall j: nat, a': nat, b': nat, c': nat, d': nat :: j < i ==> !HoursMatch(text, j, a', b', c', d')
    ensures ParseRemainingHours(text) == MatchValue(text, i, a, b, c)
  {
    HoursMatchFound(text, i, a, b, c, d);
    forall j: nat | j < i ensures HoursAt(text, j).None? {
      HoursAtSound(text, j);
    }
    FindHoursFirst(text, 0, i);
  }

  /** A text in which the pattern matches nowhere reads as 24 hours. */
  lemma ParseRemainingHoursDefault(text: string)
    requires forall j: nat, a: nat, b: nat, c: nat, d: nat :: !HoursMatch(text, j, a, b, c, d)
    ensures ParseRemainingHours(text) == DefaultRemainingHours
  {
    forall j: nat ensures HoursAt(text, j).None? {
      HoursAtSound(text, j);
    }
    FindHoursNone(text, 0);
  }

  /**
   * `format_spoilage_response`: the hours figure of the text, banded like the spoilage model;
   * the phone vibrates exactly when the card is red.
   */
  function FormatSpoilageResponse(rawExplanation: string, userData: UserData): (c: Card)
    ensures c.SpoilageTimer? && c.remainingHours == ParseRemainingHours(rawExplanation)
    ensures -0.05 < c.remainingDays - c.remainingHours / 24.0 <= 0.05
    ensures c.color == TimerColor(c.remainingHours) && c.urgency == UrgencyOf(c.color)
    ensures c.vibratePhone <==> c.color == Red
    ensures c.hasWeatherAlert <==> HasWeatherAlert(rawExplanation)
    ensures c.explanationText == rawExplanation && c.showVoiceButton
  {
    var remaining := ParseRemainingHours(rawExplanation);
    var color := TimerColor(remaining);
    RoundError(remaining / 24.0, 1);
    SpoilageTimer(remaining, RoundTo(remaining / 24.0, 1), color, UrgencyOf(color),
                  AlertIn(rawExplanation), color == Red, rawExplanation, true)
  }

  /** The four intents with a card of their own. */
  datatype Intent = HarvestIntent | MarketIntent | SpoilageIntent | PreservationIntent | OtherIntent

  function ParseIntent(intent: string): Intent {
    if intent == "HARVEST" then HarvestIntent
    else if intent == "MARKET" then MarketIntent
    else if intent == "SPOILAGE" then SpoilageIntent
    else if intent == "PRESERVATION" then PreservationIntent
    else OtherIntent
  }

  datatype Response = Response(success: bool, data: Card)

  /** `format_response`: the card for the intent, the harvest card for any other intent, and
      always a success. */
  function FormatResponse(intent: string, rawExplanation: string, userData: UserData): (r: Response)
    ensures r.success
    ensures intent == "MARKET" ==> r.data == FormatMarketResponse(rawExplanation, userData)
    ensures intent == "SPOILAGE" ==> r.data == FormatSpoilageResponse(rawExplanation, userData)
    ensures intent == "PRESERVATION" ==> r.data == FormatPreservationResponse(rawExplanation, userData)
    ensures intent !in {"MARKET", "SPOILAGE", "PRESERVATION"} ==>
      r.data == FormatHarvestResponse(rawExplanation, userData)
  {
    var card := match ParseIntent(intent)
      case MarketIntent => FormatMarketResponse(rawExplanation, userData)
      case SpoilageIntent => FormatSpoilageResponse(rawExplanation, userData)
      case PreservationIntent => FormatPreservationResponse(rawExplanation, userData)
      case _ => FormatHarvestResponse(rawExplanation, userData);
    Response(true, card)
  }

  /** "85/100" reads as 85. */
  lemma ScoreExample()
    ensures ParseScore("85/100") == 85
  {
    var s := "85/100";
    assert !ScoreMatch(s, 0, 3) by { assert s[0..3][2] == '/'; }
    assert ScoreMatch(s, 0, 2) by { assert s[0..2] == "85"; assert s[2..6] == "/100"; }
    assert DigitsValue("85") == 85 by {
      assert "85"[..1] == "8";
      assert DigitsValue("8") == 8 by { assert "8"[..0] == ""; }
    }
    assert s[0..2] == "85";
  }

  /** The search may start inside a longer run of digits: "1234/100" reads as 234. */
  lemma ScoreInsideLongerNumber()
    ensures ParseScore("1234/100") == 234
  {
    var s := "1234/100";
    assert ScoreLenAt(s, 0) == 0 by {
      assert !OccursAt(s, "/100", 3) by { assert s[3] == '4'; }
      assert !OccursAt(s, "/100", 2) by { assert s[2] == '3'; }
      assert !OccursAt(s, "/100", 1) by { assert s[1] == '2'; }
    }
    assert ScoreMatch(s, 1, 3) by { assert s[1..4] == "234"; assert s[4..8] == "/100"; }
    FindScoreLeftmost(s, 0, 1);
    assert DigitsValue("234") == 234 by {
      assert "234"[..2] == "23" && "23"[..1] == "2" && "2"[..0] == "";
    }
    assert s[1..4] == "234";
  }

  /** "36 Hours" reads as 36 hours: case is ignored and the plural is optional. */
  lemma HoursExample()
    ensures ParseRemainingHours("36 Hours") == 36.0
  {
    var s := "36 Hours";
    assert DigitRunEnd(s, 2) == 2;
    assert DigitRunEnd(s, 0) == 2 by { assert DigitRunEnd(s, 1) == 2; }
    assert SpaceRunEnd(s, 3) == 3;
    assert SpaceRunEnd(s, 2) == 3;
    assert HourWordAt(s, 3) by {
      assert s[3] == 'H' && LowerChar('H') == 'h';
    }
    assert DigitsValue("36") == 36 by {
      assert "36"[..1] == "3" && "3"[..0] == "";
    }
    assert s[0..2] == "36" && s[2..2] == "";
    assert HoursAt(s, 0) == Some(36.0);
  }

  /** The score search returns the match that starts first. */
  lemma {:induction false} FindScoreLeftmost(s: string, from: nat, i: nat)
    requires from <= i && ScoreLenAt(s, i) != 0
    requires forall j :: from <= j < i ==> ScoreLenAt(s, j) == 0
    ensures FindScore(s, from) == Some((i, ScoreLenAt(s, i)))
    decreases i - from
  {
    if from < i {
      FindScoreLeftmost(s, from + 1, i);
    }
  }

  lemma Pow10AtMost3(k: nat)
    requires k <= 3
    ensures Pow10(k) <= 1000
  {
    if k > 0 {
      Pow10AtMost3(k - 1);
    }
  }

  lemma FractionBelowOne(n: nat, p: nat)
    requires n < p
    ensures 0.0 <= n as real / p as real < 1.0
  {
    DivMonotone(0.0, n as real, p as real);
    DivStrict(n as real, p as real, p as real);
  }
}
