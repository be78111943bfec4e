/** The client's history rules: the view model's health score and summary
    for an analysis, and the history screen's own score, identifier parsing,
    summary line and badge colour. */
module History {
  import opened Values
  import opened Text

  // ---------------------------------------------------------------------
  // HistoryViewModel
  // ---------------------------------------------------------------------

  /** The fields of an analysis history item that the rules read. */
  datatype HistoryItem = HistoryItem(
    hasEczema: bool,
    eczemaLevel: Option<string>,
    hasAcne: bool,
    acneLevel: Option<string>,
    hasRosacea: bool,
    rosaceaLevel: Option<string>,
    isNormal: bool)

  /** `calculateSeverityPenalty`: the level, lower-cased, names the penalty. */
  function SeverityPenalty(level: Option<string>): (p: int)
    ensures p == 0 || p == 5 || p == 10 || p == 20
    ensures level.None? ==> p == 0
  {
    if level.None? then 0
    else
      var l := ToLower(level.value);
      if l == "düşük" || l == "low" then 5
      else if l == "orta" || l == "moderate" || l == "medium" then 10
      else if l == "yüksek" || l == "high" then 20
      else 0
  }

  /** The level names are matched without regard to case. */
  lemma PenaltyIgnoresCase(level: string)
    ensures SeverityPenalty(Some(level)) == SeverityPenalty(Some(ToLower(level)))
  {
    ToLowerIdempotent(level);
  }

  /** The whole `when` table: each of the seven level names, in any casing,
      gets its penalty, and every other level gets 0. */
  lemma PenaltyTable(level: string)
    ensures SeverityPenalty(Some(level)) == 5 <==> ToLower(level) in {"düşük", "low"}
    ensures SeverityPenalty(Some(level)) == 10 <==> ToLower(level) in {"orta", "moderate", "medium"}
    ensures SeverityPenalty(Some(level)) == 20 <==> ToLower(level) in {"yüksek", "high"}
    ensures SeverityPenalty(Some(level)) == 0 <==>
      ToLower(level) !in {"düşük", "low", "orta", "moderate", "medium", "yüksek", "high"}
  {
  }

  /** The names in capitals, including the Turkish ones. */
  lemma PenaltyTableCapitals()
    ensures SeverityPenalty(Some("DÜŞÜK")) == 5
    ensures SeverityPenalty(Some("Low")) == 5
    ensures SeverityPenalty(Some("Orta")) == 10
    ensures SeverityPenalty(Some("MODERATE")) == 10
    ensures SeverityPenalty(Some("Medium")) == 10
    ensures SeverityPenalty(Some("YÜKSEK")) == 20
    ensures SeverityPenalty(Some("HIGH")) == 20
    ensures SeverityPenalty(Some("Hafif")) == 0
  {
    assert ToLower("DÜŞÜK") == "düşük";
    assert ToLower("Low") == "low";
    assert ToLower("Orta") == "orta";
    assert ToLower("MODERATE") == "moderate";
    assert ToLower("Medium") == "medium";
    assert ToLower("YÜKSEK") == "yüksek";
    assert ToLower("HIGH") == "high";
    assert ToLower("Hafif") == "hafif";
  }

  /** Sum of the penalties of the flagged conditions. */
  function TotalPenalty(item: HistoryItem): (t: int)
    ensures 0 <= t <= 60
  {
    (if item.hasAcne then SeverityPenalty(item.acneLevel) else 0)
    + (if item.hasEczema then SeverityPenalty(item.eczemaLevel) else 0)
    + (if item.hasRosacea then SeverityPenalty(item.rosaceaLevel) else 0)
  }

  /** Kotlin `coerceIn(lo, hi)`. */
  function CoerceIn(x: int, lo: int, hi: int): (r: int)
    requires lo <= hi
    ensures lo <= r <= hi
    ensures lo <= x <= hi ==> r == x
  {
    if x < lo then lo else if x > hi then hi else x
  }

  /** The score as a rule: 100 minus the penalties, except that an item that
      is not normal but has no penalty scores 85. */
  function Score(item: HistoryItem): int
  {
    if TotalPenalty(item) == 0 && !item.isNormal then 85 else 100 - TotalPenalty(item)
  }

  /** `calculateScore`: one subtraction per flagged condition, the general
      penalty, then the clamp. */
  method CalculateScore(item: HistoryItem) returns (r: int)
    ensures r == Score(item)
    ensures 0 <= r <= 100
  {
    var score := 100;
    if item.hasAcne { score := score - SeverityPenalty(item.acneLevel); }
    if item.hasEczema { score := score - SeverityPenalty(item.eczemaLevel); }
    if item.hasRosacea { score := score - SeverityPenalty(item.rosaceaLevel); }
    if !item.isNormal && score == 100 { score := 85; }
    r := CoerceIn(score, 0, 100);
  }

  /** The score lies in [40, 100] (so the clamp never acts); with no penalty
      it is 100 for a normal item and 85 otherwise. */
  lemma ScoreProps(item: HistoryItem)
    ensures 40 <= Score(item) <= 100
    ensures TotalPenalty(item) == 0 ==> Score(item) == (if item.isNormal then 100 else 85)
    ensures TotalPenalty(item) > 0 ==> Score(item) == 100 - TotalPenalty(item)
  {
  }

  /** The conditions flagged, in the order acne, eczema, rosacea. */
  function Issues(item: HistoryItem): (issues: seq<string>)
    ensures |issues| <= 3
    ensures "Akne" in issues <==> item.hasAcne
    ensures "Egzama" in issues <==> item.hasEczema
    ensures "Rozase" in issues <==> item.hasRosacea
  {
    (if item.hasAcne then ["Akne"] else [])
    + (if item.hasEczema then ["Egzama"] else [])
    + (if item.hasRosacea then ["Rozase"] else [])
  }

  const NormalSummary: string := "Normal cilt durumu"
  const DetectedSuffix: string := " tespit edildi"

  function Summary(item: HistoryItem): string
  {
    if |Issues(item)| == 0 then NormalSummary else JoinWith(Issues(item), ", ") + DetectedSuffix
  }

  /** `generateSummary`: the issues are collected one by one. */
  method GenerateSummary(item: HistoryItem) returns (r: string)
    ensures r == Summary(item)
  {
    var issues: seq<string> := [];
    if item.hasAcne { issues := issues + ["Akne"]; }
    if item.hasEczema { issues := issues + ["Egzama"]; }
    if item.hasRosacea { issues := issues + ["Rozase"]; }
    assert issues == Issues(item);
    if |issues| == 0 {
      r := NormalSummary;
    } else {
      r := JoinWith(issues, ", ") + DetectedSuffix;
    }
  }

  /** The summary is the normal-skin sentence exactly when no condition is
      flagged; otherwise it is the flagged conditions, in the order acne,
      eczema, rosacea, joined by ", " and followed by " tespit edildi". */
  lemma SummaryProps(item: HistoryItem)
    ensures Summary(item) == NormalSummary <==> !item.hasAcne && !item.hasEczema && !item.hasRosacea
    ensures Issues(item) != [] ==> Summary(item) == JoinWith(Issues(item), ", ") + DetectedSuffix
    ensures Issues(item) == (if item.hasAcne then ["Akne"] else []) + (if item.hasEczema then ["Egzama"] else [])
      + (if item.hasRosacea then ["Rozase"] else [])
    ensures Issues(item) != [] ==>
      (|Summary(item)| >= |DetectedSuffix| && Summary(item)[|Summary(item)| - |DetectedSuffix|..] == DetectedSuffix)
  {
    var s := Summary(item);
    if Issues(item) != [] {
      var head := JoinWith(Issues(item), ", ");
      assert s == head + DetectedSuffix;
      assert s[|s| - |DetectedSuffix|..] == DetectedSuffix;
      assert NormalSummary[|NormalSummary| - 1] == 'u';
      assert s[|s| - 1] == 'i';
    }
  }

  /** With acne and rosacea flagged the summary reads "Akne, Rozase tespit edildi". */
  lemma SummaryExample()
    ensures Summary(HistoryItem(false, None, true, None, true, None, false)) == "Akne, Rozase tespit edildi"
  {
    assert Issues(HistoryItem(false, None, true, None, true, None, false)) == ["Akne", "Rozase"];
  }

  // ---------------------------------------------------------------------
  // HistoryScreen
  // ---------------------------------------------------------------------

  /** A history item as the screen receives it: the flags may be null. */
  datatype ScreenItem = ScreenItem(
    id: string,
    hasEczema: Option<bool>,
    hasAcne: Option<bool>,
    hasRosacea: Option<bool>,
    isNormal: Option<bool>)

  /** `x ?: false`. */
  function Flag(b: Option<bool>): bool
  {
    b.GetOr(false)
  }

  /** The screen's `when` score; the final `else -> 75` arm is kept. */
  function ScreenScore(item: ScreenItem): (s: int)
  {
    if item.isNormal == Some(true) then 95
    else if !Flag(item.hasEczema) && !Flag(item.hasAcne) && !Flag(item.hasRosacea) then 90
    else if Flag(item.hasEczema) && Flag(item.hasAcne) then 70
    else if Flag(item.hasEczema) || Flag(item.hasAcne) || Flag(item.hasRosacea) then 80
    else 75
  }

  /** The 75 arm is unreachable; a normal item scores 95, one with no flag
      (nulls counting as false) 90, eczema with acne 70, any other flag 80. */
  lemma ScreenScoreCases(item: ScreenItem)
    ensures ScreenScore(item) != 75
    ensures item.isNormal == Some(true) ==> ScreenScore(item) == 95
    ensures item.isNormal != Some(true) && !Flag(item.hasEczema) && !Flag(item.hasAcne) && !Flag(item.hasRosacea) ==>
      ScreenScore(item) == 90
    ensures item.isNormal != Some(true) && Flag(item.hasEczema) && Flag(item.hasAcne) ==> ScreenScore(item) == 70
    ensures (item.isNormal != Some(true) && !(Flag(item.hasEczema) && Flag(item.hasAcne))
             && (Flag(item.hasEczema) || Flag(item.hasAcne) || Flag(item.hasRosacea))) ==> ScreenScore(item) == 80
  {
  }

  /** `id.toIntOrNull() ?: 0`. */
  function ParseId(id: string): (n: int)
    ensures (forall i :: 0 <= i < |id| ==> !IsDecimalDigit(id[i])) ==> n == 0
    ensures IntMin <= n <= IntMax
  {
    ToIntOrNull(id).GetOr(0)
  }

  /** A sign and decimal digits are read as their value when it fits in an
      `Int`, and as 0 when it does not; any other identifier is 0. */
  lemma ParseIdValue(id: string, sign: string, digits: string)
    requires sign == "" || sign == "+" || sign == "-"
    requires |digits| > 0 && AllDigits(digits, 10)
    ensures var v := WithSign(sign, DigitsValue(digits, 10));
      ParseId(sign + digits) == if IntMin <= v <= IntMax then v else 0
    ensures !SignedDigits(id) ==> ParseId(id) == 0
  {
    ToIntOrNullValue(sign, digits);
    ToIntOrNullShape(id);
  }

  /** Four identifiers read. */
  lemma ParseIdExamples()
    ensures ParseId("42") == 42
    ensures ParseId("-7") == -7
    ensures ParseId("4a") == 0
    ensures ParseId("") == 0
  {
    assert DigitsValue("42", 10) == 42 by {
      assert "42"[..1] == "4";
      assert "4"[..0] == "";
    }
    assert DigitsValue("7", 10) == 7 by { assert "7"[..0] == ""; }
    assert ParseId("42") == 42 by {
      ParseIdValue("", "", "42");
      assert "" + "42" == "42";
    }
    assert ParseId("-7") == -7 by {
      ParseIdValue("", "-", "7");
      assert "-" + "7" == "-7";
    }
    assert ParseId("4a") == 0 by {
      ParseIdValue("4a", "", "7");
      assert !IsDecimalDigit("4a"[1]);
    }
  }

  /** The flags the screen keeps for an entry (nulls become false). */
  datatype ConditionFlags = ConditionFlags(hasEczema: bool, hasAcne: bool, hasRosacea: bool, isNormal: bool)

  datatype ScreenEntry = ScreenEntry(id: int, flags: ConditionFlags, score: int)

  function Convert(item: ScreenItem): ScreenEntry
  {
    ScreenEntry(
      ParseId(item.id),
      ConditionFlags(Flag(item.hasEczema), Flag(item.hasAcne), Flag(item.hasRosacea), Flag(item.isNormal)),
      ScreenScore(item))
  }

  /** The screen's list: every item converted, in order. */
  function ConvertAll(items: seq<ScreenItem>): (r: seq<ScreenEntry>)
    ensures |r| == |items|
    ensures forall k :: 0 <= k < |items| ==> r[k] == Convert(items[k])
  {
    seq(|items|, k requires 0 <= k < |items| => Convert(items[k]))
  }

  /** `conditionSummary`: the first matching arm wins. */
  function ConditionSummary(f: ConditionFlags): (s: string)
  {
    if f.isNormal then "Normal cilt durumu"
    else if f.hasEczema && f.hasAcne then "Egzama ve Akne tespit edildi"
    else if f.hasEczema then "Egzama tespit edildi"
    else if f.hasAcne then "Akne seviyesinde düşüş"
    else if f.hasRosacea then "İlk Analiz"
    else "Nem oranı arttı"
  }

  /** The priority normal > eczema with acne > eczema > acne > rosacea > default. */
  lemma ConditionSummaryPriority(f: ConditionFlags)
    ensures f.isNormal ==> ConditionSummary(f) == "Normal cilt durumu"
    ensures !f.isNormal && f.hasEczema && f.hasAcne ==> ConditionSummary(f) == "Egzama ve Akne tespit edildi"
    ensures !f.isNormal && f.hasEczema && !f.hasAcne ==> ConditionSummary(f) == "Egzama tespit edildi"
    ensures !f.isNormal && !f.hasEczema && f.hasAcne ==> ConditionSummary(f) == "Akne seviyesinde düşüş"
    ensures !f.isNormal && !f.hasEczema && !f.hasAcne && f.hasRosacea ==> ConditionSummary(f) == "İlk Analiz"
    ensures !f.isNormal && !f.hasEczema && !f.hasAcne && !f.hasRosacea ==> ConditionSummary(f) == "Nem oranı arttı"
  {
  }

  datatype Badge = Green | Orange | Red

  /** The score badge: green from 90, orange from 80, red below. */
  function BadgeFor(score: int): (b: Badge)
    ensures b == Green <==> score >= 90
    ensures b == Orange <==> 80 <= score < 90
    ensures b == Red <==> score < 80
  {
    if score >= 90 then Green else if score >= 80 then Orange else Red
  }

  /** On the screen, normal and unflagged entries are green, eczema with
      acne is red, and any other flagged entry is orange. */
  lemma BadgeOfEntry(item: ScreenItem)
    ensures var e := Convert(item);
      && (item.isNormal == Some(true) ==> BadgeFor(e.score) == Green)
      && (item.isNormal != Some(true) ==>
            (BadgeFor(e.score) == Green <==> !e.flags.hasEczema && !e.flags.hasAcne && !e.flags.hasRosacea))
      && (item.isNormal != Some(true) ==>
            (BadgeFor(e.score) == Red <==> e.flags.hasEczema && e.flags.hasAcne))
  {
    ScreenScoreCases(item);
  }
}
