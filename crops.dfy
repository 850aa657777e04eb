/** The crop reference table and the two classifiers built on it: the stage of a crop in a month,
    and whether sowing is recommended now given an optional 7-day weather outlook. */
module Crops {
  import opened Wrappers
  import opened Strings

  datatype Season = Kharif | Rabi | Zaid | Annual

  /** The water-need class; it decides how much forecast rain sowing needs. */
  datatype WaterNeed = Low | Medium | High | VeryHigh

  /** An inclusive `[lo, hi]` pair, as in `durationDays` and `preferredTemperatureC`. */
  datatype Range = Range(lo: int, hi: int)

  datatype CropInfo = CropInfo(
    name: string,
    season: Season,
    sowingMonths: seq<int>,
    harvestingMonths: seq<int>,
    durationDays: Range,
    preferredTemperatureC: Range,
    waterNeed: WaterNeed)

  const Rice := CropInfo("Rice", Kharif, [6, 7], [10, 11], Range(120, 150), Range(20, 32), VeryHigh)
  const Wheat := CropInfo("Wheat", Rabi, [11, 12], [3, 4], Range(120, 140), Range(10, 25), Medium)
  const Maize := CropInfo("Maize", Kharif, [6, 7], [9, 10], Range(90, 110), Range(18, 27), Medium)
  const Cotton := CropInfo("Cotton", Kharif, [5, 6], [11, 1], Range(150, 180), Range(20, 35), Medium)
  const Soyabean := CropInfo("Soyabean", Kharif, [6, 7], [9, 10], Range(90, 110), Range(15, 30), Medium)
  const Mustard := CropInfo("Mustard", Rabi, [10, 11], [2, 3], Range(110, 130), Range(10, 25), Low)
  const Gram := CropInfo("Gram", Rabi, [10, 11], [2, 3], Range(110, 130), Range(10, 25), Low)

  /** The static table `CROPS`, in its declared order (lookups return the first match). */
  const Table: seq<CropInfo> := [Rice, Wheat, Maize, Cotton, Soyabean, Mustard, Gram]

  // ---------------------------------------------------------------------------------------------
  // Table invariants

  predicate IsMonth(m: int) { 1 <= m <= 12 }

  /** A month window: non-empty, every entry a calendar month. */
  predicate ValidWindow(ms: seq<int>) {
    |ms| > 0 && forall i :: 0 <= i < |ms| ==> IsMonth(ms[i])
  }

  predicate IsAsciiLetter(c: char) { 'A' <= c <= 'Z' || 'a' <= c <= 'z' }

  /** A non-empty name of ASCII letters. */
  predicate IsWord(s: string) {
    |s| > 0 && forall i :: 0 <= i < |s| ==> IsAsciiLetter(s[i])
  }

  predicate ValidCrop(c: CropInfo) {
    && IsWord(c.name)
    && ValidWindow(c.sowingMonths)
    && ValidWindow(c.harvestingMonths)
    && c.durationDays.lo <= c.durationDays.hi
    && c.preferredTemperatureC.lo <= c.preferredTemperatureC.hi
  }

  /** No two crops share a name once both are lower-cased. */
  predicate NamesUnique(t: seq<CropInfo>) {
    forall i, j :: 0 <= i < j < |t| ==> Lower(t[i].name) != Lower(t[j].name)
  }

  predicate ValidTable(t: seq<CropInfo>) {
    (forall i :: 0 <= i < |t| ==> ValidCrop(t[i])) && NamesUnique(t)
  }

  /** Lower-cased, the names differ already in their first two letters. */
  const NameKeys: seq<string> := ["ri", "wh", "ma", "co", "so", "mu", "gr"]

  lemma NameKeysOfTable()
    ensures forall i :: 0 <= i < |Table| ==> |Table[i].name| >= 2 && Lower(Table[i].name)[..2] == NameKeys[i]
  {
    forall i | 0 <= i < |Table| ensures |Table[i].name| >= 2 && Lower(Table[i].name)[..2] == NameKeys[i] {
      var n := Table[i].name;
      var key := [LowerChar(n[0]), LowerChar(n[1])];
      assert Lower(n)[..2] == key;
      assert key == NameKeys[i] by { LowerHeads(i); }
    }
  }

  lemma LowerHeads(i: nat)
    requires i < |Table|
    ensures |Table[i].name| >= 2 && [LowerChar(Table[i].name[0]), LowerChar(Table[i].name[1])] == NameKeys[i]
  {
    assert LowerChar('R') == 'r' && LowerChar('W') == 'w' && LowerChar('M') == 'm' && LowerChar('C') == 'c';
    assert LowerChar('S') == 's' && LowerChar('G') == 'g';
  }

  lemma NamesAreWords()
    ensures forall i :: 0 <= i < |Table| ==> IsWord(Table[i].name)
  {
    assert IsWord(Rice.name) && IsWord(Wheat.name) && IsWord(Maize.name) && IsWord(Cotton.name);
    assert IsWord(Soyabean.name) && IsWord(Mustard.name) && IsWord(Gram.name);
  }

  lemma CropsAreValid()
    ensures forall i :: 0 <= i < |Table| ==> ValidCrop(Table[i])
  {
    NamesAreWords();
  }

  lemma NameKeysDistinct()
    ensures forall i, j :: 0 <= i < j < |NameKeys| ==> NameKeys[i] != NameKeys[j]
  {
  }

  /** The invariants of `CROPS`: months in 1..12, non-empty windows, ordered ranges, unique names. */
  lemma TableIsValid()
    ensures ValidTable(Table)
  {
    CropsAreValid();
    NameKeysOfTable();
    NameKeysDistinct();
    forall i, j | 0 <= i < j < |Table| ensures Lower(Table[i].name) != Lower(Table[j].name) {
      assert Lower(Table[i].name)[..2] != Lower(Table[j].name)[..2];
    }
  }

  // ---------------------------------------------------------------------------------------------
  // getCropByName

  /** `table.find(c => c.name.toLowerCase() === norm)`: the first crop whose lower-cased name is `norm`. */
  function FindByLowerName(table: seq<CropInfo>, norm: string): (r: Option<CropInfo>)
    ensures r.Some? ==> exists i :: 0 <= i < |table| && table[i] == r.value && Lower(table[i].name) == norm
                                    && forall j :: 0 <= j < i ==> Lower(table[j].name) != norm
    ensures r.None? ==> forall i :: 0 <= i < |table| ==> Lower(table[i].name) != norm
  {
    if table == [] then None
    else if Lower(table[0].name) == norm then Some(table[0])
    else
      var r := FindByLowerName(table[1..], norm);
      assert r.Some? ==> exists i :: 1 <= i < |table| && table[i] == r.value && Lower(table[i].name) == norm
                                     && forall j :: 0 <= j < i ==> Lower(table[j].name) != norm by {
        if r.Some? {
          var i :| 0 <= i < |table[1..]| && table[1..][i] == r.value && Lower(table[1..][i].name) == norm
                   && forall j :: 0 <= j < i ==> Lower(table[1..][j].name) != norm;
          assert forall j :: 0 <= j < i + 1 ==> Lower(table[j].name) != norm by {
            forall j | 0 <= j < i + 1 ensures Lower(table[j].name) != norm {
              if j > 0 { assert table[j] == table[1..][j - 1]; }
            }
          }
        }
      }
      r
  }

  /** `getCropByName`: no crop for an absent or empty name; otherwise the first crop whose lower-cased
      name equals the trimmed, lower-cased input. */
  function GetCropByName(name: Option<string>): (r: Option<CropInfo>)
    ensures (name.None? || name.value == "") ==> r.None?
    ensures r.Some? ==> r.value in Table && Lower(r.value.name) == Lower(Trim(name.value))
    ensures r.None? && name.Some? ==> forall i :: 0 <= i < |Table| ==> Lower(Table[i].name) != Lower(Trim(name.value))
  {
    if name.None? || name.value == "" then None
    else FindByLowerName(Table, Lower(Trim(name.value)))
  }

  /** `s` spells the same letters as `t`, in any mixture of upper and lower case. */
  predicate SameLetters(s: string, t: string) {
    |s| == |t| && forall i :: 0 <= i < |s| ==> LowerChar(s[i]) == LowerChar(t[i])
  }

  /** Any casing of a crop's name, padded with any whitespace, finds that crop (names are unique). */
  lemma LookupIgnoresCaseAndPadding(left: string, s: string, right: string, k: nat)
    requires k < |Table|
    requires AllWhitespace(left) && AllWhitespace(right)
    requires SameLetters(s, Table[k].name)
    ensures GetCropByName(Some(left + s + right)) == Some(Table[k])
  {
    NamesAreWords();
    PaddedSpelling(left, s, right, Table[k].name);
    assert |left + s + right| > 0;
    LowerNameFindsCrop(k);
  }

  /** A spelling of a word padded with whitespace trims to that spelling, which lower-cases like the word. */
  lemma PaddedSpelling(left: string, s: string, right: string, name: string)
    requires IsWord(name) && SameLetters(s, name)
    requires AllWhitespace(left) && AllWhitespace(right)
    ensures Trim(left + s + right) == s && Lower(s) == Lower(name)
  {
    assert IsAsciiLetter(name[0]) && IsAsciiLetter(name[|name| - 1]);
    if IsWhitespace(s[0]) {
      WhitespaceIsNotALetter(s[0]);
    }
    if IsWhitespace(s[|s| - 1]) {
      WhitespaceIsNotALetter(s[|s| - 1]);
    }
    TrimPadded(left, s, right);
  }

  /** Searching for a crop's lower-cased name finds that crop and no earlier one. */
  lemma LowerNameFindsCrop(k: nat)
    requires k < |Table|
    ensures FindByLowerName(Table, Lower(Table[k].name)) == Some(Table[k])
  {
    TableIsValid();
    var r := FindByLowerName(Table, Lower(Table[k].name));
    var i :| 0 <= i < |Table| && Table[i] == r.value && Lower(Table[i].name) == Lower(Table[k].name);
    assert i == k;
  }

  /** A name made only of whitespace trims to the empty string, which no crop name matches. */
  lemma BlankNameFindsNothing(name: string)
    requires AllWhitespace(name)
    ensures GetCropByName(Some(name)) == None
  {
    TableIsValid();
    assert TrimStart(name) == [];
  }

  // ---------------------------------------------------------------------------------------------
  // getStageForMonth

  datatype Stage = Sowing | Growing | Harvest | OffSeason

  /** A JavaScript number as `Math.min(...ms)` / `Math.max(...ms)` can give it for an integer array:
      `+Infinity` and `-Infinity` are what they give for an empty array. */
  datatype Bound = NegInf | Fin(n: int) | PosInf

  /** `a < b` on bounds. */
  predicate Less(a: Bound, b: Bound) {
    match (a, b)
    case (NegInf, NegInf) => false
    case (NegInf, _) => true
    case (Fin(x), Fin(y)) => x < y
    case (Fin(_), PosInf) => true
    case _ => false
  }

  predicate AtMost(a: Bound, m: int) { a == NegInf || (a.Fin? && a.n <= m) }
  predicate AtLeast(a: Bound, m: int) { a == PosInf || (a.Fin? && a.n >= m) }

  function BMin(a: Bound, b: Bound): Bound { if Less(b, a) then b else a }
  function BMax(a: Bound, b: Bound): Bound { if Less(a, b) then b else a }

  /** `Math.min(...ms)`: the least element, or `+Infinity` for no elements. */
  function MinOf(ms: seq<int>): (r: Bound)
    ensures r != NegInf
    ensures ms == [] <==> r == PosInf
    ensures r.Fin? ==> r.n in ms
    ensures forall i :: 0 <= i < |ms| ==> AtMost(r, ms[i])
  {
    if ms == [] then PosInf else BMin(Fin(ms[0]), MinOf(ms[1..]))
  }

  /** `Math.max(...ms)`: the greatest element, or `-Infinity` for no elements. */
  function MaxOf(ms: seq<int>): (r: Bound)
    ensures r != PosInf
    ensures ms == [] <==> r == NegInf
    ensures r.Fin? ==> r.n in ms
    ensures forall i :: 0 <= i < |ms| ==> AtLeast(r, ms[i])
  {
    if ms == [] then NegInf else BMax(Fin(ms[0]), MaxOf(ms[1..]))
  }

  /** Every month of `a` comes before every month of `b`. */
  predicate AllBefore(a: seq<int>, b: seq<int>) {
    forall i, j :: 0 <= i < |a| && 0 <= j < |b| ==> a[i] < b[j]
  }

  predicate Exceeds(m: int, ms: seq<int>) { forall i :: 0 <= i < |ms| ==> ms[i] < m }
  predicate Precedes(m: int, ms: seq<int>) { forall i :: 0 <= i < |ms| ==> m < ms[i] }

  /** The non-wrapping growing case, stated without min and max: the whole sowing window precedes the
      whole harvest window and `month` lies strictly between them. */
  predicate BetweenWindows(c: CropInfo, month: int) {
    AllBefore(c.sowingMonths, c.harvestingMonths) && Exceeds(month, c.sowingMonths) && Precedes(month, c.harvestingMonths)
  }

  /** The wrapping growing case: the whole harvest window precedes the whole sowing window, and `month`
      is after every sowing month or before every harvest month. */
  predicate AcrossYearEnd(c: CropInfo, month: int) {
    AllBefore(c.harvestingMonths, c.sowingMonths) && (Exceeds(month, c.sowingMonths) || Precedes(month, c.harvestingMonths))
  }

  lemma MaxBelowMin(a: seq<int>, b: seq<int>)
    ensures Less(MaxOf(a), MinOf(b)) <==> AllBefore(a, b)
  {
    var hi, lo := MaxOf(a), MinOf(b);
    if hi.Fin? && lo.Fin? && !Less(hi, lo) {
      var i :| 0 <= i < |a| && a[i] == hi.n;
      var j :| 0 <= j < |b| && b[j] == lo.n;
      assert !(a[i] < b[j]);
    }
  }

  lemma BoundOfMonth(m: int, ms: seq<int>)
    ensures Less(MaxOf(ms), Fin(m)) <==> Exceeds(m, ms)
    ensures Less(Fin(m), MinOf(ms)) <==> Precedes(m, ms)
  {
    if MaxOf(ms).Fin? && !Less(MaxOf(ms), Fin(m)) {
      var i :| 0 <= i < |ms| && ms[i] == MaxOf(ms).n;
    }
    if MinOf(ms).Fin? && !Less(Fin(m), MinOf(ms)) {
      var i :| 0 <= i < |ms| && ms[i] == MinOf(ms).n;
    }
  }

  /** `getStageForMonth`. Window membership decides first (sowing before harvest); otherwise the month is
      Growing exactly in one of the two range cases, and Off-season in every other case. */
  function GetStageForMonth(crop: CropInfo, month: int): (r: Stage)
    ensures r == Sowing <==> month in crop.sowingMonths
    ensures r == Harvest <==> month !in crop.sowingMonths && month in crop.harvestingMonths
    ensures r == Growing <==> month !in crop.sowingMonths && month !in crop.harvestingMonths
                              && (BetweenWindows(crop, month) || AcrossYearEnd(crop, month))
  {
    if month in crop.sowingMonths then Sowing
    else if month in crop.harvestingMonths then Harvest
    else
      var sMin, sMax := MinOf(crop.sowingMonths), MaxOf(crop.sowingMonths);
      var hMin, hMax := MinOf(crop.harvestingMonths), MaxOf(crop.harvestingMonths);
      MaxBelowMin(crop.sowingMonths, crop.harvestingMonths);
      MaxBelowMin(crop.harvestingMonths, crop.sowingMonths);
      BoundOfMonth(month, crop.sowingMonths);
      BoundOfMonth(month, crop.harvestingMonths);
      if Less(sMax, hMin) && Less(sMax, Fin(month)) && Less(Fin(month), hMin) then Growing
      else if Less(hMax, sMin) && (Less(sMax, Fin(month)) || Less(Fin(month), hMin)) then Growing
      else OffSeason
  }

  /** Rice grows in August and September, between its sowing and harvest windows. */
  lemma RiceGrowing(m: int)
    requires m == 8 || m == 9
    ensures GetStageForMonth(Rice, m) == Growing
  {
    assert BetweenWindows(Rice, m);
  }

  /** Wheat's growing months wrap past the year end into January and February. */
  lemma WheatGrowing(m: int)
    requires m == 1 || m == 2
    ensures GetStageForMonth(Wheat, m) == Growing
  {
    assert AcrossYearEnd(Wheat, m);
  }

  /** Cotton's harvest window is written [11, 1]: neither range case applies, so July to October and
      December are Off-season. */
  lemma CottonOffSeason(m: int)
    requires 7 <= m <= 10 || m == 12
    ensures GetStageForMonth(Cotton, m) == OffSeason
  {
    assert Cotton.sowingMonths[0] == 5 && Cotton.harvestingMonths[1] == 1 && Cotton.harvestingMonths[0] == 11;
    assert !AllBefore(Cotton.sowingMonths, Cotton.harvestingMonths);
    assert !AllBefore(Cotton.harvestingMonths, Cotton.sowingMonths);
  }

  // ---------------------------------------------------------------------------------------------
  // evaluateSowingReadiness

  /** One entry of `reasons`. The temperature and rain entries carry the rounded values they print. */
  datatype Reason =
    | WithinSowingWindow
    | OutsideSowingWindow
    | AvgTemp(roundedC: int, idealMin: int, idealMax: int)
    | NextRain(roundedMm: int)

  datatype Readiness = Readiness(sowingRecommended: bool, reasons: seq<Reason>)

  /** `Math.round`: the nearest integer, halves rounded up. */
  function Round(x: real): (r: int)
    ensures x - 0.5 < r as real <= x + 0.5
  {
    (x + 0.5).Floor
  }

  /** The 7-day rain (mm) a crop needs before sowing is recommended. */
  function RainThreshold(w: WaterNeed): (t: real)
    ensures t >= 0.0
    ensures t == 0.0 <==> w == Low
  {
    match w
    case VeryHigh => 30.0
    case High => 20.0
    case Medium => 10.0
    case Low => 0.0
  }

  function Rank(w: WaterNeed): nat {
    match w
    case Low => 0
    case Medium => 1
    case High => 2
    case VeryHigh => 3
  }

  /** A higher water-need class never asks for less rain. */
  lemma ThresholdMonotone(a: WaterNeed, b: WaterNeed)
    requires Rank(a) < Rank(b)
    ensures RainThreshold(a) < RainThreshold(b)
  {
  }

  predicate TempOk(crop: CropInfo, t: real) {
    crop.preferredTemperatureC.lo as real <= t <= crop.preferredTemperatureC.hi as real
  }

  predicate RainOk(crop: CropInfo, rain: real) {
    rain >= RainThreshold(crop.waterNeed)
  }

  /** The month is in the sowing window and every weather check that runs passes. */
  predicate Recommended(crop: CropInfo, month: int, avgTempC: Option<real>, totalRainMm: Option<real>) {
    && month in crop.sowingMonths
    && (avgTempC.Some? ==> TempOk(crop, avgTempC.value))
    && (totalRainMm.Some? ==> RainOk(crop, totalRainMm.value))
  }

  /** The window reason, then the temperature reason when a temperature is given, then the rain reason
      when a rain total is given. */
  function ReasonsOf(crop: CropInfo, month: int, avgTempC: Option<real>, totalRainMm: Option<real>): seq<Reason> {
    [if month in crop.sowingMonths then WithinSowingWindow else OutsideSowingWindow]
    + (if avgTempC.Some? then [AvgTemp(Round(avgTempC.value), crop.preferredTemperatureC.lo, crop.preferredTemperatureC.hi)] else [])
    + (if totalRainMm.Some? then [NextRain(Round(totalRainMm.value))] else [])
  }

  /** The readiness `evaluateSowingReadiness` reports, as a value. */
  function ReadinessOf(crop: CropInfo, month: int, avgTempC: Option<real>, totalRainMm: Option<real>): Readiness {
    Readiness(Recommended(crop, month, avgTempC, totalRainMm), ReasonsOf(crop, month, avgTempC, totalRainMm))
  }

  /** `evaluateSowingReadiness`: recommended exactly when the month is in the sowing window and each
      weather check that runs (temperature, then rain) passes. One reason per check that runs, in that order. */
  method EvaluateSowingReadiness(crop: CropInfo, currentMonth: int, avgTempC: Option<real>, totalRainMm: Option<real>)
    returns (r: Readiness)
    ensures r == ReadinessOf(crop, currentMonth, avgTempC, totalRainMm)
    ensures r.sowingRecommended <==> Recommended(crop, currentMonth, avgTempC, totalRainMm)
    ensures |r.reasons| == 1 + (if avgTempC.Some? then 1 else 0) + (if totalRainMm.Some? then 1 else 0)
    ensures r.reasons[0] == if currentMonth in crop.sowingMonths then WithinSowingWindow else OutsideSowingWindow
    ensures avgTempC.Some? ==>
              r.reasons[1] == AvgTemp(Round(avgTempC.value), crop.preferredTemperatureC.lo, crop.preferredTemperatureC.hi)
    ensures totalRainMm.Some? ==> r.reasons[|r.reasons| - 1] == NextRain(Round(totalRainMm.value))
  {
    var reasons: seq<Reason> := [];
    var ok := false;
    var inWindow := currentMonth in crop.sowingMonths;
    if inWindow {
      ok := true;
      reasons := reasons + [WithinSowingWindow];
    } else {
      reasons := reasons + [OutsideSowingWindow];
    }
    if avgTempC.Some? {
      var tMin, tMax := crop.preferredTemperatureC.lo, crop.preferredTemperatureC.hi;
      var tOk := avgTempC.value >= tMin as real && avgTempC.value <= tMax as real;
      ok := ok && tOk;
      reasons := reasons + [AvgTemp(Round(avgTempC.value), tMin, tMax)];
    }
    if totalRainMm.Some? {
      var rain := totalRainMm.value;
      var rainOk := match crop.waterNeed
        case VeryHigh => rain >= 30.0
        case High => rain >= 20.0
        case Medium => rain >= 10.0
        case Low => rain >= 0.0;
      ok := ok && rainOk;
      reasons := reasons + [NextRain(Round(rain))];
    }
    r := Readiness(ok, reasons);
  }
}
