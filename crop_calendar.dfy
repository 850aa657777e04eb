/** The decision logic of the crop-calendar page: the 7-day weather aggregate, the defaults used when no
    crop is selected, the task list and the advisory list. */
module CropCalendar {
  import opened Wrappers
  import Strings
  import Crops

  // ---------------------------------------------------------------------------------------------
  // The 7-day aggregate

  /** One forecast day; the weather client has already rounded every reading to an integer. */
  datatype DailyForecast = DailyForecast(highC: int, lowC: int, conditionCode: int, precipitationMm: Option<int>)

  /** What the weather fetch gave: a forecast, or an error. */
  datatype FetchOutcome = Fetched(forecast: seq<DailyForecast>) | FetchFailed

  /** The page's `avgTemp` and `sumRain`; absent means "skip that check", not zero. */
  datatype WeatherAggregate = WeatherAggregate(avgTempC: Option<real>, sumRainMm: Option<real>)

  /** The sum of a list of integers, taken from the front: the order-free meaning of a `reduce` with `+`. */
  function Total(xs: seq<int>): int {
    if xs == [] then 0 else xs[0] + Total(xs[1..])
  }

  /** Appending one element adds it to the total. */
  lemma {:induction false} TotalSnoc(xs: seq<int>, x: int)
    ensures Total(xs + [x]) == Total(xs) + x
  {
    if xs == [] {
      assert [] + [x] == [x];
      assert [x][1..] == [];
    } else {
      assert (xs + [x])[1..] == xs[1..] + [x];
      TotalSnoc(xs[1..], x);
    }
  }

  /** `temps`: the daily highs, in forecast order. */
  function Highs(f: seq<DailyForecast>): (r: seq<int>)
    ensures |r| == |f| && forall i :: 0 <= i < |f| ==> r[i] == f[i].highC
  {
    seq(|f|, i requires 0 <= i < |f| => f[i].highC)
  }

  /** `d.precipitationMm || 0`: a missing reading counts as no rain. */
  function RainOf(d: DailyForecast): int {
    if d.precipitationMm.Some? then d.precipitationMm.value else 0
  }

  /** The daily rain readings with missing ones as 0, in forecast order. */
  function Rains(f: seq<DailyForecast>): (r: seq<int>)
    ensures |r| == |f| && forall i :: 0 <= i < |f| ==> r[i] == RainOf(f[i])
  {
    seq(|f|, i requires 0 <= i < |f| => RainOf(f[i]))
  }

  /** `temps.reduce((a, b) => a + b, 0)`, folded from the left: the total of the daily highs. */
  function SumHighs(f: seq<DailyForecast>): (r: int)
    ensures r == Total(Highs(f))
  {
    if f == [] then 0
    else
      var g := f[..|f| - 1];
      assert Highs(f) == Highs(g) + [f[|f| - 1].highC];
      TotalSnoc(Highs(g), f[|f| - 1].highC);
      SumHighs(g) + f[|f| - 1].highC
  }

  /** The rain `reduce`, folded from the left: the total of the daily readings, missing ones as 0. */
  function SumRain(f: seq<DailyForecast>): (r: int)
    ensures r == Total(Rains(f))
  {
    if f == [] then 0
    else
      var g := f[..|f| - 1];
      assert Rains(f) == Rains(g) + [RainOf(f[|f| - 1])];
      TotalSnoc(Rains(g), RainOf(f[|f| - 1]));
      SumRain(g) + RainOf(f[|f| - 1])
  }

  /** The aggregate after a fetch. On success the rain sum is always present (0 for an empty forecast) and
      the average is absent exactly when the forecast is empty, otherwise the mean of the highs;
      on a fetch error both are absent. */
  function Aggregate(o: FetchOutcome): (agg: WeatherAggregate)
    ensures o.FetchFailed? ==> agg.avgTempC.None? && agg.sumRainMm.None?
    ensures o.Fetched? ==> agg.sumRainMm == Some(SumRain(o.forecast) as real)
    ensures o.Fetched? ==> (agg.avgTempC.None? <==> o.forecast == [])
    ensures o.Fetched? && o.forecast != [] ==>
              agg.avgTempC.value * (|o.forecast| as real) == SumHighs(o.forecast) as real
  {
    match o
    case FetchFailed => WeatherAggregate(None, None)
    case Fetched(f) =>
      var avg := if |f| > 0 then Some(SumHighs(f) as real / |f| as real) else None;
      WeatherAggregate(avg, Some(SumRain(f) as real))
  }

  predicate HighsWithin(f: seq<DailyForecast>, lo: int, hi: int) {
    forall i :: 0 <= i < |f| ==> lo <= f[i].highC <= hi
  }

  lemma {:induction false} SumHighsWithin(f: seq<DailyForecast>, lo: int, hi: int)
    requires HighsWithin(f, lo, hi)
    ensures lo * |f| <= SumHighs(f) <= hi * |f|
  {
    if f != [] {
      var g := f[..|f| - 1];
      assert HighsWithin(g, lo, hi) by {
        forall i | 0 <= i < |g| ensures lo <= g[i].highC <= hi { assert g[i] == f[i]; }
      }
      SumHighsWithin(g, lo, hi);
      assert lo * |f| == lo * |g| + lo && hi * |f| == hi * |g| + hi;
    }
  }

  /** The 7-day average lies between the lowest and the highest daily high. */
  lemma MeanWithinHighs(f: seq<DailyForecast>, lo: int, hi: int)
    requires f != [] && HighsWithin(f, lo, hi)
    ensures lo as real <= Aggregate(Fetched(f)).avgTempC.value <= hi as real
  {
    SumHighsWithin(f, lo, hi);
    MeanBetween(SumHighs(f), |f|, lo, hi);
    assert Aggregate(Fetched(f)).avgTempC.value == SumHighs(f) as real / |f| as real;
  }

  lemma MeanBetween(total: int, count: nat, lo: int, hi: int)
    requires count > 0 && lo * count <= total <= hi * count
    ensures lo as real <= total as real / count as real <= hi as real
  {
    assert (lo as real) * (count as real) <= total as real <= (hi as real) * (count as real);
  }

  /** The rain sum splits over consecutive stretches of the forecast. */
  lemma {:induction false} SumRainAppend(a: seq<DailyForecast>, b: seq<DailyForecast>)
    ensures SumRain(a + b) == SumRain(a) + SumRain(b)
  {
    if b == [] {
      assert a + b == a;
    } else {
      var b' := b[..|b| - 1];
      assert (a + b)[..|a + b| - 1] == a + b';
      SumRainAppend(a, b');
    }
  }

  /** A day with no precipitation reading adds nothing to the sum, wherever it stands. */
  lemma MissingDayAddsNoRain(a: seq<DailyForecast>, d: DailyForecast, b: seq<DailyForecast>)
    requires d.precipitationMm.None?
    ensures SumRain(a + [d] + b) == SumRain(a + b)
  {
    SumRainAppend(a + [d], b);
    SumRainAppend(a, [d]);
    SumRainAppend(a, b);
    assert [d][..0] == [];
  }

  /** With no negative readings the rain sum is never negative. */
  lemma {:induction false} RainSumNonNegative(f: seq<DailyForecast>)
    requires forall i :: 0 <= i < |f| ==> RainOf(f[i]) >= 0
    ensures SumRain(f) >= 0
  {
    if f != [] {
      var g := f[..|f| - 1];
      assert forall i :: 0 <= i < |g| ==> g[i] == f[i];
      RainSumNonNegative(g);
    }
  }

  // ---------------------------------------------------------------------------------------------
  // Defaults when no crop is selected

  /** `appliedCrop ? getCropByName(appliedCrop) : undefined`. */
  function SelectedCrop(appliedCrop: string): (r: Option<Crops.CropInfo>)
    ensures appliedCrop == "" ==> r.None?
    ensures r.Some? ==> r.value in Crops.Table
    ensures r.Some? ==> Strings.Lower(r.value.name) == Strings.Lower(Strings.Trim(appliedCrop))
    ensures r.None? && appliedCrop != "" ==>
              forall i :: 0 <= i < |Crops.Table| ==> Strings.Lower(Crops.Table[i].name) != Strings.Lower(Strings.Trim(appliedCrop))
  {
    if appliedCrop == "" then None else Crops.GetCropByName(Some(appliedCrop))
  }

  /** Every name the crop menu offers (one item per table entry, valued by its name) selects that crop. */
  lemma MenuSelectsCrop(k: nat)
    requires k < |Crops.Table|
    ensures SelectedCrop(Crops.Table[k].name) == Some(Crops.Table[k])
  {
    var name := Crops.Table[k].name;
    Crops.TableIsValid();
    assert name != "";
    assert "" + name + "" == name;
    Crops.LookupIgnoresCaseAndPadding("", name, "", k);
  }

  /** The stage shown: Off-season when no crop is selected. */
  function CurrentStage(selected: Option<Crops.CropInfo>, month: int): (s: Crops.Stage)
    ensures selected.None? ==> s == Crops.OffSeason
    ensures selected.Some? ==> s == Crops.GetStageForMonth(selected.value, month)
    ensures selected.Some? ==> (s == Crops.Sowing <==> month in selected.value.sowingMonths)
  {
    if selected.Some? then Crops.GetStageForMonth(selected.value, month) else Crops.OffSeason
  }

  /** The readiness shown: not recommended and no reasons when no crop is selected. */
  method CurrentReadiness(selected: Option<Crops.CropInfo>, month: int, agg: WeatherAggregate)
    returns (r: Crops.Readiness)
    ensures selected.None? ==> r == Crops.Readiness(false, [])
    ensures selected.Some? ==>
              (r.sowingRecommended <==> Crops.Recommended(selected.value, month, agg.avgTempC, agg.sumRainMm))
    ensures selected.Some? ==> |r.reasons| >= 1
    ensures selected.Some? ==> r == Crops.ReadinessOf(selected.value, month, agg.avgTempC, agg.sumRainMm)
  {
    if selected.Some? {
      r := Crops.EvaluateSowingReadiness(selected.value, month, agg.avgTempC, agg.sumRainMm);
    } else {
      r := Crops.Readiness(false, []);
    }
  }

  // ---------------------------------------------------------------------------------------------
  // Tasks

  datatype Priority = High | Medium | Low

  datatype TaskKind =
    | LandPreparationAndSowing
    | SeedTreatmentAndNursery
    | IrrigationAndFertilizer
    | WeedControlAndPestScouting
    | HarvestPlanning
    | DryingStorageAndMarket
    | NextSeasonPlanning
    | DelayIrrigationForRain
    | IrrigationForLowRain
    | HeatStressMitigation
    | ProtectFromCold

  /** The text of each task. */
  function TaskText(k: TaskKind): string {
    match k
    case LandPreparationAndSowing => "Land preparation & sowing"
    case SeedTreatmentAndNursery => "Seed treatment and nursery management"
    case IrrigationAndFertilizer => "Irrigation & fertilizer application"
    case WeedControlAndPestScouting => "Weed control & pest scouting"
    case HarvestPlanning => "Harvest planning & labor arrangement"
    case DryingStorageAndMarket => "Drying, storage and market preparation"
    case NextSeasonPlanning => "Next season planning & seed procurement"
    case DelayIrrigationForRain => "Delay irrigation; ensure drainage due to forecast rain"
    case IrrigationForLowRain => "Irrigation recommended; low rainfall expected"
    case HeatStressMitigation => "Heat stress mitigation (mulch/shade where applicable)"
    case ProtectFromCold => "Protect seedlings from cold (cover/irrigate lightly)"
  }

  datatype Task = Task(crop: string, task: TaskKind, priority: Priority, daysLeft: int)

  /** `typeof x === 'number' ? Math.round(x) : undefined`. */
  function RoundOpt(x: Option<real>): Option<int> {
    if x.Some? then Some(Crops.Round(x.value)) else None
  }

  /** The tasks each stage contributes, in order. */
  function BaseTasks(name: string, stage: Crops.Stage, sowingRecommended: bool): seq<Task> {
    match stage
    case Sowing => [Task(name, LandPreparationAndSowing, if sowingRecommended then High else Medium, 5),
                    Task(name, SeedTreatmentAndNursery, Medium, 7)]
    case Growing => [Task(name, IrrigationAndFertilizer, Medium, 6), Task(name, WeedControlAndPestScouting, Medium, 4)]
    case Harvest => [Task(name, HarvestPlanning, High, 5), Task(name, DryingStorageAndMarket, Medium, 10)]
    case OffSeason => [Task(name, NextSeasonPlanning, Low, 15)]
  }

  /** The rain-driven task (at most one) that goes in front, chosen on the rounded rain sum. */
  function RainTasks(name: string, stage: Crops.Stage, rain: Option<int>): seq<Task> {
    if rain.Some? && rain.value >= 25 then [Task(name, DelayIrrigationForRain, High, 3)]
    else if rain.Some? && rain.value <= 5 && stage != Crops.Harvest then [Task(name, IrrigationForLowRain, High, 3)]
    else []
  }

  /** The heat task, appended when the rounded average exceeds max + 3 outside harvest. */
  function HeatTasks(name: string, ideal: Crops.Range, stage: Crops.Stage, temp: Option<int>): seq<Task> {
    if temp.Some? && temp.value > ideal.hi + 3 && stage != Crops.Harvest then [Task(name, HeatStressMitigation, Medium, 5)] else []
  }

  /** The cold task, appended when the rounded average is below min - 3. */
  function ColdTasks(name: string, ideal: Crops.Range, temp: Option<int>): seq<Task> {
    if temp.Some? && temp.value < ideal.lo - 3 then [Task(name, ProtectFromCold, Medium, 5)] else []
  }

  /** The whole task list for a selected crop: rain task, base tasks, temperature tasks. */
  function PlannedTasks(crop: Crops.CropInfo, stage: Crops.Stage, sowingRecommended: bool,
                        avgTempC: Option<real>, sumRainMm: Option<real>): seq<Task> {
    RainTasks(crop.name, stage, RoundOpt(sumRainMm))
    + BaseTasks(crop.name, stage, sowingRecommended)
    + HeatTasks(crop.name, crop.preferredTemperatureC, stage, RoundOpt(avgTempC))
    + ColdTasks(crop.name, crop.preferredTemperatureC, RoundOpt(avgTempC))
  }

  /** The `tasks` memo: base tasks pushed, then a rain task unshifted and temperature tasks pushed. */
  method GenerateTasks(selected: Option<Crops.CropInfo>, stage: Crops.Stage, sowingRecommended: bool,
                       avgTempC: Option<real>, sumRainMm: Option<real>) returns (list: seq<Task>)
    ensures selected.None? ==> list == []
    ensures selected.Some? ==> list == PlannedTasks(selected.value, stage, sowingRecommended, avgTempC, sumRainMm)
  {
    if selected.None? {
      return [];
    }
    var crop := selected.value;
    list := [];
    var tMin, tMax := crop.preferredTemperatureC.lo, crop.preferredTemperatureC.hi;
    var temp := RoundOpt(avgTempC);
    var rain := RoundOpt(sumRainMm);

    if stage == Crops.Sowing {
      list := list + [Task(crop.name, LandPreparationAndSowing, if sowingRecommended then High else Medium, 5)];
      list := list + [Task(crop.name, SeedTreatmentAndNursery, Medium, 7)];
    } else if stage == Crops.Growing {
      list := list + [Task(crop.name, IrrigationAndFertilizer, Medium, 6)];
      list := list + [Task(crop.name, WeedControlAndPestScouting, Medium, 4)];
    } else if stage == Crops.Harvest {
      list := list + [Task(crop.name, HarvestPlanning, High, 5)];
      list := list + [Task(crop.name, DryingStorageAndMarket, Medium, 10)];
    } else {
      list := list + [Task(crop.name, NextSeasonPlanning, Low, 15)];
    }
    ghost var base := list;
    assert base == BaseTasks(crop.name, stage, sowingRecommended);

    if rain.Some? && rain.value >= 25 {
      list := [Task(crop.name, DelayIrrigationForRain, High, 3)] + list;
    } else if rain.Some? && rain.value <= 5 && stage != Crops.Harvest {
      list := [Task(crop.name, IrrigationForLowRain, High, 3)] + list;
    }
    ghost var front := list;
    assert front == RainTasks(crop.name, stage, rain) + base;

    if temp.Some? && temp.value > tMax + 3 && stage != Crops.Harvest {
      list := list + [Task(crop.name, HeatStressMitigation, Medium, 5)];
    }
    ghost var heat := list;
    assert heat == front + HeatTasks(crop.name, crop.preferredTemperatureC, stage, temp);
    if temp.Some? && temp.value < tMin - 3 {
      list := list + [Task(crop.name, ProtectFromCold, Medium, 5)];
    }
    assert list == heat + ColdTasks(crop.name, crop.preferredTemperatureC, temp);
  }

  /** With an ordered ideal range the list holds 1 to 4 tasks: at most one rain task, the stage's one or
      two base tasks, and at most one temperature task. */
  lemma TaskCount(crop: Crops.CropInfo, stage: Crops.Stage, rec: bool, avgTempC: Option<real>, sumRainMm: Option<real>)
    requires crop.preferredTemperatureC.lo <= crop.preferredTemperatureC.hi
    ensures |BaseTasks(crop.name, stage, rec)| == (if stage == Crops.OffSeason then 1 else 2)
    ensures 1 <= |PlannedTasks(crop, stage, rec, avgTempC, sumRainMm)| <= 4
  {
    assert |HeatTasks(crop.name, crop.preferredTemperatureC, stage, RoundOpt(avgTempC))|
           + |ColdTasks(crop.name, crop.preferredTemperatureC, RoundOpt(avgTempC))| <= 1;
  }

  /** Every task is for the selected crop. */
  lemma TasksNameCrop(crop: Crops.CropInfo, stage: Crops.Stage, rec: bool, avgTempC: Option<real>, sumRainMm: Option<real>)
    ensures forall t :: t in PlannedTasks(crop, stage, rec, avgTempC, sumRainMm) ==> t.crop == crop.name
  {
    var r := RainTasks(crop.name, stage, RoundOpt(sumRainMm));
    var base := BaseTasks(crop.name, stage, rec);
    var h := HeatTasks(crop.name, crop.preferredTemperatureC, stage, RoundOpt(avgTempC));
    var c := ColdTasks(crop.name, crop.preferredTemperatureC, RoundOpt(avgTempC));
    assert forall t :: t in base ==> t.crop == crop.name;
    forall t | t in r + base + h + c ensures t.crop == crop.name {
      assert t in r || t in base || t in h || t in c;
    }
  }

  /** The base tasks stand together and in order, right after the (at most one) rain task. */
  lemma BaseTasksContiguous(crop: Crops.CropInfo, stage: Crops.Stage, rec: bool, avgTempC: Option<real>, sumRainMm: Option<real>)
    ensures var t := PlannedTasks(crop, stage, rec, avgTempC, sumRainMm);
            var base := BaseTasks(crop.name, stage, rec);
            var k := |RainTasks(crop.name, stage, RoundOpt(sumRainMm))|;
            k <= 1 && k + |base| <= |t| && t[k..k + |base|] == base
  {
  }

  /** The rain rule: drainage first at 25 mm or more (rounded); irrigation first at 5 mm or less unless
      harvesting; otherwise the first base task leads. */
  lemma RainTaskLeads(crop: Crops.CropInfo, stage: Crops.Stage, rec: bool, avgTempC: Option<real>, rain: real)
    ensures var t := PlannedTasks(crop, stage, rec, avgTempC, Some(rain));
            && (Crops.Round(rain) >= 25 ==> t[0] == Task(crop.name, DelayIrrigationForRain, High, 3))
            && (Crops.Round(rain) <= 5 && stage != Crops.Harvest ==> t[0] == Task(crop.name, IrrigationForLowRain, High, 3))
            && (5 < Crops.Round(rain) < 25 || (Crops.Round(rain) <= 5 && stage == Crops.Harvest) ==>
                  t[0] == BaseTasks(crop.name, stage, rec)[0])
  {
  }

  /** The temperature rule: heat mitigation last above max + 3 (rounded) unless harvesting, cold
      protection last below min - 3; each at most once. */
  lemma TempTaskTrails(crop: Crops.CropInfo, stage: Crops.Stage, rec: bool, avg: real, sumRainMm: Option<real>)
    requires crop.preferredTemperatureC.lo <= crop.preferredTemperatureC.hi
    ensures var t := PlannedTasks(crop, stage, rec, Some(avg), sumRainMm);
            var ideal := crop.preferredTemperatureC;
            && (Crops.Round(avg) > ideal.hi + 3 && stage != Crops.Harvest ==> t[|t| - 1] == Task(crop.name, HeatStressMitigation, Medium, 5))
            && (Crops.Round(avg) < ideal.lo - 3 ==> t[|t| - 1] == Task(crop.name, ProtectFromCold, Medium, 5))
            && (ideal.lo - 3 <= Crops.Round(avg) <= ideal.hi + 3 ==> t[|t| - 1] == BaseTasks(crop.name, stage, rec)[|BaseTasks(crop.name, stage, rec)| - 1])
  {
  }

  // ---------------------------------------------------------------------------------------------
  // Advisories

  datatype Tone = Warn | Good

  /** The advisory titles; the temperature ones carry the rounded average and ideal range their text shows. */
  datatype AdvisoryKind =
    | HeavyRainfallWarning
    | FavorableMoisture
    | LowRainfall
    | HighTemperatureAdvisory(roundedC: int, idealMin: int, idealMax: int)
    | LowTemperatureAdvisory(roundedC: int, idealMin: int, idealMax: int)
    | FavorableConditions

  function Title(k: AdvisoryKind): string {
    match k
    case HeavyRainfallWarning => "Heavy Rainfall Warning"
    case FavorableMoisture => "Favorable Moisture"
    case LowRainfall => "Low Rainfall"
    case HighTemperatureAdvisory(_, _, _) => "High Temperature Advisory"
    case LowTemperatureAdvisory(_, _, _) => "Low Temperature Advisory"
    case FavorableConditions => "Favorable Conditions"
  }

  datatype Advisory = Advisory(kind: AdvisoryKind, tone: Tone)

  /** The rain advisory on the raw sum: exactly one when rain is known. */
  function RainAdvisories(rain: Option<real>): seq<Advisory> {
    if rain.None? then []
    else if rain.value >= 35.0 then [Advisory(HeavyRainfallWarning, Warn)]
    else if rain.value >= 10.0 then [Advisory(FavorableMoisture, Good)]
    else [Advisory(LowRainfall, Warn)]
  }

  /** The temperature advisory on the raw average: at most one, only outside [min - 3, max + 3]. */
  function TempAdvisories(ideal: Crops.Range, temp: Option<real>): seq<Advisory> {
    if temp.None? then []
    else if temp.value > (ideal.hi + 3) as real then
      [Advisory(HighTemperatureAdvisory(Crops.Round(temp.value), ideal.lo, ideal.hi), Warn)]
    else if temp.value < (ideal.lo - 3) as real then
      [Advisory(LowTemperatureAdvisory(Crops.Round(temp.value), ideal.lo, ideal.hi), Warn)]
    else []
  }

  const Fallback := Advisory(FavorableConditions, Good)

  function PlannedAdvisories(crop: Crops.CropInfo, avgTempC: Option<real>, sumRainMm: Option<real>): seq<Advisory> {
    var fired := RainAdvisories(sumRainMm) + TempAdvisories(crop.preferredTemperatureC, avgTempC);
    if fired == [] then [Fallback] else fired
  }

  /** The `advisories` memo. */
  method GenerateAdvisories(selected: Option<Crops.CropInfo>, avgTempC: Option<real>, sumRainMm: Option<real>)
    returns (items: seq<Advisory>)
    ensures selected.None? ==> items == []
    ensures selected.Some? ==> items == PlannedAdvisories(selected.value, avgTempC, sumRainMm)
  {
    if selected.None? {
      return [];
    }
    var crop := selected.value;
    items := [];
    var tMin, tMax := crop.preferredTemperatureC.lo, crop.preferredTemperatureC.hi;
    if sumRainMm.Some? {
      if sumRainMm.value >= 35.0 {
        items := items + [Advisory(HeavyRainfallWarning, Warn)];
      } else if sumRainMm.value >= 10.0 {
        items := items + [Advisory(FavorableMoisture, Good)];
      } else {
        items := items + [Advisory(LowRainfall, Warn)];
      }
    }
    if avgTempC.Some? {
      if avgTempC.value > (tMax + 3) as real {
        items := items + [Advisory(HighTemperatureAdvisory(Crops.Round(avgTempC.value), tMin, tMax), Warn)];
      } else if avgTempC.value < (tMin - 3) as real {
        items := items + [Advisory(LowTemperatureAdvisory(Crops.Round(avgTempC.value), tMin, tMax), Warn)];
      }
    }
    if |items| == 0 {
      items := items + [Fallback];
    }
  }

  predicate TempOutside(ideal: Crops.Range, t: real) {
    t > (ideal.hi + 3) as real || t < (ideal.lo - 3) as real
  }

  /** One or two advisories; the fallback appears, alone, exactly when neither rain nor temperature fired. */
  lemma AdvisoryListShape(crop: Crops.CropInfo, avgTempC: Option<real>, sumRainMm: Option<real>)
    ensures var a := PlannedAdvisories(crop, avgTempC, sumRainMm);
            var fired := sumRainMm.Some? || (avgTempC.Some? && TempOutside(crop.preferredTemperatureC, avgTempC.value));
            && 1 <= |a| <= 2
            && (Fallback in a <==> !fired)
            && (!fired ==> a == [Fallback])
            && |a| == (if sumRainMm.Some? then 1 else 0) + (if avgTempC.Some? && TempOutside(crop.preferredTemperatureC, avgTempC.value) then 1 else 0)
                      + (if fired then 0 else 1)
  {
  }

  /** With rain known, the first advisory is the rain one, chosen by the raw sum. */
  lemma RainAdvisoryLeads(crop: Crops.CropInfo, avgTempC: Option<real>, rain: real)
    ensures var a := PlannedAdvisories(crop, avgTempC, Some(rain));
            a[0] == (if rain >= 35.0 then Advisory(HeavyRainfallWarning, Warn)
                     else if rain >= 10.0 then Advisory(FavorableMoisture, Good)
                     else Advisory(LowRainfall, Warn))
  {
  }

  // ---------------------------------------------------------------------------------------------
  // The page's view of one evaluation

  datatype CalendarView = CalendarView(readiness: Crops.Readiness, stage: Crops.Stage, tasks: seq<Task>, advisories: seq<Advisory>)

  /** Everything the page derives for a selection, a month and an aggregate. With no crop selected it is
      the default readiness, Off-season and two empty lists. */
  method Evaluate(selected: Option<Crops.CropInfo>, month: int, agg: WeatherAggregate) returns (view: CalendarView)
    ensures selected.None? ==> view == CalendarView(Crops.Readiness(false, []), Crops.OffSeason, [], [])
    ensures selected.Some? ==>
              && view.stage == Crops.GetStageForMonth(selected.value, month)
              && view.readiness == Crops.ReadinessOf(selected.value, month, agg.avgTempC, agg.sumRainMm)
              && (view.readiness.sowingRecommended <==> Crops.Recommended(selected.value, month, agg.avgTempC, agg.sumRainMm))
              && view.tasks == PlannedTasks(selected.value, view.stage, view.readiness.sowingRecommended, agg.avgTempC, agg.sumRainMm)
              && view.advisories == PlannedAdvisories(selected.value, agg.avgTempC, agg.sumRainMm)
  {
    var readiness := CurrentReadiness(selected, month, agg);
    var stage := CurrentStage(selected, month);
    var tasks := GenerateTasks(selected, stage, readiness.sowingRecommended, agg.avgTempC, agg.sumRainMm);
    var advisories := GenerateAdvisories(selected, agg.avgTempC, agg.sumRainMm);
    view := CalendarView(readiness, stage, tasks, advisories);
  }

  /** Worked scenarios: what callers can conclude from the contracts alone. */
  method Scenarios() {
    var rice := Crops.Rice;
    // In the window, no weather: recommended, one reason.
    var r1 := Crops.EvaluateSowingReadiness(rice, 6, None, None);
    assert r1 == Crops.Readiness(true, [Crops.WithinSowingWindow]);
    // Very high water need, 25 mm of rain: below the 30 mm threshold.
    var r2 := Crops.EvaluateSowingReadiness(rice, 6, Some(25.0), Some(25.0));
    assert !r2.sowingRecommended;
    // Sowing with 30 mm forecast: drainage first, then the two sowing tasks.
    var t := GenerateTasks(Some(rice), Crops.Sowing, true, None, Some(30.0));
    assert t == [Task("Rice", DelayIrrigationForRain, High, 3),
                 Task("Rice", LandPreparationAndSowing, High, 5),
                 Task("Rice", SeedTreatmentAndNursery, Medium, 7)];
    // 40 mm of rain at an ideal temperature: the heavy-rain warning alone.
    var a1 := GenerateAdvisories(Some(rice), Some(25.0), Some(40.0));
    assert a1 == [Advisory(HeavyRainfallWarning, Warn)];
    // No weather at all: the fallback alone.
    var a2 := GenerateAdvisories(Some(rice), None, None);
    assert a2 == [Fallback];
  }
}
