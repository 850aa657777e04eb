# Crop-calendar evaluation engine

A Dafny model of the decision logic behind the crop-calendar page of a farmer-facing dashboard for
Indian agriculture. Given a crop picked by name, the current calendar month and an optional 7-day
weather outlook, the engine:

- looks the crop up in a static reference table, ignoring case and surrounding whitespace;
- classifies the month as Sowing, Growing, Harvest or Off-season for that crop;
- decides whether sowing is recommended now, giving one reason per check that ran;
- builds a prioritised task list and a list of tone-tagged advisories.

It also models the 7-day aggregate (the mean of the daily highs and the rain total) and the
weather-code classifier that turns Open-Meteo (WMO) codes into display labels.

Modules, one per source file:

- `Crops` (`crops.dfy`) models `src/lib/crops.ts`. It holds the reference table and its invariants,
  `getCropByName`, `getStageForMonth` and `evaluateSowingReadiness`.
- `CropCalendar` (`crop_calendar.dfy`) models the logic inlined in `src/pages/CropCalendar.tsx`:
  the aggregate, the defaults used when no crop is selected, and the `tasks` and `advisories` memos.
  The two memos are imperative methods, each proved equal to a declarative list function.
- `Weather` (`weather.dfy`) models `codeToCondition` from `src/lib/weather.ts`.
- `Strings` (`strings.dfy`) models the JavaScript `trim` and `toLowerCase` that the lookup uses.
- `Wrappers` (`wrappers.dfy`) defines `Option`, which stands for `T | undefined`.

Representation choices:

- Months, daily highs and daily precipitation are `int`. The weather client rounds every reading
  before the engine sees it.
- The 7-day average and the rain total are `real`. `Math.round` is `(x + 0.5).Floor`.
- An absent aggregate is `None`. Absent means "skip that check", which is different from zero.
- `Math.min(...xs)` and `Math.max(...xs)` return a `Bound` that can be `+Infinity` or `-Infinity`,
  as in JavaScript for an empty array. This keeps `getStageForMonth` total on any window.
  Its contract restates the two range cases as pairwise comparisons between months, without min or max.
- Readiness reasons, task names and advisory titles are datatype tags. The fixed texts of the task
  names, the advisory titles and the condition labels are kept in `TaskText`, `Title` and `Label`.
  The readiness reasons are tags only, with no text. The temperature and rain reasons and the
  temperature advisories carry the rounded numbers their text shows.

- `Crops.ReadinessOf` is the evaluator's whole result written as a value: the recommendation, then
  the window reason, the temperature reason when an average is given, and the rain reason when a
  rain total is given. The page-level contracts refer to it.

Behaviour reproduced as written:

- `getStageForMonth` keeps the source's exact branches. Cotton's harvest window is written `[11, 1]`,
  so neither range case fires and July to October and December are Off-season (`Crops.CottonOffSeason`).
- The tasks compare the rounded rain total and the rounded average. The advisories compare the raw
  values.
- The page applies whichever weather response arrives; the code has no guard against stale
  responses, and `load` is not part of this model.

## Model

| member | source | states |
|---|---|---|
| `Strings.TrimStart` | src/lib/crops.ts:83 | The result is the suffix of the input that starts at its first non-whitespace character; everything dropped is ECMAScript whitespace |
| `Strings.TrimEnd` | src/lib/crops.ts:83 | The result is the prefix of the input that ends at its last non-whitespace character; everything dropped is whitespace |
| `Strings.Trim` | src/lib/crops.ts:83 | `trim` leaves a piece of the input with only whitespace before and after it, and that piece neither starts nor ends with whitespace. The result is empty exactly when the input is all whitespace |
| `Strings.LowerChar` | src/lib/crops.ts:83-84 | `toLowerCase` on one character maps an ASCII capital to the lower-case letter at the same place in the alphabet and leaves every other character alone |
| `Strings.Lower` | src/lib/crops.ts:83-84 | `toLowerCase` keeps the length and lower-cases each character in place |
| `Strings.TrimPadded` | src/lib/crops.ts:83 | `trim` removes exactly the whitespace padding around a string whose first and last characters are not whitespace |
| `Crops.TableIsValid` | src/lib/crops.ts:15-79 | Every crop in `CROPS` has a non-empty letter name, non-empty sowing and harvest windows of months 1..12, and `min <= max` for duration and temperature; lower-cased names are pairwise distinct |
| `Crops.FindByLowerName` | src/lib/crops.ts:84 | `find` returns the first crop whose lower-cased name equals the key (no earlier crop matches), or nothing when no crop matches |
| `Crops.GetCropByName` | src/lib/crops.ts:81-85 | Nothing for an absent or empty name; otherwise a table crop whose lower-cased name equals the trimmed, lower-cased input, and nothing only when no crop matches |
| `Crops.PaddedSpelling` | src/lib/crops.ts:83-84 | A case variant of a letter-only name, padded with whitespace, trims to itself and lower-cases like the name |
| `Crops.LowerNameFindsCrop` | src/lib/crops.ts:84 | Searching the table for a crop's own lower-cased name finds exactly that crop |
| `Crops.LookupIgnoresCaseAndPadding` | src/lib/crops.ts:81-85 | Any upper/lower-case spelling of a crop's name, padded with any whitespace, finds exactly that crop (names are unique) |
| `Crops.BlankNameFindsNothing` | src/lib/crops.ts:82-84 | A name made only of whitespace passes the emptiness test but finds no crop |
| `Crops.MinOf` | src/lib/crops.ts:97-100 | `Math.min(...xs)` is an element not above any element, or `+Infinity` exactly when the array is empty |
| `Crops.MaxOf` | src/lib/crops.ts:97-100 | `Math.max(...xs)` is an element not below any element, or `-Infinity` exactly when the array is empty |
| `Crops.GetStageForMonth` | src/lib/crops.ts:93-104 | Sowing iff the month is in the sowing window, even if it is also a harvest month; Harvest iff it is in the harvest window only; Growing iff it is in neither window and either the whole sowing window precedes the harvest window with the month strictly between, or the harvest window precedes the sowing window with the month after every sowing month or before every harvest month; Off-season otherwise |
| `Crops.RiceGrowing` | src/lib/crops.ts:19-20 | Rice is Growing in months 8 and 9 (non-wrapping case) |
| `Crops.WheatGrowing` | src/lib/crops.ts:28-29 | Wheat is Growing in months 1 and 2 (wrapping case) |
| `Crops.CottonOffSeason` | src/lib/crops.ts:46-47 | Cotton (harvest `[11, 1]`) is Off-season in months 7 to 10 and 12, since neither range case applies |
| `Crops.Round` | src/lib/crops.ts:129 | `Math.round` gives the integer within half a unit of its argument, halves going up |
| `Crops.RainThreshold` | src/lib/crops.ts:133 | The rain threshold is never negative and is 0 only for Low water need, so Low never blocks on non-negative rain |
| `Crops.ThresholdMonotone` | src/lib/crops.ts:133 | A higher water-need class (Low < Medium < High < Very High) needs strictly more rain |
| `Crops.EvaluateSowingReadiness` | src/lib/crops.ts:112-138 | The result is exactly `ReadinessOf` of the inputs. Recommended iff the month is in the sowing window, the average is absent or within `[tMin, tMax]` inclusive, and the rain is absent or at least the threshold. There are 1 + (temperature given) + (rain given) reasons: the window reason first, matching membership; the temperature reason second with the rounded average and the range; the rain reason last with the rounded total |
| `Weather.CodeToCondition` | src/lib/weather.ts:105-115 | Each of the eight conditions is returned exactly for its own code set (0; 1-3; 45, 48; the rain codes; the freezing-rain codes; the snow codes; the thunderstorm codes), and Cloudy exactly for every other code |
| `Weather.CodeSetsDisjoint` | src/lib/weather.ts:107-114 | No code lies in two of the tested sets, and 0 in none, so the order of the tests does not matter |
| `Weather.LabelsDistinct` | src/lib/weather.ts:107-114 | The eight display labels are pairwise distinct |
| `CropCalendar.Highs` | src/pages/CropCalendar.tsx:58 | `temps` has one entry per forecast day, the day's high, in order |
| `CropCalendar.SumHighs` | src/pages/CropCalendar.tsx:58-59 | The left fold of the highs equals their total taken from the front, so the order of the additions does not matter |
| `CropCalendar.Rains` | src/pages/CropCalendar.tsx:61 | One entry per forecast day, in order: the day's reading, or 0 for a missing one |
| `CropCalendar.SumRain` | src/pages/CropCalendar.tsx:61 | The left fold of the rain readings equals their total taken from the front, missing readings counting 0 |
| `CropCalendar.Aggregate` | src/pages/CropCalendar.tsx:58-66 | After a fetch the rain total is always present, also for an empty forecast; the average is absent exactly when the forecast is empty and otherwise times the day count equals the sum of the highs; after a fetch error both are absent |
| `CropCalendar.SumHighsWithin` | src/pages/CropCalendar.tsx:58-59 | With every high in `[lo, hi]`, the sum of the highs lies between `lo` and `hi` times the day count |
| `CropCalendar.MeanWithinHighs` | src/pages/CropCalendar.tsx:58-59 | The 7-day average lies between the lowest and the highest daily high |
| `CropCalendar.SumRainAppend` | src/pages/CropCalendar.tsx:61 | The rain total of two consecutive stretches of forecast is the sum of their totals |
| `CropCalendar.MissingDayAddsNoRain` | src/pages/CropCalendar.tsx:61 | A day with no precipitation reading counts as 0, wherever it stands |
| `CropCalendar.RainSumNonNegative` | src/pages/CropCalendar.tsx:61 | With no negative readings the rain total is not negative |
| `CropCalendar.SelectedCrop` | src/pages/CropCalendar.tsx:72 | An empty selection selects nothing. A crop selected comes from the table and its lower-cased name equals the trimmed, lower-cased selection. A non-empty selection selects nothing only when no table name, lower-cased, equals it |
| `CropCalendar.MenuSelectsCrop` | src/pages/CropCalendar.tsx:186-188 | Every name the crop menu offers (one item per table entry, valued by its name) selects exactly that table entry |
| `CropCalendar.CurrentStage` | src/pages/CropCalendar.tsx:78 | With no crop the stage is Off-season. With a crop it is that crop's `getStageForMonth` stage, hence Sowing exactly in its sowing months |
| `CropCalendar.CurrentReadiness` | src/pages/CropCalendar.tsx:74-77 | With no crop readiness is `{sowingRecommended: false, reasons: []}`. With a crop it is exactly `ReadinessOf` that crop, month and aggregate: recommended under exactly the evaluator's conditions, with at least one reason |
| `CropCalendar.GenerateTasks` | src/pages/CropCalendar.tsx:82-115 | No tasks without a crop. Otherwise the list built by pushing and unshifting is the rain task (if any), then the stage's base tasks, then the heat task (if any), then the cold task (if any) |
| `CropCalendar.TaskCount` | src/pages/CropCalendar.tsx:84-114 | Off-season contributes one base task and every other stage two; with `tMin <= tMax` the list holds 1 to 4 tasks |
| `CropCalendar.TasksNameCrop` | src/pages/CropCalendar.tsx:84-114 | Every task's `crop` is the selected crop's name |
| `CropCalendar.BaseTasksContiguous` | src/pages/CropCalendar.tsx:84-114 | The base tasks appear contiguously and in their order, after at most one rain task |
| `CropCalendar.RainTaskLeads` | src/pages/CropCalendar.tsx:87-107 | With a rounded rain total of at least 25 the drainage task (High, 3 days) is first. At 5 or less outside harvest the irrigation task (High, 3) is first. Otherwise the first base task leads |
| `CropCalendar.TempTaskTrails` | src/pages/CropCalendar.tsx:86-113 | With a rounded average above `tMax + 3` outside harvest the heat task is last. Below `tMin - 3` the cold task is last. Within `[tMin - 3, tMax + 3]` the last base task ends the list |
| `CropCalendar.GenerateAdvisories` | src/pages/CropCalendar.tsx:117-132 | No advisories without a crop. Otherwise the rain advisory (if rain is known), then the temperature advisory (if any), or the single fallback when neither fired |
| `CropCalendar.AdvisoryListShape` | src/pages/CropCalendar.tsx:119-131 | One or two advisories. "Favorable Conditions" appears, alone, exactly when rain is unknown and the raw average is unknown or within `[tMin - 3, tMax + 3]`. The length counts the rain advisory, the temperature advisory and the fallback |
| `CropCalendar.RainAdvisoryLeads` | src/pages/CropCalendar.tsx:121-125 | With rain known the first advisory is Heavy Rainfall Warning (warn) from 35 mm, otherwise Favorable Moisture (good) from 10 mm, otherwise Low Rainfall (warn), on the raw total |
| `CropCalendar.Evaluate` | src/pages/CropCalendar.tsx:72-132 | With no crop: default readiness, Off-season, no tasks, no advisories. With a crop: the classified stage, readiness equal to `ReadinessOf` (recommended under exactly the evaluator's conditions, with its reasons), and the task and advisory lists above built from them |

`CropCalendar.Scenarios` states worked cases as assertions that Dafny proves from the methods'
contracts. One case is in window with no weather. One is Rice with 25 mm against its 30 mm
threshold. One is Sowing with 30 mm of rain. The last two are 40 mm at an ideal temperature, and no
weather at all.

## Left out

- `fetchWeatherByCity` and the page's `load` (src/lib/weather.ts:28-83, src/pages/CropCalendar.tsx:52-70): network and asynchronous plumbing. The forecast reaches the model as a `FetchOutcome` value.
- `monthName`, `formatDayLabel` and `monthLabel`: they depend on `Date`, the locale and the wall clock. The current month is a parameter.
- The rounding of raw readings in the weather client (src/lib/weather.ts:76-79): the model starts from the rounded integers.
- Floating point: averages and totals are exact reals. NaN and IEEE-754 rounding are not modelled, and `Math.round` on negative halves is taken as `(x + 0.5).Floor`.
- `Strings.Lower`: models `toLowerCase` for ASCII letters only. Every table name is ASCII letters, and the only non-ASCII character JavaScript lower-cases to an ASCII letter is KELVIN SIGN (to `k`), which no name contains. So lookups against the table come out the same.
- The texts of the readiness reasons (src/lib/crops.ts:121-135) and of the advisory bodies, with their interpolated numbers. Each is a tag carrying those numbers.
- `season` and `durationDays` are carried in `CropInfo`. Only the page's rendering reads them (src/pages/CropCalendar.tsx:228), and rendering is not modelled.
- React state, memo wiring, rendering and the static display literals of the page (`seasons`, `INDIAN_STATES`, `monthlyTasks`).
- src/lib/market.ts, src/pages/PestControl.tsx, src/components/Navigation.tsx and src/App.tsx: a REST client, display tables and routing, with no decision logic.
