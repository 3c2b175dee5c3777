# Healthify-Lite calorie tracker: a verified model of its core

Healthify-Lite is a single-page calorie and workout tracker. The user logs
foods, each with its per-serving nutrients and a number of servings, and
workouts, each with calories burned fixed when it is logged. Both logs are
kept per calendar date. From the logs and a user profile the application
derives:

- today's totals;
- a basal metabolic rate, a maintenance level and a daily calorie target;
- a seven-day trend;
- a handful of clamped percentages for the dashboard;
- a rule-based "coach" that answers a typed question with at most two tips.

This project models that core in Dafny and proves what it promises. It has
one module per concern:

- `Numeric` (numeric.dfy): JavaScript `Math.round`, `Math.min`, `Math.max`
  and `Math.abs` over exact reals.
- `Text` (text.dfy): ASCII `toLowerCase`, `includes`, `trim`, `join` and
  integer-to-decimal conversion.
- `Ledger` (ledger.dfy): the per-date logs, the daily totals folds, the
  copy-on-write add and remove operations, and the seven-day trend. The
  application's two log maps are the fields of the class `Tracker`, whose
  methods replace them the way the program's state setters do.
- `Metabolic` (metabolic.dfy): BMR, activity factor, maintenance and target.
- `Catalog` (catalog.dfy): the food and workout tables, the food search, the
  workout-rate lookup and the construction of new entries.
- `Coach` (coach.dfy): the advice engine. `GenerateTip` builds its message
  list step by step like the program does: rule messages are pushed, then
  keyword answers are unshifted in front. It is proved equal to the
  reference function `Messages`, and that function's ordering and
  non-emptiness are proved as lemmas. The `Send` guard sits on top.
- `Dashboard` (dashboard.dfy): the donut, bar, protein, sparkline and macro
  card figures.
- `Wrappers` (wrappers.dfy): an `Option` type.

Numbers are Dafny `real`, so every constant is exact (6.25 is 25/4, 1.55 is
31/20). The program rounds with `Math.round`, and the model follows that
code: halves round toward positive infinity, so 1544.5 rounds to 1545 and
-2.5 to -2. Round-half-away-from-zero would agree on every non-negative
value and differ only on negative halves.

## Model

| member | source | states |
|---|---|---|
| Numeric.Round | src/App.jsx:64 | `Math.round`: the result is the integer in the window (x - 1/2, x + 1/2] |
| Numeric.RoundHalves | src/App.jsx:64 | halves go up: -2.5 rounds to -2 and 2.5 to 3 |
| Numeric.Min | src/components/Dashboard.jsx:52 | `Math.min` on reals: at most each argument, and equal to one of them |
| Numeric.Max | src/components/Dashboard.jsx:35 | `Math.max` on reals: at least each argument, and equal to one of them |
| Numeric.MinInt | src/components/Dashboard.jsx:5 | `Math.min` on the rounded integers: at most each argument, and equal to one of them |
| Numeric.MaxInt | src/components/Dashboard.jsx:5 | `Math.max` on the rounded integers: at least each argument, and equal to one of them |
| Numeric.Abs | src/components/Coach.jsx:8 | `Math.abs`: a natural number equal to the argument or its negation |
| Text.Lower | src/components/Coach.jsx:17 | `toLowerCase` keeps the length and lower-cases each ASCII capital, leaving every other character alone |
| Text.Contains | src/components/FoodWorkoutLog.jsx:46 | `includes`: an occurrence of the searched text needs a string at least as long |
| Text.Join | src/components/Coach.jsx:22 | `join` of a list with a separator: its length is the items' lengths plus one separator between each pair, the first item is a prefix, and a single item is returned unchanged |
| Text.NatToString | src/components/Coach.jsx:7 | the decimal text of a natural number: at least one digit, only digits, no leading zero, and its decimal value is the number |
| Text.IntToString | src/components/Coach.jsx:7-8 | the decimal text of an integer: it starts with a minus sign exactly for a negative number, the digits after it spell the absolute value, and there is no leading zero |
| Text.Trim | src/components/Coach.jsx:39 | `trim` gives an infix of the input with white space cut off both ends and no white space at either end; it is empty exactly when the input is all white space |
| Ledger.DayOf | src/App.jsx:43-44 | `logs[key] \|\| []`: the logged day for a present date, the empty day for an absent one |
| Ledger.Contribution | src/App.jsx:48-51 | one entry's share of the four totals, each nutrient times `qty`: nothing for zero servings, the per-serving figures for one serving |
| Ledger.ContributionNonNegative | src/App.jsx:48-51 | an entry with non-negative nutrients and servings contributes non-negative amounts |
| Ledger.FoodTotal | src/App.jsx:47-56 | the food totals fold: all zero for an empty day |
| Ledger.FoodTotalNonNegative | src/App.jsx:47-56 | a day whose every entry has non-negative nutrients and servings has four non-negative totals |
| Ledger.Burned | src/App.jsx:57 | the burned fold: zero for an empty day, and non-negative when every workout's calories are |
| Ledger.Consumed | src/App.jsx:91 | the trend's consumed fold is the calories of the daily food totals fold |
| Ledger.Label | src/App.jsx:93 | `key.slice(5)`: the key with its first five characters cut off, or empty for a shorter key |
| Ledger.FoodTotalAppend | src/App.jsx:47-56 | appending a food raises calories, protein, carbs and fats each by that field times `qty` |
| Ledger.BurnedAppend | src/App.jsx:57 | appending a workout raises burned by its calories, unscaled |
| Ledger.FoodTotalConcat | src/App.jsx:47-56 | the food totals of two stretches of a day add up |
| Ledger.BurnedConcat | src/App.jsx:57 | the burned totals of two stretches of a day add up |
| Ledger.RemoveAt | src/App.jsx:108-109 | `splice(index, 1)` on a copy: the element at a valid index is removed, earlier ones stay put, later ones move down one place, and the multiset loses exactly that element; an index past the end changes nothing |
| Ledger.Appended | src/App.jsx:98-104 | the date's day (empty when absent) gains the item at its end; every other date is unchanged; the date is present afterwards |
| Ledger.Spliced | src/App.jsx:106-112 | the date's day (empty when absent) loses one element by `RemoveAt`; every other date is unchanged; the date is present afterwards |
| Ledger.AddThenRemove | src/App.jsx:98-112 | removing at the old length right after an add restores the day; the logs differ at most by an explicit empty day |
| Ledger.AddThenRemoveFoodTotals | src/App.jsx:98-112 | add then remove at the old length restores the day's food totals exactly |
| Ledger.RemoveFoodTotals | src/App.jsx:106-112 | removing the food at a valid index lowers the totals by exactly its qty-scaled contribution |
| Ledger.RemoveWorkoutBurned | src/App.jsx:122-128 | removing the workout at a valid index lowers burned by exactly its calories |
| Ledger.EmptyDayTotals | src/App.jsx:43-57 | a date absent from both logs has all-zero food totals and zero burned |
| Ledger.ComputeTotals | src/App.jsx:46-59 | the two `reduce` loops compute the food totals fold and the burned fold of the day |
| Ledger.PointFor | src/App.jsx:88-93 | a trend point has the date's label, consumed equal to the day's calories and burned equal to the day's burned; both are zero for a date with no entries |
| Ledger.Tracker.constructor | src/App.jsx:38-39 | both logs start empty |
| Ledger.Tracker.AddFood | src/App.jsx:98-104 | the food log becomes `Appended` of the old one; the workout log is unchanged |
| Ledger.Tracker.RemoveFood | src/App.jsx:106-112 | the food log becomes `Spliced` of the old one; the workout log is unchanged |
| Ledger.Tracker.AddWorkout | src/App.jsx:114-120 | the workout log becomes `Appended` of the old one; the food log is unchanged |
| Ledger.Tracker.RemoveWorkout | src/App.jsx:122-128 | the workout log becomes `Spliced` of the old one; the food log is unchanged |
| Ledger.Tracker.TodayTotals | src/App.jsx:43-59 | today's totals are the folds of today's day in each log, an absent date reading as empty |
| Ledger.Tracker.Last7Days | src/App.jsx:85-96 | exactly seven points, oldest first; point j belongs to day today-6+j, so the last one is today |
| Metabolic.GenderOffset | src/App.jsx:63 | the constant `s`: 5 exactly for "male", -161 exactly for "female", and -78 for every other value |
| Metabolic.RawBmrMonotone | src/App.jsx:64 | the unrounded equation grows with weight and height and falls with age; other fields equal, female < other < male, and male is 166 above female |
| Metabolic.Bmr | src/App.jsx:61-65 | the rounded Mifflin-St Jeor value with +5 for male, -161 for female and -78 for any other value |
| Metabolic.ActivityFactor | src/App.jsx:67-76 | one of 1.2, 1.375, 1.55, 1.725 and 1.9, with 1.55 for a level the form does not offer |
| Metabolic.ActivityFactorOrdered | src/App.jsx:67-76 | the factors grow from sedentary to very active |
| Metabolic.Maintenance | src/App.jsx:78 | maintenance is BMR times the factor, rounded |
| Metabolic.MaintenanceMonotone | src/App.jsx:78 | for a non-negative BMR a larger factor never lowers maintenance |
| Metabolic.TargetCalories | src/App.jsx:79-83 | the target is 400 below maintenance exactly for "lose", 300 above exactly for "gain", and maintenance otherwise |
| Metabolic.ComputeTargets | src/App.jsx:61-83 | the three figures chain BMR, maintenance and target: maintenance is the BMR times the activity factor, rounded, and the target is `TargetCalories` of maintenance and goal, within [maintenance - 400, maintenance + 300] |
| Metabolic.DefaultProfileTargets | src/App.jsx:7-16 | the default profile's equation gives 1544.5, so BMR 1545, maintenance 2395 and target 2395 |
| Metabolic.DefaultProfileGoals | src/App.jsx:79-83 | with the default profile, "lose" targets 1995 and "gain" 2695 |
| Metabolic.GoalsOrdered | src/App.jsx:79-83 | for any profile, lose < maintain < gain |
| Catalog.FoodDbWellFormed | src/components/FoodWorkoutLog.jsx:4-13 | `FOOD_DB` holds eight foods with distinct names, and any of them logged with non-negative servings is an entry with non-negative figures |
| Catalog.WorkoutDbWellFormed | src/components/FoodWorkoutLog.jsx:15-21 | `WORKOUT_DB` holds five workout types with distinct names and positive rates |
| Catalog.Matching | src/components/FoodWorkoutLog.jsx:46 | the filter keeps exactly the items whose lower-cased name includes the lower-cased query |
| Catalog.MatchingIsSubsequence | src/components/FoodWorkoutLog.jsx:46 | the filter keeps table order |
| Catalog.SearchFood | src/components/FoodWorkoutLog.jsx:4-46 | the food search over the food table: at most six results, each a table item whose name matches the query |
| Catalog.Search | src/components/FoodWorkoutLog.jsx:46 | at most six results, exactly min(6, number of matches), a prefix of the filtered list, each a matching table item |
| Catalog.SearchOrdered | src/components/FoodWorkoutLog.jsx:46 | the results keep table order |
| Catalog.SearchComplete | src/components/FoodWorkoutLog.jsx:46 | when at most six items match, every match is shown |
| Catalog.SearchEmptyQuery | src/components/FoodWorkoutLog.jsx:4-46 | an empty query shows the first six foods of the table |
| Catalog.FirstOfType | src/components/FoodWorkoutLog.jsx:92 | `find` gives the first row of that type, or none |
| Catalog.WorkoutRate | src/components/FoodWorkoutLog.jsx:92 | the rate of the row of that type; 5 when the table has no such type |
| Catalog.WorkoutRateExamples | src/components/FoodWorkoutLog.jsx:15-21 | "Running" gives 10 and "Unknown" the fallback 5 |
| Catalog.NewWorkout | src/components/FoodWorkoutLog.jsx:93-104 | the new entry keeps type and minutes, and its calories are the whole number nearest rate times minutes |
| Catalog.DefaultWorkout | src/components/FoodWorkoutLog.jsx:89-93 | the form's initial choice, 30 minutes of running, logs 300 kcal |
| Catalog.NewFood | src/components/FoodWorkoutLog.jsx:58 | the new entry is the catalog item's fields plus the chosen servings |
| Catalog.LogCatalogFood | src/components/FoodWorkoutLog.jsx:58 | logging a catalog food raises the day's calories and protein by the per-serving value times the servings |
| Coach.TipText | src/components/Coach.jsx:7-20 | no message text is empty |
| Coach.Gap | src/components/Coach.jsx:6 | `calGap` is positive exactly when intake less burned is below the target, and zero exactly when it meets it |
| Coach.RuleTips | src/components/Coach.jsx:7-14 | the rule part of the message list is never empty |
| Coach.KeywordTips | src/components/Coach.jsx:17-20 | at most three keyword answers, and none exactly when the question asks about no keyword |
| Coach.RuleTipsMeaning | src/components/Coach.jsx:6-14 | the rule part is never empty and holds no keyword answer; the under and over messages appear exactly when their rule fires, report the rounded gap (its absolute value when over) and never appear together; low protein and carb heavy appear exactly when their rules hold; encouragement appears exactly when no rule fired, and then alone |
| Coach.KeywordTipsMeaning | src/components/Coach.jsx:17-20 | each keyword answer appears exactly when its keyword is in the lower-cased question |
| Coach.KeywordsIgnoreCase | src/components/Coach.jsx:17-20 | a question and its lower-cased form get the same keyword answers |
| Coach.RuleTipsOrdered | src/components/Coach.jsx:6-13 | at most three rule messages fire, in the order calorie gap, low protein, carb heavy |
| Coach.Messages | src/components/Coach.jsx:5-20 | the full message list, keyword answers then rule messages, holds between one and six messages |
| Coach.Reply | src/components/Coach.jsx:22 | `msgs.slice(0, 2).join(' ')`: one message alone, the first two joined by a space, never empty for a non-empty list |
| Coach.CarbsMessageCutOff | src/components/Coach.jsx:6-22 | under target, low in protein and heavy in carbs with no keyword asked, the list is those three messages and the reply drops the carbs one |
| Coach.RuleMessages | src/components/Coach.jsx:5-14 | the pushes compute the rule part of the message list |
| Coach.PutKeywordsFirst | src/components/Coach.jsx:17-20 | the unshifts put the keyword answers in front, fat loss first, then breakfast, then protein |
| Coach.FirstTwoJoined | src/components/Coach.jsx:22 | one text is returned alone; with two or more, the first two are joined by a single space; a non-empty first text gives a non-empty reply |
| Coach.ReplyFirstTwo | src/components/Coach.jsx:22 | only the first two messages reach the reply |
| Coach.GenerateTip | src/components/Coach.jsx:4-23 | the reply is the first two texts of `Messages`, keyword answers then rule messages, and it is never empty |
| Coach.Send | src/components/Coach.jsx:38-46 | an all-blank input gets no reply; anything else gets the non-empty reply to its trimmed text |
| Coach.MessagesOrdered | src/components/Coach.jsx:18-20 | the message list is non-empty, with keyword answers ahead of every rule message in the order fat loss, breakfast, protein |
| Coach.NoOpBranchIrrelevant | src/components/Coach.jsx:9-11 | totals that agree on every tested rule give the same messages, so the empty branch has no effect |
| Coach.EmptyDayScenario | src/components/Coach.jsx:6-22 | zero totals against 2000 kcal with no keyword give exactly the under-target message for 2000, then low protein, and the reply is those two texts joined by a space |
| Coach.BreakfastThenProtein | src/components/Coach.jsx:18-22 | a question about breakfast and protein but not weight loss gets the breakfast ideas, then the protein foods |
| Coach.BreakfastProteinAnswers | src/components/Coach.jsx:18-20 | a question about breakfast and protein ("What about breakfast and protein?") puts the breakfast ideas first and the protein foods second |
| Coach.NoLNoFatLoss | src/components/Coach.jsx:20 | a question without the letter l asks nothing about fat loss or losing weight |
| Dashboard.DonutPct | src/components/Dashboard.jsx:5 | the ring's percentage lies in [0, 100]: the rounded share when it is in range, 0 below and 100 above |
| Dashboard.DonutMonotone | src/components/Dashboard.jsx:5 | against a positive target, eating more never shows a smaller share |
| Dashboard.DonutBounds | src/components/Dashboard.jsx:5 | reaching a positive target fills the ring; nothing eaten leaves it empty |
| Dashboard.NetCalories | src/components/Dashboard.jsx:35 | net calories are never negative: consumed less burned, or zero when that is below zero |
| Dashboard.NetWithoutWorkouts | src/components/Dashboard.jsx:35 | a day without workouts nets exactly what was eaten |
| Dashboard.NetDisplay | src/components/Dashboard.jsx:62 | the net figure shown is never negative |
| Dashboard.NetDisplayIsRoundedNet | src/components/Dashboard.jsx:62 | the second clamp never changes the figure: it is the rounded net |
| Dashboard.ConsumedBarWidth | src/components/Dashboard.jsx:52 | the consumed bar is at most 100 percent wide; it is the share of the target when that is at most 100 |
| Dashboard.ProteinPct | src/components/Dashboard.jsx:36 | the protein percentage is the rounded share of a divisor of at least 1 |
| Dashboard.ProteinProgress | src/components/Dashboard.jsx:96 | the progress shown lies in [0, 100] and is the percentage when that is in range |
| Dashboard.ProteinTargetMet | src/components/Dashboard.jsx:36-96 | meeting a target of at least 1 shows 100 percent progress |
| Dashboard.TrendBarWidth | src/components/Dashboard.jsx:83 | a trend bar is at most 100 percent wide, the divisor at least 1: the share when that is at most 100, and 100 when it is more |
| Dashboard.TrendBarMatchesConsumedBar | src/components/Dashboard.jsx:52-83 | for a positive target the trend bar and today's consumed bar agree |
| Dashboard.SparkValues | src/components/Dashboard.jsx:91 | one plotted value per trend day, each the day's net calories and never negative |
| Dashboard.SparkMax | src/components/Dashboard.jsx:23 | the scale is at least 1 and at least every value, and is 1 or one of the values |
| Dashboard.SparkPointsInRange | src/components/Dashboard.jsx:23-26 | every plotted value divided by the scale lies in [0, 1] |
| Dashboard.MacroCardPct | src/components/Dashboard.jsx:114 | no percentage exactly when the card has no target or a zero one; otherwise at most 100, the rounded share when that is at most 100 |
| Dashboard.MacroBarWidth | src/components/Dashboard.jsx:120 | a card without a percentage shows a full bar |
| Dashboard.ProteinCardMatchesProgress | src/components/Dashboard.jsx:36-114 | for a target of at least 1 and non-negative protein, the protein card's percentage equals the protein progress |

## Left out

- Browser storage (`useLocalStorage`, src/App.jsx:18-33) is I/O with JSON parsing and silent fallbacks. The model starts from empty logs, or from whatever logs a caller supplies.
- The clock and the calendar are not modelled: `new Date()`, `setDate` and `toISOString` in src/App.jsx:41 and 88-90. Ledger.Tracker.TodayTotals takes today's ISO key as a parameter. Ledger.Tracker.Last7Days takes today as a day number and `keyOf`, a function from day number to ISO key, as parameters. The trend label is `key.slice(5)`.
- The rendering is not modelled: JSX, `NavBar.jsx`, the profile form, and the `Field`, `Select`, `SummaryCard` and `MacroCard` markup. Neither are the coach chat's message list, its `setTimeout` delay and its quick actions, nor the sparkline's SVG point geometry. They are user interface. The profile's name is only displayed, so nothing here uses it.
- IEEE-754 effects are not modelled: NaN and Infinity from `Number()` of bad input or from a zero divisor, and the `|| 0` fallback on workout calories, which only NaN or a missing field would trigger. Numbers are exact reals.
- Dashboard.DonutPct and Dashboard.ConsumedBarWidth require a non-zero target, since the program divides by it there.
- The `|| 5` on a workout rate is kept: a zero rate falls back to 5.
- Ledger.RemoveAt takes a natural-number index. JavaScript's negative `splice` indices are not modelled, because the interface only passes list positions.
- Text.Lower and Text.Trim cover ASCII only. Full Unicode case mapping and Unicode white space are not modelled.
- Text.IntToString: no parser back from the decimal text is modelled; the contract states the digits' decimal value instead, since the program only prints the number.
