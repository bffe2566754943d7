# Calorie tracker — a Dafny model

This project models the core of a React calorie tracker written in TypeScript. The tracker keeps one user's data:

- the profile;
- a map from day to the foods eaten and the exercises done that day;
- weight and waist histories;
- macro-nutrient goals;
- recipes;
- alerts.

The tracker hook (`useCalorieTracker`) is modelled as the class `Tracker.CalorieTracker`. Its fields are:

- `data`: the persisted state;
- `currentDate` and `viewedDate`;
- `cache`: the module-level calorie cache;
- `foods`: the constant food table the search consults, which the constructor sets to `CalorieLookup.FoodDatabase`.

Each mutator is a method specified by a pure transition on `TrackerData` (`AddFoodOn`, `RemoveFoodOn`, `AddWeightOn`, `MarkRead`, ...). Lemmas state what these transitions keep and what they undo. The BMI/BMR/TDEE `calculations` are a pure classification in `Metrics`. The calorie search is modelled in `CalorieLookup` as:

- an exact lookup in the food table;
- then a partial (substring) scan in table order, as a loop with `break`;
- then a keyword estimate.

The validators (CPF check digits, password rules, required/length/range checks, phone and e-mail shapes) are in `Validation`. The CPF check is a method with two loops, proved equal to the pure function `CpfValid`. The password check is a method of five rule checks in sequence, proved equal to the list of failed rules.

The components that compute something each have a module:

- `WeightHistory`: safe histories, date sorting, trends, statistics, add guards;
- `Evolution`: first-to-last and seven-entry changes, goal distance, badges;
- `Recipes`: nutrition totals, submit normalisation, search filter, the form's list edits;
- `Export`: the CSV rows, the counts, the reset confirmation;
- `History` and `Dashboard`: the day's consumed, burned, net and remaining calories;
- `Macros`: nutrient totals with estimates, goal progress, the goal editor;
- `ProgressBar`: width, colour, label;
- `PersonalInfo`: lean-mass TMB/TDEE, input acceptance, the save guard.

Modelling conventions:

- JavaScript numbers are mathematical reals.
- `NaN` is `None` wherever it can arise.
- Days are integers (`Types.Date`).
- A free-text numeric field is a `Numbers.Text`: blank, a numeral with its value, or other text.
- `Math.round(x)` is `floor(x + 0.5)`.
- `parseInt` is truncation toward zero.
- Ids (`Date.now()`), timestamps, the answers to `confirm`/`prompt`, and how numbers are printed are parameters.

Two choices follow the code:

- **Which hook.** The Firestore hook's update and calculation bodies are comment stubs (`src/hooks/useCalorieTrackerFirebase.ts:69-75`), so the model follows the local-storage hook `src/hooks/useCalorieTracker.ts`.
- **Activity level.** The multiplier table at `useCalorieTracker.ts:126-134` has no default entry: the level is one of five enumerated values. The model's `ActivityLevel` datatype has exactly those five values.
  - The separate PersonalInfo form does default to 1.2. It uses the keys `sedentary/light/moderate/active/extra_active` (`src/utils/constants.ts:74-80`). Of the profile's level names only `sedentary` is among those keys, so every stored level gets 1.2 there (`PersonalInfo.ProfileLevelsGetDefaultFactor`).

## Model

| member | source | states |
|---|---|---|
| Tracker.SafeData | src/hooks/useCalorieTracker.ts:59-83 | for each of the seven fields: the stored value when present, else its default (the empty profile, the default goals, an empty map or list) |
| Tracker.SafeDataRoundTrip | src/hooks/useCalorieTracker.ts:59-83 | well-formed data passes the coercion unchanged, and coercing twice is coercing once |
| Tracker.SafeDataOfNothing | src/hooks/useCalorieTracker.ts:24-32 | with nothing usable stored, the tracker starts from the default data |
| Tracker.DayOf | src/hooks/useCalorieTracker.ts:149-156 | a day never written reads as empty food and exercise lists, never as undefined |
| Tracker.FreshDataHasEmptyDays | src/hooks/useCalorieTracker.ts:149-156 | after a reset every day reads as empty |
| Tracker.MergeUserInfo | src/hooks/useCalorieTracker.ts:159-168 | for each of the eleven profile fields: the patch's value when the patch carries it, the old value otherwise |
| Tracker.MergeUserInfoLaws | src/hooks/useCalorieTracker.ts:159-168 | an empty patch changes nothing, and applying a patch twice is applying it once |
| Tracker.MergeMacroGoals | src/hooks/useCalorieTracker.ts:171-180 | for each of the five goals: the patch's value when given, the old goal otherwise |
| Tracker.MergeFullMacroGoals | src/hooks/useCalorieTracker.ts:171-180 | a patch carrying all five goals replaces the goals entirely |
| Tracker.AddFoodOn | src/hooks/useCalorieTracker.ts:293-314 | one food appended at the end of that day's foods; the day's exercises, every other day and every other field unchanged |
| Tracker.RemoveFoodOn | src/hooks/useCalorieTracker.ts:343-358 | a food stays iff it was there and its id differs; the day is written even when absent; nothing else changes |
| Tracker.AddExerciseOn | src/hooks/useCalorieTracker.ts:361-382 | one exercise appended at the end of that day's exercises; foods, other days and other fields unchanged |
| Tracker.RemoveExerciseOn | src/hooks/useCalorieTracker.ts:385-400 | an exercise stays iff it was there and its id differs; nothing else changes |
| Tracker.RemoveFromAbsentDayCreatesIt | src/hooks/useCalorieTracker.ts:343-358 | removing from a day never written creates that day with empty lists |
| Tracker.RemoveFoodKeepsOrder | src/hooks/useCalorieTracker.ts:351 | removal distributes over concatenation, so the remaining foods keep their order |
| Tracker.AddThenRemoveFood | src/hooks/useCalorieTracker.ts:293-358 | adding a food with a fresh id and removing that id restores the day |
| Tracker.AddWeightFeedsMetrics | src/hooks/useCalorieTracker.ts:403-419 | the entry `{id, weight, date}` is appended after the old history, kept as a prefix; the profile becomes the old one with `weight` set to the logged value, so it is the weight the metrics read; nothing else changes |
| Tracker.AddWaistFeedsProfile | src/hooks/useCalorieTracker.ts:434-450 | the entry `{id, waist, date}` is appended after the old history, kept as a prefix; the profile becomes the old one with `waist` set to the logged value; nothing else changes |
| Tracker.RemoveWeightKeepsProfile | src/hooks/useCalorieTracker.ts:403-431 | removing the logged entry restores the history but leaves the profile's weight at the logged value |
| Tracker.RemoveMeasurementDropsId | src/hooks/useCalorieTracker.ts:422-462 | weight and waist removals drop exactly the entries with that id and leave the profile untouched |
| Tracker.NewAlert | src/hooks/useCalorieTracker.ts:522-538 | a new alert carries the given id and is unread |
| Tracker.MarkRead | src/hooks/useCalorieTracker.ts:541-552 | same length and order; only `read` changes, and it becomes true exactly for the alerts with that id |
| Tracker.MarkReadIdempotent | src/hooks/useCalorieTracker.ts:541-552 | marking the same alert twice is marking it once |
| Tracker.FoodFromRecipe | src/hooks/useCalorieTracker.ts:495-519 | the food is one serving (the recipe's nutrition scaled back by the servings gives the total), calories rounded to within 0.5, eaten `servings` times |
| Tracker.FoodFromBarcode | src/hooks/useCalorieTracker.ts:317-340 | nutrition per unit of the serving size (scaled back it gives the product's), calories rounded to within 0.5, the barcode kept |
| Tracker.CalorieTracker.constructor | src/hooks/useCalorieTracker.ts:24-32 | starts from the coerced stored data or the defaults, on today's date, with an empty cache and the program's food table |
| Tracker.CalorieTracker.GetDailyData | src/hooks/useCalorieTracker.ts:149-156 | an unwritten day reads as empty |
| Tracker.CalorieTracker.Calculations | src/hooks/useCalorieTracker.ts:86-146 | there is a BMI category exactly when the profile passes the guard |
| Tracker.CalorieTracker.SetCurrentDate | src/hooks/useCalorieTracker.ts:48-56 | the refresh changes only the current date |
| Tracker.CalorieTracker.SetViewedDate | src/components/History.tsx:22 | choosing a day to view changes only the viewed date |
| Tracker.CalorieTracker.UpdateUserInfo | src/hooks/useCalorieTracker.ts:159-168 | the profile becomes the merge; nothing else changes |
| Tracker.CalorieTracker.UpdateMacroGoals | src/hooks/useCalorieTracker.ts:171-180 | the goals become the merge; nothing else changes |
| Tracker.CalorieTracker.AddFood | src/hooks/useCalorieTracker.ts:293-314 | the data after is `AddFoodOn` on the current date; dates and cache unchanged |
| Tracker.CalorieTracker.AddFoodFromBarcode | src/hooks/useCalorieTracker.ts:317-340 | the per-unit food is added on the current date |
| Tracker.CalorieTracker.AddFoodFromRecipe | src/hooks/useCalorieTracker.ts:495-519 | one serving eaten `servings` times is added on the current date |
| Tracker.CalorieTracker.RemoveFood | src/hooks/useCalorieTracker.ts:343-358 | the data after is `RemoveFoodOn` |
| Tracker.CalorieTracker.AddExercise | src/hooks/useCalorieTracker.ts:361-382 | the data after is `AddExerciseOn` on the current date |
| Tracker.CalorieTracker.RemoveExercise | src/hooks/useCalorieTracker.ts:385-400 | the data after is `RemoveExerciseOn` |
| Tracker.CalorieTracker.AddWeightEntry | src/hooks/useCalorieTracker.ts:403-419 | the data after is `AddWeightOn` on the current date, whose effect `Tracker.AddWeightFeedsMetrics` states in full |
| Tracker.CalorieTracker.RemoveWeightEntry | src/hooks/useCalorieTracker.ts:422-431 | the data after is `RemoveWeightOn` |
| Tracker.CalorieTracker.AddWaistEntry | src/hooks/useCalorieTracker.ts:434-450 | the data after is `AddWaistOn` on the current date, whose effect `Tracker.AddWaistFeedsProfile` states in full |
| Tracker.CalorieTracker.RemoveWaistEntry | src/hooks/useCalorieTracker.ts:453-462 | the data after is `RemoveWaistOn` |
| Tracker.CalorieTracker.AddRecipe | src/hooks/useCalorieTracker.ts:465-480 | one recipe appended; nothing else changes |
| Tracker.CalorieTracker.RemoveRecipe | src/hooks/useCalorieTracker.ts:483-492 | the recipes with that id are filtered out |
| Tracker.CalorieTracker.AddAlert | src/hooks/useCalorieTracker.ts:522-538 | one unread alert appended |
| Tracker.CalorieTracker.MarkAlertAsRead | src/hooks/useCalorieTracker.ts:541-552 | the alerts become `MarkRead` of the old ones |
| Tracker.CalorieTracker.SearchCalories | src/hooks/useCalorieTracker.ts:183-285 | the answer is the table search's for the normalised name and always positive; a cached name answers from the cache and leaves it as it was; an uncached name is added with its answer; the cache keeps agreeing with the search |
| Tracker.CalorieTracker.SearchAndCache | src/hooks/useCalorieTracker.ts:242-281 | a name missing from the cache gets the table search's answer, which is cached; the cache keeps agreeing with the search and nothing else changes |
| Tracker.CalorieTracker.ResetData | src/hooks/useCalorieTracker.ts:555-570 | the defaults again and an empty cache |
| Tracker.SearchTwice | src/hooks/useCalorieTracker.ts:185-189 | two searches whose names normalise alike give the same answer; the cache gains at most the one entry for that name |
| Metrics.Category | src/hooks/useCalorieTracker.ts:102-108 | the six closed-open BMI bands at 18.5, 25, 30, 35 and 40, each as an if-and-only-if |
| Metrics.CategoryMonotone | src/hooks/useCalorieTracker.ts:102-108 | a larger BMI never falls into a lighter category |
| Metrics.Multiplier | src/hooks/useCalorieTracker.ts:126-134 | every activity multiplier lies between 1.2 and 1.9 |
| Metrics.BodyFatReading | src/hooks/useCalorieTracker.ts:92 | a missing or empty body-fat field reads as 0, and a non-zero reading is the typed number |
| Metrics.Read | src/hooks/useCalorieTracker.ts:88-96 | the guard passes iff age, height and weight read as non-zero numbers and a gender is chosen |
| Metrics.Calculate | src/hooks/useCalorieTracker.ts:86-146 | all zero with no category exactly when the guard fails |
| Metrics.CalculatedFromReadings | src/hooks/useCalorieTracker.ts:99-140 | past the guard: BMI rounded to a tenth, BMR and TDEE = BMR × multiplier rounded, category of the unrounded BMI |
| Metrics.CalculatedBmiAndTdee | src/hooks/useCalorieTracker.ts:99-140 | past the guard, in the profile's terms: BMI = weight / (height in metres)² rounded to a tenth and within 0.05 of it; the category is that of the exact BMI (normal weight iff 18.5 <= BMI < 25); TDEE = round(BMR × the level's multiplier) |
| Metrics.NewUserHasNoMetrics | src/hooks/useCalorieTracker.ts:94-96 | the default profile has no metrics |
| Metrics.BmrFormulaChoice | src/hooks/useCalorieTracker.ts:111-124 | Katch-McArdle exactly when body fat reads as a positive number, otherwise Harris-Benedict for the chosen sex |
| Metrics.LeanMassBmrOf | src/hooks/useCalorieTracker.ts:111-115 | with body fat read as a positive number, the BMR is the rounded Katch-McArdle value of the lean mass |
| Metrics.SexBmrOf | src/hooks/useCalorieTracker.ts:116-123 | without a positive body-fat reading, the BMR is the rounded Harris-Benedict value for the chosen sex |
| Metrics.TdeeAtLeastBmr | src/hooks/useCalorieTracker.ts:134-139 | the rounded TDEE is never below a non-negative rounded BMR |
| Metrics.HeavierNeverLowersCategory | src/hooks/useCalorieTracker.ts:99-108 | with everything else fixed, a heavier weight never lowers the BMI category |
| Numbers.ParseInt | src/components/MacroGoals.tsx:167 | `parseInt` of a numeral is its integer part, and NaN for anything else |
| Numbers.Trunc | src/components/MacroGoals.tsx:167 | truncation toward zero: the fractional part is dropped and the sign kept |
| Numbers.Round | src/hooks/useCalorieTracker.ts:137-139 | the result is within half a unit of the argument, halves rounding up |
| Numbers.RoundTenth | src/hooks/useCalorieTracker.ts:137 | one decimal place, within 0.05 of the argument |
| Numbers.RoundMonotone | src/hooks/useCalorieTracker.ts:137-139 | rounding keeps order |
| CalorieLookup.FoodDatabaseWellFormed | src/hooks/useCalorieTracker.ts:193-243 | the table has 127 entries, none negative and no empty key, starting with `maçã` at 52 |
| CalorieLookup.Lookup | src/hooks/useCalorieTracker.ts:246-247 | finds an entry with the name iff one exists |
| CalorieLookup.FirstMatchFrom | src/hooks/useCalorieTracker.ts:250-255 | the first entry, in table order, whose key contains or is contained in the name |
| CalorieLookup.PartialCalories | src/hooks/useCalorieTracker.ts:250-255 | non-negative, and non-zero only when some entry matches |
| CalorieLookup.Estimate | src/hooks/useCalorieTracker.ts:259-275 | the estimate is one of the seven category values |
| CalorieLookup.Search | src/hooks/useCalorieTracker.ts:245-276 | a non-zero exact entry wins; a missing name or an exact entry of 0 goes to the first partial match, then to the estimate when that gives 0; the answer is always positive |
| CalorieLookup.CaloriesFor | src/hooks/useCalorieTracker.ts:183-285 | the search over the program's table always answers a positive number |
| CalorieLookup.LookupCalories | src/hooks/useCalorieTracker.ts:244-276 | the loop with `break` computes exactly `Search` |
| CalorieLookup.EmptyNameTakesFirstEntry | src/hooks/useCalorieTracker.ts:250-255 | an empty name matches the first entry of any table |
| CalorieLookup.EmptyNameIsApple | src/hooks/useCalorieTracker.ts:185-255 | an empty or blank food name gets 52, the calories of `maçã` |
| Strings.TrimStart | src/hooks/useCalorieTracker.ts:185 | a suffix of the text, with all the leading whitespace gone |
| Strings.TrimEnd | src/hooks/useCalorieTracker.ts:185 | a prefix of the text, with all the trailing whitespace gone |
| Strings.Trim | src/components/Recipes.tsx:120 | the trimmed text is empty iff the text is whitespace only |
| Strings.TrimShape | src/components/Recipes.tsx:131 | the trimmed text starts and ends with non-whitespace and is made of the text's characters |
| Strings.Lower | src/hooks/useCalorieTracker.ts:185 | each character is lower-cased on its own, and the length is kept |
| Strings.LowerCharFixes | src/hooks/useCalorieTracker.ts:185 | lower-casing is idempotent and leaves whitespace alone |
| Strings.NormalizeIdempotent | src/hooks/useCalorieTracker.ts:185-189 | lower-casing then trimming again changes nothing, so a normalised name is its own cache key |
| Strings.ContainsIffOccurs | src/hooks/useCalorieTracker.ts:251 | `includes` holds iff the text occurs at some position |
| Strings.Split | src/components/Recipes.tsx:131 | never empty, and no piece holds the separator |
| Strings.JoinSplit | src/components/Export.tsx:55 | joining the pieces of a split gives the text back |
| Strings.SplitJoin | src/components/Export.tsx:55 | splitting a join gives the pieces back when none holds the separator |
| Validation.CleanDigits | src/utils/validation.ts:13 | only digits remain, and never more characters than before |
| Validation.ProgramCheckDigitIsStandard | src/utils/validation.ts:18-35 | `(sum·10) mod 11`, with 10 mapped to 0, is the standard mod-11 check digit |
| Validation.IsValidCpf | src/utils/validation.ts:12-36 | the two loops decide exactly `CpfValid`: 11 digits, not all the same, both check digits right |
| Validation.CpfDependsOnlyOnDigits | src/utils/validation.ts:13-15 | two inputs with the same digits get the same verdict |
| Validation.WeightedSumOfRepeated | src/utils/validation.ts:18-35 | the weighted sum of a repeated digit in closed form |
| Validation.RepeatedDigitsPassCheckDigits | src/utils/validation.ts:16 | repeated-digit numbers pass both check digits, so only the explicit repeat test rejects them |
| Validation.CleanDigitsAppend | src/utils/validation.ts:13 | stripping non-digits distributes over concatenation |
| Validation.SampleCpfIsValid | src/utils/validation.ts:12-36 | a text spelling the well-known number 52998224725 is accepted |
| Validation.FailedRules | src/utils/validation.ts:38-68 | at most five rules fail |
| Validation.FailedRulesExact | src/utils/validation.ts:38-68 | a rule is listed iff the password breaks it, in checking order |
| Validation.Messages | src/utils/validation.ts:38-68 | one message per failed rule, in order |
| Validation.RuleMessagesDistinct | src/utils/validation.ts:42-64 | different rules have different messages |
| Validation.ValidatePassword | src/utils/validation.ts:38-68 | the errors are the messages of the failed rules, at most five; valid iff there are none |
| Validation.PasswordReportMeaning | src/utils/validation.ts:38-68 | no message iff every rule holds, and a rule's message appears iff the rule is broken |
| Validation.ValidateRequired | src/utils/validation.ts:70-75 | a message exactly for null, undefined and the empty string |
| Validation.ZeroAndFalseAreNotMissing | src/utils/validation.ts:70-75 | 0, false and a blank space pass |
| Validation.ValidateMinLength | src/utils/validation.ts:77-82 | no error iff the length is at least the minimum |
| Validation.ValidateMaxLength | src/utils/validation.ts:84-89 | no error iff the length is at most the maximum |
| Validation.ValidateRange | src/utils/validation.ts:91-96 | no error iff the value lies in the closed range |
| Validation.EmptyRangeRejectsAll | src/utils/validation.ts:91-96 | a range with max below min rejects every value |
| Validation.PhoneShape | src/utils/validation.ts:7-10 | accepted iff the text is `(DD) DDDD-DDDD` or `(DD) DDDDD-DDDD`, any whitespace in the gap |
| Validation.EmailShape | src/utils/validation.ts:2-5 | accepted iff the text is `user@domain.suffix` with three non-empty runs free of whitespace and `@` |
| WeightHistory.SafeHistory | src/components/WeightHistory.tsx:68-101 | `[]` for a non-array, otherwise only entries with non-zero id, numeric value and date, never more than given |
| WeightHistory.UsablesAppend | src/components/WeightHistory.tsx:68-84 | the filter keeps the order of the entries it keeps |
| WeightHistory.InsertKeepsSorted | src/components/WeightHistory.tsx:103-123 | inserting by date keeps a date-sorted history sorted |
| WeightHistory.InsertPermutes | src/components/WeightHistory.tsx:103-123 | inserting adds exactly the one entry and loses none |
| WeightHistory.SortByDate | src/components/WeightHistory.tsx:103-123 | the result is sorted by non-decreasing date and as long as the input |
| WeightHistory.SortPermutes | src/components/WeightHistory.tsx:103-123 | the sorted history is a permutation of the input |
| WeightHistory.SortedSameEntries | src/components/WeightHistory.tsx:103-123 | sorting keeps exactly the entries it was given |
| WeightHistory.SortedFirstIsEarliest | src/components/WeightHistory.tsx:103-112 | the first sorted entry is one of the entries and dated no later than any of them |
| WeightHistory.SortedLastIsLatest | src/components/WeightHistory.tsx:103-112 | the last sorted entry is one of the entries and dated no earlier than any of them |
| WeightHistory.NewestFirst | src/components/WeightHistory.tsx:516 | the list reversed |
| WeightHistory.NewestFirstDescending | src/components/WeightHistory.tsx:516 | the records show newest first |
| WeightHistory.TrendOf | src/components/WeightHistory.tsx:125-169 | none below two entries; else a non-negative difference whose sign is up or down exactly as the last value is above or below the previous one |
| WeightHistory.MaxOf | src/components/WeightHistory.tsx:185 | an element that bounds every element from above |
| WeightHistory.MinOf | src/components/WeightHistory.tsx:186 | an element that bounds every element from below |
| WeightHistory.MeanBetween | src/components/WeightHistory.tsx:187 | the average lies between any bounds of the values |
| WeightHistory.StatsOf | src/components/WeightHistory.tsx:175-225 | none for an empty history; else max and min are values, bound them all, the range is their non-negative difference, and the average lies between them up to rounding |
| WeightHistory.StatsIgnoreOrder | src/components/WeightHistory.tsx:175-199 | the statistics of the sorted history bound every entry of the unsorted one |
| WeightHistory.AcceptedValue | src/components/WeightHistory.tsx:30 | a value is accepted iff it reads as a number above zero |
| WeightHistory.HandleAddWeight | src/components/WeightHistory.tsx:28-43 | a positive number is logged on the current date and the field cleared; anything else changes nothing |
| WeightHistory.HandleAddWaist | src/components/WeightHistory.tsx:45-66 | as for weight, and also nothing when no waist logger is given |
| WeightHistory.AddedEntryIsUsable | src/components/WeightHistory.tsx:68-101 | a logged entry with a non-zero id survives the safe filter |
| Evolution.ChangeTelescopes | src/components/EvolutionDashboard.tsx:25-41 | the first-to-last change is the sum of the step-by-step changes |
| Evolution.LastSeven | src/components/EvolutionDashboard.tsx:37-41 | the last seven entries, or all when fewer |
| Evolution.EvolutionOf | src/components/EvolutionDashboard.tsx:19-53 | none below two weigh-ins; `daysTracked` is their number, the start date is the earliest, the goal is `parseFloat(goalWeight || '0')`, read as 0 when the field is blank and the remaining weight is the goal minus the current weight; the total weight change is the current weight minus the sorted head's; the waist change is 0 below two waist entries |
| Evolution.TotalChangesOfSorted | src/components/EvolutionDashboard.tsx:20-34 | the total weight change is last minus first of the date-sorted weigh-ins; with two or more waist entries, the same for the waist |
| Evolution.SortedEnds | src/components/EvolutionDashboard.tsx:20-26 | the ends of the sorted copy are an earliest and a latest entry of the history |
| Evolution.WeightChangeSpansHistory | src/components/EvolutionDashboard.tsx:25-27 | the total weight change is the value of a latest entry minus that of an earliest entry |
| Evolution.WaistChangeSpansHistory | src/components/EvolutionDashboard.tsx:29-34 | with two or more waist entries, the total waist change is the value of a latest entry minus that of an earliest entry |
| Evolution.EarliestDate | src/components/EvolutionDashboard.tsx:20-27 | the first sorted date is the earliest date and belongs to some entry |
| Evolution.CurrentWeightIsLatest | src/components/EvolutionDashboard.tsx:25-27 | the current weight is that of an entry with the latest date |
| Evolution.WeeklyTrendOfShortHistory | src/components/EvolutionDashboard.tsx:37-41 | with at most seven entries the weekly trend is the total change |
| Evolution.WeeklyTrendIsLastSixSteps | src/components/EvolutionDashboard.tsx:37-41 | the weekly trend is the sum of the changes over the last seven entries, not seven days |
| Evolution.AchievementsOf | src/components/EvolutionDashboard.tsx:329-353 | the goal badge needs a goal weight |
| Evolution.ConsistencyMeansSevenWeighIns | src/components/EvolutionDashboard.tsx:329 | the consistency badge iff at least seven weigh-ins |
| Evolution.GoalBadgeMeansAtOrAboveGoal | src/components/EvolutionDashboard.tsx:353 | the goal badge iff a numeric goal is set and the current weight is at or above it |
| Evolution.ProgressBadgeMeansOneKilo | src/components/EvolutionDashboard.tsx:341 | the progress badge iff the total change is at least 1 kg either way |
| Recipes.With | src/components/Recipes.tsx:70-78 | a dotted field sets that one nutrient and keeps the others |
| Recipes.SetField | src/components/Recipes.tsx:68-83 | a plain field sets itself; a nutrient field changes only that nutrient |
| Recipes.QuantityInput | src/components/Recipes.tsx:574 | the typed number, or 0 |
| Recipes.ServingsInput | src/components/Recipes.tsx:480 | never 0: the integer part of the typed number, and 1 when that is 0 or nothing was typed |
| Recipes.RemoveAt | src/components/Recipes.tsx:64-66 | exactly the element at the index leaves, the rest keep their order; an index out of range changes nothing |
| Recipes.RemoveAtUndoesInsert | src/components/Recipes.tsx:64-66 | removing at an index undoes inserting there |
| Recipes.TotalNutrition | src/components/Recipes.tsx:105-115 | no ingredients give all zeros |
| Recipes.TotalFromShift | src/components/Recipes.tsx:105-115 | the fold from a running total adds that total |
| Recipes.TotalIsFieldSum | src/components/Recipes.tsx:105-115 | each nutrient of the total is the sum of that nutrient times quantity |
| Recipes.TotalAppend | src/components/Recipes.tsx:105-115 | the total of two ingredient lists is the sum of their totals |
| Recipes.FilledInstructions | src/components/Recipes.tsx:132 | exactly the non-blank instructions remain |
| Recipes.RejectionReasons | src/components/Recipes.tsx:120-123 | rejected iff the name is blank, there are no ingredients, or every instruction is blank |
| Recipes.NumberIngredients | src/components/Recipes.tsx:129 | ingredient ids are 1..n in order, everything else kept |
| Recipes.IngredientIdsDistinct | src/components/Recipes.tsx:129 | the ids are distinct |
| Recipes.CleanPiecesAreTags | src/components/Recipes.tsx:131 | pieces free of commas clean up to trimmed, non-empty tags |
| Recipes.Tags | src/components/Recipes.tsx:131 | every tag is trimmed, non-empty and free of commas |
| Recipes.TagsRoundTrip | src/components/Recipes.tsx:131 | joining clean tags with commas and reading them back gives the same tags |
| Recipes.Draft | src/components/Recipes.tsx:127-133 | ids 1..n, no blank instruction, name, servings and difficulty kept; an accepted form gives non-empty ingredients and instructions |
| Recipes.FilterRecipes | src/components/Recipes.tsx:140-148 | a recipe is shown iff the lower-cased term is in its name, description or a tag and the level matches |
| Recipes.EmptySearchShowsAll | src/components/Recipes.tsx:140-148 | an empty term under all levels shows every recipe, in order |
| Recipes.ServingsToAdd | src/components/Recipes.tsx:202-206 | an answer is used iff it reads as a number of at least 1, and then its integer part |
| Recipes.AddRecipeToDiary | src/components/Recipes.tsx:202-206 | the recipe is logged with the answered servings, or nothing changes |
| Recipes.RecipeForm.constructor | src/components/Recipes.tsx:39-53 | a blank form with one blank ingredient |
| Recipes.RecipeForm.Reset | src/components/Recipes.tsx:39-53 | back to the blank form |
| Recipes.RecipeForm.AddIngredient | src/components/Recipes.tsx:55-62 | exactly one blank ingredient appended |
| Recipes.RecipeForm.RemoveIngredient | src/components/Recipes.tsx:64-66 | exactly the ingredient at the index removed |
| Recipes.RecipeForm.UpdateIngredient | src/components/Recipes.tsx:68-83 | only the ingredient at the index changes, by `SetField` |
| Recipes.RecipeForm.AddInstruction | src/components/Recipes.tsx:85-90 | exactly one empty instruction appended |
| Recipes.RecipeForm.UpdateInstruction | src/components/Recipes.tsx:92-96 | only the instruction at the index changes |
| Recipes.RecipeForm.RemoveInstruction | src/components/Recipes.tsx:98-103 | exactly the instruction at the index removed |
| Recipes.RecipeForm.Submit | src/components/Recipes.tsx:117-138 | accepted iff the form passes the check; then the draft is added and the form reset, otherwise nothing changes |
| Recipes.RecipeForm.Accept | src/components/Recipes.tsx:125-136 | the accepted branch: the draft is appended to the recipes and the form reset, the tracker's dates and cache untouched |
| Export.FoodRow | src/components/Export.tsx:30-40 | seven columns, kind `Comida`, total `calories × quantity` |
| Export.ExerciseRow | src/components/Export.tsx:42-52 | seven columns, kind `Exercício`, quantity `1`, unit `sessão`, both calorie columns the exercise's calories |
| Export.DayRowsOrder | src/components/Export.tsx:29-52 | within a day every food row precedes every exercise row, each group in list order |
| Export.Rows | src/components/Export.tsx:26 | the first row is the header |
| Export.SevenColumns | src/components/Export.tsx:26-52 | every row has seven fields |
| Export.BuildRows | src/components/Export.tsx:24-53 | the nested pushes build exactly `Rows` |
| Export.RowCount | src/components/Export.tsx:29-53 | one row per food and per exercise after the header |
| Export.TotalDaysIsEntryCount | src/components/Export.tsx:74 | `totalDays` equals the number of days the export walks through |
| Export.CsvReadsBack | src/components/Export.tsx:55 | with no comma or newline in a field, splitting the text gives back the lines and the fields |
| Export.ExportShape | src/components/Export.tsx:24-76 | the CSV has `1 + totalFoods + totalExercises` lines of seven fields each |
| Export.HandleReset | src/components/Export.tsx:67-72 | the data is reset only after confirmation |
| History.SummaryOf | src/components/History.tsx:22-26 | consumed and burned are the day's sums, net is their difference, remaining is the non-negative max of the expenditure minus net and 0 |
| History.ShowHistory | src/components/History.tsx:22 | the page summarises the viewed day |
| History.AddFoodRaisesConsumed | src/components/History.tsx:23 | logging a food raises that day's consumption by its calories times quantity and changes no other day's summary |
| History.AddExerciseRaisesBurned | src/components/History.tsx:24 | logging an exercise raises that day's burned figure by its calories |
| History.ConsumedWithout | src/components/History.tsx:188 | removing a food id takes exactly those entries' energy off the consumption |
| History.BurnedWithout | src/components/History.tsx:222 | removing an exercise id takes exactly its calories off the burned figure |
| History.RemoveFoodHere | src/components/History.tsx:188 | removal targets the viewed day, whose consumption falls by the removed energy |
| History.RemoveExerciseHere | src/components/History.tsx:222 | removal targets the viewed day, whose burned figure falls by the removed calories |
| History.TotalsNonNegative | src/components/History.tsx:23-24 | non-negative entries give non-negative totals |
| Dashboard.BurnedAsWritten | src/components/Dashboard.tsx:20 | NaN iff there is at least one exercise |
| Dashboard.PanelOfAsWritten | src/components/Dashboard.tsx:12-21 | nothing while loading; missing foods count as 0; remaining is NaN exactly when burned is |
| Dashboard.OneExerciseMakesNaN | src/components/Dashboard.tsx:20-21 | a day with one 300 kcal exercise shows NaN burned and remaining |
| Dashboard.PanelOf | src/components/Dashboard.tsx:12-21 | nothing while loading; consumed and burned are the sums, missing lists count as 0; remaining is the expenditure minus net, unclamped |
| Dashboard.AsWrittenAgreesWithoutExercises | src/components/Dashboard.tsx:19-21 | without exercises the panel as written and the corrected panel agree |
| Dashboard.PanelMatchesHistory | src/components/Dashboard.tsx:19-21 | the corrected panel shows the history page's consumed and burned, and the history's remaining is the panel's clamped at 0 |
| Dashboard.ActiveAlerts | src/components/Dashboard.tsx:22 | exactly the unread alerts; `[]` when the alerts are missing |
| Dashboard.MarkReadRetiresAlert | src/components/Dashboard.tsx:22 | after marking an alert read it leaves the panel and no alert joins it |
| Macros.Estimated | src/components/MacroGoals.tsx:24-32 | the estimate keeps the calories and splits them exactly as 4·protein + 4·carbs + 9·fat, non-negative for non-negative calories |
| Macros.AddFoodAddsShare | src/components/MacroGoals.tsx:22-52 | logging a food adds its share to its day's totals |
| Macros.CalorieTotalIsConsumed | src/components/MacroGoals.tsx:34-42 | when profiles agree with the logged calories, the calorie total is the history's consumption |
| Macros.EstimatesSplitEnergy | src/components/MacroGoals.tsx:24-42 | for foods without profiles the totals split the energy as 4·protein + 4·carbs + 9·fat |
| Macros.MacroRows | src/components/MacroGoals.tsx:66-103 | four cards in order, each with its goal and the amount rounded to within 0.5 |
| Macros.Percentage | src/components/MacroGoals.tsx:219 | at most 100; 0 for a goal not positive; 100 iff the goal is reached; below it, the exact share |
| Macros.Missing | src/components/MacroGoals.tsx:255 | a positive amount that completes the goal, or nothing |
| Macros.CompleteMeansNothingMissing | src/components/MacroGoals.tsx:220-255 | complete iff nothing is missing, and for a positive goal iff the bar is full |
| Macros.GoalInput | src/components/MacroGoals.tsx:167-197 | a whole number, the typed number's integer part, or 0 |
| Macros.WithGoal | src/components/MacroGoals.tsx:167-197 | one goal set, the others kept |
| Macros.GoalsEditor.constructor | src/components/MacroGoals.tsx:18-19 | not editing, with the saved goals |
| Macros.GoalsEditor.Edit | src/components/MacroGoals.tsx:136 | enters edit mode, goals kept |
| Macros.GoalsEditor.TypeGoal | src/components/MacroGoals.tsx:167-197 | the typed value becomes that goal |
| Macros.GoalsEditor.Save | src/components/MacroGoals.tsx:56-59 | the typed goals become the saved goals, all five; edit mode ends |
| Macros.GoalsEditor.Cancel | src/components/MacroGoals.tsx:61-64 | the typed goals are replaced by the saved ones; edit mode ends |
| ProgressBar.WidthOf | src/components/ui/Progress.tsx:14-20 | at most 100; max defaults to 100; the exact share below the cap; over a zero max, NaN iff the value is 0 and minus infinity iff it is negative |
| ProgressBar.ColourOf | src/components/ui/Progress.tsx:28-42 | a chosen variant keeps its colour; the default is red iff at least 90%, yellow iff from 75% to below 90%, never blue |
| ProgressBar.ColourMonotone | src/components/ui/Progress.tsx:36-42 | under a fixed positive max the default colour only grows more alarming with the value |
| ProgressBar.LabelOf | src/components/ui/Progress.tsx:61 | a label exactly for a finite width, at most 100 |
| ProgressBar.LabelWithinBounds | src/components/ui/Progress.tsx:61 | a value between 0 and a positive max is labelled between 0 and 100 |
| PersonalInfo.Updated | src/components/PersonalInfo.tsx:39-81 | only the edited field changes; a numeric field takes blank or a number and ignores other text; the level takes only accepted names; other fields take anything |
| PersonalInfo.UpdateKeepsNumbersClean | src/components/PersonalInfo.tsx:46-63 | editing never lets text that is not a number into a numeric field |
| PersonalInfo.LeanMass | src/components/PersonalInfo.tsx:91 | a missing lean mass reads as NaN |
| PersonalInfo.Tmb | src/components/PersonalInfo.tsx:90-95 | 0 iff the lean mass is missing, NaN or not positive; else 500 + 22 kcal per kg |
| PersonalInfo.Factor | src/components/PersonalInfo.tsx:102-105 | between 1.2 and 1.9, and above 1.2 only for the four higher keys |
| PersonalInfo.Tdee | src/components/PersonalInfo.tsx:98-108 | TMB times the factor, rounded to within 0.5 |
| PersonalInfo.TdeeFollowsTmb | src/components/PersonalInfo.tsx:98-108 | no TMB, no TDEE; a positive TMB gives at least 1.2 times itself less rounding |
| PersonalInfo.ProfileLevelsGetDefaultFactor | src/components/PersonalInfo.tsx:102-105 | every level name a stored profile can hold gets factor 1.2 |
| PersonalInfo.ShouldSave | src/components/PersonalInfo.tsx:28-36 | save iff some field differs between the debounced and the stored profile |
| PersonalInfo.PersonalInfoForm.constructor | src/components/PersonalInfo.tsx:14 | the local copy starts as the stored profile |
| PersonalInfo.PersonalInfoForm.Sync | src/components/PersonalInfo.tsx:23-25 | the local copy follows the stored profile |
| PersonalInfo.PersonalInfoForm.HandleInputChange | src/components/PersonalInfo.tsx:39-81 | the local copy becomes `Updated`, which keeps numeric fields clean |
| PersonalInfo.PersonalInfoForm.Flush | src/components/PersonalInfo.tsx:28-36 | the local copy is saved iff it differs from the stored one |

## Left out

- Storage and I/O are not modelled:
  - local storage and the Firestore variant of the hook;
  - the once-a-minute date timer (its effect is `SetCurrentDate`);
  - the `alert`, `confirm` and `prompt` dialogs (their answers are parameters);
  - downloads, `console` logging, and the `try`/`catch` error paths.
- Tracker.CalorieTracker.constructor: the stored data are coerced once at load, not on every read. The program keeps the raw stored value and applies `safeData` only when reading, while its writes spread the raw `prev.userInfo` and `prev.macroGoals` (`useCalorieTracker.ts:163`, `175`, `414`, `445`). So after loading data without a profile, logging a weight stores a profile holding only that weight in the program, but the default profile with that weight in the model. The same holds for the goals and for the mutators `UpdateUserInfo`, `UpdateMacroGoals`, `AddWeightEntry` and `AddWaistEntry`.
- Ids from `Date.now()` and ISO timestamps are parameters. Locale date and number formatting is the `show` parameter of the CSV functions.
- Floating point is not modelled: numbers are exact reals, so rounding of binary fractions and overflow to infinity are not captured.
- `parseFloat` versus `Number` on partial numerals (`"12abc"`, surrounding spaces) is not modelled: a field is blank, a whole numeral or other text.
- Strings are sequences of code points. UTF-16 lengths are not modelled. `toLowerCase` folds only Basic Latin and Latin-1 capitals.
- The table lookup `foodDatabase[name]` also finds inherited object properties such as `constructor`; the model's table holds only the listed entries.
- Key order is not modelled: `Object.entries` over the day map is an explicit list of days (`Export.Enumerates`), and the save guard compares profiles as maps, not as `JSON.stringify` texts with key order.
- Sort stability among entries with equal dates is not modelled. `WeightHistory.SortByDate` is one sort that orders by date.
- CSV fields are never quoted. `Export.CsvReadsBack` states the round trip only for fields free of commas and newlines.
- React state batching, stale closures, and the debounce delay are not modelled: every update applies in sequence to the latest state.
- PersonalInfo.Updated, PersonalInfo.PersonalInfoForm.HandleInputChange and PersonalInfo.PersonalInfoForm.Flush model the form as its author evidently intended, not as it builds. `src/components/PersonalInfo.tsx:4` imports `ActivityLevel` from `src/utils/constants.ts`, which exports only `COLORS`, `BREAKPOINTS`, `ANIMATIONS`, `Z_INDEX` and `activityFactors` (lines 4-74). No file under `src` defines `ActivityLevel`, yet the form uses it at lines 67, 72, 195 and 199. `PersonalInfo.tsx:3` imports `{ useDebounce }` from `src/hooks/useDebounce.ts`, which exports nothing: it holds a second, unexported copy of a personal-information component. So the component as written cannot load. The `levels` parameter of `PersonalInfo.Updated` stands for the level names of the missing enumeration. `Flush` stands for the save the missing debounce hook would trigger, with no delay.
- Tracker.FoodFromRecipe: requires a non-zero servings count. A recipe with zero servings would divide by zero, and the form never produces one (`Recipes.ServingsInput`).
- Tracker.FoodFromBarcode: requires a non-zero serving size; a zero serving size would divide by zero.
- Recipes.RecipeForm.UpdateIngredient: requires an index inside the list. Its callers pass the index of a rendered row; an index past the end would grow the list.
- Recipes.RecipeForm.UpdateInstruction: requires an index inside the list, for the same reason.
- The recipe form's plain field setters (description, prep and cook time, difficulty, tags text) are not modelled separately. They are single-field assignments on `formData`.
- WeightHistory.SafeHistory: a stored `NaN` weight counts as not a number. The source's `typeof` test would let it through.
- Chart geometry, size classes, colour class names and display strings other than the CSV and the messages are not modelled.
- `FieldError` messages are kept as structured values, not formatted text.

## Findings

| source | as written | input that shows it | evidently intended | confidence | as-written member | corrected member |
|---|---|---|---|---|---|---|
| src/components/Dashboard.tsx:20 | burned calories sum `exercise.caloriesBurned`, a property exercise entries never carry (src/types/index.ts:67-72), so each step adds `undefined` | a day with one exercise `{id: 1, name: "corrida", calories: 300}` shows NaN burned and NaN remaining | sum `exercise.calories`, as the history page does | high, not executed | Dashboard.PanelOfAsWritten, Dashboard.OneExerciseMakesNaN | Dashboard.PanelOf, Dashboard.PanelMatchesHistory |
