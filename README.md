# Health app core, modelled in Dafny

This project models the logic of a Next.js health-tracking app (a Portuguese-language
weight-loss assistant), in seven modules:

- **`Js`** (`js.dfy`): the JavaScript built-ins the app's logic depends on. Numbers that
  may be NaN, `parseInt` without a radix (leading white space, sign, `0x` prefix, longest
  digit prefix), `trim`, `startsWith`, `join`, and the rendering of an integral number as
  plain decimal digits, which is how JavaScript prints integral values below 10^21 in
  magnitude (larger ones it prints in exponent form, which is not modelled). The central
  fact is the round trip `parseInt(String(n)) == n` for the model's rendering of every
  integer `n`, also with text after the digits; it is JavaScript's behaviour for
  integers below 10^21 in magnitude.
- **`Questionnaire`** (`questionnaire.dfy`): the onboarding questionnaire.
  - The workout-tier classifier, as a specification function and as the method that
    updates a running score branch by branch.
  - `toggleArrayItem` and the four-step wizard.
  - The two profile upserts: submit, and skip with placeholder answers.
- **`FoodAnalyzer`** (`food_analyzer.dfy`): the food-photo analyzer component.
  - The image checks.
  - The call to the analysis endpoint.
  - The merge of an analysed meal into the per-user, per-day calorie ledger. Only the
    day's row changes; the total stays equal to the sum of the meals' calories.
- **`AnalyzeFoodRoute`** (`analyze_food_route.dfy`): the `POST /api/analyze-food`
  handler. It is a chain of early returns, and it strips Markdown code fences from the
  model's reply before `JSON.parse`. The fence regex is modelled as the left-to-right
  global replacement it performs.
- **`ChatRoute`** (`chat_route.dfy`): the `POST /api/chat` handler and `getUserContext`.
  The latter assembles a four-part text (profile, recent workouts, recent calories,
  weight trend) from four query results. The whole text is a specification function.
  `GetUserContext` builds it step by step by appending to a `context` variable, as the
  source does.
- **`CaloriesPage`** (`calories_page.dfy`): the calories page.
  - The meal list the user adds to and deletes from, as a class.
  - The day's total, remaining calories and progress.
  - The per-type groups, whose totals add up to the day's total.
  - The weekly chart.
- **`Wrappers`** (`wrappers.dfy`): an `Option` type.

Everything outside the app is a parameter:
- The database answers: a ledger or profile table held as a `map`, a query outcome, a
  write outcome.
- The OpenAI replies, and `JSON.parse`.
- `parseFloat`; the rendering of fractional numbers and of dates (`Formatters`).
- The current time, and the ids the database and `Date.now()` produce.

Four behaviours of the code are kept as written, although a reader of the app might expect
otherwise:
- No handler answers 401. Every thrown error in `/api/analyze-food` becomes a 500 with its
  message.
- The model's reply is not validated or repaired beyond fence stripping and `JSON.parse`.
- The context text is not bounded in length.
- The weight change gets a `+` only when it is strictly positive.

## Model

| member | source | states |
|---|---|---|
| `Js.TrimStart` | src/app/api/analyze-food/route.ts:102 | the result is a suffix of the input, everything dropped is white space, and what is left does not start with white space |
| `Js.TrimEnd` | src/app/api/analyze-food/route.ts:102 | the result is a prefix of the input, everything dropped is white space, and what is left does not end with white space |
| `Js.Trim` | src/app/api/analyze-food/route.ts:102 | `trim` returns a slice `s[i..j]` whose outside is all white space and whose ends are not white space |
| `Js.TrimIdentity` | src/app/api/analyze-food/route.ts:102 | a string that neither starts nor ends with white space is its own trim |
| `Js.JoinEmpty` | src/app/api/chat/route.ts:136 | with a non-empty separator, a join is empty exactly when the list is empty or is one empty string |
| `Js.NatToString` | src/app/api/chat/route.ts:154 | the decimal rendering of a natural number is a non-empty string of digits, with a leading zero only for 0 (JavaScript's rendering below 10^21) |
| `Js.DigitsValueOfNatToString` | src/app/api/chat/route.ts:154 | reading back the decimal digits of a natural number gives the number |
| `Js.ParseMagnitudeOfDigits` | src/components/onboarding/QuestionnaireModal.tsx:40 | what `parseInt` reads after the white space and the sign: a non-empty run of decimal digits (leading zeros allowed, "007" is 7), followed by nothing or by a character that is no decimal digit, reads as the value of those digits, unless the run is a lone "0" followed by "x" or "X" (the radix-16 prefix) |
| `Js.ParseIntOfIntToString` | src/components/onboarding/QuestionnaireModal.tsx:40 | `parseInt` of an integer's digit rendering, followed by nothing or by text that does not start with a decimal digit, is that integer (negative values included); only "0" followed by "x" or "X" is excluded |
| `Js.ParseInt` | src/components/onboarding/QuestionnaireModal.tsx:81 | blank or all-white-space text reads as NaN (stored as null); any number read is a whole number |
| `Js.ParseIntRoundTrip` | src/components/dashboard/CaloriesPage.tsx:122 | `parseInt(String(n)) == n` for every integer, on the model's digit rendering (JavaScript's for magnitudes below 10^21) |
| `Questionnaire.AgePoints` | src/components/onboarding/QuestionnaireModal.tsx:50-52 | age earns 1 to 3 points, and a NaN age earns 1 |
| `Questionnaire.ActivityPoints` | src/components/onboarding/QuestionnaireModal.tsx:55-58 | activity earns 0 to 4 points, and 3 or more exactly for "very_active" and "active" |
| `Questionnaire.GoalPoints` | src/components/onboarding/QuestionnaireModal.tsx:61-62 | the goal earns 0 to 2 points, and 2 exactly for "gain_muscle" |
| `Questionnaire.WeightPenalty` | src/components/onboarding/QuestionnaireModal.tsx:65 | one point is deducted exactly when the gap is a number strictly above 20 |
| `Questionnaire.Score` | src/components/onboarding/QuestionnaireModal.tsx:47-65 | the additive score always lies within 0..9 |
| `Questionnaire.CalculateWorkoutLevel` | src/components/onboarding/QuestionnaireModal.tsx:39-72 | the running-score method returns the tier of the specification function `Classify` |
| `Questionnaire.TierMonotone` | src/components/onboarding/QuestionnaireModal.tsx:68-71 | a higher score never gives a lower tier |
| `Questionnaire.TierOf` | src/components/onboarding/QuestionnaireModal.tsx:68-71 | each tier is exactly one band of scores: at most 3, 4-5, 6-7, 8 and up |
| `Questionnaire.Classify` | src/components/onboarding/QuestionnaireModal.tsx:39-72 | advanced needs an active or very active user younger than 45; a form whose activity and goal score nothing is beginner |
| `Questionnaire.UnreadableAgeScoresOne` | src/components/onboarding/QuestionnaireModal.tsx:40-52 | an age `parseInt` cannot read fails both comparisons and scores 1, like an age of 45 |
| `Questionnaire.AgePointsOfTypedAge` | src/components/onboarding/QuestionnaireModal.tsx:40-52 | a typed whole age scores 3 below 30, 2 from 30 to 44, 1 from 45 on |
| `Questionnaire.EmptyAgeScoresOne` | src/components/onboarding/QuestionnaireModal.tsx:40-52 | an unanswered age parses to NaN and scores 1 |
| `Questionnaire.WeightGapBoundary` | src/components/onboarding/QuestionnaireModal.tsx:43-65 | a gap of exactly 20 kg either way deducts nothing, 21 deducts one, a NaN weight on either side deducts nothing |
| `Questionnaire.ClassifyTypedAge` | src/components/onboarding/QuestionnaireModal.tsx:39-72 | a form with a whole-number age is classified on that number |
| `Questionnaire.ClassifierExamples` | src/components/onboarding/QuestionnaireModal.tsx:39-72 | four worked classifications, including the 29-year boundary and the 25 kg gap penalty |
| `Questionnaire.Without` | src/components/onboarding/QuestionnaireModal.tsx:166 | the filter removes every occurrence of the item and keeps every other element with its multiplicity |
| `Questionnaire.WithoutAppend` | src/components/onboarding/QuestionnaireModal.tsx:166 | the filter distributes over concatenation, so order is kept |
| `Questionnaire.WithoutAbsent` | src/components/onboarding/QuestionnaireModal.tsx:166 | filtering out an absent item changes nothing |
| `Questionnaire.Toggle` | src/components/onboarding/QuestionnaireModal.tsx:164-169 | the item's membership flips, nothing else changes, and an absent item is appended at the end |
| `Questionnaire.ToggleTwiceAbsent` | src/components/onboarding/QuestionnaireModal.tsx:164-169 | toggling an absent item twice restores the list |
| `Questionnaire.ToggleTwicePresent` | src/components/onboarding/QuestionnaireModal.tsx:164-169 | toggling a present item twice moves it, once, to the end |
| `Questionnaire.Wizard.constructor` | src/components/onboarding/QuestionnaireModal.tsx:20 | the wizard starts at step 1 |
| `Questionnaire.Wizard.NextStep` | src/components/onboarding/QuestionnaireModal.tsx:156-158 | the step moves forward only below step 4 and stays within 1..4 |
| `Questionnaire.Wizard.PrevStep` | src/components/onboarding/QuestionnaireModal.tsx:160-162 | the step moves back only above step 1 and stays within 1..4 |
| `Questionnaire.Upsert` | src/components/onboarding/QuestionnaireModal.tsx:79-98 | an upsert on `user_id` replaces or adds the user's row, changes no other row and keeps one row per user |
| `Questionnaire.SubmittedRow` | src/components/onboarding/QuestionnaireModal.tsx:79-98 | the submitted row is the user's, carries the given tier and marks onboarding complete; a blank age is sent as null, and a sent age is whole |
| `Questionnaire.SkippedRow` | src/components/onboarding/QuestionnaireModal.tsx:121-140 | the skip row is the user's, says beginner and leaves onboarding incomplete |
| `Questionnaire.HandleSubmit` | src/components/onboarding/QuestionnaireModal.tsx:74-115 | on success the user's row holds the classified tier with onboarding complete; an error result is alerted twice, a rejected call once, and the table is unchanged |
| `Questionnaire.HandleSkip` | src/components/onboarding/QuestionnaireModal.tsx:117-154 | on success the user's row holds the beginner tier with onboarding incomplete; failures are alerted as on submit |
| `Questionnaire.SkippedTierIsNotClassified` | src/components/onboarding/QuestionnaireModal.tsx:121-136 | the skip row's own placeholder answers would classify as intermediate, yet the row says beginner |
| `Questionnaire.SkipThenSubmit` | src/components/onboarding/QuestionnaireModal.tsx:79-140 | skipping and then submitting leaves one row for the user: the submitted, completed one |
| `FoodAnalyzer.ImageError` | src/components/dashboard/FoodAnalyzer.tsx:46-56 | a file is accepted exactly when it is at most 5 MiB and its type starts with `image/`; size is checked first |
| `FoodAnalyzer.ImageSizeBoundary` | src/components/dashboard/FoodAnalyzer.tsx:47 | exactly 5 MiB passes, one byte more is too large whatever the type |
| `FoodAnalyzer.MealOf` | src/components/dashboard/FoodAnalyzer.tsx:115-121 | the saved meal carries the result's foods and its `totalCalories` |
| `FoodAnalyzer.MealsOf` | src/components/dashboard/FoodAnalyzer.tsx:125 | a stored meal list is used as is, and a missing one reads as empty |
| `FoodAnalyzer.Merge` | src/components/dashboard/FoodAnalyzer.tsx:123-152 | only the day's row changes; an existing day gets the meal appended and its calories added and keeps its id and goal, a new day starts with goal 2000 and the meal alone |
| `FoodAnalyzer.SumMealsAppend` | src/components/dashboard/FoodAnalyzer.tsx:126-127 | the meals' calorie sum grows by the appended meal's calories |
| `FoodAnalyzer.MergeKeepsBalance` | src/components/dashboard/FoodAnalyzer.tsx:123-152 | if every row's total equals the sum of its meals, it still does after a merge |
| `FoodAnalyzer.TwoMergesTotal` | src/components/dashboard/FoodAnalyzer.tsx:123-152 | two meals saved on one day give the same total in either order, listed in save order |
| `FoodAnalyzer.NewDayExample` | src/components/dashboard/FoodAnalyzer.tsx:139-149 | 450 then 300 kcal on a new day gives one row of 750 kcal with goal 2000 and both meals |
| `FoodAnalyzer.AnalyzeError` | src/components/dashboard/FoodAnalyzer.tsx:89-95 | a failure shows its own message, and exactly the default "Erro ao analisar imagem" when that is empty |
| `FoodAnalyzer.Analyzer.constructor` | src/components/dashboard/FoodAnalyzer.tsx:34-38 | nothing selected, no result, no error, not saved |
| `FoodAnalyzer.Analyzer.HandleImageSelect` | src/components/dashboard/FoodAnalyzer.tsx:43-67 | no file changes nothing; a rejected file only sets the error; an accepted one is selected and clears result, error and saved |
| `FoodAnalyzer.Analyzer.AnalyzeImage` | src/components/dashboard/FoodAnalyzer.tsx:69-99 | without an image nothing happens; success stores the result, failure keeps it and shows the message; the busy flag ends off |
| `FoodAnalyzer.Analyzer.SaveToDatabase` | src/components/dashboard/FoodAnalyzer.tsx:101-163 | without a result nothing happens; success makes the ledger the `Merge` of the meal and sets saved; failure leaves the ledger and shows the prefixed message |
| `FoodAnalyzer.Analyzer.SavedTimerFires` | src/components/dashboard/FoodAnalyzer.tsx:155-159 | the image, the result and the saved flag are cleared |
| `AnalyzeFoodRoute.RemoveFences` | src/app/api/analyze-food/route.ts:102 | the replacement never lengthens the text and leaves backtick-free text unchanged |
| `AnalyzeFoodRoute.StripFences` | src/app/api/analyze-food/route.ts:102 | on backtick-free text, stripping is exactly `trim` |
| `AnalyzeFoodRoute.ClosingFenceRemoved` | src/app/api/analyze-food/route.ts:102 | a closing fence after a backtick-free payload is removed with its newline and nothing else is, even when the payload ends in a newline |
| `AnalyzeFoodRoute.FencedPayload` | src/app/api/analyze-food/route.ts:102 | a payload wrapped in a json-tagged fence strips to the trimmed payload, the same text as the bare payload |
| `AnalyzeFoodRoute.ThrownError` | src/app/api/analyze-food/route.ts:117-123 | a thrown error is a 500 carrying its message, and exactly the generic "Erro ao processar imagem" when that is empty |
| `AnalyzeFoodRoute.AnalyzeFoodPost` | src/app/api/analyze-food/route.ts:8-124 | only 200, 400 and 500; 400 exactly for a missing image; the key is checked after the image; an unreadable body and a thrown model call get the thrown-error answer; an empty reply gets its own 500; a reply that does not parse is a 500 echoing the raw reply; success exactly when every step succeeds, with the parsed stripped reply; the raw reply is echoed only when it did not parse |
| `AnalyzeFoodRoute.EmptyReplyIgnoresParser` | src/app/api/analyze-food/route.ts:89-96 | an empty or absent reply is a 500 before any parse, whatever `JSON.parse` does |
| `AnalyzeFoodRoute.FencedReplyParsesLikeBare` | src/app/api/analyze-food/route.ts:98-115 | a fenced reply succeeds exactly when the bare reply does, with the same data |
| `ChatRoute.FieldText` | src/app/api/chat/route.ts:124-134 | null, the empty string and zero print the placeholder; a filled-in text prints itself, another number prints as a number |
| `ChatRoute.ListText` | src/app/api/chat/route.ts:136-137 | a list prints as "nenhuma" when absent, empty or one empty string, and joined by ", " otherwise |
| `ChatRoute.WorkoutLines` | src/app/api/chat/route.ts:146-148 | one line per workout, numbered from 1, starting with its title |
| `ChatRoute.BurnedTotal` | src/app/api/chat/route.ts:153 | the `reduce` sum of the workouts' burned calories is never negative when no workout's is |
| `ChatRoute.BurnedTotalBounds` | src/app/api/chat/route.ts:153 | the burned total lies between count times the least and count times the most per workout |
| `ChatRoute.CalorieLines` | src/app/api/chat/route.ts:161-163 | one line per day, numbered from 1 |
| `ChatRoute.RoundedAverage` | src/app/api/chat/route.ts:166-168 | `Math.round(total / n)`: the nearest integer, a half rounding up |
| `ChatRoute.ConsumedTotal` | src/app/api/chat/route.ts:167 | the `reduce` sum of the days' consumed calories is never negative when no day's is |
| `ChatRoute.ConsumedTotalBounds` | src/app/api/chat/route.ts:167 | the consumed total lies between count times the least and count times the most per day |
| `ChatRoute.RoundedAverageBounds` | src/app/api/chat/route.ts:166-168 | rounding an average of values within `lo..hi` stays within `lo..hi` |
| `ChatRoute.AverageWithinRange` | src/app/api/chat/route.ts:166-169 | the printed daily average lies between the least and the most consumed day |
| `ChatRoute.RoundTenths` | src/app/api/chat/route.ts:181 | `toFixed(1)` keeps the nearest tenth of a non-negative value |
| `ChatRoute.Fixed1Magnitude` | src/app/api/chat/route.ts:181 | a non-negative value prints starting with a digit |
| `ChatRoute.Fixed1` | src/app/api/chat/route.ts:181 | `toFixed(1)` prints a minus sign exactly for a negative value, and a digit first otherwise |
| `ChatRoute.ChangeText` | src/app/api/chat/route.ts:181 | the weight change starts with `+` exactly when positive and `-` exactly when negative |
| `ChatRoute.ChangeExample` | src/app/api/chat/route.ts:177-181 | a change from 78.5 kg to 77.7 kg prints as "-0.8" |
| `ChatRoute.PopulatedProfile` | src/app/api/chat/route.ts:123-139 | a found profile prints under its "PERFIL:" header |
| `ChatRoute.ProfilePart` | src/app/api/chat/route.ts:122-142 | both forms of the profile part start with "PERFIL"; a found profile prints under its header, a missing one as the fixed sentence |
| `ChatRoute.WorkoutsList` | src/app/api/chat/route.ts:145-150 | the workout list starts with its header |
| `ChatRoute.WorkoutsPart` | src/app/api/chat/route.ts:144-157 | workouts print under their header, and no workouts print the fixed sentence |
| `ChatRoute.CaloriesList` | src/app/api/chat/route.ts:160-165 | the calorie list starts with its header |
| `ChatRoute.CaloriesPart` | src/app/api/chat/route.ts:159-172 | calorie days print under their header, and none print the fixed sentence |
| `ChatRoute.WeightLines` | src/app/api/chat/route.ts:175-184 | the first row, the newest, is the one printed as the latest weight |
| `ChatRoute.WeightSummary` | src/app/api/chat/route.ts:179-184 | the weight summary starts with its header |
| `ChatRoute.WeightPart` | src/app/api/chat/route.ts:174-187 | weights print under their header, and none print the fixed sentence |
| `ChatRoute.ContextText` | src/app/api/chat/route.ts:121-187 | the assembled context starts with the profile part, hence with "PERFIL" |
| `ChatRoute.UserContext` | src/app/api/chat/route.ts:78-194 | the load error is returned exactly when a query raised; otherwise the text starts with the profile part |
| `ChatRoute.UserContextNeverEmpty` | src/app/api/chat/route.ts:189-193 | the context is never empty, so the "no data yet" fallback is never returned; the result is the load error or starts with "PERFIL" |
| `ChatRoute.GetUserContext` | src/app/api/chat/route.ts:78-194 | the step-by-step build equals the specification `UserContext` and is never empty nor the fallback |
| `ChatRoute.AppendProfile` | src/app/api/chat/route.ts:123-142 | appends exactly the profile part |
| `ChatRoute.AppendWorkouts` | src/app/api/chat/route.ts:144-157 | appends the workouts list and summary, with the count and the burned total |
| `ChatRoute.AppendCalories` | src/app/api/chat/route.ts:159-172 | appends the calorie list and the rounded daily average |
| `ChatRoute.AppendWeights` | src/app/api/chat/route.ts:174-187 | appends the latest weight, the signed change from the oldest, and the count |
| `ChatRoute.ChatPost` | src/app/api/chat/route.ts:14-76 | an unreadable body is a 500, a falsy field a 400 before any query; otherwise the model's answer to the user's context, or the apology when empty; only 400 and 500 fail |
| `CaloriesPage.InitialMeals` | src/components/dashboard/CaloriesPage.tsx:59-88 | the page starts with four meals: breakfast, lunch, snack, dinner |
| `CaloriesPage.Total` | src/components/dashboard/CaloriesPage.tsx:112 | the total is a number exactly when every meal's calories are (a NaN meal makes it NaN) |
| `CaloriesPage.TotalAppend` | src/components/dashboard/CaloriesPage.tsx:112 | appending a meal adds its calories to the total |
| `CaloriesPage.Remaining` | src/components/dashboard/CaloriesPage.tsx:113 | remaining plus total is 1800, negative when over the goal |
| `CaloriesPage.Progress` | src/components/dashboard/CaloriesPage.tsx:114 | progress is capped at 100, is 100 from the goal on, and below it is the total as a percentage of 1800 |
| `CaloriesPage.RemainingLabel` | src/components/dashboard/CaloriesPage.tsx:164-172 | calories left are shown exactly when the total is below the goal, and the number shown is the remaining calories; otherwise the surplus over the goal |
| `CaloriesPage.MealsOfType` | src/components/dashboard/CaloriesPage.tsx:136-138 | a group holds exactly the meals of that type |
| `CaloriesPage.MealsOfTypeAppend` | src/components/dashboard/CaloriesPage.tsx:136-138 | grouping commutes with appending, so a group keeps the list's order |
| `CaloriesPage.GroupStep` | src/components/dashboard/CaloriesPage.tsx:322-327 | an appended meal adds to its own group's total and to no other |
| `CaloriesPage.GroupTotalsSum` | src/components/dashboard/CaloriesPage.tsx:322-327 | the four group totals add up to the day's total |
| `CaloriesPage.WithoutId` | src/components/dashboard/CaloriesPage.tsx:132-134 | the filter keeps exactly the meals with another id |
| `CaloriesPage.WithoutIdAppend` | src/components/dashboard/CaloriesPage.tsx:132-134 | the filter distributes over concatenation, so the kept meals stay in order and each occurrence is kept or dropped on its own |
| `CaloriesPage.WithoutAbsentId` | src/components/dashboard/CaloriesPage.tsx:132-134 | deleting an id no meal carries changes nothing |
| `CaloriesPage.DeleteUndoesAdd` | src/components/dashboard/CaloriesPage.tsx:116-134 | deleting a meal just added under a fresh id restores the list |
| `CaloriesPage.Complete` | src/components/dashboard/CaloriesPage.tsx:117 | a form the add button accepts is never the reset form, so a second add right after a reset changes nothing |
| `CaloriesPage.MealOf` | src/components/dashboard/CaloriesPage.tsx:119-125 | the new meal carries the form's fields and `parseInt` of its calories |
| `CaloriesPage.TypedCaloriesAdded` | src/components/dashboard/CaloriesPage.tsx:119-127 | typed whole calories give a meal of exactly that many, and the total grows by exactly that |
| `CaloriesPage.CaloriesTracker.constructor` | src/components/dashboard/CaloriesPage.tsx:59-109 | the initial meals, an empty breakfast form, the dialog closed |
| `CaloriesPage.CaloriesTracker.SetDialogOpen` | src/components/dashboard/CaloriesPage.tsx:250 | only the dialog flag changes |
| `CaloriesPage.CaloriesTracker.EditForm` | src/components/dashboard/CaloriesPage.tsx:262-307 | only the form changes |
| `CaloriesPage.CaloriesTracker.AddMeal` | src/components/dashboard/CaloriesPage.tsx:116-130 | an incomplete form changes nothing; otherwise exactly one meal is appended, the total grows by its calories, the form resets to breakfast and the dialog closes |
| `CaloriesPage.CaloriesTracker.DeleteMeal` | src/components/dashboard/CaloriesPage.tsx:132-134 | every meal with the id goes, the others stay in order; form and dialog unchanged |
| `CaloriesPage.MaxOf` | src/components/dashboard/CaloriesPage.tsx:101 | `Math.max` returns a member no element exceeds |
| `CaloriesPage.BarPercentage` | src/components/dashboard/CaloriesPage.tsx:224 | a bar is within 0..100 percent, and the highest day is full height |
| `CaloriesPage.WeeklyHighest` | src/components/dashboard/CaloriesPage.tsx:91-101 | the week's highest day is 1950 kcal |
| `CaloriesPage.IsOverGoal` | src/components/dashboard/CaloriesPage.tsx:225 | a day is drawn over the goal exactly when the goal minus its calories, computed as the card computes what remains, is negative |
| `CaloriesPage.WeeklyOverGoal` | src/components/dashboard/CaloriesPage.tsx:225 | only Saturday is over the goal; Thursday's 1800 merely meets it |
| `CaloriesPage.OverGoalShowsSurplus` | src/components/dashboard/CaloriesPage.tsx:225 | the chart's threshold and the card's agree: a meal total the chart would draw over the goal makes the card show the surplus; a total exactly at the goal shows it too but would not be drawn over; any other total shows calories left (the page itself never shows both for one count: the chart's week is fixed sample data) |

## Left out

- Rendering, styling, icons, navigation, `alert` texts other than those of the questionnaire, and the `loading` / `analyzing` spinners beyond the flag `AnalyzeImage` clears.
- The database and OpenAI calls themselves: their results are inputs. The prompts, the model names and the sampling parameters are not modelled. Which rows the date windows select (14, 7 and 30 days) and their ordering are the queries' business; the model takes the rows as returned.
- `parseFloat`, JavaScript's rendering of fractional numbers and `toLocaleDateString('pt-BR')` are passed in as functions, not defined.
- Floating-point arithmetic: sums, differences and divisions of numbers are exact reals. Infinities are not modelled, and `parseInt` is exact even beyond 2^53.
- `Js.NatToString`: renders every natural number as plain decimal digits. JavaScript prints integral values of 10^21 or more in exponent form (`String(1e21)` is "1e+21", and `parseInt` of that is 1), which is not modelled.
- `Js.IntToString`: the same limit; for magnitudes of 10^21 or more JavaScript's rendering is in exponent form and the round trip `ParseIntRoundTrip` would not hold of it.
- `ChatRoute.NumberText`: the same limit; an integral value of magnitude 10^21 or more in the chat context would be printed in exponent form by JavaScript.
- `ChatRoute.Fixed1Magnitude`: follows `toFixed(1)` only for values below 10^21, and rounds the exact real rather than the nearest double.
- Non-string JSON values in request bodies (a number as `message`, say): fields are absent or strings.
- `FileReader` is not modelled: the data URL it produces is an argument of `HandleImageSelect`.
- The two-second timer after a save, and `Date.now()` for new meal ids, become calls and arguments.
- `FoodAnalyzer.Analyzer.SaveToDatabase`: the read and the write of the day's row are one step, so a concurrent save by another tab (lost update) is not modelled. A `.single()` read that fails because of duplicate rows is not modelled either, since the ledger holds at most one row per user and day. Nor is any other failed read: when the read fails (network, permission), `existingData` is null and the code takes the insert path, which would add a second row for the day; the keyed ledger cannot hold that row. One `now` stands for both the meal's time and the row's `updated_at`.
- `FoodAnalyzer.Merge`: the analysis result's calorie fields are whole numbers. A fractional `totalCalories`, or a missing one whose sum is NaN (stored as null), is not modelled.
- `ChatRoute.GetUserContext`: workouts and calorie rows whose numeric columns are null are not modelled (`caloriesBurned`, `consumed` and `goal` are integers).
- `Questionnaire.ClassifierExamples`: examples are stated on the parsed numbers, with `AgePointsOfTypedAge` linking typed ages to them.
- The `userId` field of `/api/analyze-food` is read but never used by the source, and is not modelled.
- The remaining render-only computation of the calories page, `Math.round(progressPercentage)` and the ring's SVG arithmetic, is not modelled.
