/** The onboarding questionnaire: the workout-tier classifier, the list toggle used by the
    multi-choice questions, the four-step wizard, and the two profile upserts (submit and
    skip). */
module Questionnaire {
  import opened Js

  datatype WorkoutLevel = Beginner | Easy | Intermediate | Advanced

  /** The tiers in increasing order of difficulty. */
  function Rank(level: WorkoutLevel): nat {
    match level
    case Beginner => 0
    case Easy => 1
    case Intermediate => 2
    case Advanced => 3
  }

  /** The questionnaire's form state: the text the user typed or picked for every field, and
      the chosen items of the two multi-choice questions. */
  datatype FormData = FormData(
    age: string, gender: string, height: string,
    currentWeight: string, targetWeight: string,
    activityLevel: string, fitnessGoal: string,
    dietaryRestrictions: seq<string>, healthConditions: seq<string>,
    mealsPerDay: string, waterIntake: string, sleepHours: string)

  /** JavaScript's `parseFloat`, which this model does not define, is passed in. */
  type FloatParser = string -> Number

  // ----- The classifier: its specification -----

  /** Age points: a NaN age fails both comparisons and lands on the last branch. */
  function AgePoints(age: Number): (p: int)
    ensures 1 <= p <= 3
    ensures age.NaN? ==> p == 1
  {
    if Less(age, 30.0) then 3 else if Less(age, 45.0) then 2 else 1
  }

  /** Activity points; any value other than the four listed (including "sedentary" and the
      empty string of an unanswered question) scores nothing. */
  function ActivityPoints(activityLevel: string): (p: int)
    ensures 0 <= p <= 4
    ensures p >= 3 <==> activityLevel == "very_active" || activityLevel == "active"
  {
    if activityLevel == "very_active" then 4
    else if activityLevel == "active" then 3
    else if activityLevel == "moderate" then 2
    else if activityLevel == "light" then 1
    else 0
  }

  function GoalPoints(fitnessGoal: string): (p: int)
    ensures 0 <= p <= 2
    ensures p == 2 <==> fitnessGoal == "gain_muscle"
  {
    if fitnessGoal == "gain_muscle" then 2 else if fitnessGoal == "improve_health" then 1 else 0
  }

  /** The one-point deduction for a weight gap strictly above 20; a NaN gap deducts nothing. */
  function WeightPenalty(weightDiff: Number): (p: int)
    ensures p == 0 || p == 1
    ensures p == 1 <==> weightDiff.Num? && weightDiff.value > 20.0
  {
    if Greater(weightDiff, 20.0) then 1 else 0
  }

  /** The additive score, always within 0..9. */
  function Score(age: Number, activityLevel: string, fitnessGoal: string, weightDiff: Number): (score: int)
    ensures 0 <= score <= 9
  {
    AgePoints(age) + ActivityPoints(activityLevel) + GoalPoints(fitnessGoal) - WeightPenalty(weightDiff)
  }

  /** The four thresholds: each tier is exactly one band of scores. */
  function TierOf(score: int): (level: WorkoutLevel)
    ensures level == Beginner <==> score <= 3
    ensures level == Easy <==> 4 <= score <= 5
    ensures level == Intermediate <==> 6 <= score <= 7
    ensures level == Advanced <==> 8 <= score
  {
    if score <= 3 then Beginner
    else if score <= 5 then Easy
    else if score <= 7 then Intermediate
    else Advanced
  }

  /** The score of a filled-in form: `parseInt` of the age, `parseFloat` of both weights and
      the absolute difference of the two. */
  function FormScore(form: FormData, parseFloat: FloatParser): int {
    var weightDiff := Abs(Sub(parseFloat(form.currentWeight), parseFloat(form.targetWeight)));
    Score(ParseInt(form.age), form.activityLevel, form.fitnessGoal, weightDiff)
  }

  /** The tier a filled-in form is classified into. Only an active or very active user
      younger than 45 can reach the advanced tier, and a form whose activity level and goal
      both score nothing is always beginner. */
  function Classify(form: FormData, parseFloat: FloatParser): (level: WorkoutLevel)
    ensures level == Advanced ==>
      && (form.activityLevel == "very_active" || form.activityLevel == "active")
      && Less(ParseInt(form.age), 45.0)
    ensures ActivityPoints(form.activityLevel) == 0 && GoalPoints(form.fitnessGoal) == 0 ==> level == Beginner
  {
    TierOf(FormScore(form, parseFloat))
  }

  // ----- The classifier as the component computes it -----

  /** `calculateWorkoutLevel`: a running score updated branch by branch, then four
      thresholds. */
  method CalculateWorkoutLevel(form: FormData, parseFloat: FloatParser) returns (level: WorkoutLevel)
    ensures level == Classify(form, parseFloat)
  {
    var age := ParseInt(form.age);
    var activityLevel := form.activityLevel;
    var fitnessGoal := form.fitnessGoal;
    var currentWeight := parseFloat(form.currentWeight);
    var targetWeight := parseFloat(form.targetWeight);
    var weightDiff := Abs(Sub(currentWeight, targetWeight));

    var score := 0;

    if Less(age, 30.0) {
      score := score + 3;
    } else if Less(age, 45.0) {
      score := score + 2;
    } else {
      score := score + 1;
    }

    if activityLevel == "very_active" {
      score := score + 4;
    } else if activityLevel == "active" {
      score := score + 3;
    } else if activityLevel == "moderate" {
      score := score + 2;
    } else if activityLevel == "light" {
      score := score + 1;
    }

    if fitnessGoal == "gain_muscle" {
      score := score + 2;
    } else if fitnessGoal == "improve_health" {
      score := score + 1;
    }

    if Greater(weightDiff, 20.0) {
      score := score - 1;
    }

    if score <= 3 {
      return Beginner;
    }
    if score <= 5 {
      return Easy;
    }
    if score <= 7 {
      return Intermediate;
    }
    return Advanced;
  }

  // ----- Properties of the classifier -----

  /** The tier never decreases as the score grows. */
  lemma TierMonotone(s: int, t: int)
    requires s <= t
    ensures Rank(TierOf(s)) <= Rank(TierOf(t))
  {
  }

  /** An age that `parseInt` cannot read is NaN, fails both age tests and earns one point,
      the same as an age of 45 or more. */
  lemma UnreadableAgeScoresOne(ageText: string)
    requires ParseInt(ageText) == NaN
    ensures AgePoints(ParseInt(ageText)) == 1
    ensures AgePoints(ParseInt(ageText)) == AgePoints(Num(45.0))
  {
  }

  /** An age typed as a whole number earns points by its band: 3 below 30, 2 from 30 to 44,
      1 from 45 on. */
  lemma AgePointsOfTypedAge(n: int)
    ensures AgePoints(ParseInt(IntToString(n))) == if n < 30 then 3 else if n < 45 then 2 else 1
  {
    ParseIntRoundTrip(n);
  }

  /** An empty age answer is NaN and earns one point. */
  lemma EmptyAgeScoresOne()
    ensures ParseInt("") == NaN && AgePoints(ParseInt("")) == 1
  {
  }

  /** The weight gap deducts a point only when strictly above 20: a gap of exactly 20 in
      either direction deducts nothing, and neither does a NaN weight on either side. */
  lemma WeightGapBoundary(target: real, otherText: string, parseFloat: FloatParser)
    ensures WeightPenalty(Abs(Sub(Num(target + 20.0), Num(target)))) == 0
    ensures WeightPenalty(Abs(Sub(Num(target - 20.0), Num(target)))) == 0
    ensures WeightPenalty(Abs(Sub(Num(target + 21.0), Num(target)))) == 1
    ensures WeightPenalty(Abs(Sub(NaN, Num(target)))) == 0
    ensures WeightPenalty(Abs(Sub(Num(target), NaN))) == 0
  {
  }

  /** A form whose age is typed as a whole number is classified on that number. */
  lemma ClassifyTypedAge(form: FormData, n: int, parseFloat: FloatParser)
    requires form.age == IntToString(n)
    ensures Classify(form, parseFloat) == TierOf(Score(Num(n as real), form.activityLevel, form.fitnessGoal,
      Abs(Sub(parseFloat(form.currentWeight), parseFloat(form.targetWeight)))))
  {
    ParseIntRoundTrip(n);
  }

  /** The worked examples of the classifier's documentation: the boundary age 29 with no
      activity and equal weights is beginner; 45, very active and gaining muscle is
      intermediate with a 5 kg gap and still with a 25 kg gap; merely active with the 25 kg
      gap is easy. */
  lemma ClassifierExamples()
    ensures TierOf(Score(Num(29.0), "sedentary", "maintain", Abs(Sub(Num(70.0), Num(70.0))))) == Beginner
    ensures TierOf(Score(Num(45.0), "very_active", "gain_muscle", Abs(Sub(Num(75.0), Num(70.0))))) == Intermediate
    ensures TierOf(Score(Num(45.0), "very_active", "gain_muscle", Abs(Sub(Num(100.0), Num(75.0))))) == Intermediate
    ensures TierOf(Score(Num(45.0), "active", "gain_muscle", Abs(Sub(Num(100.0), Num(75.0))))) == Easy
  {
  }

  // ----- toggleArrayItem -----

  /** `array.filter((i) => i !== item)`: every occurrence of `item` goes, every other element
      stays with its multiplicity. */
  function Without(xs: seq<string>, item: string): (r: seq<string>)
    ensures item !in r
    ensures forall y :: y != item ==> multiset(r)[y] == multiset(xs)[y]
  {
    if xs == [] then []
    else
      assert xs == [xs[0]] + xs[1..];
      (if xs[0] == item then [] else [xs[0]]) + Without(xs[1..], item)
  }

  /** Filtering keeps the order: it distributes over concatenation. */
  lemma {:induction false} WithoutAppend(xs: seq<string>, ys: seq<string>, item: string)
    ensures Without(xs + ys, item) == Without(xs, item) + Without(ys, item)
  {
    if xs != [] {
      var head := if xs[0] == item then [] else [xs[0]];
      assert (xs + ys)[0] == xs[0] && (xs + ys)[1..] == xs[1..] + ys;
      assert Without(xs + ys, item) == head + Without(xs[1..] + ys, item);
      assert Without(xs, item) == head + Without(xs[1..], item);
      WithoutAppend(xs[1..], ys, item);
      assert head + (Without(xs[1..], item) + Without(ys, item)) == (head + Without(xs[1..], item)) + Without(ys, item);
    } else {
      assert xs + ys == ys;
    }
  }

  /** Filtering out an item that is not there changes nothing. */
  lemma {:induction false} WithoutAbsent(xs: seq<string>, item: string)
    requires item !in xs
    ensures Without(xs, item) == xs
  {
    if xs != [] {
      WithoutAbsent(xs[1..], item);
    }
  }

  /** `toggleArrayItem`: removes every occurrence of an item that is present, appends an
      item that is absent; membership of the item flips and nothing else changes. */
  function Toggle(xs: seq<string>, item: string): (r: seq<string>)
    ensures item in r <==> item !in xs
    ensures forall y :: y != item ==> multiset(r)[y] == multiset(xs)[y]
    ensures item !in xs ==> r == xs + [item]
  {
    if item in xs then Without(xs, item) else xs + [item]
  }

  /** Toggling an absent item twice restores the list. */
  lemma ToggleTwiceAbsent(xs: seq<string>, item: string)
    requires item !in xs
    ensures Toggle(Toggle(xs, item), item) == xs
  {
    WithoutAppend(xs, [item], item);
    WithoutAbsent(xs, item);
    assert Without([item], item) == [];
  }

  /** Toggling a present item twice moves it, once, to the end. */
  lemma ToggleTwicePresent(xs: seq<string>, item: string)
    requires item in xs
    ensures Toggle(Toggle(xs, item), item) == Without(xs, item) + [item]
  {
  }

  // ----- The wizard -----

  const FirstStep := 1
  const LastStep := 4

  /** The questionnaire's step counter. */
  class Wizard {
    var step: int

    ghost predicate Valid()
      reads this
    {
      FirstStep <= step <= LastStep
    }

    constructor ()
      ensures Valid() && step == FirstStep
    {
      step := FirstStep;
    }

    /** `nextStep`: moves forward only below the last step. */
    method NextStep()
      requires Valid()
      modifies this
      ensures Valid()
      ensures step == if old(step) < LastStep then old(step) + 1 else old(step)
    {
      if step < LastStep {
        step := step + 1;
      }
    }

    /** `prevStep`: moves back only above the first step. */
    method PrevStep()
      requires Valid()
      modifies this
      ensures Valid()
      ensures step == if old(step) > FirstStep then old(step) - 1 else old(step)
    {
      if step > FirstStep {
        step := step - 1;
      }
    }
  }

  // ----- The profile upserts -----

  /** A row of the profile table. A number field that is NaN is sent as JSON `null`. */
  datatype ProfileRow = ProfileRow(
    userId: string, age: Number, gender: string, height: Number,
    currentWeight: Number, targetWeight: Number,
    activityLevel: string, fitnessGoal: string,
    dietaryRestrictions: seq<string>, healthConditions: seq<string>,
    mealsPerDay: Number, waterIntake: Number, sleepHours: Number,
    workoutLevel: WorkoutLevel, onboardingCompleted: bool, updatedAt: string)

  /** The profile table, by user id. */
  type ProfileTable = map<string, ProfileRow>

  /** Every row is filed under its own user id. */
  ghost predicate KeyedByUser(table: ProfileTable) {
    forall u :: u in table ==> table[u].userId == u
  }

  /** An upsert with `onConflict: 'user_id'`: the row replaces the user's row if there is
      one, and is added otherwise; no other row changes and no user gets two rows. */
  function Upsert(table: ProfileTable, row: ProfileRow): (r: ProfileTable)
    ensures r.Keys == table.Keys + {row.userId}
    ensures r[row.userId] == row
    ensures forall u :: u in table && u != row.userId ==> r[u] == table[u]
    ensures KeyedByUser(table) ==> KeyedByUser(r)
  {
    table[row.userId := row]
  }

  /** The row `handleSubmit` sends: the parsed answers, the computed tier, and the
      onboarding marked complete. */
  function SubmittedRow(user: string, form: FormData, parseFloat: FloatParser, level: WorkoutLevel, now: string): (r: ProfileRow)
    ensures r.userId == user && r.workoutLevel == level && r.onboardingCompleted
    // A blank age is sent as null; any age sent is a whole number.
    ensures AllWhiteSpace(form.age) ==> r.age == NaN
    ensures r.age.Num? ==> r.age.value == r.age.value.Floor as real
  {
    ProfileRow(
      user, ParseInt(form.age), form.gender, parseFloat(form.height),
      parseFloat(form.currentWeight), parseFloat(form.targetWeight),
      form.activityLevel, form.fitnessGoal,
      form.dietaryRestrictions, form.healthConditions,
      ParseInt(form.mealsPerDay), ParseInt(form.waterIntake), parseFloat(form.sleepHours),
      level, true, now)
  }

  /** The row `handleSkipTemporarily` sends: fixed placeholder answers, the beginner tier,
      and the onboarding left incomplete. */
  function SkippedRow(user: string, now: string): (r: ProfileRow)
    ensures r.userId == user && r.workoutLevel == Beginner && !r.onboardingCompleted
  {
    ProfileRow(
      user, Num(25.0), "Não informado", Num(170.0), Num(70.0), Num(70.0),
      "moderate", "improve_health", [], [],
      Num(3.0), Num(8.0), Num(7.0),
      Beginner, false, now)
  }

  /** What the profile service answers to an upsert: success, an error in the result, or a
      call that rejects. */
  datatype WriteOutcome = Written | ErrorResult | CallRejected

  /** The table afterwards, whether the modal was completed (its `onComplete` called), and
      the alerts shown. */
  datatype SaveOutcome = SaveOutcome(profiles: ProfileTable, completed: bool, alerts: seq<string>)

  const SubmitAlert := "Erro ao salvar perfil. Tente novamente."
  const SkipAlert := "Erro ao pular questionário. Tente novamente."

  /** `handleSubmit`. On success the user's row holds the computed tier with the onboarding
      complete. An error result is alerted twice, once before it is thrown and once by the
      handler that catches it; a rejected call is alerted once. On either failure the table
      is as before and the modal stays open. */
  method HandleSubmit(profiles: ProfileTable, user: string, form: FormData, parseFloat: FloatParser,
                      now: string, write: WriteOutcome) returns (r: SaveOutcome)
    ensures write.Written? ==>
      && r.profiles == Upsert(profiles, SubmittedRow(user, form, parseFloat, Classify(form, parseFloat), now))
      && user in r.profiles
      && r.profiles[user].workoutLevel == Classify(form, parseFloat)
      && r.profiles[user].onboardingCompleted
      && r.completed && r.alerts == []
    ensures write.ErrorResult? ==> r == SaveOutcome(profiles, false, [SubmitAlert, SubmitAlert])
    ensures write.CallRejected? ==> r == SaveOutcome(profiles, false, [SubmitAlert])
  {
    var workoutLevel := CalculateWorkoutLevel(form, parseFloat);
    var row := SubmittedRow(user, form, parseFloat, workoutLevel, now);
    match write
    case Written =>
      r := SaveOutcome(Upsert(profiles, row), true, []);
    case ErrorResult =>
      r := SaveOutcome(profiles, false, [SubmitAlert, SubmitAlert]);
    case CallRejected =>
      r := SaveOutcome(profiles, false, [SubmitAlert]);
  }

  /** `handleSkipTemporarily`. On success the user's row holds the beginner tier with the
      onboarding incomplete, whatever the form says; failures are alerted as in
      `HandleSubmit`. */
  method HandleSkip(profiles: ProfileTable, user: string, now: string, write: WriteOutcome) returns (r: SaveOutcome)
    ensures write.Written? ==>
      && r.profiles == Upsert(profiles, SkippedRow(user, now))
      && user in r.profiles
      && r.profiles[user].workoutLevel == Beginner
      && !r.profiles[user].onboardingCompleted
      && r.completed && r.alerts == []
    ensures write.ErrorResult? ==> r == SaveOutcome(profiles, false, [SkipAlert, SkipAlert])
    ensures write.CallRejected? ==> r == SaveOutcome(profiles, false, [SkipAlert])
  {
    match write
    case Written =>
      r := SaveOutcome(Upsert(profiles, SkippedRow(user, now)), true, []);
    case ErrorResult =>
      r := SaveOutcome(profiles, false, [SkipAlert, SkipAlert]);
    case CallRejected =>
      r := SaveOutcome(profiles, false, [SkipAlert]);
  }

  /** The skip row's tier is not the classifier's: its own placeholder answers (age 25,
      moderate, improve_health, no weight gap) would score 6, which is intermediate. */
  lemma SkippedTierIsNotClassified(user: string, now: string)
    ensures var row := SkippedRow(user, now);
      && TierOf(Score(row.age, row.activityLevel, row.fitnessGoal, Abs(Sub(row.currentWeight, row.targetWeight)))) == Intermediate
      && row.workoutLevel == Beginner
  {
  }

  /** Skipping and then submitting leaves one row for the user, the submitted one. */
  lemma SkipThenSubmit(profiles: ProfileTable, user: string, form: FormData, parseFloat: FloatParser, t1: string, t2: string)
    ensures var after := Upsert(Upsert(profiles, SkippedRow(user, t1)), SubmittedRow(user, form, parseFloat, Classify(form, parseFloat), t2));
      && after.Keys == profiles.Keys + {user}
      && after[user].onboardingCompleted
      && after[user].workoutLevel == Classify(form, parseFloat)
  {
  }
}
