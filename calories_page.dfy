/** The calories page of the dashboard: a day's list of meals that the user adds to and deletes
    from, the day's total against the 1800 kcal goal, the meals grouped by type, and the weekly
    chart. Meal calories are JavaScript numbers, since a meal's calories come from `parseInt`
    on the form's text and may be NaN. */
module CaloriesPage {
  import opened Js

  datatype MealType = Breakfast | Lunch | Dinner | Snack

  datatype Meal = Meal(id: string, name: string, calories: Number, kind: MealType, time: string)

  /** The add-meal dialog's fields, all as typed. */
  datatype MealForm = MealForm(name: string, calories: string, kind: MealType, time: string)

  const EmptyForm := MealForm("", "", Breakfast, "")

  const DailyGoal := 1800

  /** The meals the page starts with. */
  function InitialMeals(): (ms: seq<Meal>)
    ensures |ms| == 4 && ms[0].kind == Breakfast && ms[1].kind == Lunch
    ensures ms[2].kind == Snack && ms[3].kind == Dinner
  {
    [ Meal("1", "Omelete com queijo", Num(320.0), Breakfast, "08:00"),
      Meal("2", "Frango grelhado com arroz integral", Num(550.0), Lunch, "12:30"),
      Meal("3", "Iogurte com granola", Num(180.0), Snack, "15:00"),
      Meal("4", "Salmão com legumes", Num(400.0), Dinner, "19:00") ]
  }

  // ----- The day's figures -----

  /** `meals.reduce((sum, meal) => sum + meal.calories, 0)`: a number exactly when every meal's
      calories are. */
  function Total(meals: seq<Meal>): (t: Number)
    ensures t.Num? <==> forall i :: 0 <= i < |meals| ==> meals[i].calories.Num?
  {
    if meals == [] then Num(0.0)
    else Add(Total(meals[..|meals| - 1]), meals[|meals| - 1].calories)
  }

  /** Appending a meal adds its calories to the total. */
  lemma TotalAppend(meals: seq<Meal>, m: Meal)
    ensures Total(meals + [m]) == Add(Total(meals), m.calories)
  {
    assert (meals + [m])[..|meals|] == meals;
  }

  /** `dailyGoal - totalCalories`. */
  function Remaining(meals: seq<Meal>): (r: Number)
    ensures r.Num? <==> Total(meals).Num?
    ensures r.Num? ==> r.value + Total(meals).value == DailyGoal as real
  {
    Sub(Num(DailyGoal as real), Total(meals))
  }

  /** `Math.min((totalCalories / dailyGoal) * 100, 100)`: NaN stays NaN (`Math.min` returns
      NaN when an argument is NaN); otherwise the percentage of the goal, capped at 100. */
  function Progress(meals: seq<Meal>): (p: Number)
    ensures p.Num? <==> Total(meals).Num?
    ensures p.Num? ==> p.value <= 100.0
    ensures p.Num? && Total(meals).value >= DailyGoal as real ==> p.value == 100.0
    ensures p.Num? && Total(meals).value < DailyGoal as real ==> p.value * 18.0 == Total(meals).value
  {
    var t := Total(meals);
    if t.NaN? then NaN
    else
      var pct := t.value / DailyGoal as real * 100.0;
      Num(if pct < 100.0 then pct else 100.0)
  }

  /** What the summary card shows beside the total: the calories left when some remain, and
      otherwise the surplus over the goal as an absolute value. */
  datatype RemainingView = CaloriesLeft(left: Number) | GoalReached(surplus: Number)

  function RemainingLabel(meals: seq<Meal>): (v: RemainingView)
    ensures v.CaloriesLeft? <==> Total(meals).Num? && Total(meals).value < DailyGoal as real
    ensures v.CaloriesLeft? ==> v.left == Remaining(meals) && v.left.Num? && v.left.value > 0.0
    ensures v.GoalReached? && Total(meals).Num? ==> v.surplus == Num(Total(meals).value - DailyGoal as real)
    ensures v.GoalReached? && Total(meals).NaN? ==> v.surplus == NaN
  {
    var r := Remaining(meals);
    if Greater(r, 0.0) then CaloriesLeft(r) else GoalReached(Abs(r))
  }

  // ----- Grouping by type -----

  /** `meals.filter((meal) => meal.type === type)`. */
  function MealsOfType(meals: seq<Meal>, kind: MealType): (r: seq<Meal>)
    ensures |r| <= |meals|
    ensures forall m :: m in r <==> m in meals && m.kind == kind
  {
    if meals == [] then []
    else
      var last := meals[|meals| - 1];
      MealsOfType(meals[..|meals| - 1], kind) + (if last.kind == kind then [last] else [])
  }

  /** Filtering commutes with appending, so each group keeps the list's order. */
  lemma MealsOfTypeAppend(meals: seq<Meal>, m: Meal, kind: MealType)
    ensures MealsOfType(meals + [m], kind) == MealsOfType(meals, kind) + (if m.kind == kind then [m] else [])
  {
    assert (meals + [m])[..|meals|] == meals;
  }

  /** Four totals added up in the order the page lists the groups. */
  function Sum4(b: Number, l: Number, d: Number, s: Number): Number {
    Add(Add(Add(b, l), d), s)
  }

  /** Adding to any one of the four addends adds to the sum. */
  lemma Sum4Add(b: Number, l: Number, d: Number, s: Number, x: Number)
    ensures Sum4(Add(b, x), l, d, s) == Add(Sum4(b, l, d, s), x)
    ensures Sum4(b, Add(l, x), d, s) == Add(Sum4(b, l, d, s), x)
    ensures Sum4(b, l, Add(d, x), s) == Add(Sum4(b, l, d, s), x)
    ensures Sum4(b, l, d, Add(s, x)) == Add(Sum4(b, l, d, s), x)
  {
  }

  /** The four groups' totals, in the order the page lists them. */
  function GroupTotals(meals: seq<Meal>): Number {
    Sum4(Total(MealsOfType(meals, Breakfast)), Total(MealsOfType(meals, Lunch)),
         Total(MealsOfType(meals, Dinner)), Total(MealsOfType(meals, Snack)))
  }

  /** An appended meal adds its calories to its own group's total and to no other. */
  lemma GroupStep(meals: seq<Meal>, m: Meal, kind: MealType)
    ensures Total(MealsOfType(meals + [m], kind)) ==
      if m.kind == kind then Add(Total(MealsOfType(meals, kind)), m.calories) else Total(MealsOfType(meals, kind))
  {
    MealsOfTypeAppend(meals, m, kind);
    if m.kind == kind {
      TotalAppend(MealsOfType(meals, kind), m);
    } else {
      assert MealsOfType(meals + [m], kind) == MealsOfType(meals, kind) + [];
      assert MealsOfType(meals, kind) + [] == MealsOfType(meals, kind);
    }
  }

  /** The per-type totals shown on the group cards add up to the day's total. */
  lemma {:induction false} GroupTotalsSum(meals: seq<Meal>)
    ensures GroupTotals(meals) == Total(meals)
  {
    if meals != [] {
      var init, m := meals[..|meals| - 1], meals[|meals| - 1];
      assert meals == init + [m];
      GroupTotalsSum(init);
      GroupStep(init, m, Breakfast);
      GroupStep(init, m, Lunch);
      GroupStep(init, m, Dinner);
      GroupStep(init, m, Snack);
      Sum4Add(Total(MealsOfType(init, Breakfast)), Total(MealsOfType(init, Lunch)),
              Total(MealsOfType(init, Dinner)), Total(MealsOfType(init, Snack)), m.calories);
      TotalAppend(init, m);
    }
  }

  // ----- Deleting -----

  /** `meals.filter((meal) => meal.id !== id)`. */
  function WithoutId(meals: seq<Meal>, id: string): (r: seq<Meal>)
    ensures |r| <= |meals|
    ensures forall m :: m in r <==> m in meals && m.id != id
  {
    if meals == [] then []
    else
      var last := meals[|meals| - 1];
      WithoutId(meals[..|meals| - 1], id) + (if last.id != id then [last] else [])
  }

  /** Filtering a concatenation filters each part and keeps them in order: every surviving
      meal stays where it was relative to the others, and each occurrence is kept or dropped
      on its own. */
  lemma {:induction false} WithoutIdAppend(xs: seq<Meal>, ys: seq<Meal>, id: string)
    ensures WithoutId(xs + ys, id) == WithoutId(xs, id) + WithoutId(ys, id)
    decreases |ys|
  {
    if ys == [] {
      assert xs + ys == xs;
    } else {
      var init, last := ys[..|ys| - 1], ys[|ys| - 1];
      assert (xs + ys)[..|xs + ys| - 1] == xs + init;
      assert (xs + ys)[|xs + ys| - 1] == last;
      WithoutIdAppend(xs, init, id);
    }
  }

  /** Deleting an id that no meal carries changes nothing. */
  lemma {:induction false} WithoutAbsentId(meals: seq<Meal>, id: string)
    requires forall i :: 0 <= i < |meals| ==> meals[i].id != id
    ensures WithoutId(meals, id) == meals
  {
    if meals != [] {
      var init := meals[..|meals| - 1];
      assert meals == init + [meals[|meals| - 1]];
      WithoutAbsentId(init, id);
    }
  }

  /** Deleting a meal just added under a fresh id gives back the list as it was. */
  lemma DeleteUndoesAdd(meals: seq<Meal>, m: Meal)
    requires forall i :: 0 <= i < |meals| ==> meals[i].id != m.id
    ensures WithoutId(meals + [m], m.id) == meals
  {
    assert (meals + [m])[..|meals|] == meals;
    WithoutAbsentId(meals, m.id);
  }

  // ----- The page's state -----

  /** The form is complete when none of name, calories and time is empty. */
  predicate Complete(form: MealForm)
    ensures Complete(form) ==> form != EmptyForm
  {
    form.name != "" && form.calories != "" && form.time != ""
  }

  /** The meal `handleAddMeal` builds from a complete form, under the given id. */
  function MealOf(form: MealForm, id: string): (m: Meal)
    ensures m.id == id && m.name == form.name && m.kind == form.kind && m.time == form.time
    ensures m.calories == ParseInt(form.calories)
  {
    Meal(id, form.name, ParseInt(form.calories), form.kind, form.time)
  }

  /** Typing a whole number of calories gives a meal with exactly that many calories, and the
      day's total grows by exactly that much. */
  lemma TypedCaloriesAdded(meals: seq<Meal>, form: MealForm, id: string, n: int)
    requires form.calories == IntToString(n)
    ensures MealOf(form, id).calories == Num(n as real)
    ensures Total(meals + [MealOf(form, id)]) == Add(Total(meals), Num(n as real))
  {
    ParseIntRoundTrip(n);
    TotalAppend(meals, MealOf(form, id));
  }

  class CaloriesTracker {
    var meals: seq<Meal>
    var form: MealForm
    var dialogOpen: bool

    constructor ()
      ensures meals == InitialMeals() && form == EmptyForm && !dialogOpen
    {
      meals := InitialMeals();
      form := EmptyForm;
      dialogOpen := false;
    }

    /** The dialog's trigger and close button. */
    method SetDialogOpen(open: bool)
      modifies this
      ensures dialogOpen == open && meals == old(meals) && form == old(form)
    {
      dialogOpen := open;
    }

    /** One of the form's `onChange` handlers: the edited form replaces the old one. */
    method EditForm(edited: MealForm)
      modifies this
      ensures form == edited && meals == old(meals) && dialogOpen == old(dialogOpen)
    {
      form := edited;
    }

    /** `handleAddMeal`, with the current time's digits as the new id. An incomplete form
        changes nothing; otherwise exactly one meal is appended, the form is cleared back to
        breakfast and the dialog closes. */
    method AddMeal(id: string)
      modifies this
      ensures !Complete(old(form)) ==>
        meals == old(meals) && form == old(form) && dialogOpen == old(dialogOpen)
      ensures Complete(old(form)) ==>
        meals == old(meals) + [MealOf(old(form), id)] && form == EmptyForm && !dialogOpen
      ensures Complete(old(form)) ==> Total(meals) == Add(Total(old(meals)), ParseInt(old(form).calories))
    {
      if !Complete(form) {
        return;
      }
      var meal := MealOf(form, id);
      TotalAppend(meals, meal);
      meals := meals + [meal];
      form := EmptyForm;
      dialogOpen := false;
    }

    /** `handleDeleteMeal`: every meal with the id goes, the others stay in order. */
    method DeleteMeal(id: string)
      modifies this
      ensures meals == WithoutId(old(meals), id)
      ensures forall m :: m in meals <==> m in old(meals) && m.id != id
      ensures form == old(form) && dialogOpen == old(dialogOpen)
    {
      meals := WithoutId(meals, id);
    }
  }

  // ----- The weekly chart -----

  /** The fixed week shown on the chart, Monday to Sunday. */
  const WeeklyCalories: seq<int> := [1650, 1720, 1580, 1800, 1690, 1950, 1450]

  /** `Math.max(...xs)` over a non-empty list. */
  function MaxOf(xs: seq<int>): (m: int)
    requires xs != []
    ensures m in xs
    ensures forall i :: 0 <= i < |xs| ==> xs[i] <= m
  {
    if |xs| == 1 then xs[0]
    else
      var rest := MaxOf(xs[1..]);
      if xs[0] >= rest then xs[0] else rest
  }

  /** A day is drawn as over the goal only when it is strictly above it: exactly when the
      goal minus that day's calories, computed as the card computes what remains, is
      negative. */
  predicate IsOverGoal(calories: int)
    ensures IsOverGoal(calories) <==> Sub(Num(DailyGoal as real), Num(calories as real)).value < 0.0
  {
    calories > DailyGoal
  }

  /** The chart's threshold and the summary card's threshold agree: a calorie count the chart
      would draw over the goal makes the card show the surplus, and so does a count that
      exactly meets the goal, which the chart does not mark. This compares the two
      thresholds only: the page never shows both for the same count, since the chart draws
      a fixed week of sample data and the card sums today's meal list. */
  lemma OverGoalShowsSurplus(meals: seq<Meal>, calories: int)
    requires Total(meals) == Num(calories as real)
    ensures IsOverGoal(calories) ==> RemainingLabel(meals).GoalReached?
    ensures calories == DailyGoal ==> RemainingLabel(meals).GoalReached? && !IsOverGoal(calories)
    ensures !IsOverGoal(calories) && calories != DailyGoal ==> RemainingLabel(meals).CaloriesLeft?
  {
  }

  /** A bar's height as a percentage of the week's highest day. */
  function BarPercentage(calories: int, highest: int): (p: real)
    requires highest > 0
    ensures 0 <= calories <= highest ==> 0.0 <= p <= 100.0
    ensures calories == highest ==> p == 100.0
  {
    calories as real / highest as real * 100.0
  }

  /** The maximum is the element that no other exceeds. */
  lemma MaxOfIs(xs: seq<int>, i: nat)
    requires i < |xs|
    requires forall j :: 0 <= j < |xs| ==> xs[j] <= xs[i]
    ensures MaxOf(xs) == xs[i]
  {
  }

  /** The chart's highest day is Saturday's 1950 kcal, which draws at full height. */
  lemma WeeklyHighest()
    ensures MaxOf(WeeklyCalories) == 1950
  {
    MaxOfIs(WeeklyCalories, 5);
  }

  /** Saturday is the only day drawn over the goal: Thursday's 1800 only meets it. */
  lemma WeeklyOverGoal()
    ensures forall i :: 0 <= i < |WeeklyCalories| ==> (IsOverGoal(WeeklyCalories[i]) <==> i == 5)
  {
  }

}
