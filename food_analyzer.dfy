/** The food-photo analyzer: the checks on a picked image file, the call to the analysis
    endpoint, and the merge of an analysed meal into the per-day calorie ledger. */
module FoodAnalyzer {
  import opened Wrappers
  import opened Js

  /** One food the model recognised on the plate. */
  datatype FoodItem = FoodItem(name: string, portion: string, calories: int, protein: real, carbs: real, fat: real)

  /** What the analysis endpoint returns for a photo. */
  datatype AnalysisResult = AnalysisResult(
    foods: seq<FoodItem>, totalCalories: int,
    totalProtein: real, totalCarbs: real, totalFat: real,
    analysis: string, recommendations: Option<string>)

  /** One meal as stored in a ledger row's `meals` column. Its calories are the model's
      `totalCalories`, not a sum over its foods. */
  datatype MealEntry = MealEntry(time: string, foods: seq<FoodItem>, totalCalories: int, analysis: string, imageUrl: Option<string>)

  /** A row of the daily calorie ledger. A `meals` column that is SQL null reads as no
      meals; `updatedAt` is absent until the row is first updated. */
  datatype LedgerRow = LedgerRow(
    id: string, userId: string, date: string,
    caloriesConsumed: int, caloriesGoal: int,
    meals: Option<seq<MealEntry>>, updatedAt: Option<string>)

  /** The ledger is looked up by user and day. */
  datatype LedgerKey = LedgerKey(userId: string, date: string)

  /** The ledger: at most one row per user and day. */
  type Ledger = map<LedgerKey, LedgerRow>

  /** The goal a freshly created day starts with. */
  const DefaultGoal := 2000

  /** Every row is filed under its own user and day. */
  ghost predicate Consistent(ledger: Ledger) {
    forall k :: k in ledger ==> ledger[k].userId == k.userId && ledger[k].date == k.date
  }

  /** `existingData.meals || []`. */
  function MealsOf(row: LedgerRow): (r: seq<MealEntry>)
    ensures row.meals.Some? ==> r == row.meals.value
    ensures |r| == 0 <==> row.meals.None? || row.meals.value == []
  {
    row.meals.GetOr([])
  }

  // ----- The image checks -----

  /** The picked file: its size in bytes and its MIME type. */
  datatype ImageFile = ImageFile(size: nat, mimeType: string)

  /** The upload limit, 5 MiB. */
  const MaxImageBytes := 5 * 1024 * 1024

  const TooLargeMessage := "Imagem muito grande. Máximo 5MB."
  const NotAnImageMessage := "Por favor, selecione uma imagem válida."

  /** The error `handleImageSelect` reports for a file, or `None` when the file is accepted.
      The size is checked first: an oversized file is reported as too large whatever its
      type. */
  function ImageError(file: ImageFile): (r: Option<string>)
    ensures r.None? <==> file.size <= MaxImageBytes && StartsWith(file.mimeType, "image/")
    ensures file.size > MaxImageBytes ==> r == Some(TooLargeMessage)
    ensures file.size <= MaxImageBytes && !StartsWith(file.mimeType, "image/") ==> r == Some(NotAnImageMessage)
  {
    if file.size > MaxImageBytes then Some(TooLargeMessage)
    else if !StartsWith(file.mimeType, "image/") then Some(NotAnImageMessage)
    else None
  }

  /** The limit is inclusive: a file of exactly 5 MiB passes, one byte more does not. */
  lemma ImageSizeBoundary(mimeType: string)
    requires StartsWith(mimeType, "image/")
    ensures ImageError(ImageFile(5 * 1024 * 1024, mimeType)).None?
    ensures ImageError(ImageFile(5 * 1024 * 1024 + 1, mimeType)) == Some(TooLargeMessage)
    ensures ImageError(ImageFile(5 * 1024 * 1024 + 1, "")) == Some(TooLargeMessage)
  {
  }

  // ----- The ledger merge: its specification -----

  /** The meal entry saved for an analysis result. */
  function MealOf(result: AnalysisResult, time: string, image: Option<string>): (m: MealEntry)
    ensures m.totalCalories == result.totalCalories && m.foods == result.foods
  {
    MealEntry(time, result.foods, result.totalCalories, result.analysis, image)
  }

  /** The ledger after one meal is saved for `key`: a day already present gets the meal
      appended and its calories added, and keeps its id, user, day and goal; a missing day
      is created with the default goal, the meal alone and its calories. No other row
      changes. `newId` is the id the database assigns to a created row. */
  function Merge(ledger: Ledger, key: LedgerKey, meal: MealEntry, newId: string, now: string): (r: Ledger)
    ensures r.Keys == ledger.Keys + {key}
    ensures forall k :: k in ledger && k != key ==> r[k] == ledger[k]
    ensures MealsOf(r[key]) == (if key in ledger then MealsOf(ledger[key]) else []) + [meal]
    ensures r[key].caloriesConsumed == (if key in ledger then ledger[key].caloriesConsumed else 0) + meal.totalCalories
    ensures key in ledger ==>
      && r[key].id == ledger[key].id && r[key].userId == ledger[key].userId
      && r[key].date == ledger[key].date && r[key].caloriesGoal == ledger[key].caloriesGoal
      && r[key].updatedAt == Some(now)
    ensures key !in ledger ==>
      && r[key].id == newId && r[key].userId == key.userId && r[key].date == key.date
      && r[key].caloriesGoal == DefaultGoal
    ensures Consistent(ledger) ==> Consistent(r)
  {
    if key in ledger then
      var row := ledger[key];
      ledger[key := row.(caloriesConsumed := row.caloriesConsumed + meal.totalCalories,
                         meals := Some(MealsOf(row) + [meal]),
                         updatedAt := Some(now))]
    else
      ledger[key := LedgerRow(newId, key.userId, key.date, meal.totalCalories, DefaultGoal, Some([meal]), None)]
  }

  // ----- Properties of the merge -----

  /** The calories of a list of meals, as recorded in the entries. */
  function SumMeals(meals: seq<MealEntry>): int {
    if meals == [] then 0 else meals[0].totalCalories + SumMeals(meals[1..])
  }

  lemma {:induction false} SumMealsAppend(meals: seq<MealEntry>, meal: MealEntry)
    ensures SumMeals(meals + [meal]) == SumMeals(meals) + meal.totalCalories
  {
    if meals != [] {
      assert (meals + [meal])[1..] == meals[1..] + [meal];
      SumMealsAppend(meals[1..], meal);
    }
  }

  /** A row whose running total agrees with the meals it lists. */
  ghost predicate Balanced(row: LedgerRow) {
    row.caloriesConsumed == SumMeals(MealsOf(row))
  }

  /** A merge keeps every row balanced: the day it touches (created or updated), and all
      the others, which it leaves alone. */
  lemma MergeKeepsBalance(ledger: Ledger, key: LedgerKey, meal: MealEntry, newId: string, now: string)
    requires forall k :: k in ledger ==> Balanced(ledger[k])
    ensures var r := Merge(ledger, key, meal, newId, now);
      forall k :: k in r ==> Balanced(r[k])
  {
    var r := Merge(ledger, key, meal, newId, now);
    var before := if key in ledger then MealsOf(ledger[key]) else [];
    SumMealsAppend(before, meal);
  }

  /** Whatever order two meals of the same day are saved in, the day's total is the same,
      and the meals are listed in the order they were saved. */
  lemma TwoMergesTotal(ledger: Ledger, key: LedgerKey, m1: MealEntry, m2: MealEntry, id: string, t1: string, t2: string)
    ensures var a := Merge(Merge(ledger, key, m1, id, t1), key, m2, id, t2);
            var b := Merge(Merge(ledger, key, m2, id, t1), key, m1, id, t2);
      && a[key].caloriesConsumed == b[key].caloriesConsumed
      && MealsOf(a[key]) == (if key in ledger then MealsOf(ledger[key]) else []) + [m1, m2]
  {
    var before := if key in ledger then MealsOf(ledger[key]) else [];
    assert before + [m1] + [m2] == before + [m1, m2];
  }

  /** Saving 450 kcal and then 300 kcal on a new day gives one row with 750 kcal consumed,
      the default goal and both meals in order. */
  lemma NewDayExample(ledger: Ledger, key: LedgerKey, m1: MealEntry, m2: MealEntry, id: string, t1: string, t2: string)
    requires key !in ledger && m1.totalCalories == 450 && m2.totalCalories == 300
    ensures var r := Merge(Merge(ledger, key, m1, id, t1), key, m2, id, t2);
      && r.Keys == ledger.Keys + {key}
      && r[key].caloriesConsumed == 750 && r[key].caloriesGoal == 2000
      && MealsOf(r[key]) == [m1, m2]
  {
    assert [] + [m1] + [m2] == [m1, m2];
  }

  // ----- The component -----

  /** What the analysis endpoint call comes back with: a success response carrying the
      result, an error response carrying its `error` field, or a failed call (network
      error, unreadable body) with its message. */
  datatype AnalyzeReply = Analyzed(data: AnalysisResult) | ErrorResponse(error: string) | CallFailed(message: string)

  /** What a ledger read or write comes back with: success, or an error with its message. */
  datatype WriteResult = Done | WriteFailed(message: string)

  const AnalyzeFailedMessage := "Erro ao analisar imagem"
  const SavePrefix := "Erro ao salvar no banco de dados: "

  /** The message an analysis failure shows: the one received, or the default when that is
      empty. */
  function AnalyzeError(message: string): (r: string)
    ensures r != ""
    ensures message != "" ==> r == message
    ensures message == "" ==> r == AnalyzeFailedMessage
  {
    if message == "" then AnalyzeFailedMessage else message
  }

  /** The analyzer's state for the signed-in user, with the ledger it writes to. */
  class Analyzer {
    const userId: string
    var selectedImage: Option<string>
    var analyzing: bool
    var result: Option<AnalysisResult>
    var error: Option<string>
    var saved: bool
    var ledger: Ledger

    ghost predicate Valid()
      reads this
    {
      Consistent(ledger) && !analyzing
    }

    constructor (user: string, ledger0: Ledger)
      requires Consistent(ledger0)
      ensures Valid() && userId == user && ledger == ledger0
      ensures selectedImage == None && result == None && error == None && !saved
    {
      userId := user;
      selectedImage := None;
      analyzing := false;
      result := None;
      error := None;
      saved := false;
      ledger := ledger0;
    }

    /** `handleImageSelect`: with no file nothing happens; a rejected file only sets the
        error; an accepted file becomes the selected image (as the data URL the reader
        produced) and clears the previous result, error and saved flag. */
    method HandleImageSelect(file: Option<ImageFile>, dataUrl: string)
      requires Valid()
      modifies this
      ensures Valid() && ledger == old(ledger) && analyzing == old(analyzing)
      ensures file.None? ==>
        selectedImage == old(selectedImage) && result == old(result) && error == old(error) && saved == old(saved)
      ensures file.Some? && ImageError(file.value).Some? ==>
        && error == ImageError(file.value)
        && selectedImage == old(selectedImage) && result == old(result) && saved == old(saved)
      ensures file.Some? && ImageError(file.value).None? ==>
        selectedImage == Some(dataUrl) && result == None && error == None && !saved
    {
      if file.Some? {
        var f := file.value;
        if f.size > MaxImageBytes {
          error := Some(TooLargeMessage);
          return;
        }
        if !StartsWith(f.mimeType, "image/") {
          error := Some(NotAnImageMessage);
          return;
        }
        selectedImage := Some(dataUrl);
        result := None;
        error := None;
        saved := false;
      }
    }

    /** `analyzeImage`: nothing without a selected image. Otherwise a success stores the
        result with no error, and a failure keeps the previous result and shows the
        received message or the default one. The busy flag is off again afterwards. */
    method AnalyzeImage(reply: AnalyzeReply)
      requires Valid()
      modifies this
      ensures Valid() && ledger == old(ledger) && selectedImage == old(selectedImage) && saved == old(saved)
      ensures old(selectedImage).None? ==> result == old(result) && error == old(error)
      ensures old(selectedImage).Some? && reply.Analyzed? ==> result == Some(reply.data) && error == None
      ensures old(selectedImage).Some? && reply.ErrorResponse? ==>
        result == old(result) && error == Some(AnalyzeError(reply.error))
      ensures old(selectedImage).Some? && reply.CallFailed? ==>
        result == old(result) && error == Some(AnalyzeError(reply.message))
    {
      if selectedImage.None? {
        return;
      }
      analyzing := true;
      error := None;
      match reply {
        case Analyzed(data) =>
          result := Some(data);
        case ErrorResponse(e) =>
          var thrown := AnalyzeError(e);
          error := Some(AnalyzeError(thrown));
        case CallFailed(message) =>
          error := Some(AnalyzeError(message));
      }
      analyzing := false;
    }

    /** `saveToDatabase`: nothing without a result. Otherwise the user's row for `today`
        is read, then updated with the new meal or created with it; on success the ledger
        is the merge and `saved` is set, on failure the ledger is unchanged and the error
        names the cause. */
    method SaveToDatabase(today: string, now: string, newId: string, write: WriteResult)
      requires Valid()
      modifies this
      ensures Valid() && selectedImage == old(selectedImage) && result == old(result)
      ensures old(result).None? ==> ledger == old(ledger) && error == old(error) && saved == old(saved)
      ensures old(result).Some? && write.Done? ==>
        && ledger == Merge(old(ledger), LedgerKey(userId, today), MealOf(old(result).value, now, old(selectedImage)), newId, now)
        && saved && error == old(error)
      ensures old(result).Some? && write.WriteFailed? ==>
        ledger == old(ledger) && saved == old(saved) && error == Some(SavePrefix + write.message)
    {
      if result.None? {
        return;
      }
      var key := LedgerKey(userId, today);
      var meal := MealOf(result.value, now, selectedImage);
      if write.WriteFailed? {
        error := Some(SavePrefix + write.message);
        return;
      }
      if key in ledger {
        var existing := ledger[key];
        var updatedMeals := MealsOf(existing) + [meal];
        var newTotal := existing.caloriesConsumed + meal.totalCalories;
        ledger := ledger[key := existing.(caloriesConsumed := newTotal, meals := Some(updatedMeals), updatedAt := Some(now))];
      } else {
        ledger := ledger[key := LedgerRow(newId, userId, today, meal.totalCalories, DefaultGoal, Some([meal]), None)];
      }
      saved := true;
    }

    /** The timer two seconds after a save: the image, the result and the saved flag are
        cleared. */
    method SavedTimerFires()
      requires Valid()
      modifies this
      ensures Valid() && ledger == old(ledger) && error == old(error)
      ensures selectedImage == None && result == None && !saved
    {
      selectedImage := None;
      result := None;
      saved := false;
    }
  }
}
