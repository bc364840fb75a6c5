/** The chat endpoint: the user-context text built from the profile and three recent-history
    queries, the aggregates in it (workout count and burned calories, rounded daily calorie
    average, signed weight change), and the request handler's validation and fallbacks. */
module ChatRoute {
  import opened Wrappers
  import opened Js

  // ----- Values as the template literals render them -----

  /** A profile column as the database returns it. A number that was NaN when written is
      stored as null. */
  datatype Value = Null | Str(s: string) | Numeric(x: real)

  /** JavaScript truthiness of a column: null, the empty string and zero are falsy. */
  predicate Truthy(v: Value) {
    match v
    case Null => false
    case Str(s) => s != ""
    case Numeric(x) => x != 0.0
  }

  /** The renderings this model does not define: a non-integral number as JavaScript
      prints it, and a date as `toLocaleDateString('pt-BR')` prints it. */
  datatype Formatters = Formatters(fraction: real -> string, date: string -> string)

  /** A number in a template literal: an integral value prints as its decimal digits. */
  function NumberText(x: real, fmt: Formatters): string {
    if x == x.Floor as real then IntToString(x.Floor) else fmt.fraction(x)
  }

  function ValueText(v: Value, fmt: Formatters): string {
    match v
    case Null => "null"
    case Str(s) => s
    case Numeric(x) => NumberText(x, fmt)
  }

  /** `${v || placeholder}`: null, the empty string and zero print the placeholder (never the
      word "null"), a filled-in text prints itself and any other number prints as a number. */
  function FieldText(v: Value, placeholder: string, fmt: Formatters): (r: string)
    ensures !Truthy(v) ==> r == placeholder
    ensures Truthy(v) && v.Str? ==> r == v.s
    ensures Truthy(v) && v.Numeric? ==> r == NumberText(v.x, fmt)
  {
    if Truthy(v) then ValueText(v, fmt) else placeholder
  }

  const NotGivenFem := "não informada"
  const NotGiven := "não informado"
  const NoneListed := "nenhuma"

  /** `${list?.join(', ') || 'nenhuma'}`: the placeholder appears exactly for a missing list,
      an empty list, or a list holding one empty string; every other list prints joined. */
  function ListText(xs: Option<seq<string>>): (r: string)
    ensures r == if xs.None? || xs.value == [] || xs.value == [""] then NoneListed else Join(xs.value, ", ")
  {
    var joined := if xs.Some? then Join(xs.value, ", ") else "";
    assert xs.Some? ==> (joined == "" <==> xs.value == [] || xs.value == [""]) by {
      if xs.Some? {
        JoinEmpty(xs.value, ", ");
      }
    }
    if joined == "" then NoneListed else joined
  }

  // ----- The profile part -----

  /** A row of the profile table, as far as the context prints it. */
  datatype Profile = Profile(
    age: Value, gender: Value, height: Value,
    currentWeight: Value, targetWeight: Value,
    activityLevel: Value, fitnessGoal: Value, workoutLevel: Value,
    mealsPerDay: Value, waterIntake: Value, sleepHours: Value,
    dietaryRestrictions: Option<seq<string>>, healthConditions: Option<seq<string>>)

  const ProfileHeader := "PERFIL:\n"
  // The two long sentences are written as two literals each: the verifier treats a long string
  // literal as opaque, and `FixedSentencePrefixes` needs their first characters.
  const NoProfile := "PERFIL: " + "Usuário ainda não completou o questionário inicial.\n\n"

  function ProfileLines(p: Profile, fmt: Formatters): string {
    "- Idade: " + FieldText(p.age, NotGivenFem, fmt) + " anos\n"
    + "- Gênero: " + FieldText(p.gender, NotGiven, fmt) + "\n"
    + "- Altura: " + FieldText(p.height, NotGivenFem, fmt) + " cm\n"
    + "- Peso Atual: " + FieldText(p.currentWeight, NotGiven, fmt) + " kg\n"
    + "- Peso Desejado: " + FieldText(p.targetWeight, NotGiven, fmt) + " kg\n"
    + "- Nível de Atividade: " + FieldText(p.activityLevel, NotGiven, fmt) + "\n"
    + "- Objetivo: " + FieldText(p.fitnessGoal, NotGiven, fmt) + "\n"
    + "- Nível de Treino: " + FieldText(p.workoutLevel, NotGiven, fmt) + "\n"
    + "- Refeições por dia: " + FieldText(p.mealsPerDay, NotGiven, fmt) + "\n"
    + "- Copos de água por dia: " + FieldText(p.waterIntake, NotGiven, fmt) + "\n"
    + "- Horas de sono: " + FieldText(p.sleepHours, NotGiven, fmt) + "\n"
    + "- Restrições alimentares: " + ListText(p.dietaryRestrictions) + "\n"
    + "- Condições de saúde: " + ListText(p.healthConditions) + "\n"
  }

  /** A found profile prints under its header. */
  function PopulatedProfile(p: Profile, fmt: Formatters): (r: string)
    ensures StartsWith(r, ProfileHeader)
  {
    var lines := ProfileLines(p, fmt);
    PrefixOfAppend(ProfileHeader, lines);
    PrefixOfLonger(ProfileHeader + lines, ProfileHeader, "\n");
    ProfileHeader + lines + "\n"
  }

  /** The profile part: the filled-in profile, or the fixed sentence when there is none.
      Both start with the word "PERFIL". */
  function ProfilePart(profile: Option<Profile>, fmt: Formatters): (r: string)
    ensures StartsWith(r, "PERFIL")
    ensures profile.Some? ==> StartsWith(r, ProfileHeader)
    ensures profile.None? ==> r == NoProfile
  {
    FixedSentencePrefixes();
    if profile.Some? then
      var populated := PopulatedProfile(profile.value, fmt);
      PrefixOfPrefix(populated, ProfileHeader, "PERFIL");
      populated
    else NoProfile
  }

  // ----- The workouts part -----

  datatype WorkoutRecord = WorkoutRecord(title: string, level: string, duration: int, caloriesBurned: int, completedAt: string)

  const WorkoutsHeader := "TREINOS RECENTES (últimas 2 semanas):\n"
  const NoWorkouts := "TREINOS RECENTES: Nenhum treino registrado nas últimas 2 semanas.\n\n"

  function WorkoutLine(i: nat, w: WorkoutRecord, fmt: Formatters): string {
    IntToString(i + 1) + ". " + w.title + " (" + w.level + ") - " + IntToString(w.duration) + " min - "
    + IntToString(w.caloriesBurned) + " kcal - " + fmt.date(w.completedAt)
  }

  /** The workout list, one line per record in query order, numbered from 1. */
  function WorkoutLines(ws: seq<WorkoutRecord>, fmt: Formatters): (lines: seq<string>)
    ensures |lines| == |ws|
    ensures forall i :: 0 <= i < |ws| ==> StartsWith(lines[i], IntToString(i + 1) + ". " + ws[i].title + " (")
  {
    seq(|ws|, i requires 0 <= i < |ws| => WorkoutLine(i, ws[i], fmt))
  }

  /** `reduce((sum, w) => sum + w.calories_burned, 0)`: never negative when no record is. */
  function BurnedTotal(ws: seq<WorkoutRecord>): (total: int)
    ensures (forall i :: 0 <= i < |ws| ==> ws[i].caloriesBurned >= 0) ==> total >= 0
  {
    if ws == [] then 0 else BurnedTotal(ws[..|ws| - 1]) + ws[|ws| - 1].caloriesBurned
  }


  function WorkoutsSummary(ws: seq<WorkoutRecord>): string {
    "Total: " + IntToString(|ws|) + " treinos, " + IntToString(BurnedTotal(ws)) + " kcal queimadas\n\n"
  }

  /** The workouts part: the numbered list under its header and the summary line, or the
      fixed sentence when there are no records. */
  function WorkoutsPart(ws: seq<WorkoutRecord>, fmt: Formatters): (r: string)
    ensures |ws| > 0 ==> StartsWith(r, WorkoutsHeader)
    ensures |ws| == 0 ==> r == NoWorkouts
  {
    if |ws| > 0 then
      var list := WorkoutsList(ws, fmt);
      PrefixOfLonger(list, WorkoutsHeader, WorkoutsSummary(ws));
      list + WorkoutsSummary(ws)
    else NoWorkouts
  }

  function WorkoutsList(ws: seq<WorkoutRecord>, fmt: Formatters): (r: string)
    ensures StartsWith(r, WorkoutsHeader)
  {
    var joined := Join(WorkoutLines(ws, fmt), "\n");
    PrefixOfAppend(WorkoutsHeader, joined);
    PrefixOfLonger(WorkoutsHeader + joined, WorkoutsHeader, "\n\n");
    WorkoutsHeader + joined + "\n\n"
  }

  lemma OneMoreTimes(n: nat, x: int)
    ensures (n + 1) * x == n * x + x
  {
  }

  /** The burned calories of workouts that each burned between `lo` and `hi` lie between
      `n * lo` and `n * hi`. */
  lemma {:induction false} BurnedTotalBounds(ws: seq<WorkoutRecord>, lo: int, hi: int)
    requires forall i :: 0 <= i < |ws| ==> lo <= ws[i].caloriesBurned <= hi
    ensures |ws| * lo <= BurnedTotal(ws) <= |ws| * hi
  {
    if ws != [] {
      var init := ws[..|ws| - 1];
      BurnedTotalBounds(init, lo, hi);
      assert BurnedTotal(ws) == BurnedTotal(init) + ws[|ws| - 1].caloriesBurned;
      OneMoreTimes(|init|, lo);
      OneMoreTimes(|init|, hi);
    }
  }

  // ----- The calories part -----

  datatype CalorieRecord = CalorieRecord(date: string, consumed: int, goal: int)

  const CaloriesHeader := "CONSUMO DE CALORIAS (última semana):\n"
  const NoCalories := "CONSUMO DE CALORIAS: Nenhum registro na última semana.\n\n"

  function CalorieLine(i: nat, c: CalorieRecord, fmt: Formatters): string {
    IntToString(i + 1) + ". " + fmt.date(c.date) + ": " + IntToString(c.consumed) + "/" + IntToString(c.goal) + " kcal"
  }

  function CalorieLines(cs: seq<CalorieRecord>, fmt: Formatters): (lines: seq<string>)
    ensures |lines| == |cs|
    ensures forall i :: 0 <= i < |cs| ==> StartsWith(lines[i], IntToString(i + 1) + ". ")
  {
    seq(|cs|, i requires 0 <= i < |cs| => CalorieLine(i, cs[i], fmt))
  }

  /** `reduce((sum, c) => sum + c.calories_consumed, 0)`: never negative when no record is. */
  function ConsumedTotal(cs: seq<CalorieRecord>): (total: int)
    ensures (forall i :: 0 <= i < |cs| ==> cs[i].consumed >= 0) ==> total >= 0
  {
    if cs == [] then 0 else ConsumedTotal(cs[..|cs| - 1]) + cs[|cs| - 1].consumed
  }


  /** `Math.round(total / n)`: the integer nearest to the mean, a half rounding up. */
  function RoundedAverage(total: int, n: nat): (avg: int)
    requires n > 0
    ensures 2 * n * avg - n <= 2 * total < 2 * n * avg + n
  {
    (2 * total + n) / (2 * n)
  }

  /** The consumption of days that each consumed between `lo` and `hi`. */
  lemma {:induction false} ConsumedTotalBounds(cs: seq<CalorieRecord>, lo: int, hi: int)
    requires forall i :: 0 <= i < |cs| ==> lo <= cs[i].consumed <= hi
    ensures |cs| * lo <= ConsumedTotal(cs) <= |cs| * hi
  {
    if cs != [] {
      var init := cs[..|cs| - 1];
      ConsumedTotalBounds(init, lo, hi);
      assert ConsumedTotal(cs) == ConsumedTotal(init) + cs[|cs| - 1].consumed;
      OneMoreTimes(|init|, lo);
      OneMoreTimes(|init|, hi);
    }
  }

  /** A rounded mean of values between `lo` and `hi` is between them too. */
  lemma RoundedAverageBounds(total: int, n: nat, lo: int, hi: int)
    requires n > 0 && n * lo <= total <= n * hi
    ensures lo <= RoundedAverage(total, n) <= hi
  {
    var avg := RoundedAverage(total, n);
    assert n * (2 * (avg - hi) - 1) <= 0 by {
      assert n * (2 * (avg - hi) - 1) == 2 * n * avg - n - 2 * (n * hi);
    }
    ProductSign(n, 2 * (avg - hi) - 1);
    assert n * (2 * (lo - avg) - 1) <= 0 by {
      assert n * (2 * (lo - avg) - 1) == 2 * (n * lo) - 2 * n * avg - n;
    }
    ProductSign(n, 2 * (lo - avg) - 1);
  }

  lemma ProductSign(n: int, k: int)
    requires n > 0 && n * k <= 0
    ensures k <= 0
  {
  }

  /** The daily average printed lies between the smallest and the largest day. */
  lemma AverageWithinRange(cs: seq<CalorieRecord>, lo: int, hi: int)
    requires |cs| > 0
    requires forall i :: 0 <= i < |cs| ==> lo <= cs[i].consumed <= hi
    ensures lo <= RoundedAverage(ConsumedTotal(cs), |cs|) <= hi
  {
    ConsumedTotalBounds(cs, lo, hi);
    RoundedAverageBounds(ConsumedTotal(cs), |cs|, lo, hi);
  }

  function AverageLine(cs: seq<CalorieRecord>): string
    requires |cs| > 0
  {
    "Média diária: " + IntToString(RoundedAverage(ConsumedTotal(cs), |cs|)) + " kcal\n\n"
  }

  /** The calories part: the numbered list under its header and the rounded daily average,
      or the fixed sentence when there are no records. */
  function CaloriesPart(cs: seq<CalorieRecord>, fmt: Formatters): (r: string)
    ensures |cs| > 0 ==> StartsWith(r, CaloriesHeader)
    ensures |cs| == 0 ==> r == NoCalories
  {
    if |cs| > 0 then
      var list := CaloriesList(cs, fmt);
      PrefixOfLonger(list, CaloriesHeader, AverageLine(cs));
      list + AverageLine(cs)
    else NoCalories
  }

  function CaloriesList(cs: seq<CalorieRecord>, fmt: Formatters): (r: string)
    ensures StartsWith(r, CaloriesHeader)
  {
    var joined := Join(CalorieLines(cs, fmt), "\n");
    PrefixOfAppend(CaloriesHeader, joined);
    PrefixOfLonger(CaloriesHeader + joined, CaloriesHeader, "\n\n");
    CaloriesHeader + joined + "\n\n"
  }

  // ----- The weight part -----

  datatype WeightRecord = WeightRecord(date: string, weight: real)

  const WeightHeader := "ESTATÍSTICAS DE PESO (último mês):\n"
  const NoWeights := "ESTATÍSTICAS DE PESO: Nenhum registro no último mês.\n\n"

  /** The tenths `toFixed(1)` keeps of a non-negative value: the nearest, a half rounding
      up. */
  function RoundTenths(x: real): (n: int)
    requires x >= 0.0
    ensures n >= 0
    ensures 10.0 * x - 0.5 < n as real <= 10.0 * x + 0.5
  {
    (10.0 * x + 0.5).Floor
  }

  /** `x.toFixed(1)` (section 21.1.3.3 of ECMA-262) for values below 10^21: a negative value
      prints as a minus sign and its magnitude; the magnitude prints as its whole tenths
      with one digit after the point. */
  function Fixed1(x: real): (r: string)
    ensures r != []
    ensures r[0] == '-' <==> x < 0.0
    ensures x >= 0.0 ==> '0' <= r[0] <= '9'
  {
    if x < 0.0 then "-" + Fixed1Magnitude(-x) else Fixed1Magnitude(x)
  }

  function Fixed1Magnitude(x: real): (r: string)
    requires x >= 0.0
    ensures r != [] && '0' <= r[0] <= '9'
  {
    var n := RoundTenths(x);
    NatToString(n / 10) + "." + [DigitChar(n % 10)]
  }

  /** `${change > 0 ? '+' : ''}${change.toFixed(1)}`: the printed change starts with '+'
      exactly when the change is positive and with '-' exactly when it is negative; no change
      prints unsigned. */
  function ChangeText(change: real): (r: string)
    ensures r != []
    ensures r[0] == '+' <==> change > 0.0
    ensures r[0] == '-' <==> change < 0.0
  {
    var sign := if change > 0.0 then "+" else "";
    var fixed := Fixed1(change);
    assert (sign + fixed)[0] == if change > 0.0 then '+' else fixed[0];
    sign + fixed
  }

  /** A loss from 78.5 kg to 77.7 kg prints as "-0.8". */
  lemma ChangeExample()
    ensures ChangeText(77.7 - 78.5) == "-0.8"
  {
    assert 77.7 - 78.5 == -0.8;
    assert RoundTenths(0.8) == 8;
    assert Fixed1Magnitude(0.8) == "0" + "." + "8";
  }

  /** The weight part for rows sorted newest first: the newest weight, the change from the
      oldest to the newest, and the number of readings under the header, or the fixed
      sentence when there are no records. */
  function WeightPart(ws: seq<WeightRecord>, fmt: Formatters): (r: string)
    ensures |ws| > 0 ==> StartsWith(r, WeightHeader)
    ensures |ws| == 0 ==> r == NoWeights
  {
    if |ws| > 0 then WeightSummary(ws, fmt) else NoWeights
  }

  function WeightSummary(ws: seq<WeightRecord>, fmt: Formatters): (r: string)
    requires |ws| > 0
    ensures StartsWith(r, WeightHeader)
  {
    PrefixOfAppend(WeightHeader, WeightLines(ws, fmt));
    WeightHeader + WeightLines(ws, fmt)
  }

  /** The three summary lines. The first row is the one reported as the latest weight. */
  function WeightLines(ws: seq<WeightRecord>, fmt: Formatters): (r: string)
    requires |ws| > 0
    ensures StartsWith(r, "- Peso mais recente: " + NumberText(ws[0].weight, fmt) + " kg (")
  {
    var latest := ws[0];
    var oldest := ws[|ws| - 1];
    var change := latest.weight - oldest.weight;
    var shown := "- Peso mais recente: " + NumberText(latest.weight, fmt) + " kg (";
    var latestLine := shown + fmt.date(latest.date) + ")\n";
    var changeLine := "- Variação no período: " + ChangeText(change) + " kg\n";
    var countLine := "- Registros: " + IntToString(|ws|) + " medições\n";
    PrefixOfAppend(shown, fmt.date(latest.date));
    PrefixOfLonger(shown + fmt.date(latest.date), shown, ")\n");
    PrefixOfLonger(latestLine, shown, changeLine);
    PrefixOfLonger(latestLine + changeLine, shown, countLine);
    PrefixOfLonger(latestLine + changeLine + countLine, shown, "\n");
    latestLine + changeLine + countLine + "\n"
  }

  // ----- The whole context -----

  /** What a query gave back: its data, no data (SQL null), or an exception. */
  datatype Lookup<T> = Found(value: T) | Missing | Raised

  /** The rows of a list query; no data reads as no rows. */
  function RowsOf<T>(q: Lookup<seq<T>>): seq<T> {
    if q.Found? then q.value else []
  }

  const LoadError := "Erro ao carregar dados do usuário."
  const NoData := "Nenhum dado " + "disponível ainda. Usuário está começando sua jornada."

  /** The four parts in order: profile, workouts, calories, weight. The text starts with the
      profile part, whatever the other parts are. */
  function ContextText(profile: Option<Profile>, ws: seq<WorkoutRecord>, cs: seq<CalorieRecord>,
                       rs: seq<WeightRecord>, fmt: Formatters): (r: string)
    ensures StartsWith(r, ProfilePart(profile, fmt))
    ensures StartsWith(r, "PERFIL")
  {
    var p, w, c, g := ProfilePart(profile, fmt), WorkoutsPart(ws, fmt), CaloriesPart(cs, fmt), WeightPart(rs, fmt);
    PrefixOfAppend(p, w);
    PrefixOfLonger(p + w, p, c);
    PrefixOfLonger(p + w + c, p, g);
    PrefixOfPrefix(p + w + c + g, p, "PERFIL");
    p + w + c + g
  }

  predicate AnyRaised(profile: Lookup<Profile>, workouts: Lookup<seq<WorkoutRecord>>,
                      calories: Lookup<seq<CalorieRecord>>, weights: Lookup<seq<WeightRecord>>) {
    profile.Raised? || workouts.Raised? || calories.Raised? || weights.Raised?
  }

  /** What `getUserContext` returns for four query results: the error sentence exactly when a
      query raised, and otherwise the context, which starts with the profile part. */
  function UserContext(profile: Lookup<Profile>, workouts: Lookup<seq<WorkoutRecord>>,
                       calories: Lookup<seq<CalorieRecord>>, weights: Lookup<seq<WeightRecord>>,
                       fmt: Formatters): (r: string)
    ensures r == LoadError <==> AnyRaised(profile, workouts, calories, weights)
    ensures !AnyRaised(profile, workouts, calories, weights) ==>
      StartsWith(r, ProfilePart(if profile.Found? then Some(profile.value) else None, fmt))
  {
    if AnyRaised(profile, workouts, calories, weights) then LoadError
    else
      var profileRow := if profile.Found? then Some(profile.value) else None;
      var text := ContextText(profileRow, RowsOf(workouts), RowsOf(calories), RowsOf(weights), fmt);
      PerfilIsNoFixedSentence(text);
      text
  }

  lemma PrefixOfAppend(a: string, b: string)
    ensures StartsWith(a + b, a)
  {
    assert (a + b)[..|a|] == a;
  }

  lemma PrefixOfLonger(s: string, prefix: string, t: string)
    requires StartsWith(s, prefix)
    ensures StartsWith(s + t, prefix)
  {
    assert (s + t)[..|prefix|] == s[..|prefix|];
  }

  lemma PrefixOfPrefix(s: string, p: string, q: string)
    requires StartsWith(s, p) && StartsWith(p, q)
    ensures StartsWith(s, q)
  {
    assert s[..|q|] == p[..|q|];
  }

  /** Both forms of the profile part start with "PERFIL"; the "no data yet" sentence and the
      error sentence do not. */
  lemma FixedSentencePrefixes()
    ensures StartsWith(ProfileHeader, "PERFIL") && StartsWith(NoProfile, "PERFIL")
    ensures !StartsWith(NoData, "PERFIL") && !StartsWith(LoadError, "PERFIL")
  {
    assert ProfileHeader[..6] == "PERFIL";
    assert NoProfile[..6] == "PERFIL";
    assert NoData[0] == 'N';
    assert LoadError[0] == 'E';
  }

  /** The context always starts with the profile part, so it is never empty and the
      "no data yet" sentence is never what `getUserContext` returns. */
  lemma UserContextNeverEmpty(profile: Lookup<Profile>, workouts: Lookup<seq<WorkoutRecord>>,
                              calories: Lookup<seq<CalorieRecord>>, weights: Lookup<seq<WeightRecord>>,
                              fmt: Formatters)
    ensures var r := UserContext(profile, workouts, calories, weights, fmt);
      r != "" && r != NoData && (r == LoadError || StartsWith(r, "PERFIL"))
  {
    var r := UserContext(profile, workouts, calories, weights, fmt);
    if AnyRaised(profile, workouts, calories, weights) {
      assert LoadError[0] == 'E' && NoData[0] == 'N';
    } else {
      var profileRow := if profile.Found? then Some(profile.value) else None;
      var p := ProfilePart(profileRow, fmt);
      PrefixOfPrefix(r, p, "PERFIL");
      PerfilIsNoFixedSentence(r);
    }
  }

  /** A text that starts with "PERFIL" is neither empty nor one of the two fixed sentences. */
  lemma PerfilIsNoFixedSentence(r: string)
    requires StartsWith(r, "PERFIL")
    ensures r != "" && r != NoData && r != LoadError
  {
    FixedSentencePrefixes();
  }

  /** `getUserContext`: the four parts appended one after the other to an initially empty
      text; any exception replaces the whole by the error sentence. Each `if` of the source
      is one of the four `Append` methods below. */
  method GetUserContext(profile: Lookup<Profile>, workouts: Lookup<seq<WorkoutRecord>>,
                        calories: Lookup<seq<CalorieRecord>>, weights: Lookup<seq<WeightRecord>>,
                        fmt: Formatters) returns (r: string)
    ensures r == UserContext(profile, workouts, calories, weights, fmt)
    ensures r != "" && r != NoData
  {
    if AnyRaised(profile, workouts, calories, weights) {
      return LoadError;
    }
    var profileRow := if profile.Found? then Some(profile.value) else None;
    var recentWorkouts, recentCalories, recentWeights := RowsOf(workouts), RowsOf(calories), RowsOf(weights);

    var context := "";
    context := AppendProfile(context, profileRow, fmt);
    context := AppendWorkouts(context, recentWorkouts, fmt);
    context := AppendCalories(context, recentCalories, fmt);
    context := AppendWeights(context, recentWeights, fmt);
    EmptyAppend(ProfilePart(profileRow, fmt));

    UserContextNeverEmpty(profile, workouts, calories, weights, fmt);
    r := if context != "" then context else NoData;
  }

  /** The profile `if`: the filled-in profile, or the fixed sentence. */
  method AppendProfile(context: string, profile: Option<Profile>, fmt: Formatters) returns (r: string)
    ensures r == context + ProfilePart(profile, fmt)
  {
    r := context;
    if profile.Some? {
      r := r + PopulatedProfile(profile.value, fmt);
    } else {
      r := r + NoProfile;
    }
  }

  /** The workouts `if`: the numbered list, then the count and burned-calories line; or the
      fixed sentence. */
  method AppendWorkouts(context: string, recentWorkouts: seq<WorkoutRecord>, fmt: Formatters) returns (r: string)
    ensures r == context + WorkoutsPart(recentWorkouts, fmt)
  {
    r := context;
    if |recentWorkouts| > 0 {
      r := r + WorkoutsList(recentWorkouts, fmt);
      var totalWorkouts := |recentWorkouts|;
      var totalCaloriesBurned := BurnedTotal(recentWorkouts);
      r := r + ("Total: " + IntToString(totalWorkouts) + " treinos, " + IntToString(totalCaloriesBurned) + " kcal queimadas\n\n");
      assert r == context + WorkoutsList(recentWorkouts, fmt) + WorkoutsSummary(recentWorkouts);
      AppendAssociative(context, WorkoutsList(recentWorkouts, fmt), WorkoutsSummary(recentWorkouts));
    } else {
      r := r + NoWorkouts;
    }
  }

  /** The calories `if`: the numbered list, then the rounded daily average; or the fixed
      sentence. */
  method AppendCalories(context: string, recentCalories: seq<CalorieRecord>, fmt: Formatters) returns (r: string)
    ensures r == context + CaloriesPart(recentCalories, fmt)
  {
    r := context;
    if |recentCalories| > 0 {
      r := r + CaloriesList(recentCalories, fmt);
      var avgCalories := RoundedAverage(ConsumedTotal(recentCalories), |recentCalories|);
      r := r + ("Média diária: " + IntToString(avgCalories) + " kcal\n\n");
      assert r == context + CaloriesList(recentCalories, fmt) + AverageLine(recentCalories);
      AppendAssociative(context, CaloriesList(recentCalories, fmt), AverageLine(recentCalories));
    } else {
      r := r + NoCalories;
    }
  }

  /** The weight `if`: the newest weight, the signed change and the count; or the fixed
      sentence. */
  method AppendWeights(context: string, recentWeights: seq<WeightRecord>, fmt: Formatters) returns (r: string)
    ensures r == context + WeightPart(recentWeights, fmt)
  {
    r := context;
    if |recentWeights| > 0 {
      r := r + WeightSummary(recentWeights, fmt);
    } else {
      r := r + NoWeights;
    }
  }

  // ----- The handler -----

  /** The fields of the request body; a missing or null field is `None`. */
  datatype ChatRequest = ChatRequest(message: Option<string>, userId: Option<string>)

  /** What the chat completion call gives back: a first choice whose content may be absent,
      or an exception. */
  datatype Completion = Answered(content: Option<string>) | CompletionFailed

  /** The response: 200 with the assistant's message, or an error status with a message. */
  datatype ChatResponse = Reply(message: string) | Failure(status: int, error: string)

  const MissingFields := "Mensagem e userId são obrigatórios"
  const ProcessingError := "Erro ao processar mensagem"
  const Apology := "Desculpe, não consegui processar sua mensagem. Tente novamente."

  predicate Present(field: Option<string>) {
    field.Some? && field.value != ""
  }

  /** `POST`: an unreadable body is a 500; a falsy message or user id is a 400 before any
      query or model call; otherwise the model is asked with the user's context and the
      message, and its answer, or the apology when it is empty, is returned. A failed model
      call is a 500. The four query results are those for the request's user id; `ask`
      stands for the completion call, given the context and the message. */
  method ChatPost(body: Option<ChatRequest>,
                  profile: Lookup<Profile>, workouts: Lookup<seq<WorkoutRecord>>,
                  calories: Lookup<seq<CalorieRecord>>, weights: Lookup<seq<WeightRecord>>,
                  fmt: Formatters, ask: (string, string) -> Completion) returns (r: ChatResponse)
    ensures body.None? ==> r == Failure(500, ProcessingError)
    ensures body.Some? && !(Present(body.value.message) && Present(body.value.userId)) ==>
      r == Failure(400, MissingFields)
    ensures body.Some? && Present(body.value.message) && Present(body.value.userId) ==>
      var answer := ask(UserContext(profile, workouts, calories, weights, fmt), body.value.message.value);
      r == match answer
           case CompletionFailed => Failure(500, ProcessingError)
           case Answered(content) => Reply(if content.Some? && content.value != "" then content.value else Apology)
    ensures r.Failure? ==> r.status == 400 || r.status == 500
  {
    if body.None? {
      return Failure(500, ProcessingError);
    }
    var request := body.value;
    if !Present(request.message) || !Present(request.userId) {
      return Failure(400, MissingFields);
    }
    var userData := GetUserContext(profile, workouts, calories, weights, fmt);
    var completion := ask(userData, request.message.value);
    if completion.CompletionFailed? {
      return Failure(500, ProcessingError);
    }
    var content := completion.content;
    var assistantMessage := if content.Some? && content.value != "" then content.value else Apology;
    return Reply(assistantMessage);
  }
}
