/**
 * generateFallbackPlan: the rule-based training plan the app shows when the
 * model call fails. Exercises come from a fixed list per equipment, are
 * adjusted by level, and are spread over two to six days.
 */
module FallbackPlan {
  import opened Basics
  import opened JsValues
  import PlanApi

  datatype PlanExercise = PlanExercise(name: string, sets: int, reps: string, rest: int)

  datatype PlanDay = PlanDay(day: string, focus: string, exercises: seq<PlanExercise>)

  /** The fixed exercise list for the equipment: 'studio', 'kurzhanteln', or bodyweight for anything else. */
  function BaseExercises(equipment: string): (exs: seq<PlanExercise>)
    ensures |exs| == 6
    ensures forall i :: 0 <= i < |exs| ==>
              exs[i].name != [] && exs[i].reps != [] && 3 <= exs[i].sets <= 4 && 45 <= exs[i].rest <= 120
  {
    if equipment == "studio" then [
      PlanExercise("Kniebeugen", 4, "8-10", 90),
      PlanExercise("Bankdrücken", 4, "8-10", 90),
      PlanExercise("Kreuzheben", 3, "6-8", 120),
      PlanExercise("Klimmzüge", 3, "8-12", 90),
      PlanExercise("Rudern Kabel", 3, "10-12", 60),
      PlanExercise("Plank", 3, "45-60s", 60)]
    else if equipment == "kurzhanteln" then [
      PlanExercise("Goblet Squat", 4, "10-12", 75),
      PlanExercise("Kurzhantel-Bankdrücken", 4, "8-10", 90),
      PlanExercise("Einarm-Rudern", 3, "10-12", 60),
      PlanExercise("Rumänisches Kreuzheben", 3, "10-12", 75),
      PlanExercise("Schulterdrücken", 3, "8-10", 75),
      PlanExercise("Plank", 3, "45-60s", 60)]
    else [
      PlanExercise("Kniebeugen", 3, "12-15", 60),
      PlanExercise("Liegestütze", 3, "10-15", 60),
      PlanExercise("Hip Thrust", 4, "12-15", 60),
      PlanExercise("Ausfallschritte", 3, "10-12", 60),
      PlanExercise("Plank", 3, "30-45s", 45),
      PlanExercise("Mountain Climbers", 3, "20-30", 45)]
  }

  /**
   * The level adjustment: a beginner does one set fewer (at least 2) and rests
   * 30 s longer (at most 120); an advanced athlete does one set more (at most
   * 5) and rests 15 s less (at least 45); any other level keeps the values.
   */
  function AdjustForLevel(ex: PlanExercise, level: string): (r: PlanExercise)
    ensures r.name == ex.name && r.reps == ex.reps
    ensures 3 <= ex.sets <= 4 ==> 2 <= r.sets <= 5
    ensures 45 <= ex.rest <= 120 ==> 45 <= r.rest <= 120
    ensures level != "anfänger" && level != "fortgeschritten" ==> r == ex
  {
    if level == "anfänger" then ex.(sets := MaxInt(2, ex.sets - 1), rest := MinInt(120, ex.rest + 30))
    else if level == "fortgeschritten" then ex.(sets := MinInt(5, ex.sets + 1), rest := MaxInt(45, ex.rest - 15))
    else ex
  }

  function AdjustAll(exs: seq<PlanExercise>, level: string): (r: seq<PlanExercise>)
    ensures |r| == |exs|
    ensures forall i :: 0 <= i < |exs| ==> r[i] == AdjustForLevel(exs[i], level)
  {
    seq(|exs|, i requires 0 <= i < |exs| => AdjustForLevel(exs[i], level))
  }

  /** `Math.max(2, Math.min(6, frequency))` used as an array length, which drops any fraction. */
  function DayCount(frequency: real): (n: nat)
    ensures 2 <= n <= 6
    ensures 2.0 <= frequency < 7.0 ==> n == Floor(frequency)
    ensures frequency >= 6.0 ==> n == 6
    ensures frequency <= 2.0 ==> n == 2
  {
    Floor(MaxReal(2.0, MinReal(6.0, frequency)))
  }

  /** `exerciseCounts[level] || 3`. */
  function ExerciseCount(level: string): (n: nat)
    ensures 3 <= n <= 5
  {
    if level == "mittel" then 4 else if level == "fortgeschritten" then 5 else 3
  }

  /** The focus of day `idx`: alternating for fat loss and by default, a cycle of three for performance. */
  function Focus(goal: string, idx: nat): (f: string)
    ensures f != []
  {
    if goal == "fatloss" then (if idx % 2 == 0 then "Ganzkörper" else "HIIT/Metcon")
    else if goal == "performance" then ["Kraft", "Explosiv", "Technik"][idx % 3]
    else (if idx % 2 == 0 then "Ganzkörper" else "Kraft/Core")
  }

  const WeekDays: seq<string> := ["Montag", "Dienstag", "Mittwoch", "Donnerstag", "Freitag", "Samstag"]

  /**
   * The plan. Every day gets the same first exercises of the adjusted list;
   * with at most six days the weekday name always exists, so the source's
   * `Tag n` fallback name is never used.
   */
  function GenerateFallbackPlan(equipment: string, frequency: real, goal: string, level: string)
    : (days: seq<PlanDay>)
    ensures |days| == DayCount(frequency)
    ensures forall i :: 0 <= i < |days| ==> days[i].day == WeekDays[i] && days[i].focus == Focus(goal, i)
    ensures forall i :: 0 <= i < |days| ==> |days[i].exercises| == ExerciseCount(level)
    ensures forall i, j :: 0 <= i < |days| && 0 <= j < |days[i].exercises| ==>
              var ex := days[i].exercises[j];
              2 <= ex.sets <= 5 && 45 <= ex.rest <= 120 && ex.name != [] && ex.reps != []
  {
    var adjusted := AdjustAll(BaseExercises(equipment), level);
    var count := MinInt(ExerciseCount(level), |adjusted|);
    seq(DayCount(frequency), idx requires 0 <= idx < DayCount(frequency) =>
      PlanDay(WeekDays[idx], Focus(goal, idx), adjusted[..count]))
  }

  // ---------------------------------------------------------------------------
  // The fallback plan has the shape the plan endpoint accepts
  // ---------------------------------------------------------------------------

  function ExerciseJson(ex: PlanExercise): JsValue
  {
    Obj(map["name" := Str(ex.name), "sets" := Num(ex.sets as real), "reps" := Str(ex.reps), "rest" := Num(ex.rest as real)])
  }

  function DayJson(d: PlanDay): JsValue
  {
    Obj(map["day" := Str(d.day), "focus" := Str(d.focus),
             "exercises" := Arr(seq(|d.exercises|, j requires 0 <= j < |d.exercises| => ExerciseJson(d.exercises[j])))])
  }

  /** The plan as the JSON object `{ days: [...] }`. */
  function PlanJson(days: seq<PlanDay>): JsValue
  {
    Obj(map["days" := Arr(seq(|days|, i requires 0 <= i < |days| => DayJson(days[i])))])
  }

  /** An exercise with a name, at least one set and a repetition text has the fields the check demands. */
  lemma ExerciseJsonWellFormed(ex: PlanExercise)
    requires ex.name != [] && ex.sets != 0 && ex.reps != []
    ensures PlanApi.WellFormedExercise(ExerciseJson(ex))
  {
  }

  /** A day with a name, a focus and complete exercises has the fields the check demands. */
  lemma DayJsonWellFormed(d: PlanDay)
    requires d.day != [] && d.focus != []
    requires forall j :: 0 <= j < |d.exercises| ==> d.exercises[j].name != [] && d.exercises[j].sets != 0 && d.exercises[j].reps != []
    ensures PlanApi.WellFormedDay(DayJson(d))
  {
    var exs := DayJson(d).fields["exercises"].elems;
    forall j | 0 <= j < |exs|
      ensures PlanApi.WellFormedExercise(exs[j])
    {
      ExerciseJsonWellFormed(d.exercises[j]);
    }
  }

  lemma WeekDaysNonEmpty(i: nat)
    requires i < |WeekDays|
    ensures WeekDays[i] != []
  {
  }

  /** Every fallback plan passes the structure check the plan endpoint applies to model output. */
  lemma FallbackPlanWellFormed(equipment: string, frequency: real, goal: string, level: string)
    ensures PlanApi.PlanCheck(PlanJson(GenerateFallbackPlan(equipment, frequency, goal, level))) == PlanApi.PlanAccepted
  {
    var days := GenerateFallbackPlan(equipment, frequency, goal, level);
    var json := PlanJson(days);
    forall i | 0 <= i < |days|
      ensures PlanApi.WellFormedDay(json.fields["days"].elems[i])
    {
      WeekDaysNonEmpty(i);
      DayJsonWellFormed(days[i]);
    }
    PlanApi.PlanCheckAccepts(json);
  }
}
