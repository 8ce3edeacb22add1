/** The inline plan builder of the plan route: a simpler generator that never
    clamps the day count, alternates upper and lower body for muscle gain and
    gives every day the same three exercises chosen by equipment. The request
    body is untyped there, so goal and equipment are plain strings. */
module PlanRoute {
  import PlanBuilder

  datatype RequestBody = RequestBody(goal: string, daysPerWeek: int, equipment: string)

  datatype RoutePlan = RoutePlan(
    goal: string,
    daysPerWeek: int,
    equipment: string,
    workouts: seq<PlanBuilder.WorkoutDay>)

  const BaseDays: seq<string> :=
    ["Monday", "Tuesday", "Wednesday", "Thursday", "Friday", "Saturday", "Sunday"]

  const GymExercises: seq<string> := ["Barbell squat 4x8", "Bench press 4x8", "Cable row 3x12"]
  const HomeDumbbellExercises: seq<string> := ["Goblet squat 3x12", "DB bench 3x10", "DB row 3x12"]
  const BodyweightExercises: seq<string> := ["Bodyweight squat 3x15", "Push-ups 3x12", "Plank 3x30s"]

  /** The focus of day `i` for a goal string: upper body on even and lower
      body on odd days for muscle gain. */
  function RouteFocus(goal: string, i: nat): (r: string)
    ensures goal == "muscle_gain" ==> (r == "Upper body" <==> i % 2 == 0) && (r == "Lower body" <==> i % 2 == 1)
    ensures goal != "muscle_gain" ==> (r == "Full body + cardio" <==> goal == "fat_loss")
  {
    if goal == "muscle_gain" then (if i % 2 == 0 then "Upper body" else "Lower body")
    else if goal == "fat_loss" then "Full body + cardio"
    else "General fitness"
  }

  /** The exercises of every day for an equipment string; any unknown value
      gets the bodyweight list. */
  function RouteExercises(equipment: string): (r: seq<string>)
    ensures |r| == 3
    ensures r == BodyweightExercises <==> equipment != "gym" && equipment != "home_dumbbells"
  {
    assert GymExercises[0] != BodyweightExercises[0] && HomeDumbbellExercises[0] != BodyweightExercises[0];
    if equipment == "gym" then GymExercises
    else if equipment == "home_dumbbells" then HomeDumbbellExercises
    else BodyweightExercises
  }

  /** Day `i` of a route plan: the `i`-th of the seven day names, with the
      goal's focus and the equipment's three exercises. */
  function RouteDay(goal: string, equipment: string, i: nat): (r: PlanBuilder.WorkoutDay)
    requires i < |BaseDays|
    ensures r.day == BaseDays[i] && |r.exercises| == 3
    ensures goal == "muscle_gain" ==> (r.focus == "Upper body" <==> i % 2 == 0)
  {
    PlanBuilder.WorkoutDay(BaseDays[i], RouteFocus(goal, i), RouteExercises(equipment))
  }

  /** Builds one workout per requested day, echoing the request's fields.
      Day names come from a seven-entry list, so a request for more than
      seven days would read past its end. */
  method BuildPlanFromAnswers(body: RequestBody) returns (plan: RoutePlan)
    requires body.daysPerWeek <= |BaseDays|
    ensures plan.goal == body.goal && plan.daysPerWeek == body.daysPerWeek && plan.equipment == body.equipment
    ensures |plan.workouts| == PlanBuilder.LoopCount(body.daysPerWeek)
    ensures forall i :: 0 <= i < |plan.workouts| ==> plan.workouts[i].day == BaseDays[i]
    ensures forall i :: 0 <= i < |plan.workouts| ==> plan.workouts[i].focus == RouteFocus(body.goal, i)
    ensures forall i :: 0 <= i < |plan.workouts| ==> plan.workouts[i].exercises == RouteExercises(body.equipment)
  {
    var goal, daysPerWeek, equipment := body.goal, body.daysPerWeek, body.equipment;
    var workouts: seq<PlanBuilder.WorkoutDay> := [];
    var i := 0;
    while i < daysPerWeek
      invariant 0 <= i <= PlanBuilder.LoopCount(daysPerWeek)
      invariant |workouts| == i
      invariant forall k :: 0 <= k < i ==> workouts[k] == RouteDay(goal, equipment, k)
    {
      var dayName := BaseDays[i];
      var focus :=
        if goal == "muscle_gain" then (if i % 2 == 0 then "Upper body" else "Lower body")
        else if goal == "fat_loss" then "Full body + cardio"
        else "General fitness";
      var exercises :=
        if equipment == "gym" then ["Barbell squat 4x8", "Bench press 4x8", "Cable row 3x12"]
        else if equipment == "home_dumbbells" then ["Goblet squat 3x12", "DB bench 3x10", "DB row 3x12"]
        else ["Bodyweight squat 3x15", "Push-ups 3x12", "Plank 3x30s"];
      workouts := workouts + [PlanBuilder.WorkoutDay(dayName, focus, exercises)];
      i := i + 1;
    }
    plan := RoutePlan(goal, daysPerWeek, equipment, workouts);
  }

  /** Muscle gain starts with upper body and alternates day by day. */
  lemma MuscleGainAlternates(i: nat)
    ensures RouteFocus("muscle_gain", 0) == "Upper body"
    ensures RouteFocus("muscle_gain", i) != RouteFocus("muscle_gain", i + 1)
    ensures RouteFocus("muscle_gain", i) == RouteFocus("muscle_gain", i + 2)
    ensures RouteFocus("muscle_gain", i) == "Upper body" || RouteFocus("muscle_gain", i) == "Lower body"
  {
  }

  /** Every other goal keeps one focus all week: "Full body + cardio" exactly
      for fat loss, "General fitness" for anything else. */
  lemma OtherGoalsKeepOneFocus(goal: string, i: nat, j: nat)
    requires goal != "muscle_gain"
    ensures RouteFocus(goal, i) == RouteFocus(goal, j)
    ensures RouteFocus(goal, i) == "Full body + cardio" <==> goal == "fat_loss"
    ensures goal != "fat_loss" ==> RouteFocus(goal, i) == "General fitness"
  {
  }

  /** Each equipment value gets its own three-exercise list, and every
      unrecognised value is treated as bodyweight. */
  lemma ExerciseListsByEquipment(equipment: string)
    ensures |RouteExercises(equipment)| == 3
    ensures RouteExercises(equipment) == GymExercises <==> equipment == "gym"
    ensures RouteExercises(equipment) == HomeDumbbellExercises <==> equipment == "home_dumbbells"
    ensures equipment != "gym" && equipment != "home_dumbbells" ==> RouteExercises(equipment) == BodyweightExercises
  {
    assert GymExercises[0] != HomeDumbbellExercises[0] && GymExercises[0] != BodyweightExercises[0];
    assert HomeDumbbellExercises[0] != BodyweightExercises[0];
  }
}
