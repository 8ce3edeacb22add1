/** The weekly plan generator: a deterministic mapping from questionnaire
    answers (goal, days per week, equipment) to a list of workout days.

    The goal builders append to a growing `workouts` list one day at a time;
    here each builder is a method that takes the list built so far and returns
    it extended, proved against a specification function (`MuscleGainDays`,
    `FatLossDays`, `StayActiveDays`). The properties the generator promises
    are lemmas about `PlanFor`, the specification of the whole generator. */
module PlanBuilder {
  import opened Wrappers

  // ---------------------------------------------------------------- data model

  datatype Goal = MuscleGain | FatLoss | StayActive
  datatype Equipment = Gym | HomeDumbbells | Bodyweight
  datatype TimeOfDay = Morning | Evening | Flexible
  datatype Experience = Beginner | Intermediate | Advanced

  /** The questionnaire. `timeOfDay`, `experience` and `wantNutrition` are
      accepted but never read by the generator (see `PlanIgnoresUnreadAnswers`). */
  datatype Answers = Answers(
    goal: Goal,
    daysPerWeek: int,
    equipment: Equipment,
    timeOfDay: TimeOfDay,
    experience: Experience,
    wantNutrition: bool)

  datatype WorkoutDay = WorkoutDay(day: string, focus: string, exercises: seq<string>)

  datatype Plan = Plan(goal: Goal, daysPerWeek: int, equipment: Equipment, workouts: seq<WorkoutDay>)

  /** The movement-pattern keys of a template table. */
  datatype Movement = Push | Pull | Legs | Upper | Lower | FullBody | Cardio

  /** A template table: every key but `fullBody` may be missing. */
  datatype Templates = Templates(
    push: Option<seq<string>>,
    pull: Option<seq<string>>,
    legs: Option<seq<string>>,
    upper: Option<seq<string>>,
    lower: Option<seq<string>>,
    fullBody: seq<string>,
    cardio: Option<seq<string>>)

  /** The list stored under key `m`, if the table has one; `fullBody` is
      always there. */
  function Lookup(t: Templates, m: Movement): (r: Option<seq<string>>)
    ensures m == FullBody ==> r == Some(t.fullBody)
  {
    match m
    case Push => t.push
    case Pull => t.pull
    case Legs => t.legs
    case Upper => t.upper
    case Lower => t.lower
    case FullBody => Some(t.fullBody)
    case Cardio => t.cardio
  }

  /** Reference meaning of a lookup with fallback: the list under `m`, or
      `fullBody` when the key is missing. */
  function ExercisesFor(t: Templates, m: Movement): (r: seq<string>)
    ensures Lookup(t, m).Some? ==> r == Lookup(t, m).value
    ensures Lookup(t, m).None? ==> r == t.fullBody
    ensures TemplatesNonEmpty(t) && t.fullBody != [] ==> r != []
  {
    match Lookup(t, m)
    case Some(exercises) => exercises
    case None => t.fullBody
  }

  /** Every list a table holds is non-empty. */
  predicate TemplatesNonEmpty(t: Templates) {
    forall m :: Lookup(t, m).Some? ==> Lookup(t, m).value != []
  }

  // ---------------------------------------------------------- constant tables

  const GymTemplates: Templates := Templates(
    push := Some([
      "Barbell bench press 4x8",
      "Incline DB press 3x10",
      "Overhead press 3x8",
      "Cable fly 3x12",
      "Triceps pushdown 3x12"]),
    pull := Some([
      "Deadlift 3x5",
      "Pull-ups or Lat pulldown 4x8",
      "Barbell row 3x8",
      "Face pull 3x12",
      "Barbell curl 3x10"]),
    legs := Some([
      "Back squat 4x8",
      "Romanian deadlift 3x10",
      "Leg press 3x12",
      "Lunges 3x10 each leg",
      "Standing calf raises 3x15"]),
    upper := Some([
      "Bench press 4x8",
      "Bent-over row 4x8",
      "Overhead press 3x8",
      "Lat pulldown 3x10",
      "DB curls 3x10"]),
    lower := Some([
      "Front squat 4x8",
      "Leg curl 3x12",
      "Leg extension 3x12",
      "Hip thrust 3x10",
      "Seated calf raise 3x15"]),
    fullBody := [
      "Goblet squat 3x12",
      "Push-ups 3x10",
      "DB row 3x12",
      "DB shoulder press 3x10",
      "Plank 3x30s"],
    cardio := Some([
      "Treadmill incline walk 20–30 min",
      "Bike or rower 10–15 min",
      "Light stretching 5–10 min"]))

  const HomeDbTemplates: Templates := Templates(
    push := None,
    pull := None,
    legs := None,
    upper := Some([
      "DB floor press 3x12",
      "One-arm DB row 3x12",
      "DB shoulder press 3x10",
      "DB curls 3x12",
      "DB triceps extension 3x12"]),
    lower := Some([
      "Goblet squat 4x10",
      "DB lunge 3x10 each leg",
      "DB Romanian deadlift 3x12",
      "Glute bridge 3x15"]),
    fullBody := [
      "Goblet squat 3x12",
      "DB bench or floor press 3x10",
      "One-arm DB row 3x12 each side",
      "DB shoulder press 3x10",
      "DB Romanian deadlift 3x12"],
    cardio := Some([
      "Fast walking or light jog 20–30 min",
      "Jump rope 5–10 min",
      "Stretching 5–10 min"]))

  const BodyweightTemplates: Templates := Templates(
    push := None,
    pull := None,
    legs := None,
    upper := Some([
      "Push-ups 4x8–12",
      "Pike push-ups 3x8",
      "Inverted row 3x8–10",
      "Diamond push-ups 2x10"]),
    lower := Some([
      "Squats 4x15",
      "Reverse lunges 3x10 each leg",
      "Single-leg Romanian deadlift 3x10 each leg",
      "Wall sit 3x30s"]),
    fullBody := [
      "Bodyweight squat 3x15",
      "Push-ups 3x10",
      "Inverted row or table row 3x8",
      "Glute bridge 3x15",
      "Plank 3x30s"],
    cardio := Some([
      "Jumping jacks 3x30s",
      "High knees 3x30s",
      "Fast walk or light jog 15–20 min"]))

  const WeekDays: seq<string> :=
    ["Monday", "Tuesday", "Wednesday", "Thursday", "Friday", "Saturday", "Sunday"]

  // ------------------------------------------------------------------ helpers

  /** The table for an equipment value; anything but gym or home dumbbells
      gets the bodyweight table. */
  function PickEquipmentTemplates(equipment: Equipment): (t: Templates)
    ensures TemplatesNonEmpty(t) && t.fullBody != []
    ensures t.cardio.Some?
  {
    if equipment == Gym then GymTemplates
    else if equipment == HomeDumbbells then HomeDbTemplates
    else BodyweightTemplates
  }

  function Distance(a: int, b: int): nat {
    if a < b then b - a else a - b
  }

  /** The requested day count forced into 2..5. */
  function ClampDays(days: int): (r: int)
    ensures 2 <= r <= 5
    ensures 2 <= days <= 5 ==> r == days
    ensures days < 2 ==> r == 2
    ensures days > 5 ==> r == 5
    ensures forall k :: 2 <= k <= 5 ==> Distance(r, days) <= Distance(k, days)
  {
    if days < 2 then 2
    else if days > 5 then 5
    else days
  }

  /** The number of iterations of `for (let i = 0; i < n; i++)`. */
  function LoopCount(n: int): nat {
    if n < 0 then 0 else n
  }

  /** The end index that JavaScript's `slice(0, end)` uses on a list of
      length `len`: a negative end counts back from the end of the list. */
  function SliceEnd(len: nat, end: int): (k: nat)
    ensures k <= len
    ensures 0 <= end <= len ==> k == end
  {
    if end < 0 then (if len + end < 0 then 0 else len + end)
    else if end > len then len
    else end
  }

  // ------------------------------------------------------------- muscle gain

  const CanonicalFocuses: seq<string> := ["Push", "Pull", "Legs", "Upper", "Lower"]

  /** The focus names of the muscle-gain split for a day count. */
  function MuscleGainFocuses(daysPerWeek: int): (focuses: seq<string>)
    ensures |focuses| <= 5
  {
    if daysPerWeek == 3 then ["Push", "Pull", "Legs"]
    else if daysPerWeek == 4 then ["Upper", "Lower", "Upper", "Lower"]
    else CanonicalFocuses[..SliceEnd(|CanonicalFocuses|, daysPerWeek)]
  }

  /** The label of a muscle-gain day: the focus name followed by the
      split's suffix. */
  function MuscleGainLabel(daysPerWeek: int, focus: string): string
  {
    if daysPerWeek == 3 then focus + " — muscle gain"
    else if daysPerWeek == 4 then focus + " body — strength"
    else focus + " — hypertrophy"
  }

  /** The exercises each branch of the muscle-gain builder picks for a focus
      name; the third branch starts from an empty list and a `switch` that
      overwrites it for the five canonical names. */
  function MuscleGainExercises(daysPerWeek: int, t: Templates, focus: string): seq<string>
  {
    if daysPerWeek == 3 then
      if focus == "Push" then t.push.GetOr(t.fullBody)
      else if focus == "Pull" then t.pull.GetOr(t.fullBody)
      else t.legs.GetOr(t.fullBody)
    else if daysPerWeek == 4 then
      if focus == "Upper" then t.upper.GetOr(t.fullBody)
      else t.lower.GetOr(t.fullBody)
    else
      if focus == "Push" then t.push.GetOr(t.fullBody)
      else if focus == "Pull" then t.pull.GetOr(t.fullBody)
      else if focus == "Legs" then t.legs.GetOr(t.fullBody)
      else if focus == "Upper" then t.upper.GetOr(t.fullBody)
      else if focus == "Lower" then t.lower.GetOr(t.fullBody)
      else []
  }

  /** Day `i` of the muscle-gain split: the `i`-th weekday, labelled after
      the `i`-th focus name. */
  function MuscleGainDay(daysPerWeek: int, t: Templates, i: nat): WorkoutDay
    requires i < |MuscleGainFocuses(daysPerWeek)|
  {
    var focus := MuscleGainFocuses(daysPerWeek)[i];
    WorkoutDay(WeekDays[i], MuscleGainLabel(daysPerWeek, focus), MuscleGainExercises(daysPerWeek, t, focus))
  }

  /** The first `count` days the muscle-gain builder appends. */
  function MuscleGainDays(daysPerWeek: int, t: Templates, count: nat): (days: seq<WorkoutDay>)
    requires count <= |MuscleGainFocuses(daysPerWeek)|
    ensures |days| == count
  {
    if count == 0 then []
    else MuscleGainDays(daysPerWeek, t, count - 1) + [MuscleGainDay(daysPerWeek, t, count - 1)]
  }

  /** Appends the muscle-gain days to `workouts`: three fixed splits chosen by
      the day count, each built by iterating over its list of focus names. */
  method BuildMuscleGainPlan(workouts: seq<WorkoutDay>, daysPerWeek: int, templates: Templates)
    returns (result: seq<WorkoutDay>)
    ensures result == workouts + MuscleGainDays(daysPerWeek, templates, |MuscleGainFocuses(daysPerWeek)|)
  {
    result := workouts;
    if daysPerWeek == 3 {
      // Push / Pull / Legs
      var focuses := ["Push", "Pull", "Legs"];
      var i := 0;
      while i < |focuses|
        invariant 0 <= i <= |focuses|
        invariant result == workouts + MuscleGainDays(daysPerWeek, templates, i)
      {
        var focus := focuses[i];
        var dayName := WeekDays[i];
        var exercises :=
          if focus == "Push" then templates.push.GetOr(templates.fullBody)
          else if focus == "Pull" then templates.pull.GetOr(templates.fullBody)
          else templates.legs.GetOr(templates.fullBody);
        result := result + [WorkoutDay(dayName, focus + " — muscle gain", exercises)];
        i := i + 1;
      }
    } else if daysPerWeek == 4 {
      // Upper / Lower / Upper / Lower
      var focuses := ["Upper", "Lower", "Upper", "Lower"];
      var i := 0;
      while i < |focuses|
        invariant 0 <= i <= |focuses|
        invariant result == workouts + MuscleGainDays(daysPerWeek, templates, i)
      {
        var focus := focuses[i];
        var dayName := WeekDays[i];
        var exercises :=
          if focus == "Upper" then templates.upper.GetOr(templates.fullBody)
          else templates.lower.GetOr(templates.fullBody);
        result := result + [WorkoutDay(dayName, focus + " body — strength", exercises)];
        i := i + 1;
      }
    } else {
      // Push / Pull / Legs / Upper / Lower, cut to the day count
      var focuses := CanonicalFocuses[..SliceEnd(|CanonicalFocuses|, daysPerWeek)];
      var i := 0;
      while i < |focuses|
        invariant 0 <= i <= |focuses|
        invariant result == workouts + MuscleGainDays(daysPerWeek, templates, i)
      {
        var focus := focuses[i];
        var dayName := WeekDays[i];
        var exercises: seq<string> := [];
        if focus == "Push" {
          exercises := templates.push.GetOr(templates.fullBody);
        } else if focus == "Pull" {
          exercises := templates.pull.GetOr(templates.fullBody);
        } else if focus == "Legs" {
          exercises := templates.legs.GetOr(templates.fullBody);
        } else if focus == "Upper" {
          exercises := templates.upper.GetOr(templates.fullBody);
        } else if focus == "Lower" {
          exercises := templates.lower.GetOr(templates.fullBody);
        }
        result := result + [WorkoutDay(dayName, focus + " — hypertrophy", exercises)];
        i := i + 1;
      }
    }
  }

  // ---------------------------------------------------------------- fat loss

  const FatLossCardioFocus: string := "Cardio + light conditioning"
  const FatLossStrengthFocus: string := "Full-body strength for fat loss"

  /** Day `i` of the fat-loss plan: cardio exactly on odd days of a table
      with a cardio list, full-body strength otherwise. */
  function FatLossDay(t: Templates, i: nat): (r: WorkoutDay)
    requires i < |WeekDays|
    ensures r.day == WeekDays[i]
    ensures r.focus == FatLossCardioFocus <==> i % 2 == 1 && t.cardio.Some?
    ensures r.focus == FatLossCardioFocus || r.focus == FatLossStrengthFocus
    ensures r.exercises == (if r.focus == FatLossCardioFocus then t.cardio.value else t.fullBody)
  {
    if i % 2 == 1 && t.cardio.Some? then WorkoutDay(WeekDays[i], FatLossCardioFocus, t.cardio.value)
    else WorkoutDay(WeekDays[i], FatLossStrengthFocus, t.fullBody)
  }

  /** The first `count` days the fat-loss builder appends. */
  function FatLossDays(t: Templates, count: nat): (days: seq<WorkoutDay>)
    requires count <= |WeekDays|
    ensures |days| == count
  {
    if count == 0 then [] else FatLossDays(t, count - 1) + [FatLossDay(t, count - 1)]
  }

  /** Appends the fat-loss days to `workouts`: cardio on every second day
      when the table has a cardio list, full-body strength otherwise. */
  method BuildFatLossPlan(workouts: seq<WorkoutDay>, daysPerWeek: int, templates: Templates)
    returns (result: seq<WorkoutDay>)
    requires daysPerWeek <= |WeekDays|
    ensures result == workouts + FatLossDays(templates, LoopCount(daysPerWeek))
  {
    result := workouts;
    var i := 0;
    while i < daysPerWeek
      invariant 0 <= i <= LoopCount(daysPerWeek)
      invariant result == workouts + FatLossDays(templates, i)
    {
      var dayName := WeekDays[i];
      var isCardioDay := i % 2 == 1;
      if isCardioDay && templates.cardio.Some? {
        result := result + [WorkoutDay(dayName, FatLossCardioFocus, templates.cardio.value)];
      } else {
        result := result + [WorkoutDay(dayName, FatLossStrengthFocus, templates.fullBody)];
      }
      i := i + 1;
    }
  }

  // ------------------------------------------------------------- stay active

  const StayActiveCardioFocus: string := "Light cardio + mobility"
  const StayActiveRoutineFocus: string := "Full-body routine — stay active"

  /** Day `i` of the stay-active plan: light cardio exactly on the last day
      of a table with a cardio list, the full-body routine otherwise. */
  function StayActiveDay(daysPerWeek: int, t: Templates, i: nat): (r: WorkoutDay)
    requires i < |WeekDays|
    ensures r.day == WeekDays[i]
    ensures r.focus == StayActiveCardioFocus <==> i == daysPerWeek - 1 && t.cardio.Some?
    ensures r.focus == StayActiveCardioFocus || r.focus == StayActiveRoutineFocus
    ensures r.exercises == (if r.focus == StayActiveCardioFocus then t.cardio.value else t.fullBody)
  {
    if i == daysPerWeek - 1 && t.cardio.Some? then WorkoutDay(WeekDays[i], StayActiveCardioFocus, t.cardio.value)
    else WorkoutDay(WeekDays[i], StayActiveRoutineFocus, t.fullBody)
  }

  /** The first `count` days the stay-active builder appends. */
  function StayActiveDays(daysPerWeek: int, t: Templates, count: nat): (days: seq<WorkoutDay>)
    requires count <= |WeekDays|
    ensures |days| == count
  {
    if count == 0 then [] else StayActiveDays(daysPerWeek, t, count - 1) + [StayActiveDay(daysPerWeek, t, count - 1)]
  }

  /** Appends the stay-active days to `workouts`: a full-body routine every
      day except the last, which is light cardio when the table has it. */
  method BuildStayActivePlan(workouts: seq<WorkoutDay>, daysPerWeek: int, templates: Templates)
    returns (result: seq<WorkoutDay>)
    requires daysPerWeek <= |WeekDays|
    ensures result == workouts + StayActiveDays(daysPerWeek, templates, LoopCount(daysPerWeek))
  {
    result := workouts;
    var i := 0;
    while i < daysPerWeek
      invariant 0 <= i <= LoopCount(daysPerWeek)
      invariant result == workouts + StayActiveDays(daysPerWeek, templates, i)
    {
      var dayName := WeekDays[i];
      if i == daysPerWeek - 1 && templates.cardio.Some? {
        result := result + [WorkoutDay(dayName, StayActiveCardioFocus, templates.cardio.value)];
      } else {
        result := result + [WorkoutDay(dayName, StayActiveRoutineFocus, templates.fullBody)];
      }
      i := i + 1;
    }
  }

  // ------------------------------------------------------------ main builder

  /** The days the builder for `goal` appends for a day count. */
  function GoalWorkouts(goal: Goal, daysPerWeek: int, t: Templates): (r: seq<WorkoutDay>)
    requires daysPerWeek <= |WeekDays|
    ensures goal != MuscleGain ==> |r| == LoopCount(daysPerWeek)
    ensures goal == MuscleGain && 2 <= daysPerWeek <= 5 ==> |r| == daysPerWeek
  {
    match goal
    case MuscleGain => MuscleGainDays(daysPerWeek, t, |MuscleGainFocuses(daysPerWeek)|)
    case FatLoss => FatLossDays(t, LoopCount(daysPerWeek))
    case StayActive => StayActiveDays(daysPerWeek, t, LoopCount(daysPerWeek))
  }

  /** The plan the generator produces for `answers`. */
  function PlanFor(answers: Answers): (r: Plan)
    ensures r.goal == answers.goal && r.equipment == answers.equipment
    ensures r.daysPerWeek == ClampDays(answers.daysPerWeek)
    ensures |r.workouts| == r.daysPerWeek
  {
    var daysPerWeek := ClampDays(answers.daysPerWeek);
    var templates := PickEquipmentTemplates(answers.equipment);
    Plan(answers.goal, daysPerWeek, answers.equipment, GoalWorkouts(answers.goal, daysPerWeek, templates))
  }

  /** Clamps the day count, picks the table and lets the goal's builder fill
      an initially empty list of workouts. */
  method BuildPlanFromAnswers(answers: Answers) returns (plan: Plan)
    ensures plan == PlanFor(answers)
  {
    var daysPerWeek := ClampDays(answers.daysPerWeek);
    var templates := PickEquipmentTemplates(answers.equipment);
    var workouts: seq<WorkoutDay> := [];

    if answers.goal == MuscleGain {
      workouts := BuildMuscleGainPlan(workouts, daysPerWeek, templates);
    } else if answers.goal == FatLoss {
      workouts := BuildFatLossPlan(workouts, daysPerWeek, templates);
    } else {
      workouts := BuildStayActivePlan(workouts, daysPerWeek, templates);
    }

    plan := Plan(answers.goal, daysPerWeek, answers.equipment, workouts);
  }
}
