/** What the weekly plan generator promises, proved about `PlanFor`: the plan
    echoes the answers, holds one day per clamped day count in weekday order,
    arranges each goal as its policy says, falls back to `fullBody` at every
    missing key, and never hands out an empty exercise list. */
module PlanProperties {
  import opened Wrappers
  import opened PlanBuilder

  // ------------------------------------------- the builders, day by day

  lemma {:induction false} MuscleGainDaysAt(daysPerWeek: int, t: Templates, count: nat, i: nat)
    requires count <= |MuscleGainFocuses(daysPerWeek)| && i < count
    ensures MuscleGainDays(daysPerWeek, t, count)[i] == MuscleGainDay(daysPerWeek, t, i)
  {
    if i < count - 1 {
      MuscleGainDaysAt(daysPerWeek, t, count - 1, i);
    }
  }

  lemma {:induction false} FatLossDaysAt(t: Templates, count: nat, i: nat)
    requires count <= |WeekDays| && i < count
    ensures FatLossDays(t, count)[i] == FatLossDay(t, i)
  {
    if i < count - 1 {
      FatLossDaysAt(t, count - 1, i);
    }
  }

  lemma {:induction false} StayActiveDaysAt(daysPerWeek: int, t: Templates, count: nat, i: nat)
    requires count <= |WeekDays| && i < count
    ensures StayActiveDays(daysPerWeek, t, count)[i] == StayActiveDay(daysPerWeek, t, i)
  {
    if i < count - 1 {
      StayActiveDaysAt(daysPerWeek, t, count - 1, i);
    }
  }

  // ------------------------------------------------ one muscle-gain day

  /** A muscle-gain label is its focus name followed by the split's suffix. */
  lemma MuscleGainLabelExtendsFocus(daysPerWeek: int, focus: string)
    ensures focus < MuscleGainLabel(daysPerWeek, focus)
  {
  }

  /** The per-focus exercise choice: never empty for a name the split can
      produce, and the third branch's empty default for any other name. */
  lemma MuscleGainExercisesChoice(daysPerWeek: int, t: Templates, focus: string)
    ensures (daysPerWeek == 3 || daysPerWeek == 4 || focus in CanonicalFocuses) && TemplatesNonEmpty(t) && t.fullBody != []
      ==> MuscleGainExercises(daysPerWeek, t, focus) != []
    ensures daysPerWeek != 3 && daysPerWeek != 4 && focus !in CanonicalFocuses
      ==> MuscleGainExercises(daysPerWeek, t, focus) == []
  {
    assert Lookup(t, Upper) == t.upper && Lookup(t, Lower) == t.lower;
    assert Lookup(t, Push) == t.push && Lookup(t, Pull) == t.pull && Lookup(t, Legs) == t.legs;
  }

  /** Day `i` of the muscle-gain split is the `i`-th weekday, labelled after
      the `i`-th focus name, with a non-empty list from a non-empty table. */
  lemma MuscleGainDayShape(daysPerWeek: int, t: Templates, i: nat)
    requires i < |MuscleGainFocuses(daysPerWeek)|
    ensures MuscleGainDay(daysPerWeek, t, i).day == WeekDays[i]
    ensures MuscleGainFocuses(daysPerWeek)[i] < MuscleGainDay(daysPerWeek, t, i).focus
    ensures TemplatesNonEmpty(t) && t.fullBody != [] ==> MuscleGainDay(daysPerWeek, t, i).exercises != []
  {
    var focus := MuscleGainFocuses(daysPerWeek)[i];
    MuscleGainLabelExtendsFocus(daysPerWeek, focus);
    MuscleGainExercisesChoice(daysPerWeek, t, focus);
  }

  // ------------------------------------------------------- template tables

  /** Only the gym table has push, pull and legs lists; every table has all
      other keys. */
  lemma MissingTemplateKeys(equipment: Equipment, m: Movement)
    ensures Lookup(PickEquipmentTemplates(equipment), m).None?
        <==> equipment != Gym && (m == Push || m == Pull || m == Legs)
  {
  }

  // ------------------------------------------------------ shape of a plan

  /** Day `i` of every plan is the `i`-th weekday, and no plan runs past
      Friday. */
  lemma PlanWeekdayOrder(answers: Answers)
    ensures forall i :: 0 <= i < |PlanFor(answers).workouts| ==>
      i < 5 && PlanFor(answers).workouts[i].day == WeekDays[i]
  {
    var d := ClampDays(answers.daysPerWeek);
    var t := PickEquipmentTemplates(answers.equipment);
    var w := PlanFor(answers).workouts;
    forall i | 0 <= i < |w|
      ensures i < 5 && w[i].day == WeekDays[i]
    {
      match answers.goal
      case MuscleGain => MuscleGainDaysAt(d, t, |MuscleGainFocuses(d)|, i);
      case FatLoss => FatLossDaysAt(t, d, i);
      case StayActive => StayActiveDaysAt(d, t, d, i);
    }
  }

  /** The generator reads only goal, day count and equipment. */
  lemma PlanIgnoresUnreadAnswers(answers: Answers, timeOfDay: TimeOfDay, experience: Experience, wantNutrition: bool)
    ensures PlanFor(answers.(timeOfDay := timeOfDay, experience := experience, wantNutrition := wantNutrition))
         == PlanFor(answers)
  {
  }

  // ------------------------------------------------------------ muscle gain

  /** Day `i` of the three-day split: Push, Pull, Legs, from the matching key
      with `fullBody` fallback. */
  lemma ThreeDaySplitDay(t: Templates, i: nat)
    requires i < 3
    ensures MuscleGainDay(3, t, i)
         == WorkoutDay(WeekDays[i], ["Push", "Pull", "Legs"][i] + " — muscle gain", ExercisesFor(t, [Push, Pull, Legs][i]))
  {
    if i == 0 {
    } else if i == 1 {
    } else {
    }
  }

  /** Day `i` of the four-day split: Upper, Lower, Upper, Lower, from the
      matching key with `fullBody` fallback. */
  lemma FourDaySplitDay(t: Templates, i: nat)
    requires i < 4
    ensures MuscleGainDay(4, t, i)
         == WorkoutDay(WeekDays[i], ["Upper", "Lower", "Upper", "Lower"][i] + " body — strength",
                       ExercisesFor(t, [Upper, Lower, Upper, Lower][i]))
  {
    if i == 0 {
    } else if i == 1 {
    } else if i == 2 {
    } else {
    }
  }

  /** Day `i` of the cut canonical split used for every other day count:
      the `i`-th of Push, Pull, Legs, Upper, Lower, from the matching key with
      `fullBody` fallback. */
  lemma HypertrophySplitDay(daysPerWeek: int, t: Templates, i: nat)
    requires daysPerWeek != 3 && daysPerWeek != 4 && i < |MuscleGainFocuses(daysPerWeek)|
    ensures MuscleGainDay(daysPerWeek, t, i)
         == WorkoutDay(WeekDays[i], CanonicalFocuses[i] + " — hypertrophy",
                       ExercisesFor(t, [Push, Pull, Legs, Upper, Lower][i]))
  {
    assert MuscleGainFocuses(daysPerWeek)[i] == CanonicalFocuses[i];
    if i == 0 {
    } else if i == 1 {
    } else if i == 2 {
    } else if i == 3 {
    } else {
    }
  }

  /** Three days: Push, Pull, Legs, each from its own key or `fullBody`. */
  lemma MuscleGainThreeDaySplit(answers: Answers, i: nat)
    requires answers.goal == MuscleGain && answers.daysPerWeek == 3 && i < 3
    ensures |PlanFor(answers).workouts| == 3
    ensures PlanFor(answers).workouts[i].focus == ["Push", "Pull", "Legs"][i] + " — muscle gain"
    ensures PlanFor(answers).workouts[i].exercises
         == ExercisesFor(PickEquipmentTemplates(answers.equipment), [Push, Pull, Legs][i])
  {
    var t := PickEquipmentTemplates(answers.equipment);
    MuscleGainDaysAt(3, t, 3, i);
    ThreeDaySplitDay(t, i);
  }

  /** Four days: Upper, Lower, Upper, Lower, each from its own key or
      `fullBody`. */
  lemma MuscleGainFourDaySplit(answers: Answers, i: nat)
    requires answers.goal == MuscleGain && answers.daysPerWeek == 4 && i < 4
    ensures |PlanFor(answers).workouts| == 4
    ensures PlanFor(answers).workouts[i].focus == ["Upper", "Lower", "Upper", "Lower"][i] + " body — strength"
    ensures PlanFor(answers).workouts[i].exercises
         == ExercisesFor(PickEquipmentTemplates(answers.equipment), [Upper, Lower, Upper, Lower][i])
  {
    var t := PickEquipmentTemplates(answers.equipment);
    MuscleGainDaysAt(4, t, 4, i);
    FourDaySplitDay(t, i);
  }

  /** Any other request (clamped to 2 or 5 days): the first days of Push,
      Pull, Legs, Upper, Lower, in that order, each from its own key or
      `fullBody`. */
  lemma MuscleGainHypertrophySplit(answers: Answers, i: nat)
    requires answers.goal == MuscleGain && (answers.daysPerWeek <= 2 || 5 <= answers.daysPerWeek)
    requires i < ClampDays(answers.daysPerWeek)
    ensures |PlanFor(answers).workouts| == ClampDays(answers.daysPerWeek)
    ensures PlanFor(answers).workouts[i].focus == CanonicalFocuses[i] + " — hypertrophy"
    ensures PlanFor(answers).workouts[i].exercises
         == ExercisesFor(PickEquipmentTemplates(answers.equipment), [Push, Pull, Legs, Upper, Lower][i])
  {
    var d := ClampDays(answers.daysPerWeek);
    var t := PickEquipmentTemplates(answers.equipment);
    MuscleGainDaysAt(d, t, d, i);
    HypertrophySplitDay(d, t, i);
  }

  // ---------------------------------------------------------------- fat loss

  /** Fat loss: day `i` is a cardio day exactly when `i` is odd and the table
      has a cardio list; every other day is full-body strength. */
  lemma FatLossCardioOnOddDays(answers: Answers, i: nat)
    requires answers.goal == FatLoss && i < ClampDays(answers.daysPerWeek)
    ensures |PlanFor(answers).workouts| == ClampDays(answers.daysPerWeek)
    ensures var w := PlanFor(answers).workouts[i];
            var t := PickEquipmentTemplates(answers.equipment);
            && (w.focus == FatLossCardioFocus <==> i % 2 == 1 && t.cardio.Some?)
            && (w.focus == FatLossCardioFocus ==> w.exercises == ExercisesFor(t, Cardio))
            && (w.focus != FatLossCardioFocus ==> w.focus == FatLossStrengthFocus && w.exercises == t.fullBody)
  {
    FatLossDaysAt(PickEquipmentTemplates(answers.equipment), ClampDays(answers.daysPerWeek), i);
  }

  // ------------------------------------------------------------- stay active

  /** Stay active: only the last day, and only when the table has a cardio
      list, is light cardio; every other day is the full-body routine. */
  lemma StayActiveCardioOnLastDay(answers: Answers, i: nat)
    requires answers.goal == StayActive && i < ClampDays(answers.daysPerWeek)
    ensures |PlanFor(answers).workouts| == ClampDays(answers.daysPerWeek)
    ensures var w := PlanFor(answers).workouts[i];
            var t := PickEquipmentTemplates(answers.equipment);
            && (w.focus == StayActiveCardioFocus <==> i == ClampDays(answers.daysPerWeek) - 1 && t.cardio.Some?)
            && (w.focus == StayActiveCardioFocus ==> w.exercises == ExercisesFor(t, Cardio))
            && (w.focus != StayActiveCardioFocus ==> w.focus == StayActiveRoutineFocus && w.exercises == t.fullBody)
  {
    var d := ClampDays(answers.daysPerWeek);
    StayActiveDaysAt(d, PickEquipmentTemplates(answers.equipment), d, i);
  }

  // ------------------------------------------------------ non-empty exercises

  /** Every workout of every plan has at least one exercise. */
  lemma EveryWorkoutHasExercises(answers: Answers)
    ensures forall i :: 0 <= i < |PlanFor(answers).workouts| ==> PlanFor(answers).workouts[i].exercises != []
  {
    var d := ClampDays(answers.daysPerWeek);
    var t := PickEquipmentTemplates(answers.equipment);
    var w := PlanFor(answers).workouts;
    forall i | 0 <= i < |w|
      ensures w[i].exercises != []
    {
      match answers.goal
      case MuscleGain =>
        if answers.daysPerWeek == 3 {
          MuscleGainThreeDaySplit(answers, i);
        } else if answers.daysPerWeek == 4 {
          MuscleGainFourDaySplit(answers, i);
        } else {
          MuscleGainHypertrophySplit(answers, i);
        }
      case FatLoss =>
        FatLossCardioOnOddDays(answers, i);
      case StayActive =>
        StayActiveCardioOnLastDay(answers, i);
    }
  }

  // --------------------------------------------------------------- scenarios

  lemma {:induction false} MuscleGainDaysUnfold(daysPerWeek: int, t: Templates, count: nat)
    requires count <= |MuscleGainFocuses(daysPerWeek)|
    ensures count >= 2 ==>
      MuscleGainDays(daysPerWeek, t, 2) == [MuscleGainDay(daysPerWeek, t, 0), MuscleGainDay(daysPerWeek, t, 1)]
    ensures count >= 3 ==>
      MuscleGainDays(daysPerWeek, t, 3)
      == [MuscleGainDay(daysPerWeek, t, 0), MuscleGainDay(daysPerWeek, t, 1), MuscleGainDay(daysPerWeek, t, 2)]
    ensures count >= 4 ==>
      MuscleGainDays(daysPerWeek, t, 4)
      == [MuscleGainDay(daysPerWeek, t, 0), MuscleGainDay(daysPerWeek, t, 1),
          MuscleGainDay(daysPerWeek, t, 2), MuscleGainDay(daysPerWeek, t, 3)]
  {
    if count >= 2 {
      assert MuscleGainDays(daysPerWeek, t, 1) == [MuscleGainDay(daysPerWeek, t, 0)];
    }
  }

  /** For any table, three muscle-gain days are Push, Pull and Legs from
      Monday to Wednesday, each from its own key or `fullBody`. */
  lemma ThreeDayMuscleGainDays(t: Templates)
    ensures MuscleGainDays(3, t, 3) == [
      WorkoutDay("Monday", "Push — muscle gain", ExercisesFor(t, Push)),
      WorkoutDay("Tuesday", "Pull — muscle gain", ExercisesFor(t, Pull)),
      WorkoutDay("Wednesday", "Legs — muscle gain", ExercisesFor(t, Legs))]
  {
    MuscleGainDaysUnfold(3, t, 3);
    assert MuscleGainDay(3, t, 0) == WorkoutDay("Monday", "Push — muscle gain", ExercisesFor(t, Push)) by {
      ThreeDaySplitDay(t, 0);
      ThreeDayLabels();
    }
    assert MuscleGainDay(3, t, 1) == WorkoutDay("Tuesday", "Pull — muscle gain", ExercisesFor(t, Pull)) by {
      ThreeDaySplitDay(t, 1);
      ThreeDayLabels();
    }
    assert MuscleGainDay(3, t, 2) == WorkoutDay("Wednesday", "Legs — muscle gain", ExercisesFor(t, Legs)) by {
      ThreeDaySplitDay(t, 2);
      ThreeDayLabels();
    }
  }

  lemma ThreeDayLabels()
    ensures ["Push", "Pull", "Legs"][0] + " — muscle gain" == "Push — muscle gain"
    ensures ["Push", "Pull", "Legs"][1] + " — muscle gain" == "Pull — muscle gain"
    ensures ["Push", "Pull", "Legs"][2] + " — muscle gain" == "Legs — muscle gain"
  {
  }

  /** Three gym days for muscle gain: the gym push, pull and legs lists. */
  lemma GymThreeDayMuscleGain(answers: Answers)
    requires answers.goal == MuscleGain && answers.daysPerWeek == 3 && answers.equipment == Gym
    ensures PlanFor(answers).workouts == [
      WorkoutDay("Monday", "Push — muscle gain", GymTemplates.push.value),
      WorkoutDay("Tuesday", "Pull — muscle gain", GymTemplates.pull.value),
      WorkoutDay("Wednesday", "Legs — muscle gain", GymTemplates.legs.value)]
  {
    ThreeDayMuscleGainDays(GymTemplates);
  }

  /** For any table, four muscle-gain days alternate Upper and Lower from
      Monday to Thursday, each from its own key or `fullBody`. */
  lemma FourDayMuscleGainDays(t: Templates)
    ensures MuscleGainDays(4, t, 4) == [
      WorkoutDay("Monday", "Upper body — strength", ExercisesFor(t, Upper)),
      WorkoutDay("Tuesday", "Lower body — strength", ExercisesFor(t, Lower)),
      WorkoutDay("Wednesday", "Upper body — strength", ExercisesFor(t, Upper)),
      WorkoutDay("Thursday", "Lower body — strength", ExercisesFor(t, Lower))]
  {
    MuscleGainDaysUnfold(4, t, 4);
    assert MuscleGainDay(4, t, 0) == WorkoutDay("Monday", "Upper body — strength", ExercisesFor(t, Upper)) by {
      FourDaySplitDay(t, 0);
      FourDayLabels();
    }
    assert MuscleGainDay(4, t, 1) == WorkoutDay("Tuesday", "Lower body — strength", ExercisesFor(t, Lower)) by {
      FourDaySplitDay(t, 1);
      FourDayLabels();
    }
    assert MuscleGainDay(4, t, 2) == WorkoutDay("Wednesday", "Upper body — strength", ExercisesFor(t, Upper)) by {
      FourDaySplitDay(t, 2);
      FourDayLabels();
    }
    assert MuscleGainDay(4, t, 3) == WorkoutDay("Thursday", "Lower body — strength", ExercisesFor(t, Lower)) by {
      FourDaySplitDay(t, 3);
      FourDayLabels();
    }
  }

  lemma FourDayLabels()
    ensures ["Upper", "Lower", "Upper", "Lower"][0] + " body — strength" == "Upper body — strength"
    ensures ["Upper", "Lower", "Upper", "Lower"][1] + " body — strength" == "Lower body — strength"
    ensures ["Upper", "Lower", "Upper", "Lower"][2] + " body — strength" == "Upper body — strength"
    ensures ["Upper", "Lower", "Upper", "Lower"][3] + " body — strength" == "Lower body — strength"
  {
  }

  /** Four home-dumbbell days for muscle gain: the home upper and lower
      lists, alternating. */
  lemma HomeFourDayMuscleGain(answers: Answers)
    requires answers.goal == MuscleGain && answers.daysPerWeek == 4 && answers.equipment == HomeDumbbells
    ensures PlanFor(answers).workouts == [
      WorkoutDay("Monday", "Upper body — strength", HomeDbTemplates.upper.value),
      WorkoutDay("Tuesday", "Lower body — strength", HomeDbTemplates.lower.value),
      WorkoutDay("Wednesday", "Upper body — strength", HomeDbTemplates.upper.value),
      WorkoutDay("Thursday", "Lower body — strength", HomeDbTemplates.lower.value)]
  {
    FourDayMuscleGainDays(HomeDbTemplates);
  }

  /** For any table, two muscle-gain days keep the canonical order, cut to
      Push and Pull. */
  lemma TwoDayMuscleGainDays(t: Templates)
    ensures MuscleGainDays(2, t, 2) == [
      WorkoutDay("Monday", "Push — hypertrophy", ExercisesFor(t, Push)),
      WorkoutDay("Tuesday", "Pull — hypertrophy", ExercisesFor(t, Pull))]
  {
    MuscleGainDaysUnfold(2, t, 2);
    assert MuscleGainDay(2, t, 0) == WorkoutDay("Monday", "Push — hypertrophy", ExercisesFor(t, Push)) by {
      HypertrophySplitDay(2, t, 0);
      TwoDayLabels();
    }
    assert MuscleGainDay(2, t, 1) == WorkoutDay("Tuesday", "Pull — hypertrophy", ExercisesFor(t, Pull)) by {
      HypertrophySplitDay(2, t, 1);
      TwoDayLabels();
    }
  }

  lemma TwoDayLabels()
    ensures CanonicalFocuses[0] + " — hypertrophy" == "Push — hypertrophy"
    ensures CanonicalFocuses[1] + " — hypertrophy" == "Pull — hypertrophy"
  {
  }

  /** Two gym days for muscle gain: the gym push and pull lists. */
  lemma GymTwoDayMuscleGain(answers: Answers)
    requires answers.goal == MuscleGain && answers.daysPerWeek == 2 && answers.equipment == Gym
    ensures PlanFor(answers).workouts == [
      WorkoutDay("Monday", "Push — hypertrophy", GymTemplates.push.value),
      WorkoutDay("Tuesday", "Pull — hypertrophy", GymTemplates.pull.value)]
  {
    TwoDayMuscleGainDays(GymTemplates);
  }

  /** Four bodyweight days for fat loss alternate strength and cardio. */
  lemma BodyweightFourDayFatLoss(answers: Answers)
    requires answers.goal == FatLoss && answers.daysPerWeek == 4 && answers.equipment == Bodyweight
    ensures PlanFor(answers).workouts == [
      WorkoutDay("Monday", FatLossStrengthFocus, BodyweightTemplates.fullBody),
      WorkoutDay("Tuesday", FatLossCardioFocus, BodyweightTemplates.cardio.value),
      WorkoutDay("Wednesday", FatLossStrengthFocus, BodyweightTemplates.fullBody),
      WorkoutDay("Thursday", FatLossCardioFocus, BodyweightTemplates.cardio.value)]
  {
    var w := PlanFor(answers).workouts;
    assert w == FatLossDays(BodyweightTemplates, 4);
    FatLossDaysAt(BodyweightTemplates, 4, 0);
    FatLossDaysAt(BodyweightTemplates, 4, 1);
    FatLossDaysAt(BodyweightTemplates, 4, 2);
    FatLossDaysAt(BodyweightTemplates, 4, 3);
  }

  /** Three gym days to stay active end with the gym cardio list. */
  lemma GymThreeDayStayActive(answers: Answers)
    requires answers.goal == StayActive && answers.daysPerWeek == 3 && answers.equipment == Gym
    ensures PlanFor(answers).workouts == [
      WorkoutDay("Monday", StayActiveRoutineFocus, GymTemplates.fullBody),
      WorkoutDay("Tuesday", StayActiveRoutineFocus, GymTemplates.fullBody),
      WorkoutDay("Wednesday", StayActiveCardioFocus, GymTemplates.cardio.value)]
  {
    var w := PlanFor(answers).workouts;
    assert w == StayActiveDays(3, GymTemplates, 3);
    StayActiveDaysAt(3, GymTemplates, 3, 0);
    StayActiveDaysAt(3, GymTemplates, 3, 1);
    StayActiveDaysAt(3, GymTemplates, 3, 2);
  }

  /** Three home-dumbbell days for muscle gain: no push, pull or legs lists,
      so every day falls back to the full-body list. */
  lemma HomeThreeDayMuscleGainFallsBack(answers: Answers)
    requires answers.goal == MuscleGain && answers.daysPerWeek == 3 && answers.equipment == HomeDumbbells
    ensures |PlanFor(answers).workouts| == 3
    ensures forall i :: 0 <= i < |PlanFor(answers).workouts| ==>
      PlanFor(answers).workouts[i].exercises == HomeDbTemplates.fullBody
  {
  }
}
