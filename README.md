# RoutineLab plan generation, modelled in Dafny

RoutineLab turns a short questionnaire into a weekly workout schedule. The
questionnaire asks for a goal, training days per week and equipment. This
project models the decision logic behind that and proves its properties:

- **The weekly plan generator** (`lib/planBuilder.ts`), in modules
  `PlanBuilder` and `PlanProperties`. It clamps the requested day count into
  2..5 and picks one of three constant template tables by equipment. One of
  three goal strategies then fills the week, starting on Monday. Every
  template key except `fullBody` may be missing, and each lookup falls back
  to `fullBody` on its own.
- **The plan route's inline builder** (`app/api/plan/route.ts`), in module
  `PlanRoute`. It is a simpler, unclamped generator that alternates upper and
  lower body for muscle gain. Every day gets the same three exercises,
  chosen by equipment.
- **The in-memory plan store** (`lib/planStore.ts`), in module `PlanStore`.
  A class holds a map from plan id to plan data. `SavePlan` rewrites the map
  in place and `GetPlan` reads it.
- **The focus-area toggle** of the start form (`app/start/page.tsx`), in
  module `StartForm`. A chosen value is filtered out. Any other value is
  appended.

The goal builders push days onto a list that the caller passes in. Each
builder is modelled as a method that takes the list built so far and returns
it extended. Each method is proved against a recursive specification
function (`MuscleGainDays`, `FatLossDays`, `StayActiveDays`) that gives the
first `count` days it appends. `PlanFor` is the specification of the whole
generator. `BuildPlanFromAnswers` is proved to compute it, and the lemmas in
`PlanProperties` state what the generator promises about `PlanFor`.

`templates` is untyped in the source. Here it is the datatype `Templates`,
whose optional keys are `Option` fields. Both `templates.x ?? templates.fullBody`
and the truthiness test of `templates.cardio` come down to `Some?`, because an
existing array is always truthy. The muscle-gain branch for day counts other
than 3 and 4 calls `slice(0, daysPerWeek)`. `SliceEnd` models JavaScript's
normalisation of the slice end, so `BuildMuscleGainPlan` is total over every
integer.

Because the model is made of functions, it is deterministic: the same answers
always give the same plan.

## Model

| member | source | states |
|---|---|---|
| `PlanBuilder.Lookup` | lib/planBuilder.ts:32-135 | the `fullBody` key is present in every table |
| `PlanBuilder.ExercisesFor` | lib/planBuilder.ts:200-204 | `templates.x ?? templates.fullBody` gives the key's list when the key is present and `fullBody` when it is missing, and is never empty on a table of non-empty lists |
| `PlanBuilder.ClampDays` | lib/planBuilder.ts:155-159 | the result lies in 2..5, equals the input inside that range, is 2 below it and 5 above it, and is the value of 2..5 nearest the input |
| `PlanBuilder.PickEquipmentTemplates` | lib/planBuilder.ts:32-153 | every table the lookup returns has a non-empty `fullBody` list, a cardio list, and only non-empty lists under the keys it has |
| `PlanBuilder.SliceEnd` | lib/planBuilder.ts:224 | the end index `slice(0, end)` uses never exceeds the list length, and equals `end` when `end` is within the list |
| `PlanBuilder.MuscleGainFocuses` | lib/planBuilder.ts:191-224 | no muscle-gain split has more than five focus names, whatever the day count |
| `PlanBuilder.MuscleGainDays` | lib/planBuilder.ts:186-251 | the first `count` muscle-gain days are exactly `count` days |
| `PlanBuilder.FatLossDays` | lib/planBuilder.ts:259-275 | the first `count` fat-loss days are exactly `count` days |
| `PlanBuilder.StayActiveDays` | lib/planBuilder.ts:284-299 | the first `count` stay-active days are exactly `count` days |
| `PlanBuilder.BuildMuscleGainPlan` | lib/planBuilder.ts:186-251 | the three `forEach` loops leave the incoming list untouched and append exactly the muscle-gain days of the day count's split |
| `PlanBuilder.BuildFatLossPlan` | lib/planBuilder.ts:253-276 | the `for` loop leaves the incoming list untouched and appends exactly one fat-loss day per iteration, in index order |
| `PlanBuilder.BuildStayActivePlan` | lib/planBuilder.ts:278-300 | the `for` loop leaves the incoming list untouched and appends exactly one stay-active day per iteration, in index order |
| `PlanBuilder.FatLossDay` | lib/planBuilder.ts:260-274 | a fat-loss day is on the `i`-th weekday; it is a cardio day exactly when `i` is odd and the table has cardio, and then takes the cardio list; otherwise it is full-body strength with `fullBody` |
| `PlanBuilder.StayActiveDay` | lib/planBuilder.ts:285-298 | a stay-active day is on the `i`-th weekday; it is light cardio exactly when it is the last day and the table has cardio, and then takes the cardio list; otherwise it is the full-body routine with `fullBody` |
| `PlanBuilder.GoalWorkouts` | lib/planBuilder.ts:168-174 | the fat-loss and stay-active builders add one day per loop iteration, and the muscle-gain builder adds exactly one day per requested day for every clamped count 2..5 |
| `PlanBuilder.PlanFor` | lib/planBuilder.ts:163-182 | the plan copies goal and equipment, records the clamped day count, and holds exactly that many workouts for every goal |
| `PlanBuilder.BuildPlanFromAnswers` | lib/planBuilder.ts:163-182 | clamping, table choice and goal dispatch into an empty list compute exactly `PlanFor(answers)` |
| `PlanProperties.MuscleGainDaysAt` | lib/planBuilder.ts:194-249 | day `i` of the appended muscle-gain days is the day built from the `i`-th focus name |
| `PlanProperties.FatLossDaysAt` | lib/planBuilder.ts:259-275 | day `i` of the appended fat-loss days is the day built for index `i` |
| `PlanProperties.StayActiveDaysAt` | lib/planBuilder.ts:284-299 | day `i` of the appended stay-active days is the day built for index `i` |
| `PlanProperties.MuscleGainLabelExtendsFocus` | lib/planBuilder.ts:198-246 | every muscle-gain label starts with its focus name and adds a suffix |
| `PlanProperties.MuscleGainExercisesChoice` | lib/planBuilder.ts:199-245 | the exercise choice for a focus is non-empty on a non-empty table for every name the split can produce; in the third branch a name outside the five canonical ones keeps the empty default |
| `PlanProperties.MuscleGainDayShape` | lib/planBuilder.ts:194-248 | muscle-gain day `i` is on the `i`-th weekday, its label starts with the `i`-th focus name, and it has a non-empty list on a non-empty table |
| `PlanProperties.MissingTemplateKeys` | lib/planBuilder.ts:32-135 | a key is missing exactly when the table is not the gym table and the key is push, pull or legs |
| `PlanProperties.PlanWeekdayOrder` | lib/planBuilder.ts:139-147 | workout `i` is on the `i`-th weekday from Monday, and no workout index reaches Saturday |
| `PlanProperties.PlanIgnoresUnreadAnswers` | lib/planBuilder.ts:8-15 | changing time of day, experience or the nutrition flag leaves the plan unchanged |
| `PlanProperties.ThreeDaySplitDay` | lib/planBuilder.ts:193-205 | for any table, day `i` of the three-day split is the `i`-th weekday, labelled Push, Pull or Legs "— muscle gain", with that key's list or `fullBody` |
| `PlanProperties.FourDaySplitDay` | lib/planBuilder.ts:209-219 | for any table, day `i` of the four-day split is the `i`-th weekday, labelled Upper, Lower, Upper, Lower "body — strength", with that key's list or `fullBody` |
| `PlanProperties.HypertrophySplitDay` | lib/planBuilder.ts:223-248 | for any table and every day count other than 3 and 4, day `i` takes the `i`-th canonical focus in order, labelled "— hypertrophy", and its switch case picks that key's list or `fullBody`, never the empty default |
| `PlanProperties.MuscleGainThreeDaySplit` | lib/planBuilder.ts:191-206 | three days give Push, Pull and Legs labelled "{F} — muscle gain", each with its own key's list or `fullBody` when the key is missing |
| `PlanProperties.MuscleGainFourDaySplit` | lib/planBuilder.ts:207-220 | four days give Upper, Lower, Upper, Lower labelled "{F} body — strength", each with its own key's list or `fullBody` |
| `PlanProperties.MuscleGainHypertrophySplit` | lib/planBuilder.ts:221-249 | any other request is 2 or 5 days, taken in order from Push, Pull, Legs, Upper, Lower and labelled "{F} — hypertrophy", each with its own key's list or `fullBody` |
| `PlanProperties.FatLossCardioOnOddDays` | lib/planBuilder.ts:259-274 | a fat-loss day is a cardio day with the cardio list exactly when its index is odd and the table has cardio; otherwise it is full-body strength with `fullBody` |
| `PlanProperties.StayActiveCardioOnLastDay` | lib/planBuilder.ts:284-298 | a stay-active day is light cardio with the cardio list exactly when it is the last day and the table has cardio; otherwise it is the full-body routine with `fullBody` |
| `PlanProperties.EveryWorkoutHasExercises` | lib/planBuilder.ts:32-300 | every workout of every plan, for every goal, day count and equipment, has at least one exercise |
| `PlanProperties.GymThreeDayMuscleGain` | lib/planBuilder.ts:191-206 | three gym days for muscle gain are exactly Monday push, Tuesday pull and Wednesday legs, from the gym lists |
| `PlanProperties.ThreeDayMuscleGainDays` | lib/planBuilder.ts:193-205 | for any table, the three-day muscle-gain days are Push, Pull, Legs on Monday to Wednesday, with per-key fallback |
| `PlanProperties.FourDayMuscleGainDays` | lib/planBuilder.ts:209-219 | for any table, the four-day muscle-gain days are Upper, Lower, Upper, Lower "body — strength" on Monday to Thursday, with per-key fallback |
| `PlanProperties.HomeFourDayMuscleGain` | lib/planBuilder.ts:207-220 | four home-dumbbell days for muscle gain are exactly the home upper list on Monday and Wednesday and the home lower list on Tuesday and Thursday |
| `PlanProperties.GymTwoDayMuscleGain` | lib/planBuilder.ts:221-249 | two gym days for muscle gain are exactly Push and Pull "— hypertrophy" from the gym lists |
| `PlanProperties.TwoDayMuscleGainDays` | lib/planBuilder.ts:223-248 | for any table, the two-day muscle-gain days are the truncated canonical order, Push then Pull |
| `PlanProperties.BodyweightFourDayFatLoss` | lib/planBuilder.ts:259-275 | four bodyweight fat-loss days alternate full-body strength and bodyweight cardio, starting on Monday with strength |
| `PlanProperties.GymThreeDayStayActive` | lib/planBuilder.ts:284-299 | three gym stay-active days are two full-body routines, then Wednesday's light cardio with the gym cardio list |
| `PlanProperties.HomeThreeDayMuscleGainFallsBack` | lib/planBuilder.ts:82-108 | three home-dumbbell days for muscle gain are exactly three days, all with the home `fullBody` list, because that table has no push, pull or legs key |
| `PlanRoute.RouteFocus` | app/api/plan/route.ts:26-33 | for muscle gain the focus is "Upper body" exactly on even days and "Lower body" exactly on odd days; for any other goal it is "Full body + cardio" exactly for fat loss |
| `PlanRoute.RouteExercises` | app/api/plan/route.ts:34-39 | every equipment value gets three exercises, and the bodyweight list exactly for values other than gym and home dumbbells |
| `PlanRoute.RouteDay` | app/api/plan/route.ts:23-40 | day `i` is the `i`-th of the seven day names with three exercises, and for muscle gain it is upper body exactly on even days |
| `PlanRoute.BuildPlanFromAnswers` | app/api/plan/route.ts:7-49 | the result echoes goal, day count and equipment unchanged, holds one workout per loop iteration with no clamping, and gives day `i` the `i`-th weekday, the goal's focus for `i` and the equipment's exercise list |
| `PlanRoute.MuscleGainAlternates` | app/api/plan/route.ts:27-30 | muscle gain starts with upper body, and the focus changes from each day to the next and repeats every two days |
| `PlanRoute.OtherGoalsKeepOneFocus` | app/api/plan/route.ts:31-33 | any other goal keeps one focus all week, "Full body + cardio" exactly for fat loss and "General fitness" otherwise |
| `PlanRoute.ExerciseListsByEquipment` | app/api/plan/route.ts:34-39 | every list has three exercises, gym and home dumbbells each get their own list, and every other value gets the bodyweight list |
| `PlanStore.Find` | lib/planStore.ts:9 | a read finds something exactly when the id is in the table, and then it is the stored data |
| `PlanStore.Store.constructor` | lib/planStore.ts:2 | a new store holds no plans |
| `PlanStore.Store.SavePlan` | lib/planStore.ts:4-6 | the table becomes the old table with `id` mapped to `data`, and nothing else changes |
| `PlanStore.Store.GetPlan` | lib/planStore.ts:8-10 | the store is read without being modified; the result is the stored data, or nothing exactly when the id is absent |
| `PlanStore.FindAfterSave` | lib/planStore.ts:4-10 | after saving `data` under `id`, reading `id` gives `data` |
| `PlanStore.SaveKeepsOtherIds` | lib/planStore.ts:5 | saving under one id leaves every other id's entry unchanged |
| `PlanStore.SaveTwiceKeepsLater` | lib/planStore.ts:5 | saving twice under the same id leaves the later data alone in the table |
| `PlanStore.ReplayFindsLatest` | lib/planStore.ts:4-10 | after any sequence of saves, a read finds the latest data saved under that id, or the earlier entry when none was saved |
| `PlanStore.NeverSavedIsAbsent` | lib/planStore.ts:9 | on a fresh store, an id that no save used reads as nothing |
| `StartForm.Without` | app/start/page.tsx:110 | the filtered list holds no occurrence of the value and is no longer than the input |
| `StartForm.ToggleFocusArea` | app/start/page.tsx:106-111 | an absent value is appended at the end; a present value disappears completely; the value is in the result exactly when it was not in the input |
| `StartForm.WithoutConcat` | app/start/page.tsx:110 | filtering distributes over concatenation, so the other elements keep their relative order |
| `StartForm.WithoutSingleton` | app/start/page.tsx:110 | filtering a one-element list drops the element exactly when it is the value |
| `StartForm.WithoutCounts` | app/start/page.tsx:110 | filtering removes every copy of the value and keeps every other element exactly as often as before |
| `StartForm.WithoutAbsent` | app/start/page.tsx:110 | filtering out a value that is absent returns the list unchanged |
| `StartForm.ToggleTwice` | app/start/page.tsx:109-111 | two toggles of a value the list lacked restore the list; two toggles of a value it held leave the other elements followed by one copy of the value |
| `StartForm.ToggleFocusAreaInForm` | app/start/page.tsx:105-112 | the toggle changes the focus areas and leaves every other form field as it was |

## Left out

- `createId`, `POST`, `req.json()` and `NextResponse` in the plan route: I/O and randomness (`Math.random`), with no decision logic.
- `fetch`, `res.json()`, `window.localStorage` and `router.push` in the start form: browser and network side effects.
- The React state machinery of the toggle (`setForm` with an updater) and all JSX markup, including the other pages and components: UI rendering. Only the toggle's list transformation and the record update are modelled.
- JavaScript number edge cases for `daysPerWeek`, such as NaN, fractions and strings: the day count is an `int`.
- Aliasing of the `workouts` array. The goal builders push onto an array their caller owns. The model returns the extended list as a value instead, so sharing of the array is not captured. The only caller passes a fresh empty array.
- PlanBuilder.BuildFatLossPlan: requires a day count of at most seven. Past index 6 the source reads `undefined` from its seven-entry weekday list, and the model does not represent `undefined` day names. The generator's own caller always passes 2..5.
- PlanBuilder.BuildStayActivePlan: requires a day count of at most seven, for the same reason.
- PlanRoute.BuildPlanFromAnswers: requires a day count of at most seven. The route passes the request's count unchecked, so a longer request would produce workouts with `undefined` day names, which the model does not represent.
- The process-wide lifetime of the store's `Map`: a single `Store` object is modelled. Plan data is a type parameter, because the source stores `any`.
- Enum values outside the declared types in the generator: `Goal` and `Equipment` are closed datatypes here, as they are in the source's types. The route's builder takes plain strings, so unknown values are covered there.
