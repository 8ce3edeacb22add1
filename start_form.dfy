/** The focus-area toggle of the start form: a value already chosen is
    removed, any other value is appended. */
module StartForm {

  /** The list without any occurrence of `value`, others in their order:
      `list.filter(v => v !== value)`. */
  function Without(list: seq<string>, value: string): (r: seq<string>)
    ensures value !in r
    ensures |r| <= |list|
  {
    if list == [] then []
    else if list[0] == value then Without(list[1..], value)
    else [list[0]] + Without(list[1..], value)
  }

  /** Removes `value` when it is in the list, appends it otherwise. */
  function ToggleFocusArea(focusAreas: seq<string>, value: string): (r: seq<string>)
    ensures value !in focusAreas ==> r == focusAreas + [value]
    ensures value in focusAreas ==> value !in r
    ensures value in r <==> value !in focusAreas
  {
    if value in focusAreas then Without(focusAreas, value) else focusAreas + [value]
  }

  /** Filtering commutes with concatenation; with `WithoutSingleton` this pins
      `Without` down: every other element is kept, in its order, exactly
      once. */
  lemma {:induction false} WithoutConcat(a: seq<string>, b: seq<string>, value: string)
    ensures Without(a + b, value) == Without(a, value) + Without(b, value)
  {
    if a != [] {
      assert (a + b)[0] == a[0];
      assert (a + b)[1..] == a[1..] + b;
      WithoutConcat(a[1..], b, value);
    } else {
      assert a + b == b;
    }
  }

  lemma WithoutSingleton(x: string, value: string)
    ensures Without([x], value) == if x == value then [] else [x]
  {
    assert [x][1..] == [];
  }

  /** No element other than `value` is dropped or duplicated. */
  lemma {:induction false} WithoutCounts(list: seq<string>, value: string)
    ensures multiset(Without(list, value)) == multiset(list)[value := 0]
  {
    if list != [] {
      WithoutCounts(list[1..], value);
      assert list == [list[0]] + list[1..];
    }
  }

  /** Filtering out a value that is not there gives the list back. */
  lemma {:induction false} WithoutAbsent(list: seq<string>, value: string)
    requires value !in list
    ensures Without(list, value) == list
  {
    if list != [] {
      WithoutAbsent(list[1..], value);
      assert list == [list[0]] + list[1..];
    }
  }

  /** Toggling the same value twice restores a list that did not hold it;
      on a list that held it, every old occurrence goes and one copy ends up
      at the back. */
  lemma ToggleTwice(focusAreas: seq<string>, value: string)
    ensures value !in focusAreas ==> ToggleFocusArea(ToggleFocusArea(focusAreas, value), value) == focusAreas
    ensures value in focusAreas ==>
      ToggleFocusArea(ToggleFocusArea(focusAreas, value), value) == Without(focusAreas, value) + [value]
  {
    if value !in focusAreas {
      WithoutConcat(focusAreas, [value], value);
      WithoutSingleton(value, value);
      WithoutAbsent(focusAreas, value);
    }
  }

  /** The start form's state. */
  datatype Form = Form(
    goal: string,
    daysPerWeek: int,
    equipment: string,
    timeOfDay: string,
    experience: string,
    wantNutrition: bool,
    jobActivity: string,
    sessionLength: string,
    focusAreas: seq<string>,
    consistencyStruggle: string)

  /** The state update of the toggle: only the focus areas change. */
  function ToggleFocusAreaInForm(form: Form, value: string): (r: Form)
    ensures r.focusAreas == ToggleFocusArea(form.focusAreas, value)
    ensures r.goal == form.goal && r.daysPerWeek == form.daysPerWeek && r.equipment == form.equipment
    ensures r.timeOfDay == form.timeOfDay && r.experience == form.experience && r.wantNutrition == form.wantNutrition
    ensures r.jobActivity == form.jobActivity && r.sessionLength == form.sessionLength
    ensures r.consistencyStruggle == form.consistencyStruggle
  {
    form.(focusAreas := ToggleFocusArea(form.focusAreas, value))
  }
}
