/**
 * The new-project form: its state cells, the data `handleSubmit` hands to
 * `onSubmit`, and the rule that disables the submit button.
 *
 * The three sliders hold one-thumb value arrays; `SlidersSet` says each
 * holds at least one value, which the initial state has and which every
 * slider change keeps (a slider reports one value per thumb).
 */
module CreateProjectForm {
  import opened Wrappers
  import opened Text

  /** `ProjectFormData`: `customGoal` is the optional field. */
  datatype ProjectFormData = ProjectFormData(
    topic: string,
    goal: string,
    customGoal: Option<string>,
    level: int,
    timePerDay: int,
    durationDays: int)

  /** The six `useState` cells of the form. */
  datatype FormState = FormState(
    topic: string,
    goal: string,
    customGoal: string,
    level: seq<int>,
    timePerDay: seq<int>,
    durationDays: seq<int>)

  /** The radio value that selects the free-text goal. */
  const CustomOption: string := "custom"

  /** The radio values on offer, in order. */
  const GoalOptions: seq<string> := ["学术研究", "兴趣了解", "考试备考", "技能提升", CustomOption]

  const InitialForm: FormState := FormState("", "兴趣了解", "", [1], [30], [30])

  predicate SlidersSet(s: FormState)
  {
    |s.level| > 0 && |s.timePerDay| > 0 && |s.durationDays| > 0
  }

  /** The data `handleSubmit` passes to `onSubmit`. */
  function Submission(s: FormState): (d: ProjectFormData)
    requires SlidersSet(s)
    ensures d.topic == s.topic
    ensures s.goal == CustomOption ==> d.goal == s.customGoal && d.customGoal == Some(s.customGoal)
    ensures s.goal != CustomOption ==> d.goal == s.goal && d.customGoal.None?
    ensures d.level == s.level[0] && d.timePerDay == s.timePerDay[0] && d.durationDays == s.durationDays[0]
  {
    var isCustom := s.goal == CustomOption;
    ProjectFormData(
      s.topic,
      if isCustom then s.customGoal else s.goal,
      if isCustom then Some(s.customGoal) else None,
      s.level[0], s.timePerDay[0], s.durationDays[0])
  }

  /** The submit button's `disabled` expression. */
  predicate SubmitDisabled(s: FormState, isLoading: bool)
    ensures SubmitDisabled(s, isLoading) <==> isLoading || Blank(s.topic) || (s.goal == CustomOption && Blank(s.customGoal))
  {
    TrimEmptyIffBlank(s.topic);
    TrimEmptyIffBlank(s.customGoal);
    Trim(s.topic) == "" || (s.goal == CustomOption && Trim(s.customGoal) == "") || isLoading
  }

  /**
   * The initial state selects `兴趣了解`, level 1, 30 minutes a day and
   * 30 days, and cannot be submitted until a topic is typed.
   */
  lemma InitialFormDefaults(topic: string)
    ensures SlidersSet(InitialForm)
    ensures var d := Submission(InitialForm.(topic := topic));
      d == ProjectFormData(topic, "兴趣了解", None, 1, 30, 30)
    ensures SubmitDisabled(InitialForm, false)
  {
    assert Trim("") == "";
  }

  /** A radio choice or a slider change keeps every slider populated. */
  lemma SliderChangesKeepValues(s: FormState, goal: string, level: int, minutes: int, days: int)
    requires SlidersSet(s)
    ensures SlidersSet(s.(goal := goal))
    ensures SlidersSet(s.(level := [level])) && SlidersSet(s.(timePerDay := [minutes])) && SlidersSet(s.(durationDays := [days]))
  {
  }

  /**
   * When the button is enabled and the selection is one of the offered
   * radio values, the submitted topic and goal both carry some
   * non-white-space character.
   */
  lemma {:induction false} EnabledSubmissionIsFilled(s: FormState)
    requires SlidersSet(s) && s.goal in GoalOptions && !SubmitDisabled(s, false)
    ensures exists i :: 0 <= i < |Submission(s).topic| && !IsJsSpace(Submission(s).topic[i])
    ensures exists i :: 0 <= i < |Submission(s).goal| && !IsJsSpace(Submission(s).goal[i])
  {
    var d := Submission(s);
    TrimSpec(s.topic);
    if s.goal == CustomOption {
      TrimSpec(s.customGoal);
    } else {
      assert !IsJsSpace(d.goal[0]) by {
        assert d.goal in GoalOptions[..4];
      }
      assert 0 < |d.goal|;
    }
  }
}
