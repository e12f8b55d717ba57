/**
 * The progress steps bar: the current step is the rounded input clamped to
 * the list, and every step is classified as complete, current or upcoming.
 */
module ProgressSteps {
  import JsMath

  const DefaultSteps: seq<string> := ["Upload Jewelry", "Upload Scene", "Place Jewelry", "Generate", "Review & Download"]

  datatype StepState = Complete | Current | Upcoming

  /** What one list item shows: its number, its title, its state, and whether a separator follows it. */
  datatype StepView = StepView(number: nat, title: string, state: StepState, separator: bool)

  /**
   * `Math.max(0, Math.min(steps.length - 1, Math.round(currentStep)))`: the
   * rounded step, clamped to the indices of a non-empty list (0 for an
   * empty one).
   */
  function ClampedCurrent(currentStep: real, count: nat): (c: int)
    ensures count > 0 ==> 0 <= c < count
    ensures count == 0 ==> c == 0
    ensures 0 <= JsMath.Round(currentStep) < count ==> c == JsMath.Round(currentStep)
    ensures count > 0 && JsMath.Round(currentStep) < 0 ==> c == 0
    ensures count > 0 && JsMath.Round(currentStep) >= count ==> c == count - 1
  {
    var upper := count - 1;
    var rounded := JsMath.Round(currentStep);
    var lower := if upper <= rounded then upper else rounded;
    if 0 >= lower then 0 else lower
  }

  /** The state of step `idx` when step `current` is current. */
  function Classify(idx: int, current: int): StepState
  {
    if idx < current then Complete else if idx == current then Current else Upcoming
  }

  /** The list items `steps.map(...)` renders. */
  function RenderSteps(steps: seq<string>, currentStep: real): (views: seq<StepView>)
    ensures |views| == |steps|
    ensures forall i :: 0 <= i < |steps| ==> views[i].title == steps[i] && views[i].number == i + 1
    ensures forall i :: 0 <= i < |steps| ==> (views[i].separator <==> i < |steps| - 1)
  {
    var current := ClampedCurrent(currentStep, |steps|);
    seq(|steps|, i requires 0 <= i < |steps| =>
      StepView(i + 1, steps[i], Classify(i, current), i < |steps| - 1))
  }

  /**
   * Steps before the current one are complete, the current one is the only
   * current step, and steps after it are upcoming.
   */
  lemma StatesSplitAtCurrent(steps: seq<string>, currentStep: real, i: int)
    requires 0 <= i < |steps|
    ensures var views, c := RenderSteps(steps, currentStep), ClampedCurrent(currentStep, |steps|);
            && (views[i].state == Complete <==> i < c)
            && (views[i].state == Current <==> i == c)
            && (views[i].state == Upcoming <==> i > c)
  {
  }

  /** A non-empty list has exactly one current step. */
  lemma {:induction false} ExactlyOneCurrent(steps: seq<string>, currentStep: real)
    requires |steps| > 0
    ensures var views := RenderSteps(steps, currentStep);
            (set i | 0 <= i < |views| && views[i].state == Current) == {ClampedCurrent(currentStep, |steps|)}
  {
    var views, c := RenderSteps(steps, currentStep), ClampedCurrent(currentStep, |steps|);
    forall i | 0 <= i < |views|
      ensures views[i].state == Current <==> i == c
    {
      StatesSplitAtCurrent(steps, currentStep, i);
    }
  }

  /** The default list renders five steps, the last without a separator. */
  lemma DefaultStepsRender(currentStep: real)
    ensures var views := RenderSteps(DefaultSteps, currentStep);
            |views| == 5 && views[4].title == "Review & Download" && !views[4].separator
            && views[0].title == "Upload Jewelry" && views[0].separator
  {
  }
}
