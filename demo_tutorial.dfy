/**
 * The demo walkthrough overlay: it owns its own step index and visibility,
 * resets to the first step whenever it is activated, and reports completion
 * to its parent when "next" is pressed on the last step.
 */
module DemoTutorial {
  import opened Common

  class Tour {
    /** The number of steps the overlay was given. */
    const stepCount: nat
    var currentStep: nat
    var isVisible: bool

    /** The index never leaves 0 .. max(0, steps - 1). */
    ghost predicate Valid()
      reads this
    {
      currentStep <= Max(0, stepCount - 1)
    }

    constructor (stepCount: nat)
      ensures Valid() && this.stepCount == stepCount
      ensures currentStep == 0 && !isVisible
    {
      this.stepCount := stepCount;
      currentStep := 0;
      isVisible := false;
    }

    /**
     * The effect on a change of the `isActive` prop: activation shows the
     * overlay from the first step, deactivation hides it and keeps the index.
     */
    method OnActiveChange(isActive: bool)
      requires Valid()
      modifies this`currentStep, this`isVisible
      ensures Valid() && isVisible == isActive
      ensures currentStep == if isActive then 0 else old(currentStep)
    {
      if isActive {
        isVisible := true;
        currentStep := 0;
      } else {
        isVisible := false;
      }
    }

    /**
     * Advances while a later step exists; on the last step the index stays
     * and `completed` reports that `onComplete` is called.
     */
    method HandleNext() returns (completed: bool)
      requires Valid()
      modifies this`currentStep
      ensures Valid()
      ensures completed <==> old(currentStep) >= stepCount - 1
      ensures currentStep == if completed then old(currentStep) else old(currentStep) + 1
    {
      if currentStep < stepCount - 1 {
        currentStep := currentStep + 1;
        completed := false;
      } else {
        completed := true;
      }
    }

    method HandlePrevious()
      requires Valid()
      modifies this`currentStep
      ensures Valid()
      ensures currentStep == if old(currentStep) > 0 then old(currentStep) - 1 else 0
    {
      if currentStep > 0 {
        currentStep := currentStep - 1;
      }
    }

    /** Replay always goes back to the first step. */
    method HandleReplay()
      requires Valid()
      modifies this`currentStep
      ensures Valid() && currentStep == 0
    {
      currentStep := 0;
    }

    /** Nothing is drawn while hidden or on a step without data. */
    predicate Renders()
      reads this
    {
      isVisible && currentStep < stepCount
    }

    /**
     * The progress bar of a drawn step: a share of the steps in (0, 1], full
     * exactly on the last step.
     */
    function Progress(): (p: Fraction)
      requires Renders()
      reads this
      ensures p.InUnitInterval()
      ensures p.IsWhole() <==> currentStep == stepCount - 1
    {
      StepProgress(currentStep, stepCount)
    }
  }

  /**
   * A freshly activated tour of n steps needs exactly n presses of "next"
   * to report completion.
   */
  method PressesToComplete(n: nat) returns (presses: nat)
    requires n > 0
    ensures presses == n
  {
    var tour := new Tour(n);
    tour.OnActiveChange(true);
    presses := 0;
    var done := false;
    while !done
      invariant tour.Valid() && tour.stepCount == n
      invariant presses <= n
      invariant !done ==> presses == tour.currentStep
      invariant done ==> presses == n
      decreases n - presses, if done then 0 else 1
    {
      done := tour.HandleNext();
      presses := presses + 1;
    }
  }

  const TopClasses: string := "top-20 left-1/2 transform -translate-x-1/2"
  const BottomClasses: string := "bottom-20 left-1/2 transform -translate-x-1/2"
  const LeftClasses: string := "left-8 top-1/2 transform -translate-y-1/2"
  const RightClasses: string := "right-8 top-1/2 transform -translate-y-1/2"
  const CenterClasses: string := "top-1/2 left-1/2 transform -translate-x-1/2 -translate-y-1/2"

  /** The placement classes of a step's card, defined for every position string. */
  function PositionClasses(position: string): (r: string)
    ensures r in [TopClasses, BottomClasses, LeftClasses, RightClasses, CenterClasses]
  {
    match position
    case "top" => TopClasses
    case "bottom" => BottomClasses
    case "left" => LeftClasses
    case "right" => RightClasses
    case _ => CenterClasses
  }

  const NamedPositions: seq<string> := ["top", "bottom", "left", "right", "center"]

  /** Any position string that is not one of the five names is placed like "center". */
  lemma PositionClassesDefaultsToCenter(position: string)
    ensures position !in NamedPositions ==> PositionClasses(position) == PositionClasses("center")
  {
  }

  /** The five named positions get five different placements. */
  lemma PositionClassesDistinct(p: string, q: string)
    requires p in NamedPositions && q in NamedPositions
    ensures PositionClasses(p) == PositionClasses(q) <==> p == q
  {
  }
}
