/**
 * The tutorial manager shared by the clue screens: an active flag and a
 * step index that stays within the tutorial's steps, driven by the
 * overlay's next / previous / replay / skip / toggle / close buttons.
 */
module CinematicTutorial {
  import opened Common

  class TutorialManager {
    /** The number of tutorial steps the screen passed in. */
    const stepCount: nat
    var isActive: bool
    var currentStep: nat
    var hasSeenIntro: bool

    /** The index never leaves 0 .. max(0, steps - 1). */
    ghost predicate Valid()
      reads this
    {
      currentStep <= Max(0, stepCount - 1)
    }

    constructor (stepCount: nat)
      ensures Valid() && this.stepCount == stepCount
      ensures !isActive && currentStep == 0 && !hasSeenIntro
    {
      this.stepCount := stepCount;
      isActive := false;
      currentStep := 0;
      hasSeenIntro := false;
    }

    /** The overlay shows only while active and on a step that has data. */
    predicate Renders()
      reads this
    {
      isActive && currentStep < stepCount
    }

    /**
     * The progress bar of a drawn overlay: a share of the steps in (0, 1],
     * full exactly on the last step.
     */
    function Progress(): (p: Fraction)
      requires Renders()
      reads this
      ensures p.InUnitInterval()
      ensures p.IsWhole() <==> currentStep == stepCount - 1
    {
      StepProgress(currentStep, stepCount)
    }

    method StartTutorial()
      requires Valid()
      modifies this`isActive, this`currentStep
      ensures Valid() && isActive && currentStep == 0
    {
      isActive := true;
      currentStep := 0;
    }

    method ToggleTutorial()
      requires Valid()
      modifies this`isActive
      ensures Valid() && isActive == !old(isActive)
    {
      isActive := !isActive;
    }

    /** Advances while a later step exists; on the last step it ends the tutorial and keeps the index. */
    method NextStep()
      requires Valid()
      modifies this`isActive, this`currentStep
      ensures Valid()
      ensures old(currentStep) < stepCount - 1 ==> currentStep == old(currentStep) + 1 && isActive == old(isActive)
      ensures old(currentStep) >= stepCount - 1 ==> currentStep == old(currentStep) && !isActive
    {
      if currentStep < stepCount - 1 {
        currentStep := currentStep + 1;
      } else {
        isActive := false;
      }
    }

    /** Steps back, except on the first step, where nothing changes. */
    method PreviousStep()
      requires Valid()
      modifies this`currentStep
      ensures Valid()
      ensures currentStep == if old(currentStep) > 0 then old(currentStep) - 1 else 0
    {
      if currentStep > 0 {
        currentStep := currentStep - 1;
      }
    }

    /** Replay has no effect on the manager's state. */
    method ReplayStep()
      requires Valid()
      ensures Valid()
    {
    }

    method SkipTutorial()
      requires Valid()
      modifies this`isActive
      ensures Valid() && !isActive
    {
      isActive := false;
    }

    method CloseTutorial()
      requires Valid()
      modifies this`isActive
      ensures Valid() && !isActive
    {
      isActive := false;
    }

    method SetHasSeenIntro(value: bool)
      requires Valid()
      modifies this`hasSeenIntro
      ensures Valid() && hasSeenIntro == value
    {
      hasSeenIntro := value;
    }

    /**
     * The body of the mystery-guest clue's mount effect, run on that mount's
     * manager: unless the intro is marked as seen, the tutorial starts from
     * step 0, and the intro is then marked as seen. The effect runs once per
     * mount, and every mount owns a fresh manager (see `MountMysteryGuestClue`).
     */
    method AutoStartOnMount()
      requires Valid()
      modifies this`isActive, this`currentStep, this`hasSeenIntro
      ensures Valid() && hasSeenIntro
      ensures !old(hasSeenIntro) ==> isActive && currentStep == 0
      ensures old(hasSeenIntro) ==> isActive == old(isActive) && currentStep == old(currentStep)
    {
      if !hasSeenIntro {
        StartTutorial();
        SetHasSeenIntro(true);
      }
    }
  }

  /**
   * Entering the mystery-guest clue: the screen creates its own manager, so
   * the intro is never marked as seen when the mount effect runs, and every
   * entry starts the tutorial from step 0.
   */
  method MountMysteryGuestClue(stepCount: nat) returns (tutorial: TutorialManager)
    ensures fresh(tutorial) && tutorial.Valid() && tutorial.stepCount == stepCount
    ensures tutorial.isActive && tutorial.currentStep == 0 && tutorial.hasSeenIntro
  {
    tutorial := new TutorialManager(stepCount);
    tutorial.AutoStartOnMount();
  }

  /**
   * Pressing "next" through a whole tutorial of n steps, from the clue's
   * mount: `visited` lists the steps the active overlay showed, which are
   * every step once and in order, and the n-th press closes it on the last
   * step.
   */
  method WatchToEnd(n: nat) returns (visited: seq<nat>, finalStep: nat, stillActive: bool)
    requires n > 0
    ensures visited == seq(n, i => i)
    ensures finalStep == n - 1 && !stillActive
  {
    var tutorial := MountMysteryGuestClue(n);
    visited := [tutorial.currentStep];
    var presses := 0;
    while presses < n
      invariant tutorial.Valid() && tutorial.stepCount == n
      invariant presses <= n
      invariant presses < n ==> tutorial.currentStep == presses && tutorial.isActive
      invariant presses == n ==> tutorial.currentStep == n - 1 && !tutorial.isActive
      invariant |visited| == Min(presses + 1, n)
      invariant forall i :: 0 <= i < |visited| ==> visited[i] == i
    {
      tutorial.NextStep();
      presses := presses + 1;
      if tutorial.isActive {
        visited := visited + [tutorial.currentStep];
      }
    }
    finalStep, stillActive := tutorial.currentStep, tutorial.isActive;
  }
}
