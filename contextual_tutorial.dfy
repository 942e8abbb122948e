/**
 * The contextual overlay: as the quest moves from step to step it shows the
 * tutorial entry written for the new step, but only the first time that
 * step is reached, remembering the steps it has shown in a growing set.
 */
module ContextualTutorial {
  import opened Common

  /** One tutorial entry, written for the quest step `questStep`. */
  datatype Content = Content(
    questStep: string,
    target: string,
    irlTitle: string,
    irlDescription: string,
    actionTitle: string,
    actionDescription: string,
    overlayNote: Option<string>,
    emotion: string)

  /** The step that keeps its overlay on screen until dismissed. */
  const IntroductionStep: string := "introduction"

  /** `Array.prototype.find` by quest step, as the index of the first entry for `step`. */
  function FindFirst(content: seq<Content>, step: string): (r: Option<nat>)
    ensures r.Some? ==> r.value < |content| && content[r.value].questStep == step
    ensures r.Some? ==> forall i :: 0 <= i < r.value ==> content[i].questStep != step
    ensures r.None? <==> forall i :: 0 <= i < |content| ==> content[i].questStep != step
  {
    if content == [] then None
    else if content[0].questStep == step then Some(0)
    else
      match FindFirst(content[1..], step)
      case None => None
      case Some(k) => Some(k + 1)
  }

  /** Whether some entry is written for `step`. */
  predicate HasContent(content: seq<Content>, step: string) {
    exists i :: 0 <= i < |content| && content[i].questStep == step
  }

  class Overlay {
    var currentOverlay: Option<Content>
    var isVisible: bool
    var hasShownForStep: set<string>

    /** Only a chosen entry is ever visible, and a chosen entry's step is recorded as shown. */
    ghost predicate Valid()
      reads this
    {
      && (isVisible ==> currentOverlay.Some?)
      && (currentOverlay.Some? ==> currentOverlay.value.questStep in hasShownForStep)
    }

    constructor ()
      ensures Valid() && currentOverlay == None && !isVisible && hasShownForStep == {}
    {
      currentOverlay := None;
      isVisible := false;
      hasShownForStep := {};
    }

    /**
     * The selection effect, run when the quest step changes. While enabled,
     * an entry for a step not yet shown is made visible and the step is
     * recorded; `dismissScheduled` says that the 8-second auto-dismiss was
     * started, which happens for every step but the introduction. In every
     * other case nothing changes.
     */
    method OnQuestStep(content: seq<Content>, currentQuestStep: string, isEnabled: bool)
      returns (dismissScheduled: bool)
      requires Valid()
      modifies this
      ensures Valid()
      ensures
        var shows := isEnabled && HasContent(content, currentQuestStep)
                     && currentQuestStep !in old(hasShownForStep);
        && (shows ==>
              && FindFirst(content, currentQuestStep).Some?
              && currentOverlay == Some(content[FindFirst(content, currentQuestStep).value])
              && isVisible
              && hasShownForStep == old(hasShownForStep) + {currentQuestStep})
        && (!shows ==>
              && currentOverlay == old(currentOverlay)
              && isVisible == old(isVisible)
              && hasShownForStep == old(hasShownForStep))
        && (dismissScheduled <==> shows && currentQuestStep != IntroductionStep)
    {
      dismissScheduled := false;
      if !isEnabled {
        return;
      }
      var found := FindFirst(content, currentQuestStep);
      if found.Some? && currentQuestStep !in hasShownForStep {
        currentOverlay := Some(content[found.value]);
        isVisible := true;
        hasShownForStep := hasShownForStep + {currentQuestStep};
        dismissScheduled := currentQuestStep != IntroductionStep;
      }
    }

    /**
     * The close button, and also what the auto-dismiss timer does when it
     * fires: the overlay is hidden, while the chosen entry and the set of
     * shown steps stay as they were.
     */
    method HandleDismiss()
      requires Valid()
      modifies this`isVisible
      ensures Valid() && !isVisible
    {
      isVisible := false;
    }
  }

  /**
   * The quest visiting `steps` in order with the overlay enabled (and each
   * overlay dismissed before the next step): `shownOrder` lists the steps
   * whose overlay appeared. No step appears twice, and every visited step
   * that has an entry appears.
   */
  method ShowOrder(content: seq<Content>, steps: seq<string>) returns (shownOrder: seq<string>)
    ensures forall i, j :: 0 <= i < j < |shownOrder| ==> shownOrder[i] != shownOrder[j]
    ensures forall i :: 0 <= i < |shownOrder| ==> shownOrder[i] in steps && HasContent(content, shownOrder[i])
    ensures forall k :: 0 <= k < |steps| && HasContent(content, steps[k]) ==> steps[k] in shownOrder
  {
    var overlay := new Overlay();
    shownOrder := [];
    for n := 0 to |steps|
      invariant overlay.Valid() && !overlay.isVisible
      invariant overlay.hasShownForStep == set x | x in shownOrder
      invariant forall i, j :: 0 <= i < j < |shownOrder| ==> shownOrder[i] != shownOrder[j]
      invariant forall i :: 0 <= i < |shownOrder| ==> shownOrder[i] in steps[..n] && HasContent(content, shownOrder[i])
      invariant forall k :: 0 <= k < n && HasContent(content, steps[k]) ==> steps[k] in shownOrder
    {
      var step := steps[n];
      var scheduled := overlay.OnQuestStep(content, step, true);
      if overlay.isVisible {
        shownOrder := shownOrder + [step];
      }
      overlay.HandleDismiss();
    }
  }
}
