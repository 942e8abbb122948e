/**
 * The "Mystery Guest" clue: find the guest listed with a first name only
 * (part 1, worth `max(1, 5 - hints)`), then name that guest's role
 * (part 2, worth `max(2, 10 - 2 * hints)`), with 5 bonus points when no
 * hint was used in either part.
 */
module MysteryGuestClue {
  import opened Common
  import Text

  datatype Step =
    | Introduction
    | Investigation
    | GuestList
    | Part1Hint
    | Part1Success
    | RoleInvestigation
    | Part2Hint
    | Part2Success
    | Complete

  /**
   * The declared step graph, from the buttons of each screen. Hint screens
   * and their parent screens form the two retry loops.
   */
  predicate IsSuccessor(from: Step, to: Step) {
    match from
    case Introduction => to == Investigation
    case Investigation => to == GuestList || to == Part1Hint
    case GuestList => to == Part1Hint || to == Part1Success
    case Part1Hint => to == GuestList || to == Part1Success
    case Part1Success => to == RoleInvestigation
    case RoleInvestigation => to == Part2Hint || to == Part2Success
    case Part2Hint => to == RoleInvestigation || to == Part2Success
    case Part2Success => to == Complete
    case Complete => false
  }

  // ---------------------------------------------------------------------
  // Scoring

  /** Part 1: 5 points, less one per hint, at least 1. */
  function Part1Award(hints: nat): (r: nat)
    ensures 1 <= r <= 5
    ensures r == 5 <==> hints == 0
  {
    Max(1, 5 - hints)
  }

  /** Part 2: 10 points, less two per hint, at least 2. */
  function Part2Award(hints: nat): (r: nat)
    ensures 2 <= r <= 10 && r % 2 == 0
    ensures r == 10 <==> hints == 0
  {
    Max(2, 10 - hints * 2)
  }

  /** `calculateScore`: both parts' awards plus the no-hint bonus of 5. */
  function CalculateScore(part1Hints: nat, part2Hints: nat): (r: nat)
    ensures 3 <= r <= 20
    ensures r == 20 <==> part1Hints == 0 && part2Hints == 0
    ensures part1Hints > 0 || part2Hints > 0 ==> r <= 14
  {
    var bonus := if part1Hints == 0 && part2Hints == 0 then 5 else 0;
    Part1Award(part1Hints) + Part2Award(part2Hints) + bonus
  }

  /** More hints, in either part, never earn more points. */
  lemma CalculateScoreMonotone(h1: nat, h2: nat, h1': nat, h2': nat)
    requires h1 <= h1' && h2 <= h2'
    ensures CalculateScore(h1', h2') <= CalculateScore(h1, h2)
  {
  }

  /**
   * With both hint counters within the three hints there are, the clue
   * earns at least 2 + 4 = 6 points.
   */
  lemma CalculateScoreFloor(part1Hints: nat, part2Hints: nat)
    requires part1Hints <= MaxHints && part2Hints <= MaxHints
    ensures 6 <= CalculateScore(part1Hints, part2Hints)
  {
  }

  // ---------------------------------------------------------------------
  // Answers and hints

  const Part1Keywords: seq<string> := ["bilicsan"]
  const Part2Keywords: seq<string> := ["navigator", "pathfinder", "guide"]

  /**
   * Part 1 accepts exactly the answers whose lower-cased text contains
   * "bilicsan"; part 2 those containing "navigator", "pathfinder" or "guide".
   */
  lemma AcceptsExactly(raw: string)
    ensures Text.Matches(raw, Part1Keywords) <==> Text.Contains(Text.Lower(raw), "bilicsan")
    ensures Text.Matches(raw, Part2Keywords) <==>
      Text.Contains(Text.Lower(raw), "navigator") || Text.Contains(Text.Lower(raw), "pathfinder") ||
      Text.Contains(Text.Lower(raw), "guide")
  {
    var low := Text.Lower(raw);
    var ks1, ks2 := Part1Keywords, Part2Keywords;
    assert Text.AllKeywords(ks1) && Text.AllKeywords(ks2);
    Text.MatchesIffLowered(raw, ks1);
    Text.MatchesIffLowered(raw, ks2);
    if Text.Contains(low, "bilicsan") { assert Text.Contains(low, ks1[0]); }
    if Text.Matches(raw, ks2) {
      var j :| 0 <= j < |ks2| && Text.Contains(low, ks2[j]);
      assert j == 0 || j == 1 || j == 2;
    }
    if Text.Contains(low, "navigator") { assert Text.Contains(low, ks2[0]); }
    if Text.Contains(low, "pathfinder") { assert Text.Contains(low, ks2[1]); }
    if Text.Contains(low, "guide") { assert Text.Contains(low, ks2[2]); }
  }

  const Part1Hints: seq<string> := [
    "Look through today's guest list carefully... someone stands out by having less information than others.",
    "Check how names are listed - most people have both first and last names shown.",
    "Find the person listed with only one name - no family name in sight."
  ]

  const Part2Hints: seq<string> := [
    "When you ask Bilicsan about their role, listen for how they describe helping people today.",
    "Think about someone who helps others find their way or shows the path forward.",
    "The answer rhymes with 'aviator' or starts with 'path'..."
  ]

  /** `getPart1Hint`: the n-th hint for n in 1..3, and "" for every other counter. */
  function Part1HintText(n: int): (r: string)
    ensures 1 <= n <= 3 ==> r == Part1Hints[n - 1]
    ensures r != "" <==> 1 <= n <= 3
  {
    assert forall i :: 0 <= i < 3 ==> Part1Hints[i] != "";
    HintAt(Part1Hints, n)
  }

  /** `getPart2Hint`: the n-th hint for n in 1..3, and "" for every other counter. */
  function Part2HintText(n: int): (r: string)
    ensures 1 <= n <= 3 ==> r == Part2Hints[n - 1]
    ensures r != "" <==> 1 <= n <= 3
  {
    assert forall i :: 0 <= i < 3 ==> Part2Hints[i] != "";
    HintAt(Part2Hints, n)
  }

  // ---------------------------------------------------------------------
  // The clue's state

  const MaxHints: nat := 3

  class Clue {
    var step: Step
    var part1Answer: string
    var part2Answer: string
    var part1Hints: nat
    var part2Hints: nat

    /** Neither hint counter ever passes the number of hints there are. */
    ghost predicate Valid()
      reads this
    {
      part1Hints <= MaxHints && part2Hints <= MaxHints
    }

    constructor ()
      ensures Valid()
      ensures step == Introduction && part1Answer == "" && part2Answer == ""
      ensures part1Hints == 0 && part2Hints == 0
    {
      step := Introduction;
      part1Answer := "";
      part2Answer := "";
      part1Hints := 0;
      part2Hints := 0;
    }

    /** "Begin Investigation". */
    method BeginInvestigation()
      requires Valid() && step == Introduction
      modifies this`step
      ensures Valid() && IsSuccessor(old(step), step) && step == Investigation
    {
      step := Investigation;
    }

    /** The guest-list tool of the investigation screen. */
    method OpenGuestList()
      requires Valid() && step == Investigation
      modifies this`step
      ensures Valid() && IsSuccessor(old(step), step) && step == GuestList
    {
      step := GuestList;
    }

    /** The hint tool of the investigation screen: the first hint, whatever was counted before. */
    method InvestigationHint()
      requires Valid() && step == Investigation
      modifies this`step, this`part1Hints
      ensures Valid() && IsSuccessor(old(step), step) && step == Part1Hint
      ensures part1Hints == 1
    {
      part1Hints := 1;
      step := Part1Hint;
    }

    /** "Get a Hint" on the guest list: one more hint, capped at 3. */
    method GuestListHint()
      requires Valid() && step == GuestList
      modifies this`step, this`part1Hints
      ensures Valid() && IsSuccessor(old(step), step) && step == Part1Hint
      ensures part1Hints == Min(old(part1Hints) + 1, MaxHints)
    {
      part1Hints := Min(part1Hints + 1, MaxHints);
      step := Part1Hint;
    }

    /** "Next Hint" on the part-1 hint screen, offered only while fewer than 3 hints were shown. */
    method NextPart1Hint()
      requires Valid() && step == Part1Hint && part1Hints < MaxHints
      modifies this`part1Hints
      ensures Valid() && part1Hints == old(part1Hints) + 1
    {
      part1Hints := part1Hints + 1;
    }

    /** "Back" on the part-1 hint screen. */
    method BackToGuestList()
      requires Valid() && step == Part1Hint
      modifies this`step
      ensures Valid() && IsSuccessor(old(step), step) && step == GuestList
    {
      step := GuestList;
    }

    method SetPart1Answer(value: string)
      requires Valid()
      modifies this`part1Answer
      ensures Valid() && part1Answer == value
    {
      part1Answer := value;
    }

    /**
     * `handlePart1Submit`, from the guest list or the part-1 hint screen: an
     * accepted answer moves to `part1-success` (the 1.5 s delay is not
     * modelled); a rejected one clears the answer and stays. Hints are never
     * charged for a wrong answer. The submit button is disabled while the
     * answer is blank.
     */
    method HandlePart1Submit()
      requires Valid() && (step == GuestList || step == Part1Hint)
      requires Text.Trim(part1Answer) != ""
      modifies this`step, this`part1Answer
      ensures Valid()
      ensures Text.Matches(old(part1Answer), Part1Keywords) ==>
        step == Part1Success && part1Answer == old(part1Answer) && IsSuccessor(old(step), step)
      ensures !Text.Matches(old(part1Answer), Part1Keywords) ==> step == old(step) && part1Answer == ""
    {
      if Text.Matches(part1Answer, Part1Keywords) {
        step := Part1Success;
      } else {
        part1Answer := "";
      }
    }

    /** "Continue" after part 1. */
    method ContinueToRole()
      requires Valid() && step == Part1Success
      modifies this`step
      ensures Valid() && IsSuccessor(old(step), step) && step == RoleInvestigation
    {
      step := RoleInvestigation;
    }

    /** The hint button of the role screen: the first hint, whatever was counted before. */
    method RoleHint()
      requires Valid() && step == RoleInvestigation
      modifies this`step, this`part2Hints
      ensures Valid() && IsSuccessor(old(step), step) && step == Part2Hint
      ensures part2Hints == 1
    {
      part2Hints := 1;
      step := Part2Hint;
    }

    /**
     * The role screen's hint button as evidently intended: it opens the hint
     * screen with at least the first hint, and never takes back a hint
     * already counted.
     */
    method RoleHintKeepingCount()
      requires Valid() && step == RoleInvestigation
      modifies this`step, this`part2Hints
      ensures Valid() && IsSuccessor(old(step), step) && step == Part2Hint
      ensures part2Hints == Max(old(part2Hints), 1) && part2Hints >= old(part2Hints)
    {
      part2Hints := Max(part2Hints, 1);
      step := Part2Hint;
    }

    /** "Next Hint" on the part-2 hint screen, offered only while fewer than 3 hints were shown. */
    method NextPart2Hint()
      requires Valid() && step == Part2Hint && part2Hints < MaxHints
      modifies this`part2Hints
      ensures Valid() && part2Hints == old(part2Hints) + 1
    {
      part2Hints := part2Hints + 1;
    }

    /** "Back" on the part-2 hint screen. */
    method BackToRole()
      requires Valid() && step == Part2Hint
      modifies this`step
      ensures Valid() && IsSuccessor(old(step), step) && step == RoleInvestigation
    {
      step := RoleInvestigation;
    }

    method SetPart2Answer(value: string)
      requires Valid()
      modifies this`part2Answer
      ensures Valid() && part2Answer == value
    {
      part2Answer := value;
    }

    /**
     * `handlePart2Submit`, from the role screen or the part-2 hint screen:
     * an accepted answer moves to `part2-success`; a rejected one clears the
     * answer and stays. The submit button is disabled while the answer is
     * blank.
     */
    method HandlePart2Submit()
      requires Valid() && (step == RoleInvestigation || step == Part2Hint)
      requires Text.Trim(part2Answer) != ""
      modifies this`step, this`part2Answer
      ensures Valid()
      ensures Text.Matches(old(part2Answer), Part2Keywords) ==>
        step == Part2Success && part2Answer == old(part2Answer) && IsSuccessor(old(step), step)
      ensures !Text.Matches(old(part2Answer), Part2Keywords) ==> step == old(step) && part2Answer == ""
    {
      if Text.Matches(part2Answer, Part2Keywords) {
        step := Part2Success;
      } else {
        part2Answer := "";
      }
    }

    /** "Continue" after part 2. */
    method ContinueToComplete()
      requires Valid() && step == Part2Success
      modifies this`step
      ensures Valid() && IsSuccessor(old(step), step) && step == Complete
    {
      step := Complete;
    }

    /** The score handed to the quest from the final screen. */
    method FinalScore() returns (s: nat)
      requires Valid() && step == Complete
      ensures s == CalculateScore(part1Hints, part2Hints)
      ensures 6 <= s <= 20
    {
      CalculateScoreFloor(part1Hints, part2Hints);
      s := CalculateScore(part1Hints, part2Hints);
    }
  }

  /**
   * The walkthrough with no hint: "Bilicsan" and then "navigator" on the
   * first try earn 5 + 10 + the bonus of 5 = 20.
   */
  method NoHintWalkthrough() returns (score: nat)
    ensures score == 20
  {
    var clue := RoleScreenClue();
    clue.SetPart2Answer("navigator");
    Text.FirstVisibleNotBlank("navigator");
    Text.MatchesSuperstring("", "navigator", "", Part2Keywords, 0);
    assert "" + "navigator" + "" == "navigator";
    clue.HandlePart2Submit();
    clue.ContinueToComplete();
    score := clue.FinalScore();
  }

  /**
   * The role hint as written lowers the part-2 counter: three hints, "Back",
   * then the role screen's hint button again leaves one hint counted, and
   * the part-2 award goes up from 4 to 8.
   */
  method RoleHintResetWalkthrough() returns (before: nat, after: nat)
    ensures before == 3 && after == 1
    ensures Part2Award(after) > Part2Award(before)
  {
    var clue := RoleScreenClue();
    clue.RoleHint();
    clue.NextPart2Hint();
    clue.NextPart2Hint();
    before := clue.part2Hints;
    clue.BackToRole();
    clue.RoleHint();
    after := clue.part2Hints;
  }

  /** The same clicks with the corrected role hint keep all three hints counted. */
  method CorrectedRoleHintWalkthrough() returns (before: nat, after: nat)
    ensures before == 3 && after == 3
  {
    var clue := RoleScreenClue();
    clue.RoleHintKeepingCount();
    clue.NextPart2Hint();
    clue.NextPart2Hint();
    before := clue.part2Hints;
    clue.BackToRole();
    clue.RoleHintKeepingCount();
    after := clue.part2Hints;
  }

  /** A fresh clue played to the role screen, "Bilicsan" accepted on the first try without hints. */
  method RoleScreenClue() returns (clue: Clue)
    ensures fresh(clue) && clue.Valid() && clue.step == RoleInvestigation
    ensures clue.part1Hints == 0 && clue.part2Hints == 0
  {
    clue := new Clue();
    clue.BeginInvestigation();
    clue.OpenGuestList();
    clue.SetPart1Answer("Bilicsan");
    Text.FirstVisibleNotBlank("Bilicsan");
    Text.MatchesSuperstring("", "Bilicsan", "", Part1Keywords, 0);
    assert "" + "Bilicsan" + "" == "Bilicsan";
    clue.HandlePart1Submit();
    clue.ContinueToRole();
  }
}
