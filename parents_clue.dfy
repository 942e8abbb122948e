/**
 * The "Parents' Wisdom" clue: the player picks the groom's or the bride's
 * parents, answers one multiple-choice question per parent (each correct
 * answer is worth 1 point and leads to a "-correct" interstitial screen),
 * completes that family's proverb in free text (worth `max(1, 10 - hints)`),
 * then does the same for the other family and reaches `complete`.
 */
module ParentsClue {
  import opened Common
  import Text

  datatype Path = Groom | Bride {
    function Other(): (p: Path)
      ensures p != this
    {
      if this == Groom then Bride else Groom
    }
  }

  /**
   * The fourteen screens of the clue. The string keys of the component
   * (`'groom-father'`, `'groom-father-correct'`, ...) become a constructor
   * per screen kind, carrying the family path where the key names one.
   */
  datatype Step =
    | ParentChoice
    | ParentIntro
    | Father(path: Path)
    | FatherCorrect(path: Path)
    | Mother(path: Path)
    | MotherCorrect(path: Path)
    | ProverbText(path: Path)
    | Transition
    | Complete
  {
    /** The family a screen belongs to, if any. */
    function PathOf(): Option<Path> {
      if Father? || FatherCorrect? || Mother? || MotherCorrect? || ProverbText? then Some(path) else None
    }

    /** A multiple-choice question screen. */
    predicate IsQuestion() {
      Father? || Mother?
    }

    /** A "-correct" interstitial screen. */
    predicate IsInterstitial() {
      FatherCorrect? || MotherCorrect?
    }
  }

  /** The screen `${step}-correct` that a correct answer on a question leads to. */
  function CorrectStep(s: Step): (r: Step)
    requires s.IsQuestion()
    ensures r.IsInterstitial() && r.PathOf() == s.PathOf()
    ensures r.FatherCorrect? <==> s.Father?
  {
    if s.Father? then FatherCorrect(s.path) else MotherCorrect(s.path)
  }

  /** The "Continue" button of an interstitial screen: father, then mother, then the proverb. */
  function InterstitialNext(s: Step): (r: Step)
    requires s.IsInterstitial()
    ensures r.PathOf() == s.PathOf()
    ensures s.FatherCorrect? ==> r.Mother?
    ensures s.MotherCorrect? ==> r.ProverbText?
  {
    if s.FatherCorrect? then Mother(s.path) else ProverbText(s.path)
  }

  /**
   * The declared step graph: every screen and the screens its buttons can
   * lead to. A wrong answer stays on the same screen and is not an edge.
   */
  predicate IsSuccessor(from: Step, to: Step) {
    match from
    case ParentChoice => to == ParentIntro
    case ParentIntro => to.Father?
    case Father(p) => to == FatherCorrect(p)
    case FatherCorrect(p) => to == Mother(p)
    case Mother(p) => to == MotherCorrect(p)
    case MotherCorrect(p) => to == ProverbText(p)
    case ProverbText(_) => to == Transition || to == Complete
    case Transition => to.Father?
    case Complete => false
  }

  /** `complete` is the only terminal screen: every other screen has a way on. */
  lemma CompleteIsOnlyTerminal(s: Step)
    ensures (exists t :: IsSuccessor(s, t)) <==> s != Complete
  {
    match s
    case ParentChoice => assert IsSuccessor(s, ParentIntro);
    case ParentIntro => assert IsSuccessor(s, Father(Groom));
    case Father(p) => assert IsSuccessor(s, FatherCorrect(p));
    case FatherCorrect(p) => assert IsSuccessor(s, Mother(p));
    case Mother(p) => assert IsSuccessor(s, MotherCorrect(p));
    case MotherCorrect(p) => assert IsSuccessor(s, ProverbText(p));
    case ProverbText(_) => assert IsSuccessor(s, Transition);
    case Transition => assert IsSuccessor(s, Father(Groom));
    case Complete =>
  }

  // ---------------------------------------------------------------------
  // Multiple-choice questions

  datatype MCOption = MCOption(id: string, text: string, isCorrect: bool)

  /**
   * The options of each question screen, before shuffling: two wrong ones
   * and then the one correct one; no options elsewhere.
   */
  function QuestionsFor(s: Step): (r: seq<MCOption>)
    ensures s.IsQuestion() ==> |r| == 3
    ensures !s.IsQuestion() ==> r == []
    ensures forall o | o in r :: o.isCorrect <==> o.id == "c"
    ensures s.IsQuestion() ==> exists o :: o in r && o.isCorrect
    ensures s.IsQuestion() ==> !r[0].isCorrect && !r[1].isCorrect && r[2].isCorrect
  {
    var wrong := [MCOption("a", "War hooy", false), MCOption("b", "Maxaad Rabtaa?", false)];
    match s
    case Father(Groom) => wrong + [MCOption("c", "Nin iyo naagtii colna ma aha", true)]
    case Mother(Groom) => wrong + [MCOption("c", "Nabadna ma aha", true)]
    case Father(Bride) => wrong + [MCOption("c", "Kor Wayeel", true)]
    case Mother(Bride) => wrong + [MCOption("c", "Waa wada-indho", true)]
    case _ => []
  }

  /**
   * Fisher-Yates shuffle of a copy of `items`: for i from the last index
   * down to 1, swap position i with a position j in [0, i]. The random
   * choice `Math.floor(Math.random() * (i + 1))` is supplied: `draws[i]`
   * reduced into [0, i]. The input is a value, so it is left unchanged.
   */
  method Shuffle<T>(items: seq<T>, draws: seq<nat>) returns (r: seq<T>)
    requires |draws| >= |items|
    ensures |r| == |items|
    ensures multiset(r) == multiset(items)
  {
    var shuffled := new T[|items|](k requires 0 <= k < |items| => items[k]);
    assert shuffled[..] == items;
    var i := shuffled.Length - 1;
    while i > 0
      invariant -1 <= i < shuffled.Length
      invariant multiset(shuffled[..]) == multiset(items)
    {
      var j := draws[i] % (i + 1);
      shuffled[i], shuffled[j] := shuffled[j], shuffled[i];
      i := i - 1;
    }
    r := shuffled[..];
  }

  /**
   * The options shown on a screen: the screen's options in shuffled order.
   * Shuffling never changes which option is the correct one, so answering
   * by option id is independent of where it is displayed.
   */
  method ShuffledQuestions(s: Step, draws: seq<nat>) returns (r: seq<MCOption>)
    requires |draws| >= 3
    ensures multiset(r) == multiset(QuestionsFor(s))
    ensures |r| == |QuestionsFor(s)|
    ensures forall o | o in r :: o.isCorrect <==> o.id == "c"
    ensures s.IsQuestion() ==> exists o :: o in r && o.isCorrect
  {
    r := Shuffle(QuestionsFor(s), draws);
    assert forall o :: o in r <==> o in QuestionsFor(s) by {
      forall o ensures o in r <==> o in QuestionsFor(s) {
        assert o in r <==> o in multiset(r);
      }
    }
  }

  // ---------------------------------------------------------------------
  // The proverb question

  const GroomKeywords: seq<string> := ["balance", "harmony", "patience"]
  const BrideKeywords: seq<string> := ["wisdom"]

  /** The keywords accepted on a screen; no keyword outside the two proverb screens. */
  function Keywords(s: Step): (r: seq<string>)
    ensures Text.AllKeywords(r)
    ensures r != [] <==> s.ProverbText?
  {
    match s
    case ProverbText(Groom) => GroomKeywords
    case ProverbText(Bride) => BrideKeywords
    case _ => []
  }

  /** The verdict of `handleTextSubmit` on the current answer. */
  predicate Accepts(s: Step, raw: string)
    ensures Accepts(s, raw) ==> s.ProverbText?
  {
    Text.Matches(raw, Keywords(s))
  }

  /**
   * Acceptance depends only on the screen: on the groom's proverb the
   * lower-cased answer must contain "balance", "harmony" or "patience", on
   * the bride's it must contain "wisdom", and nothing is accepted elsewhere.
   */
  lemma AcceptsExactly(s: Step, raw: string)
    ensures Accepts(s, raw) <==>
      || (s == ProverbText(Groom) &&
          (Text.Contains(Text.Lower(raw), "balance") || Text.Contains(Text.Lower(raw), "harmony") ||
           Text.Contains(Text.Lower(raw), "patience")))
      || (s == ProverbText(Bride) && Text.Contains(Text.Lower(raw), "wisdom"))
  {
    var ks := Keywords(s);
    assert Text.AllKeywords(ks);
    Text.MatchesIffLowered(raw, ks);
    var low := Text.Lower(raw);
    if s == ProverbText(Groom) {
      if Accepts(s, raw) {
        var j :| 0 <= j < |ks| && Text.Contains(low, ks[j]);
        assert j == 0 || j == 1 || j == 2;
      }
      if Text.Contains(low, "balance") { assert Text.Contains(low, ks[0]); }
      if Text.Contains(low, "harmony") { assert Text.Contains(low, ks[1]); }
      if Text.Contains(low, "patience") { assert Text.Contains(low, ks[2]); }
    } else if s == ProverbText(Bride) {
      if Text.Contains(low, "wisdom") { assert Text.Contains(low, ks[0]); }
    }
  }

  /** The answer filled in after the third failed attempt. */
  function AutoFill(s: Step): string {
    if s == ProverbText(Groom) then "Balance" else "Wisdom"
  }

  /** The filled-in answer passes the validator of the screen it is filled in on. */
  lemma AutoFillAccepted(p: Path)
    ensures Accepts(ProverbText(p), AutoFill(ProverbText(p)))
  {
    var s := ProverbText(p);
    if p == Groom {
      assert Text.Lower("Balance") == "balance";
      Text.MatchesSuperstring("", "Balance", "", Keywords(s), 0);
      assert "" + "Balance" + "" == "Balance";
    } else {
      assert Text.Lower("Wisdom") == "wisdom";
      Text.MatchesSuperstring("", "Wisdom", "", Keywords(s), 0);
      assert "" + "Wisdom" + "" == "Wisdom";
    }
  }

  /** Points for a proverb answered after `hints` failed attempts: 10, less one per hint, at least 1. */
  function ProverbAward(hints: nat): (r: nat)
    ensures 1 <= r <= 10
    ensures r == 10 <==> hints == 0
    ensures hints < 9 ==> r == 10 - hints
    ensures hints >= 9 ==> r == 1
  {
    Max(1, 10 - hints)
  }

  /** More hints never earn more points. */
  lemma ProverbAwardMonotone(h1: nat, h2: nat)
    requires h1 <= h2
    ensures ProverbAward(h2) <= ProverbAward(h1)
  {
  }

  const GroomHints: seq<string> := [
    "Think about what keeps relationships stable...",
    "It's about finding the middle ground between extremes...",
    "The answer rhymes with 'valance'..."
  ]

  const BrideHints: seq<string> := [
    "What do elders share with younger generations?",
    "It's something gained through experience...",
    "It starts with 'W' and ends with 'dom'..."
  ]

  /** The hint shown on a proverb screen after `hints` failed attempts. */
  function HintText(s: Step, hints: int): (r: string)
    ensures !s.ProverbText? ==> r == ""
    ensures s.ProverbText? ==> (r != "" <==> 1 <= hints <= 3)
    ensures s == ProverbText(Groom) && 1 <= hints <= 3 ==> r == GroomHints[hints - 1]
    ensures s == ProverbText(Bride) && 1 <= hints <= 3 ==> r == BrideHints[hints - 1]
  {
    assert forall i :: 0 <= i < 3 ==> GroomHints[i] != "" && BrideHints[i] != "";
    match s
    case ProverbText(Groom) => HintAt(GroomHints, hints)
    case ProverbText(Bride) => HintAt(BrideHints, hints)
    case _ => ""
  }

  // ---------------------------------------------------------------------
  // Progress

  const TotalSteps: nat := 14

  /** The fixed screen-to-ordinal table of the progress bar. */
  function Ordinal(s: Step): (n: nat)
    ensures 1 <= n <= TotalSteps
    ensures n == TotalSteps <==> s == Complete
  {
    match s
    case ParentChoice => 1
    case ParentIntro => 2
    case Father(Groom) => 3
    case FatherCorrect(Groom) => 4
    case Mother(Groom) => 5
    case MotherCorrect(Groom) => 6
    case ProverbText(Groom) => 7
    case Father(Bride) => 8
    case FatherCorrect(Bride) => 9
    case Mother(Bride) => 10
    case MotherCorrect(Bride) => 11
    case ProverbText(Bride) => 12
    case Transition => 13
    case Complete => 14
  }

  /** The table gives every screen its own ordinal. */
  lemma OrdinalInjective(s: Step, t: Step)
    requires Ordinal(s) == Ordinal(t)
    ensures s == t
  {
  }

  /** The progress bar's ratio: in (0, 1], and full exactly on `complete`. */
  function Progress(s: Step): (f: Fraction)
    ensures f.InUnitInterval()
    ensures f.IsWhole() <==> s == Complete
  {
    Fraction(Ordinal(s), TotalSteps)
  }

  /**
   * The table is cosmetic: whichever family comes second, the bar moves
   * back when `transition` leads to that family's first question.
   */
  lemma ProgressDropsAfterTransition(p: Path)
    ensures IsSuccessor(Transition, Father(p))
    ensures Progress(Father(p)).num < Progress(Transition).num
  {
  }

  // ---------------------------------------------------------------------
  // The clue's state

  /**
   * Points already secured on the current family's path: one per question
   * answered correctly so far.
   */
  function PathCredit(s: Step): nat {
    match s
    case FatherCorrect(_) => 1
    case Mother(_) => 1
    case MotherCorrect(_) => 2
    case ProverbText(_) => 2
    case _ => 0
  }

  class Clue {
    var step: Step
    var chosenPath: Option<Path>
    var completedPaths: seq<Path>
    var score: nat
    var textAnswer: string
    var currentHints: nat
    var totalHintsUsed: nat

    /**
     * The states the screens can reach: the chosen family is the one the
     * screen belongs to, the families already done are the other one, and
     * the score lies between 3 and 12 points per finished family plus the
     * current path's credit.
     */
    ghost predicate Valid()
      reads this
    {
      && (step.PathOf().Some? ==> chosenPath == step.PathOf())
      && (step == ParentIntro || step == Transition ==> chosenPath.Some?)
      && (step == ParentChoice || step == ParentIntro ==> completedPaths == [])
      && (step.PathOf().Some? ==> completedPaths == [] || completedPaths == [step.path.Other()])
      && (step == Transition ==> completedPaths == [chosenPath.value])
      && (step == Complete ==> |completedPaths| == 2 && completedPaths[0] != completedPaths[1])
      && 3 * |completedPaths| + PathCredit(step) <= score <= 12 * |completedPaths| + PathCredit(step)
      && currentHints <= totalHintsUsed
    }

    constructor ()
      ensures Valid()
      ensures step == ParentChoice && chosenPath == None && completedPaths == []
      ensures score == 0 && textAnswer == "" && currentHints == 0 && totalHintsUsed == 0
    {
      step := ParentChoice;
      chosenPath := None;
      completedPaths := [];
      score := 0;
      textAnswer := "";
      currentHints := 0;
      totalHintsUsed := 0;
    }

    /** `handleParentChoice`, the two buttons of the choice screen. */
    method HandleParentChoice(path: Path)
      requires Valid() && step == ParentChoice
      modifies this
      ensures Valid() && IsSuccessor(old(step), step)
      ensures step == ParentIntro && chosenPath == Some(path)
      ensures completedPaths == old(completedPaths) && score == old(score) && textAnswer == old(textAnswer)
      ensures currentHints == old(currentHints) && totalHintsUsed == old(totalHintsUsed)
    {
      chosenPath := Some(path);
      step := ParentIntro;
    }

    /** "Start Listening": the chosen family's father question. */
    method StartListening()
      requires Valid() && step == ParentIntro
      modifies this
      ensures Valid() && IsSuccessor(old(step), step)
      ensures step == Father(chosenPath.value)
      ensures chosenPath == old(chosenPath) && completedPaths == old(completedPaths) && score == old(score)
      ensures textAnswer == old(textAnswer) && currentHints == old(currentHints)
      ensures totalHintsUsed == old(totalHintsUsed)
    {
      step := if chosenPath.value == Groom then Father(Groom) else Father(Bride);
    }

    /**
     * `handleMCAnswer`: a correct option adds exactly one point and moves to
     * the question's "-correct" screen (the 1.5 s delay is not modelled); a
     * wrong option changes nothing.
     */
    method HandleMCAnswer(isCorrect: bool)
      requires Valid() && step.IsQuestion()
      modifies this
      ensures Valid()
      ensures isCorrect ==> score == old(score) + 1 && step == CorrectStep(old(step))
      ensures isCorrect ==> IsSuccessor(old(step), step)
      ensures !isCorrect ==> score == old(score) && step == old(step)
      ensures chosenPath == old(chosenPath) && completedPaths == old(completedPaths)
      ensures textAnswer == old(textAnswer) && currentHints == old(currentHints)
      ensures totalHintsUsed == old(totalHintsUsed)
    {
      if isCorrect {
        score := score + 1;
        step := CorrectStep(step);
      }
    }

    /** The "Continue" button of a "-correct" screen. */
    method ContinueAfterCorrect()
      requires Valid() && step.IsInterstitial()
      modifies this
      ensures Valid() && IsSuccessor(old(step), step)
      ensures step == InterstitialNext(old(step))
      ensures chosenPath == old(chosenPath) && completedPaths == old(completedPaths) && score == old(score)
      ensures textAnswer == old(textAnswer) && currentHints == old(currentHints)
      ensures totalHintsUsed == old(totalHintsUsed)
    {
      step := InterstitialNext(step);
    }

    /** The text field of a proverb screen. */
    method SetTextAnswer(value: string)
      requires Valid()
      modifies this`textAnswer
      ensures Valid() && textAnswer == value
    {
      textAnswer := value;
    }

    /**
     * `handleTextSubmit`. An accepted answer earns `max(1, 10 - currentHints)`,
     * clears the answer and the hint counter, records the family as done,
     * and moves to `transition` if no family was done before, otherwise to
     * `complete`. A rejected answer counts one more hint on both counters,
     * and from the third failed attempt on fills in the expected answer.
     * The submit button is disabled while the answer is blank.
     */
    method HandleTextSubmit()
      requires Valid() && Text.Trim(textAnswer) != ""
      modifies this
      ensures Valid()
      ensures Accepts(old(step), old(textAnswer)) ==>
        && old(step).ProverbText?
        && score == old(score) + ProverbAward(old(currentHints))
        && textAnswer == "" && currentHints == 0 && totalHintsUsed == old(totalHintsUsed)
        && completedPaths == old(completedPaths) + [old(step).path]
        && step == (if old(completedPaths) == [] then Transition else Complete)
        && IsSuccessor(old(step), step)
      ensures !Accepts(old(step), old(textAnswer)) ==>
        && step == old(step) && score == old(score) && completedPaths == old(completedPaths)
        && currentHints == old(currentHints) + 1 && totalHintsUsed == old(totalHintsUsed) + 1
        && textAnswer == (if old(currentHints) >= 2 then AutoFill(old(step)) else old(textAnswer))
      ensures chosenPath == old(chosenPath)
      ensures score >= old(score)
    {
      var isCorrect := Accepts(step, textAnswer);
      if isCorrect {
        assert step.ProverbText?;
        var firstPath := completedPaths == [];
        score := score + ProverbAward(currentHints);
        textAnswer := "";
        currentHints := 0;
        completedPaths := completedPaths + [chosenPath.value];
        step := if firstPath then Transition else Complete;
      } else {
        var hintsBefore := currentHints;
        currentHints := currentHints + 1;
        totalHintsUsed := totalHintsUsed + 1;
        if hintsBefore >= 2 {
          textAnswer := AutoFill(step);
        }
      }
    }

    /** The "Continue" button of `transition`: switch to the other family's father question. */
    method ContinueToOtherPath()
      requires Valid() && step == Transition
      modifies this
      ensures Valid() && IsSuccessor(old(step), step)
      ensures chosenPath == Some(old(chosenPath).value.Other())
      ensures step == Father(old(chosenPath).value.Other())
      ensures completedPaths == old(completedPaths) && score == old(score)
      ensures textAnswer == old(textAnswer) && currentHints == old(currentHints)
      ensures totalHintsUsed == old(totalHintsUsed)
    {
      var nextPath := chosenPath.value.Other();
      chosenPath := Some(nextPath);
      step := Father(nextPath);
    }

    /** The score handed to the quest by "Continue to Next Clue": 6 to 24 points. */
    method FinalScore() returns (s: nat)
      requires Valid() && step == Complete
      ensures s == score && 6 <= s <= 24
    {
      s := score;
    }
  }

  /** Both questions of one family answered right on the first try: two points. */
  method AnswerBothQuestions(clue: Clue)
    requires clue.Valid() && clue.step.Father?
    modifies clue
    ensures clue.Valid() && clue.step == ProverbText(old(clue.step).path)
    ensures clue.score == old(clue.score) + 2
    ensures clue.completedPaths == old(clue.completedPaths) && clue.currentHints == old(clue.currentHints)
  {
    clue.HandleMCAnswer(true);
    clue.ContinueAfterCorrect();
    clue.HandleMCAnswer(true);
    clue.ContinueAfterCorrect();
  }

  /** Typing an accepted, non-blank proverb answer and submitting it. */
  method SubmitAccepted(clue: Clue, answer: string)
    requires clue.Valid() && Accepts(clue.step, answer)
    requires |answer| > 0 && !Text.IsWhitespace(answer[0])
    modifies clue
    ensures clue.Valid()
    ensures clue.score == old(clue.score) + ProverbAward(old(clue.currentHints))
    ensures clue.step == (if old(clue.completedPaths) == [] then Transition else Complete)
    ensures clue.currentHints == 0 && clue.chosenPath == old(clue.chosenPath)
  {
    clue.SetTextAnswer(answer);
    Text.FirstVisibleNotBlank(answer);
    clue.HandleTextSubmit();
  }

  /** Typing a rejected, non-blank proverb answer and submitting it: one more hint, nothing else earned. */
  method SubmitRejected(clue: Clue, answer: string)
    requires clue.Valid() && !Accepts(clue.step, answer)
    requires |answer| > 0 && !Text.IsWhitespace(answer[0])
    modifies clue
    ensures clue.Valid()
    ensures clue.step == old(clue.step) && clue.score == old(clue.score)
    ensures clue.completedPaths == old(clue.completedPaths) && clue.chosenPath == old(clue.chosenPath)
    ensures clue.currentHints == old(clue.currentHints) + 1
  {
    clue.SetTextAnswer(answer);
    Text.FirstVisibleNotBlank(answer);
    clue.HandleTextSubmit();
  }

  /** The groom's family played first, every answer right on the first try: 2 + 10 points. */
  method GroomPathFirstTry() returns (clue: Clue)
    ensures fresh(clue) && clue.Valid() && clue.step == Transition
    ensures clue.chosenPath == Some(Groom) && clue.score == 12 && clue.currentHints == 0
  {
    clue := new Clue();
    clue.HandleParentChoice(Groom);
    clue.StartListening();
    AnswerBothQuestions(clue);
    assert clue.step == ProverbText(Groom) && clue.score == 2 && clue.currentHints == 0;
    AutoFillAccepted(Groom);
    SubmitAccepted(clue, "Balance");
  }

  /**
   * The walkthrough of a full game: groom first, every question right, the
   * groom's proverb on the first try (10 points), then the bride's proverb
   * after one wrong try (9 points): 1 + 1 + 10 + 1 + 1 + 9 = 23.
   */
  method GroomFirstWalkthrough() returns (score: nat)
    ensures score == 23
  {
    var clue := GroomPathFirstTry();
    clue.ContinueToOtherPath();
    AnswerBothQuestions(clue);
    assert clue.step == ProverbText(Bride) && clue.score == 14 && clue.currentHints == 0;
    Text.ShortAnswerRejected("love", Keywords(ProverbText(Bride)));
    SubmitRejected(clue, "love");
    assert clue.step == ProverbText(Bride) && clue.currentHints == 1 && clue.score == 14;
    AutoFillAccepted(Bride);
    SubmitAccepted(clue, "Wisdom");
    score := clue.FinalScore();
  }
}
