/**
 * The play page: the player signs in with a nickname, picks a clue from the
 * selection screen, plays it, and each finished clue adds its score to the
 * quest total and is recorded as completed.
 */
module QuestGame {
  import opened Common
  import Text

  datatype GameState = Onboarding | ClueSelection | Playing | PlayingPersonX | ClueComplete

  const ParentsId: string := "parents"
  const PersonXId: string := "personx"

  function Sum(s: seq<int>): int {
    if s == [] then 0 else s[0] + Sum(s[1..])
  }

  /** Adding one more score at the end adds exactly that score to the sum. */
  lemma {:induction false} SumAppend(s: seq<int>, x: int)
    ensures Sum(s + [x]) == Sum(s) + x
  {
    if s != [] {
      assert (s + [x])[1..] == s[1..] + [x];
      SumAppend(s[1..], x);
    } else {
      assert s + [x] == [x];
    }
  }

  /** The "Start Quest" test `nickname.trim()`: a nickname counts once it has a visible character. */
  predicate HasNickname(nickname: string) {
    Text.Trim(nickname) != ""
  }

  lemma HasNicknameIffVisible(nickname: string)
    ensures HasNickname(nickname) <==> exists i :: 0 <= i < |nickname| && !Text.IsWhitespace(nickname[i])
  {
    Text.TrimEmptyIffBlank(nickname);
  }

  class Session {
    var gameState: GameState
    var nickname: string
    var eventCode: string
    var selectedClue: Option<string>
    var totalScore: int
    var completedClues: seq<string>
    /** Every score handed in by a finished clue, in order. */
    ghost var awards: seq<int>

    /**
     * The total is the sum of the scores the finished clues handed in, one
     * score per completed clue: nothing else writes the total.
     */
    ghost predicate Valid()
      reads this
    {
      totalScore == Sum(awards) && |awards| == |completedClues|
    }

    constructor ()
      ensures Valid()
      ensures gameState == Onboarding && nickname == "" && eventCode == "" && selectedClue == None
      ensures totalScore == 0 && completedClues == [] && awards == []
    {
      gameState := Onboarding;
      nickname := "";
      eventCode := "";
      selectedClue := None;
      totalScore := 0;
      completedClues := [];
      awards := [];
    }

    method SetNickname(value: string)
      requires Valid()
      modifies this`nickname
      ensures Valid() && nickname == value
    {
      nickname := value;
    }

    method SetEventCode(value: string)
      requires Valid()
      modifies this`eventCode
      ensures Valid() && eventCode == value
    {
      eventCode := value;
    }

    /** `handleStartQuest`: on to clue selection, but only with a non-blank nickname. */
    method HandleStartQuest()
      requires Valid()
      modifies this`gameState
      ensures Valid()
      ensures gameState == (if HasNickname(nickname) then ClueSelection else old(gameState))
    {
      if Text.Trim(nickname) != "" {
        gameState := ClueSelection;
      }
    }

    /** Whether a clue's button on the selection screen is enabled. */
    predicate ClueSelectable(clue: string)
      reads this
    {
      clue !in completedClues
    }

    /**
     * `handleClueComplete`: the clue's score is added to the total, its id
     * is appended to the completed clues, and the game shows the completion
     * screen (the 2 s delay is not modelled). The clue's button is disabled
     * from now on.
     */
    method HandleClueComplete(clue: string, score: int)
      requires Valid()
      modifies this`totalScore, this`completedClues, this`awards, this`gameState
      ensures Valid()
      ensures totalScore == old(totalScore) + score && awards == old(awards) + [score]
      ensures completedClues == old(completedClues) + [clue]
      ensures gameState == ClueComplete && !ClueSelectable(clue)
    {
      totalScore := totalScore + score;
      completedClues := completedClues + [clue];
      awards := awards + [score];
      gameState := ClueComplete;
      SumAppend(old(awards), score);
      assert completedClues[|completedClues| - 1] == clue;
    }

    /**
     * `handleSelectClue`: the id is recorded whatever it is; "parents" and
     * "personx" start their clue, any other id leaves the game state alone.
     */
    method HandleSelectClue(clue: string)
      requires Valid()
      modifies this`selectedClue, this`gameState
      ensures Valid() && selectedClue == Some(clue)
      ensures clue == ParentsId ==> gameState == Playing
      ensures clue == PersonXId ==> gameState == PlayingPersonX
      ensures clue != ParentsId && clue != PersonXId ==> gameState == old(gameState)
    {
      selectedClue := Some(clue);
      if clue == ParentsId {
        gameState := Playing;
      } else if clue == PersonXId {
        gameState := PlayingPersonX;
      }
    }

    /** `handleBackToSelection`, the "Back to Clue Selection" button of both clues. */
    method HandleBackToSelection()
      requires Valid()
      modifies this`selectedClue, this`gameState
      ensures Valid() && selectedClue == None && gameState == ClueSelection
    {
      selectedClue := None;
      gameState := ClueSelection;
    }

    /** "Try Another Clue" on the completion screen. */
    method TryAnotherClue()
      requires Valid() && gameState == ClueComplete
      modifies this`selectedClue, this`gameState
      ensures Valid() && selectedClue == None && gameState == ClueSelection
    {
      gameState := ClueSelection;
      selectedClue := None;
    }
  }

  /**
   * A quest with both clues: the total is the sum of the two scores, both
   * clues are recorded, and neither can be selected again.
   */
  method TwoClueQuest(parentsScore: int, personXScore: int) returns (total: int, done: seq<string>)
    ensures total == parentsScore + personXScore
    ensures done == [ParentsId, PersonXId]
  {
    var session := new Session();
    session.SetNickname("Ayaan");
    assert Text.Trim("Ayaan") != "" by {
      HasNicknameIffVisible("Ayaan");
      assert !Text.IsWhitespace("Ayaan"[0]);
    }
    session.HandleStartQuest();
    session.HandleSelectClue(ParentsId);
    session.HandleClueComplete(ParentsId, parentsScore);
    session.TryAnotherClue();
    session.HandleSelectClue(PersonXId);
    session.HandleClueComplete(PersonXId, personXScore);
    assert session.awards == [parentsScore, personXScore];
    total, done := session.totalScore, session.completedClues;
  }
}
