# Wedding quest: a verified model of the game logic

The quest is a browser game played at a wedding. A guest signs in with a
nickname, picks a clue from the selection screen, plays it, and collects
the clue's score into a running total. Two clues exist:

- **Parents' Wisdom** (`ParentsClue`). The guest picks the groom's or the
  bride's family. Each family has two multiple-choice questions, worth one
  point each, and a free-text proverb worth `max(1, 10 - hints)`. Then the
  guest plays the other family.
- **Mystery Guest** (`PersonXClue`). The guest finds the guest-list entry
  that has only a first name, then names that guest's role. The two parts
  are worth `max(1, 5 - hints)` and `max(2, 10 - 2 * hints)`, plus a
  5-point bonus when no hint was used.

The code base has three tutorial overlay components:

- a cinematic step-by-step tutorial driven by a manager hook, which the
  Mystery Guest clue mounts on entry;
- a self-contained demo walkthrough;
- a contextual overlay that explains each quest step the first time it is
  reached.

No screen of the game mounts the demo walkthrough or the contextual
overlay. They are modelled as components on their own.

The Dafny project follows the program's structure:

| file | module | models |
|---|---|---|
| `common.dfy` | `Common` | optional values, progress ratios, the `hints[n - 1] \|\| ''` lookup, the tutorial progress bar |
| `text.dfy` | `Text` | the answer check `raw.toLowerCase().trim()` then `includes(keyword)` |
| `parents_clue.dfy` | `ParentsClue` | the Parents' Wisdom clue |
| `mystery_guest_clue.dfy` | `MysteryGuestClue` | the Mystery Guest clue |
| `quest_game.dfy` | `QuestGame` | the play page: sign-in, clue selection, score total |
| `cinematic_tutorial.dfy` | `CinematicTutorial` | the tutorial manager hook and its mount-time auto-start |
| `demo_tutorial.dfy` | `DemoTutorial` | the demo walkthrough's step logic and card placement |
| `contextual_tutorial.dfy` | `ContextualTutorial` | the show-each-step-once overlay selection |

The modelling choices are these:

- Components that hold React state are classes:
  - the state variables are fields;
  - every event handler is a method with a `modifies` clause;
  - a `Valid()` predicate states the invariant that every handler keeps.
- A handler that is wired to one screen's button requires that screen.
  Three handlers are the exception. Each is wired to a single screen but
  has no screen guard in its body, so it is total:
  - `QuestGame.Session.HandleStartQuest` (the onboarding button);
  - `QuestGame.Session.HandleSelectClue` (the two selection cards);
  - `ParentsClue.Clue.HandleTextSubmit` (the two proverb screens).
- The fixed computations are functions with contracts:
  - scoring;
  - keyword matching;
  - hint lookup;
  - progress ratios;
  - card placement.
- Each clue's screens form a declared step graph, `IsSuccessor`. Every
  step-changing handler is proved to follow an edge of that graph.

## Model

| member | source | states |
|---|---|---|
| Common.HintAt | src/components/clues/ParentsClue.tsx:156 | the n-th hint (counting from 1) when n is in range, `""` for every other counter (0, negative, too large); with non-empty hints, non-empty exactly for the in-range counters |
| Common.StepProgress | src/components/CinematicTutorial.tsx:47 | the tutorial progress `(currentStep + 1) / steps.length` on a step with data lies in (0, 1] (a percentage at most 100) and is whole exactly on the last step; the same expression is used by the demo walkthrough |
| Common.StepProgressIncreasing | src/components/DemoTutorial.tsx:41 | a later step shows a strictly fuller progress bar |
| Text.IsWhitespace | src/components/clues/ParentsClue.tsx:114 | the characters `trim()` removes: the ECMAScript white-space and line-terminator characters (a definition; `TrimSlice` and `TrimEmptyIffBlank` state what trimming does with them) |
| Text.Lower | src/components/clues/ParentsClue.tsx:114 | `toLowerCase` keeps the length, turns every ASCII upper-case letter into its lower-case partner and keeps every other character |
| Text.Trim | src/app/play/page.tsx:37 | `trim()` as the removal of leading, then trailing whitespace (a definition; `TrimSlice`, `TrimEmptyIffBlank` and `NormalizeIgnoresPadding` state its properties) |
| Text.Normalize | src/components/clues/ParentsClue.tsx:114 | lower-case, then trim: the normalisation of every answer check (a definition; `NormalizeIgnoresPadding` and `MatchesIffLowered` state its properties) |
| Text.Contains | src/components/clues/ParentsClue.tsx:118 | `includes`: the empty keyword occurs in every answer, and no keyword longer than the answer occurs in it |
| Text.Matches | src/components/clues/ParentsClue.tsx:117-121 | an answer passes when its normalised text includes one of the keywords (a definition; `MatchesIffLowered`, `MatchesIgnoresCaseAndPadding` and `MatchesSuperstring` state its properties) |
| Text.NormalizeIgnoresPadding | src/components/clues/PersonXClue.tsx:155 | whitespace added before or after an answer does not change its normalised text |
| Text.FirstVisibleNotBlank | src/components/clues/ParentsClue.tsx:396 | an answer that starts with a visible character is not blank, so its submit button is enabled |
| Text.TrimSlice | src/components/clues/ParentsClue.tsx:115 | `trim()` returns a contiguous slice of its input; everything cut off is whitespace and a non-empty result starts and ends with a non-whitespace character |
| Text.TrimEmptyIffBlank | src/app/play/page.tsx:37 | `trim()` is empty exactly when every character is whitespace |
| Text.ContainsTrimmed | src/components/clues/ParentsClue.tsx:115-119 | for a keyword without surrounding whitespace, trimming never changes whether the keyword occurs |
| Text.MatchesIffLowered | src/components/clues/ParentsClue.tsx:115-121 | the lower-case-then-trim-then-`includes` check accepts exactly the answers whose lower-cased text contains one of the keywords |
| Text.MatchesIgnoresCaseAndPadding | src/components/clues/PersonXClue.tsx:138-141 | surrounding whitespace and ASCII letter case never change the verdict |
| Text.MatchesSuperstring | src/components/clues/PersonXClue.tsx:138-141 | an answer that contains a keyword (in any ASCII case) anywhere is accepted |
| Text.ShortAnswerRejected | src/components/clues/ParentsClue.tsx:115-121 | an answer shorter than every keyword is rejected |
| ParentsClue.Path.Other | src/components/clues/ParentsClue.tsx:461 | the next family of the transition screen is never the current one |
| ParentsClue.IsSuccessor | src/components/clues/ParentsClue.tsx:191-545 | the screen graph: which screen each screen's buttons can lead to (a definition; every step-changing handler ensures that it follows an edge, and `CompleteIsOnlyTerminal` states its shape) |
| ParentsClue.CorrectStep | src/components/clues/ParentsClue.tsx:103-104 | a correct answer leads to the same question's `-correct` screen, of the same family |
| ParentsClue.InterstitialNext | src/components/clues/ParentsClue.tsx:313-318 | a `-correct` screen continues on the same family: father to mother, mother to the proverb |
| ParentsClue.CompleteIsOnlyTerminal | src/components/clues/ParentsClue.tsx:191-545 | every screen but `complete` has a button that leads on, and `complete` has none |
| ParentsClue.QuestionsFor | src/components/clues/ParentsClue.tsx:53-88 | every question screen offers three options: two wrong ones, then the option `c`, the only correct one; other screens offer none |
| ParentsClue.Shuffle | src/components/clues/ParentsClue.tsx:44-51 | the Fisher-Yates shuffle returns a permutation of its input (same length, same multiset) |
| ParentsClue.ShuffledQuestions | src/components/clues/ParentsClue.tsx:53-88 | the displayed options are a permutation of the screen's options; exactly the option `c` is correct and a question screen always shows a correct option |
| ParentsClue.Keywords | src/components/clues/ParentsClue.tsx:117-121 | exactly the two proverb screens have keywords, and every keyword is non-empty and free of surrounding whitespace |
| ParentsClue.Accepts | src/components/clues/ParentsClue.tsx:113-122 | the verdict of the text submit on a screen; only a proverb screen ever accepts an answer |
| ParentsClue.AcceptsExactly | src/components/clues/ParentsClue.tsx:115-121 | the groom's proverb accepts exactly the answers whose lower-cased text contains "balance", "harmony" or "patience"; the bride's accepts exactly those containing "wisdom"; no other screen accepts anything |
| ParentsClue.AutoFill | src/components/clues/ParentsClue.tsx:144 | the answer filled in after the third failure: "Balance" on the groom's proverb, "Wisdom" otherwise (a definition; `AutoFillAccepted` states that it passes) |
| ParentsClue.AutoFillAccepted | src/components/clues/ParentsClue.tsx:143-145 | the answer filled in after the third failed attempt passes the check of the screen it is filled in on |
| ParentsClue.ProverbAward | src/components/clues/ParentsClue.tsx:125 | a proverb earns 1 to 10 points: 10 exactly with no hint, one less per hint, never below 1 |
| ParentsClue.ProverbAwardMonotone | src/components/clues/ParentsClue.tsx:125 | more hints never earn more points |
| ParentsClue.HintText | src/components/clues/ParentsClue.tsx:149-166 | on a proverb screen, the hint for counters 1 to 3 is that family's hint and is empty otherwise; other screens show none |
| ParentsClue.Ordinal | src/components/clues/ParentsClue.tsx:170-187 | the progress table numbers every screen from 1 to 14, and 14 is `complete` only |
| ParentsClue.OrdinalInjective | src/components/clues/ParentsClue.tsx:170-185 | no two screens share a number |
| ParentsClue.Progress | src/components/clues/ParentsClue.tsx:168-189 | the progress ratio lies in (0, 1] and is whole exactly on `complete` |
| ParentsClue.ProgressDropsAfterTransition | src/components/clues/ParentsClue.tsx:178-183 | the bar moves backwards when the transition screen leads to the second family |
| ParentsClue.Clue.constructor | src/components/clues/ParentsClue.tsx:31-39 | the clue starts on the choice screen with no family, no score, no answer and no hints |
| ParentsClue.Clue.HandleParentChoice | src/components/clues/ParentsClue.tsx:90-93 | choosing a family records it and opens the intro screen; nothing else changes |
| ParentsClue.Clue.StartListening | src/components/clues/ParentsClue.tsx:253 | the intro screen opens the chosen family's father question |
| ParentsClue.Clue.HandleMCAnswer | src/components/clues/ParentsClue.tsx:95-112 | a correct option adds exactly one point and moves to the `-correct` screen; a wrong one changes nothing |
| ParentsClue.Clue.ContinueAfterCorrect | src/components/clues/ParentsClue.tsx:338-339 | a `-correct` screen's button moves along the family's path and changes nothing else |
| ParentsClue.Clue.SetTextAnswer | src/components/clues/ParentsClue.tsx:389 | the text field holds what was typed |
| ParentsClue.Clue.HandleTextSubmit | src/components/clues/ParentsClue.tsx:114-147 | a non-blank answer (the button is disabled for a blank one) is checked: an accepted proverb adds `max(1, 10 - currentHints)`, clears the answer and the hint counter, records the family, and leads to `transition` after the first family and `complete` after the second; a rejected one adds a hint to both counters, keeps step and score, and fills in the answer from the third failure; in both cases the family score range is kept |
| ParentsClue.Clue.ContinueToOtherPath | src/components/clues/ParentsClue.tsx:460-485 | the transition screen switches to the other family's father question; score and completed families are unchanged |
| ParentsClue.Clue.FinalScore | src/components/clues/ParentsClue.tsx:541-542 | a completed clue hands in its score, which always lies between 6 and 24 |
| ParentsClue.SubmitAccepted | src/components/clues/ParentsClue.tsx:114-147 | typing an accepted, non-blank proverb and submitting it adds that proverb's award, clears the hint counter and leads to `transition` after the first family and `complete` after the second |
| ParentsClue.SubmitRejected | src/components/clues/ParentsClue.tsx:114-147 | typing a rejected, non-blank proverb and submitting it adds one hint and keeps the screen, the score and the families |
| ParentsClue.GroomPathFirstTry | src/components/clues/ParentsClue.tsx:90-147 | the groom's family with every answer right on the first try reaches the transition screen with 12 points and no hint |
| ParentsClue.GroomFirstWalkthrough | src/components/clues/ParentsClue.tsx:90-147 | groom first with every question right, one wrong proverb attempt on the bride's side: 23 points |
| MysteryGuestClue.Part1Award | src/components/clues/PersonXClue.tsx:127 | part 1 earns 1 to 5 points, 5 exactly with no hint |
| MysteryGuestClue.Part2Award | src/components/clues/PersonXClue.tsx:130 | part 2 earns an even 2 to 10 points, 10 exactly with no hint |
| MysteryGuestClue.CalculateScore | src/components/clues/PersonXClue.tsx:125-136 | the clue earns 3 to 20 points; 20 exactly when no hint was used in either part, and at most 14 once any hint was used |
| MysteryGuestClue.CalculateScoreMonotone | src/components/clues/PersonXClue.tsx:125-136 | more hints in either part never earn more points |
| MysteryGuestClue.CalculateScoreFloor | src/components/clues/PersonXClue.tsx:125-136 | with both hint counters within the three hints there are, the clue earns at least 6 points |
| MysteryGuestClue.IsSuccessor | src/components/clues/PersonXClue.tsx:218-661 | the screen graph: which screen each screen's buttons can lead to (a definition; every step-changing handler ensures that it follows an edge) |
| MysteryGuestClue.AcceptsExactly | src/components/clues/PersonXClue.tsx:138-168 | part 1 accepts exactly the answers whose lower-cased text contains "bilicsan"; part 2 exactly those containing "navigator", "pathfinder" or "guide" |
| MysteryGuestClue.Part1HintText | src/components/clues/PersonXClue.tsx:170-177 | the n-th part-1 hint for n in 1 to 3, empty for every other counter |
| MysteryGuestClue.Part2HintText | src/components/clues/PersonXClue.tsx:179-186 | the n-th part-2 hint for n in 1 to 3, empty for every other counter |
| MysteryGuestClue.Clue.constructor | src/components/clues/PersonXClue.tsx:30-34 | the clue starts on the introduction with empty answers and no hints |
| MysteryGuestClue.Clue.BeginInvestigation | src/components/clues/PersonXClue.tsx:218-219 | the introduction leads to the investigation screen |
| MysteryGuestClue.Clue.OpenGuestList | src/components/clues/PersonXClue.tsx:255-256 | the investigation screen opens the guest list |
| MysteryGuestClue.Clue.InvestigationHint | src/components/clues/PersonXClue.tsx:271-275 | the investigation screen's hint tool sets the part-1 counter to 1 and opens the hint screen |
| MysteryGuestClue.Clue.GuestListHint | src/components/clues/PersonXClue.tsx:352-356 | the guest list's hint button adds one hint, capped at 3, and opens the hint screen |
| MysteryGuestClue.Clue.NextPart1Hint | src/components/clues/PersonXClue.tsx:419-427 | "Next Hint", shown only below 3 hints, adds exactly one hint |
| MysteryGuestClue.Clue.BackToGuestList | src/components/clues/PersonXClue.tsx:430-431 | the hint screen returns to the guest list |
| MysteryGuestClue.Clue.SetPart1Answer | src/components/clues/PersonXClue.tsx:338 | the part-1 field holds what was typed |
| MysteryGuestClue.Clue.HandlePart1Submit | src/components/clues/PersonXClue.tsx:138-152 | a non-blank answer (the button is disabled for a blank one) is checked: an accepted answer leads to the part-1 success screen; a rejected one clears the field and stays; hint counters never change |
| MysteryGuestClue.Clue.ContinueToRole | src/components/clues/PersonXClue.tsx:475-476 | part-1 success leads to the role screen |
| MysteryGuestClue.Clue.RoleHint | src/components/clues/PersonXClue.tsx:537-541 | the role screen's hint button sets the part-2 counter to 1, even when more hints were already counted, and opens the hint screen (see Findings) |
| MysteryGuestClue.Clue.RoleHintKeepingCount | src/components/clues/PersonXClue.tsx:537-541 | the corrected hint button opens the hint screen with at least one hint counted and never lowers the counter |
| MysteryGuestClue.Clue.NextPart2Hint | src/components/clues/PersonXClue.tsx:604-612 | "Next Hint", shown only below 3 hints, adds exactly one hint |
| MysteryGuestClue.Clue.BackToRole | src/components/clues/PersonXClue.tsx:615-616 | the hint screen returns to the role screen |
| MysteryGuestClue.Clue.SetPart2Answer | src/components/clues/PersonXClue.tsx:524 | the part-2 field holds what was typed |
| MysteryGuestClue.Clue.HandlePart2Submit | src/components/clues/PersonXClue.tsx:154-168 | a non-blank answer (the button is disabled for a blank one) is checked: an accepted answer leads to the part-2 success screen; a rejected one clears the field and stays |
| MysteryGuestClue.Clue.ContinueToComplete | src/components/clues/PersonXClue.tsx:660-661 | part-2 success leads to the final screen |
| MysteryGuestClue.Clue.FinalScore | src/components/clues/PersonXClue.tsx:671-672 | the final screen hands in `calculateScore()`, between 6 and 20, since both hint counters stay within 3 |
| MysteryGuestClue.NoHintWalkthrough | src/components/clues/PersonXClue.tsx:125-168 | "Bilicsan" and then "navigator", both on the first try: 20 points |
| MysteryGuestClue.RoleScreenClue | src/components/clues/PersonXClue.tsx:138-152 | "Bilicsan" on the first try leads to the role screen with no hint counted |
| MysteryGuestClue.RoleHintResetWalkthrough | src/components/clues/PersonXClue.tsx:537-541 | role hint, "Next Hint" twice, "Back", role hint again: the part-2 counter falls from 3 to 1 and the part-2 award rises |
| MysteryGuestClue.CorrectedRoleHintWalkthrough | src/components/clues/PersonXClue.tsx:604-616 | the same clicks with the corrected hint button keep the counter at 3 |
| QuestGame.SumAppend | src/app/play/page.tsx:43 | adding a score to the list of awards adds exactly that score to their sum |
| QuestGame.HasNickname | src/app/play/page.tsx:37 | the start button's test: the trimmed nickname is not empty (a definition; `HasNicknameIffVisible` states it) |
| QuestGame.HasNicknameIffVisible | src/app/play/page.tsx:36-40 | a nickname is accepted exactly when it has a non-whitespace character |
| QuestGame.Session.constructor | src/app/play/page.tsx:17-22 | a session starts at sign-in with no clue, no score and nothing completed |
| QuestGame.Session.SetNickname | src/app/play/page.tsx:95 | the nickname field holds what was typed |
| QuestGame.Session.SetEventCode | src/app/play/page.tsx:105 | the event-code field holds what was typed |
| QuestGame.Session.HandleStartQuest | src/app/play/page.tsx:36-40 | the quest moves to clue selection exactly when the nickname is not blank |
| QuestGame.Session.ClueSelectable | src/app/play/page.tsx:199 | a clue's card is enabled while the clue is not among the completed ones (a definition; `HandleClueComplete` ensures a finished clue is no longer selectable) |
| QuestGame.Session.HandleClueComplete | src/app/play/page.tsx:42-51 | the clue's score is added to the total, the clue is appended to the completed ones and can no longer be selected, and the completion screen is shown; the total stays the sum of all scores handed in |
| QuestGame.Session.HandleSelectClue | src/app/play/page.tsx:53-60 | the selected clue is recorded whatever it is; "parents" and "personx" start their clue and any other id leaves the screen as it was |
| QuestGame.Session.HandleBackToSelection | src/app/play/page.tsx:62-65 | back to clue selection with no clue selected |
| QuestGame.Session.TryAnotherClue | src/app/play/page.tsx:285-289 | the completion screen returns to clue selection with no clue selected |
| QuestGame.TwoClueQuest | src/app/play/page.tsx:42-60 | playing both clues leaves a total equal to the sum of their two scores and both clues completed, in order |
| CinematicTutorial.TutorialManager.constructor | src/components/CinematicTutorial.tsx:293-295 | the tutorial starts inactive on step 0 with the intro not yet seen |
| CinematicTutorial.TutorialManager.StartTutorial | src/components/CinematicTutorial.tsx:297-300 | starting activates the tutorial on step 0 |
| CinematicTutorial.TutorialManager.ToggleTutorial | src/components/CinematicTutorial.tsx:302-304 | toggling flips only the active flag |
| CinematicTutorial.TutorialManager.NextStep | src/components/CinematicTutorial.tsx:306-312 | advances by one while a later step exists; on the last step (or with no steps) it deactivates and keeps the index; the index stays within 0 to max(0, steps - 1) |
| CinematicTutorial.TutorialManager.PreviousStep | src/components/CinematicTutorial.tsx:314-318 | steps back by one, except on step 0, where nothing changes |
| CinematicTutorial.TutorialManager.ReplayStep | src/components/CinematicTutorial.tsx:320-322 | replay changes nothing |
| CinematicTutorial.TutorialManager.SkipTutorial | src/components/CinematicTutorial.tsx:324-326 | skipping deactivates and keeps the step |
| CinematicTutorial.TutorialManager.CloseTutorial | src/components/CinematicTutorial.tsx:328-330 | closing deactivates and keeps the step |
| CinematicTutorial.TutorialManager.SetHasSeenIntro | src/components/CinematicTutorial.tsx:295 | the intro flag holds what was set |
| CinematicTutorial.TutorialManager.AutoStartOnMount | src/components/clues/PersonXClue.tsx:104-109 | the mount effect on a manager: with the intro not yet seen it starts the tutorial on step 0; the intro ends up marked as seen |
| CinematicTutorial.MountMysteryGuestClue | src/components/clues/PersonXClue.tsx:101-109 | every entry into the clue creates a fresh manager, so the mount effect always starts the tutorial on step 0 |
| CinematicTutorial.TutorialManager.Renders | src/components/CinematicTutorial.tsx:68 | the overlay is drawn only while active and on a step with data (a definition; `Progress` requires it) |
| CinematicTutorial.TutorialManager.Progress | src/components/CinematicTutorial.tsx:47 | a drawn overlay's progress bar lies in (0, 1] and is full exactly on the last step |
| CinematicTutorial.WatchToEnd | src/components/CinematicTutorial.tsx:306-312 | from the clue's mount, pressing "next" n times through an n-step tutorial shows the steps 0, 1, ..., n - 1, each once and in order, and ends inactive on the last step |
| DemoTutorial.Tour.constructor | src/components/DemoTutorial.tsx:28-29 | the walkthrough starts hidden on step 0 |
| DemoTutorial.Tour.OnActiveChange | src/components/DemoTutorial.tsx:31-38 | activation shows the walkthrough from step 0; deactivation hides it and keeps the step |
| DemoTutorial.Tour.HandleNext | src/components/DemoTutorial.tsx:43-49 | advances by one while a later step exists; on the last step the step stays and completion is reported |
| DemoTutorial.Tour.HandlePrevious | src/components/DemoTutorial.tsx:51-55 | steps back by one, except on step 0 |
| DemoTutorial.Tour.HandleReplay | src/components/DemoTutorial.tsx:57-59 | replay always returns to step 0 |
| DemoTutorial.Tour.Renders | src/components/DemoTutorial.tsx:61 | the walkthrough is drawn only while visible and on a step with data (a definition; `Progress` requires it) |
| DemoTutorial.Tour.Progress | src/components/DemoTutorial.tsx:41 | a drawn step's progress bar lies in (0, 1] and is full exactly on the last step |
| DemoTutorial.PressesToComplete | src/components/DemoTutorial.tsx:43-49 | a freshly activated n-step walkthrough reports completion after exactly n presses of "next" |
| DemoTutorial.PositionClasses | src/components/DemoTutorial.tsx:193-207 | every position string gets one of the five placements |
| DemoTutorial.PositionClassesDefaultsToCenter | src/components/DemoTutorial.tsx:203-205 | a position that is not one of the five names is placed like "center" |
| DemoTutorial.PositionClassesDistinct | src/components/DemoTutorial.tsx:194-205 | the five named positions get five different placements |
| ContextualTutorial.FindFirst | src/components/ContextualTutorial.tsx:41 | finds the first entry written for the step, and finds nothing exactly when no entry is |
| ContextualTutorial.HasContent | src/components/ContextualTutorial.tsx:41-43 | whether some entry is written for the step (a definition; `OnQuestStep` shows an overlay only for such a step) |
| ContextualTutorial.Overlay.constructor | src/components/ContextualTutorial.tsx:33-35 | the overlay starts hidden with no entry and no step shown |
| ContextualTutorial.Overlay.OnQuestStep | src/components/ContextualTutorial.tsx:38-55 | while enabled, a step that has an entry and was not shown before gets its first entry made visible and is added to the shown steps; the auto-dismiss is scheduled exactly then, except on the introduction; in every other case (disabled, no entry, already shown) nothing changes |
| ContextualTutorial.Overlay.HandleDismiss | src/components/ContextualTutorial.tsx:74-76 | dismissing hides the overlay and keeps the chosen entry and the shown steps |
| ContextualTutorial.ShowOrder | src/components/ContextualTutorial.tsx:38-55 | over any sequence of quest steps, no step's overlay is shown twice, and every visited step that has an entry is shown once |

## Left out

- Timers are immediate transitions:
  - the 1.5 s delay before a correct answer's screen;
  - the 2 s delay before the clue-complete screen;
  - the 1 s delay before a rejected Mystery Guest answer is cleared (`PersonXClue.tsx:148-150`, `164-166`);
  - the delays before a tutorial looks for its target or shows the welcome overlay.
  During the 1.5 s and 2 s delays a full-screen success layer covers the page (`ParentsClue.tsx:592-593`, `PersonXClue.tsx:750-751`, `page.tsx:329-330`), so no click is lost by making them immediate.
  During the 1 s delay the field can still be edited, and what is typed then is erased when the delay ends; that erasure is not modelled.
- ContextualTutorial.Overlay.OnQuestStep: the 8-second auto-dismiss is reported as `dismissScheduled`. When it fires, it does what `HandleDismiss` does.
- ParentsClue.Shuffle: `Math.random()` is replaced by a sequence of supplied draws, reduced into the allowed range.
- Progress bars are exact ratios rather than floating-point percentages. The CSS width they feed is not modelled.
- Text.MatchesIffLowered: `toLowerCase` is modelled for ASCII letters only. Non-ASCII case folding is not modelled.
- Everything that touches the DOM is not modelled:
  - target lookup and scrolling;
  - spotlight clip paths;
  - overlay placement in pixels;
  - the confetti and success animations;
  - all JSX rendering other than the render guards.
- The `showSuccess` flags of the clues and of the play page are not modelled. They show the success layer during a delay, and that layer blocks input; with the delays immediate, the layer is never on screen.
- The play page's welcome overlay (`showWelcomeOverlay`, `hasSeenWelcome`, `dismissWelcome`) is not modelled. Neither is any navigation to other routes. The landing page is not part of this model.
- CinematicTutorial.TutorialManager: one manager stands for one mount of the clue screen. A new mount creates a new manager (`MountMysteryGuestClue`).
- CinematicTutorial.TutorialManager, DemoTutorial.Tour: the number of steps is fixed for the object's life, although both components receive the steps as a prop. The Mystery Guest clue, the only screen that mounts the cinematic manager, passes a fixed list.
- ParentsClue.Clue.HandleMCAnswer: the question a delayed success refers to is the one captured at click time. With the delay modelled as immediate, this is always the current screen.
- ParentsClue.Clue.HandleTextSubmit: the model checks the answer against the screen's keywords on any screen, as the source does. Only the proverb screens show the submit button.
- ParentsClue.Clue.Valid: `totalHintsUsed` is tracked, but the score does not depend on it. The source displays it and nothing more.

## Findings

| source | as written | input that shows it | evidently intended | confidence | as-written member | corrected member |
|---|---|---|---|---|---|---|
| src/components/clues/PersonXClue.tsx:537-541 | the role screen's hint button sets the part-2 hint counter to 1, whatever it was | role screen, hint, "Next Hint" twice (3 hints), "Back", hint again: the counter drops to 1 and the part-2 award rises from 4 to 8 | a hint once counted stays counted: the button opens the hint screen with at least one hint | not executed | MysteryGuestClue.RoleHintResetWalkthrough | MysteryGuestClue.Clue.RoleHintKeepingCount |
