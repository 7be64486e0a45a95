# xDrills game screen, modelled in Dafny

xDrills is a multiplication drill. The setup screen picks a times table (the
multiplier, 2 to 12) and a number of questions (the difficulty: 5, 10, 15 or 20).
The game screen (`GameView`) then asks `multiplier x multiplicand = ?` with a
freshly drawn multiplicand, keeps a score and a question count, shows a result
dialog after each submitted answer and a summary dialog when the count reaches
the difficulty.

This project models the game screen's session state and its transitions:

- `wrappers.dfy`: `Option`, the type of the answer field, which may hold no number.
- `decimal.dfy`: the decimal text that string interpolation gives an integer,
  with `ParseInt` as its inverse. The messages are built from this text.
- `drills.dfy` (module `Drills`): the whole state as a `Game` value, the dialog
  texts, one function per transition (`EvaluateAnswer`, `NextGame`, `SubmitAnswer`,
  `GameFinished`, `RestartGame`, plus `Start` for initialisation), the state
  invariant `Inv`, and lemmas about single transitions and about the messages.
- `session.dfy` (module `Session`): a session as a sequence of user events
  (typing an answer, submitting, skipping) and lemmas about every such session,
  proved by induction.
- `game_view.dfy` (module `DrillsView`): class `GameView`, whose fields are the
  screen's state and whose methods update them in place. Each method is proved
  to yield the state that the matching `Drills` function gives. A small client,
  `FiveCorrectAnswers`, plays five correct answers on the three times table.

Every random draw `Int.random(in: 2...12)` is a parameter `r` with `2 <= r <= 12`.

The model follows the code as written, quirks included:

- `restartGame` sets the question count to 1, not 0, so a restarted game ends one
  question early (`Session.RestartedSession`).
- Nothing caps the count at the difficulty: `nextGame` has no guard, so the count
  can pass the difficulty, and the summary is shown only when the count equals it
  (`Session.FreshSession`).
- The summary's singular/plural choice tests `answer == 1`. The answer has just
  been cleared at that point, so the summary always says "answers were", even for
  a score of 1 (`Drills.SummaryAlwaysPlural`).

## Model

| member | source | states |
|---|---|---|
| `Decimal.NatToString` | xDrills/ContentView.swift:37 | the text of a natural number is non-empty, all digits, has no leading zero, and is "0" exactly for 0 |
| `Decimal.IntToString` | xDrills/ContentView.swift:37 | the text of an integer is non-empty, made of digits and '-', and starts with '-' exactly when the integer is negative |
| `Decimal.ParseIntToString` | xDrills/ContentView.swift:37 | parsing the text of any integer gives that integer back |
| `Decimal.IntToStringInjective` | xDrills/ContentView.swift:60 | different integers have different texts |
| `Decimal.NumeralSplitUnique` | xDrills/ContentView.swift:60 | a number's text followed by text starting with a non-numeral character splits in only one way |
| `Drills.WrongMessage` | xDrills/ContentView.swift:37 | the wrong-answer message, "The correct answer is " then the product's text then ".", with the literals as in the source character for character; the product's text stands between the prefix and the final period |
| `Drills.FinishTail` | xDrills/ContentView.swift:60 | the text after the score, " answer" then " was" (singular) or "s were" (plural) then " correct.\nDo you want to restart this level?", literals as in the source; it starts with a space and its eighth character tells the two forms apart |
| `Drills.Start` | xDrills/ContentView.swift:11-26 | the initial state: the chosen settings, the initial draw as multiplicand, no answer, count and score 0, both dialogs hidden, all dialog texts empty |
| `Drills.EvaluateAnswer` | xDrills/ContentView.swift:28-39 | score rises by 1 exactly when the answer equals multiplier times multiplicand (an empty answer never does); the result dialog is always shown, titled "Correct!" or "Wrong!"; a wrong answer's message names the product; nothing else changes |
| `Drills.GameFinished` | xDrills/ContentView.swift:56-61 | shows the summary titled "Finished!" with the difficulty and the score, singular only if the answer field holds 1; nothing else changes |
| `Drills.NextGame` | xDrills/ContentView.swift:46-54 | count up by exactly 1, answer cleared, the draw becomes the multiplicand, score and result dialog unchanged; the summary is filled in, in the plural form, exactly when the new count equals the difficulty, and is otherwise untouched |
| `Drills.SubmitAnswer` | xDrills/ContentView.swift:41-44 | net effect of evaluate then advance: count up by 1, score up by 1 exactly when the answer was correct, the result dialog for that answer; the summary is filled in when the new count equals the difficulty and is left unchanged otherwise |
| `Drills.RestartGame` | xDrills/ContentView.swift:63-68 | count set to 1, score to 0, answer cleared and the draw as multiplicand; settings and dialogs unchanged |
| `Drills.StartEstablishesInv` | xDrills/ContentView.swift:70-73 | for settings from the setup screen's choices and an in-range draw, the initial state satisfies `0 <= score <= totalQuestions` and the range conditions |
| `Drills.TransitionsPreserveInv` | xDrills/ContentView.swift:41-68 | submit, skip, restart and finish each preserve the invariant, given an in-range draw |
| `Drills.EvaluateAloneBreaksInv` | xDrills/ContentView.swift:28-39 | evaluating alone can put the score ahead of the count; within `submitAnswer` the advance step that follows restores it (`Drills.TransitionsPreserveInv`) |
| `Drills.ProductRange` | xDrills/ContentView.swift:29 | within the offered ranges the product lies between 4 and 144 |
| `Drills.WrongMessageRevealsProduct` | xDrills/ContentView.swift:37 | the product can be read back from a wrong answer's message |
| `Drills.CorrectMessageRevealsNothing` | xDrills/ContentView.swift:32 | the correct answer's message names no product |
| `Drills.FinishMessageDeterminesCounts` | xDrills/ContentView.swift:60 | the summary text determines the difficulty, the score and the grammatical number used |
| `Drills.SummaryAlwaysPlural` | xDrills/ContentView.swift:46-60 | when the advance step finishes the game, the summary is the plural form and never the singular one |
| `Session.Step` | xDrills/ContentView.swift:102-152 | one user event: typing writes only `answer` (the text field binding, :102); Submit (button :110-111, return key :151-152) runs `submitAnswer`; Skip (:124) runs `nextGame`; submits and skips count one question, clear the answer and take the draw; settings never change; the score moves only on a correct submit |
| `Session.RunKeepsSettings` | xDrills/ContentView.swift:11-12 | no session changes the multiplier or the difficulty |
| `Session.RunCountsQuestions` | xDrills/ContentView.swift:48 | after a session the count has risen by the number of submits and skips, with no cap |
| `Session.RunScoreBounds` | xDrills/ContentView.swift:33 | during a session the score never falls and rises by at most the number of submits |
| `Session.RunPreservesInv` | xDrills/ContentView.swift:18-19 | every session with in-range draws keeps `0 <= score <= totalQuestions` and the ranges |
| `Session.RunFinishes` | xDrills/ContentView.swift:51-53 | after a session the summary is shown exactly when it was shown before or the count reached the difficulty during the session |
| `Session.FreshSession` | xDrills/ContentView.swift:46-54 | from a new game screen, the summary is shown exactly when at least `difficulty` questions were submitted or skipped, and the count is their number, even beyond the difficulty |
| `Session.RestartedSession` | xDrills/ContentView.swift:63-68 | after a restart, with the summary dismissed beforehand, the summary appears again exactly when `difficulty - 1` more questions are submitted or skipped |
| `DrillsView.GameView.constructor` | xDrills/ContentView.swift:70-73 | requires the setup screen's choices (2...12, and 5, 10, 15 or 20) and an in-range draw; yields `Drills.Start` and the invariant |
| `DrillsView.GameView.EvaluateAnswer` | xDrills/ContentView.swift:28-39 | updates the fields to `Drills.EvaluateAnswer` of the old state; score up by 1 iff correct, count and multiplicand unchanged |
| `DrillsView.GameView.SubmitAnswer` | xDrills/ContentView.swift:41-44 | runs evaluate then advance, reaching `Drills.SubmitAnswer` of the old state, and keeps the invariant |
| `DrillsView.GameView.NextGame` | xDrills/ContentView.swift:46-54 | updates the fields to `Drills.NextGame` of the old state, calling `GameFinished` exactly when the count reaches the difficulty; keeps the invariant |
| `DrillsView.GameView.GameFinished` | xDrills/ContentView.swift:56-61 | updates the summary fields to `Drills.GameFinished` of the old state |
| `DrillsView.GameView.RestartGame` | xDrills/ContentView.swift:63-68 | updates the fields to `Drills.RestartGame` of the old state; keeps the invariant |

## Left out

- The random number generator: every draw is a parameter constrained to 2..12.
- All SwiftUI presentation of both screens. Their only logic is calling the
  transitions. This covers layout, gradients, the alerts, the toolbar, navigation
  and `ContentView_Previews`.
- The dismissal of the alerts: when a button is tapped, SwiftUI resets `showResult`
  or `showEndGame` through the binding. That is framework behaviour, so in the model
  a dialog flag, once set, stays set.
- The "Exit" and "Restart" buttons of the summary: their closures are empty; apart from
  dismissing the alert they change nothing. No user event in `Session.Event` can restart the game. `RestartGame`
  is modelled as a transition of its own.
- Keyboard focus (`showKeyboard`) and the "Done" button: they only control focus.
- Parsing of the text field: the answer is an arbitrary `Option<int>`, set by
  `Session.Enter` or by assigning the field.
- The default arguments of `init` (2 and 5): the constructor takes both values
  explicitly. Both defaults lie within the setup screen's choices.
- Overflow of Swift's 64-bit `Int`: integers are unbounded. `Drills.ProductRange`
  shows that the product stays at most 144. The count and the score would need
  about 2^63 actions to overflow.
