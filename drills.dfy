/**
 * The session state of the drill game screen (GameView) as a value, and one
 * function per transition of the screen. Every random draw of `GameView` is a
 * parameter `r`; the environment supplies a value in 2..12.
 */
module Drills {
  import opened Wrappers
  import opened Decimal

  /** The values the setup screen offers for the times table. */
  predicate MultiplierChoice(m: int) {
    2 <= m <= 12
  }

  /** The values the setup screen offers for the number of questions. */
  predicate DifficultyChoice(d: int) {
    d == 5 || d == 10 || d == 15 || d == 20
  }

  /** The range of every draw of a new multiplicand. */
  predicate DrawRange(r: int) {
    2 <= r <= 12
  }

  /** Every field of the game screen's state, under the names `GameView` gives them. */
  datatype Game = Game(
    multiplier: int,
    difficulty: int,
    answer: Option<int>,
    multiplicand: int,
    totalQuestions: int,
    score: int,
    showResult: bool,
    alertTitle: string,
    alertMessage: string,
    showEndGame: bool,
    endGameTitle: string,
    endGameMessage: string)

  const CorrectTitle: string := "Correct!"
  const WrongTitle: string := "Wrong!"
  const CorrectMessage: string := "This is the correct answer."
  const WrongPrefix: string := "The correct answer is "
  const FinishedTitle: string := "Finished!"
  const FinishPrefix: string := "You have finished "
  const FinishMiddle: string := " questions.\n"

  /**
   * The feedback after a wrong answer: the product's text stands between the
   * fixed prefix and a closing period.
   */
  function WrongMessage(product: int): (m: string)
    ensures |m| == |WrongPrefix| + |IntToString(product)| + 1
    ensures m[..|WrongPrefix|] == WrongPrefix
    ensures m[|WrongPrefix|..|m| - 1] == IntToString(product)
    ensures m[|m| - 1] == '.'
  {
    Associate(WrongPrefix, IntToString(product), ".");
    WrongPrefix + IntToString(product) + "."
  }

  /**
   * What follows the score in the summary. It starts with a space, and its
   * eighth character tells the singular form (a space) from the plural one.
   */
  function FinishTail(singular: bool): (t: string)
    ensures |t| > 7 && t[0] == ' '
    ensures (t[7] == ' ') <==> singular
  {
    " answer" + (if singular then " was" else "s were") + " correct.\nDo you want to restart this level?"
  }

  /** The end-of-game summary for a number of questions and a score. */
  function FinishMessage(difficulty: int, score: int, singular: bool): string {
    FinishPrefix + IntToString(difficulty) + FinishMiddle + IntToString(score) + FinishTail(singular)
  }

  /** The product the current question asks for. */
  function Product(g: Game): int {
    g.multiplier * g.multiplicand
  }

  /** The typed answer matches the product; an empty answer never matches. */
  predicate IsCorrect(g: Game) {
    g.answer == Some(Product(g))
  }

  /** The state after initialisation, with the initial draw `r` as multiplicand. */
  function Start(multiplier: int, difficulty: int, r: int): (g: Game)
    ensures g.multiplier == multiplier && g.difficulty == difficulty && g.multiplicand == r
    ensures g.answer == None && g.totalQuestions == 0 && g.score == 0
    ensures !g.showResult && !g.showEndGame
    ensures g.alertTitle == g.alertMessage == g.endGameTitle == g.endGameMessage == ""
  {
    Game(multiplier, difficulty, None, r, 0, 0, false, "", "", false, "", "")
  }

  /** Checks the typed answer against the product and fills in the result dialog. */
  function EvaluateAnswer(g: Game): (h: Game)
    ensures h.score == (if IsCorrect(g) then g.score + 1 else g.score)
    ensures h.showResult
    ensures h.alertTitle == (if IsCorrect(g) then CorrectTitle else WrongTitle)
    ensures h.alertMessage == (if IsCorrect(g) then CorrectMessage else WrongMessage(Product(g)))
    ensures h.(score := g.score, showResult := g.showResult, alertTitle := g.alertTitle,
               alertMessage := g.alertMessage) == g
  {
    if g.answer == Some(g.multiplier * g.multiplicand) then
      g.(showResult := true, alertTitle := CorrectTitle, alertMessage := CorrectMessage, score := g.score + 1)
    else
      g.(showResult := true, alertTitle := WrongTitle, alertMessage := WrongMessage(g.multiplier * g.multiplicand))
  }

  /** Fills in the end-of-game dialog; the plural test looks at `answer`, not at `score`. */
  function GameFinished(g: Game): (h: Game)
    ensures h.showEndGame && h.endGameTitle == FinishedTitle
    ensures h.endGameMessage == FinishMessage(g.difficulty, g.score, g.answer == Some(1))
    ensures h.(showEndGame := g.showEndGame, endGameTitle := g.endGameTitle,
               endGameMessage := g.endGameMessage) == g
  {
    g.(showEndGame := true, endGameTitle := FinishedTitle,
       endGameMessage := FinishMessage(g.difficulty, g.score, g.answer == Some(1)))
  }

  /**
   * The shared advance step, also the skip action: draws the next multiplicand,
   * counts the question, clears the answer, and finishes the game exactly when
   * the new count equals the number of questions. Nothing stops the count there.
   */
  function NextGame(g: Game, r: int): (h: Game)
    ensures h.totalQuestions == g.totalQuestions + 1
    ensures h.answer == None && h.multiplicand == r
    ensures h.score == g.score && h.multiplier == g.multiplier && h.difficulty == g.difficulty
    ensures h.showResult == g.showResult && h.alertTitle == g.alertTitle && h.alertMessage == g.alertMessage
    ensures h.showEndGame == (g.showEndGame || g.totalQuestions + 1 == g.difficulty)
    ensures g.totalQuestions + 1 == g.difficulty ==>
              h.endGameTitle == FinishedTitle && h.endGameMessage == FinishMessage(g.difficulty, g.score, false)
    ensures g.totalQuestions + 1 != g.difficulty ==>
              h.endGameTitle == g.endGameTitle && h.endGameMessage == g.endGameMessage
  {
    var next := g.(multiplicand := r, totalQuestions := g.totalQuestions + 1, answer := None);
    if next.totalQuestions == next.difficulty then GameFinished(next) else next
  }

  /** The submit action: evaluate the answer, then advance. */
  function SubmitAnswer(g: Game, r: int): (h: Game)
    ensures h.totalQuestions == g.totalQuestions + 1
    ensures h.score == (if IsCorrect(g) then g.score + 1 else g.score)
    ensures h.answer == None && h.multiplicand == r
    ensures h.multiplier == g.multiplier && h.difficulty == g.difficulty
    ensures h.showResult
    ensures h.alertTitle == (if IsCorrect(g) then CorrectTitle else WrongTitle)
    ensures h.alertMessage == (if IsCorrect(g) then CorrectMessage else WrongMessage(Product(g)))
    ensures h.showEndGame == (g.showEndGame || g.totalQuestions + 1 == g.difficulty)
    ensures g.totalQuestions + 1 == g.difficulty ==>
              h.endGameTitle == FinishedTitle && h.endGameMessage == FinishMessage(g.difficulty, h.score, false)
    ensures g.totalQuestions + 1 != g.difficulty ==>
              h.endGameTitle == g.endGameTitle && h.endGameMessage == g.endGameMessage
  {
    NextGame(EvaluateAnswer(g), r)
  }

  /**
   * The restart action: the count restarts at 1, the score at 0, the answer is
   * cleared and a new multiplicand drawn; the dialogs are left as they are.
   */
  function RestartGame(g: Game, r: int): (h: Game)
    ensures h.totalQuestions == 1 && h.score == 0 && h.answer == None && h.multiplicand == r
    ensures h.(totalQuestions := g.totalQuestions, score := g.score, answer := g.answer,
               multiplicand := g.multiplicand) == g
  {
    g.(totalQuestions := 1, multiplicand := r, score := 0, answer := None)
  }

  /** The state invariant: settings and multiplicand in range, 0 <= score <= totalQuestions. */
  predicate Inv(g: Game) {
    && MultiplierChoice(g.multiplier)
    && DifficultyChoice(g.difficulty)
    && DrawRange(g.multiplicand)
    && 0 <= g.score <= g.totalQuestions
  }

  lemma StartEstablishesInv(multiplier: int, difficulty: int, r: int)
    requires MultiplierChoice(multiplier) && DifficultyChoice(difficulty) && DrawRange(r)
    ensures Inv(Start(multiplier, difficulty, r))
  {
  }

  lemma TransitionsPreserveInv(g: Game, r: int)
    requires Inv(g) && DrawRange(r)
    ensures Inv(SubmitAnswer(g, r))
    ensures Inv(NextGame(g, r))
    ensures Inv(RestartGame(g, r))
    ensures Inv(GameFinished(g))
  {
  }

  /**
   * Evaluating alone does not keep the invariant: a correct answer when the
   * score already equals the count puts the score ahead until the advance step.
   */
  lemma EvaluateAloneBreaksInv()
    ensures Inv(Start(3, 5, 4).(answer := Some(12)))
    ensures !Inv(EvaluateAnswer(Start(3, 5, 4).(answer := Some(12))))
  {
  }

  /** Within the offered ranges the product lies in 4..144, far inside a 64-bit integer. */
  lemma ProductRange(g: Game)
    requires Inv(g)
    ensures 4 <= Product(g) <= 144
  {
  }

  /** Reads back the product from a result message; None when it names none. */
  function RevealedProduct(message: string): Option<int> {
    if |message| > |WrongPrefix| && message[..|WrongPrefix|] == WrongPrefix && message[|message| - 1] == '.' then
      ParseInt(message[|WrongPrefix|..|message| - 1])
    else
      None
  }

  /** A wrong-answer message gives the product back. */
  lemma WrongMessageRevealsProduct(product: int)
    ensures RevealedProduct(WrongMessage(product)) == Some(product)
  {
    ParseIntToString(product);
  }

  /** The correct-answer message names no product. */
  lemma CorrectMessageRevealsNothing()
    ensures RevealedProduct(CorrectMessage) == None
  {
    assert CorrectMessage[2] != WrongPrefix[2];
  }

  /**
   * The summary determines the number of questions, the score and the
   * grammatical number it was written with.
   */
  lemma FinishMessageDeterminesCounts(d1: int, s1: int, b1: bool, d2: int, s2: int, b2: bool)
    requires FinishMessage(d1, s1, b1) == FinishMessage(d2, s2, b2)
    ensures d1 == d2 && s1 == s2 && b1 == b2
  {
    var D1, S1, T1 := IntToString(d1), IntToString(s1), FinishTail(b1);
    var D2, S2, T2 := IntToString(d2), IntToString(s2), FinishTail(b2);
    FinishMessageNested(d1, s1, b1);
    FinishMessageNested(d2, s2, b2);
    assert !IsNumeralChar(FinishMiddle[0]);
    DropCommonPrefix(FinishPrefix, D1 + (FinishMiddle + (S1 + T1)), D2 + (FinishMiddle + (S2 + T2)));
    NumeralSplitUnique(D1, FinishMiddle + (S1 + T1), D2, FinishMiddle + (S2 + T2));
    IntToStringInjective(d1, d2);
    DropCommonPrefix(FinishMiddle, S1 + T1, S2 + T2);
    NumeralSplitUnique(S1, T1, S2, T2);
    IntToStringInjective(s1, s2);
    assert T1[7] == T2[7];
  }

  /** The summary with its parts grouped from the right. */
  lemma FinishMessageNested(difficulty: int, score: int, singular: bool)
    ensures FinishMessage(difficulty, score, singular)
         == FinishPrefix + (IntToString(difficulty) + (FinishMiddle + (IntToString(score) + FinishTail(singular))))
  {
    var d, s, t := IntToString(difficulty), IntToString(score), FinishTail(singular);
    Associate(FinishPrefix + d + FinishMiddle, s, t);
    Associate(FinishPrefix + d, FinishMiddle, s + t);
    Associate(FinishPrefix, d, FinishMiddle + (s + t));
  }

  lemma Associate(a: string, b: string, c: string)
    ensures a + b + c == a + (b + c)
  {
  }

  lemma DropCommonPrefix(p: string, x: string, y: string)
    requires p + x == p + y
    ensures x == y
  {
    assert x == (p + x)[|p|..];
    assert y == (p + y)[|p|..];
  }

  /**
   * When the advance step finishes the game the answer has just been cleared,
   * so the summary always takes the plural form, even for a score of 1.
   */
  lemma SummaryAlwaysPlural(g: Game, r: int)
    requires g.totalQuestions + 1 == g.difficulty
    ensures NextGame(g, r).endGameMessage == FinishMessage(g.difficulty, g.score, false)
    ensures NextGame(g, r).endGameMessage != FinishMessage(g.difficulty, g.score, true)
  {
  }
}
