/**
 * The game screen as an object whose fields are updated in place by its
 * actions. Each method is proved to take the state to what the matching
 * function of module Drills says.
 */
module DrillsView {
  import opened Wrappers
  import Drills

  class GameView {
    const multiplier: int
    const difficulty: int

    var answer: Option<int>
    var multiplicand: int
    var totalQuestions: int
    var score: int

    var showEndGame: bool
    var showResult: bool
    var alertTitle: string
    var alertMessage: string
    var endGameTitle: string
    var endGameMessage: string

    /** The whole state of the screen as a value. */
    function State(): Drills.Game
      reads this
    {
      Drills.Game(multiplier, difficulty, answer, multiplicand, totalQuestions, score,
                  showResult, alertTitle, alertMessage, showEndGame, endGameTitle, endGameMessage)
    }

    ghost predicate Valid()
      reads this
    {
      Drills.Inv(State())
    }

    /** The setup screen's choices, and `r` as the initial draw of the multiplicand. */
    constructor (multiplier: int, difficulty: int, r: int)
      requires Drills.MultiplierChoice(multiplier) && Drills.DifficultyChoice(difficulty)
      requires Drills.DrawRange(r)
      ensures State() == Drills.Start(multiplier, difficulty, r)
      ensures Valid()
    {
      this.multiplier := multiplier;
      this.difficulty := difficulty;
      answer := None;
      multiplicand := r;
      totalQuestions := 0;
      score := 0;
      showEndGame := false;
      showResult := false;
      alertTitle := "";
      alertMessage := "";
      endGameTitle := "";
      endGameMessage := "";
    }

    method EvaluateAnswer()
      modifies this
      ensures State() == Drills.EvaluateAnswer(old(State()))
      ensures score == old(score) + (if old(answer) == Some(multiplier * multiplicand) then 1 else 0)
      ensures showResult && totalQuestions == old(totalQuestions) && multiplicand == old(multiplicand)
    {
      if answer == Some(multiplier * multiplicand) {
        showResult := true;
        alertTitle := Drills.CorrectTitle;
        alertMessage := Drills.CorrectMessage;
        score := score + 1;
      } else {
        showResult := true;
        alertTitle := Drills.WrongTitle;
        alertMessage := Drills.WrongMessage(multiplier * multiplicand);
      }
    }

    method SubmitAnswer(r: int)
      requires Drills.DrawRange(r)
      modifies this
      ensures State() == Drills.SubmitAnswer(old(State()), r)
      ensures totalQuestions == old(totalQuestions) + 1
      ensures score == old(score) + (if old(answer) == Some(multiplier * old(multiplicand)) then 1 else 0)
      ensures old(Valid()) ==> Valid()
    {
      EvaluateAnswer();
      NextGame(r);
      if old(Valid()) {
        Drills.TransitionsPreserveInv(old(State()), r);
      }
    }

    /** The advance step, which the Skip button runs on its own. */
    method NextGame(r: int)
      requires Drills.DrawRange(r)
      modifies this
      ensures State() == Drills.NextGame(old(State()), r)
      ensures totalQuestions == old(totalQuestions) + 1 && answer == None && multiplicand == r
      ensures score == old(score)
      ensures showEndGame == (old(showEndGame) || totalQuestions == difficulty)
      ensures old(Valid()) ==> Valid()
    {
      multiplicand := r;
      totalQuestions := totalQuestions + 1;
      answer := None;

      if totalQuestions == difficulty {
        GameFinished();
      }
      if old(Valid()) {
        Drills.TransitionsPreserveInv(old(State()), r);
      }
    }

    method GameFinished()
      modifies this
      ensures State() == Drills.GameFinished(old(State()))
      ensures old(Valid()) ==> Valid()
    {
      showEndGame := true;
      endGameTitle := Drills.FinishedTitle;
      endGameMessage := Drills.FinishMessage(difficulty, score, answer == Some(1));
    }

    method RestartGame(r: int)
      requires Drills.DrawRange(r)
      modifies this
      ensures State() == Drills.RestartGame(old(State()), r)
      ensures totalQuestions == 1 && score == 0 && answer == None && multiplicand == r
      ensures old(Valid()) ==> Valid()
    {
      totalQuestions := 1;
      multiplicand := r;
      score := 0;
      answer := None;
    }
  }

  /**
   * A client: the three times table with five questions, all answered correctly.
   * The score reaches 5 and the summary reports five correct answers.
   */
  method FiveCorrectAnswers()
  {
    var v := new GameView(3, 5, 4);
    v.answer := Some(12);
    v.SubmitAnswer(7);
    assert v.score == 1 && v.totalQuestions == 1 && v.alertTitle == Drills.CorrectTitle;
    v.answer := Some(21);
    v.SubmitAnswer(12);
    assert v.score == 2 && v.totalQuestions == 2;
    v.answer := Some(36);
    v.SubmitAnswer(2);
    assert v.score == 3 && v.totalQuestions == 3;
    v.answer := Some(6);
    v.SubmitAnswer(9);
    assert v.score == 4 && v.totalQuestions == 4 && !v.showEndGame;
    v.answer := Some(27);
    v.SubmitAnswer(5);
    assert v.score == 5 && v.totalQuestions == 5 && v.showEndGame;
    assert v.endGameMessage == Drills.FinishMessage(5, 5, false);
    v.NextGame(3);
    assert v.totalQuestions == 6 && v.score == 5;
  }
}
