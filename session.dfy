/**
 * A play session as a sequence of user events on the game screen: typing into
 * the answer field, submitting (the Submit button or the keyboard's return
 * key) and skipping. Each submit and skip carries the draw it makes.
 */
module Session {
  import opened Wrappers
  import opened Drills

  datatype Event = Enter(value: Option<int>) | Submit(draw: int) | Skip(draw: int)

  /** Every draw of the session lies in 2..12. */
  predicate DrawsInRange(es: seq<Event>) {
    forall i :: 0 <= i < |es| ==> es[i].Enter? || DrawRange(es[i].draw)
  }

  /** One event: the text field writes `answer`; the buttons run the transitions. */
  function Step(g: Game, e: Event): (h: Game)
    ensures h.multiplier == g.multiplier && h.difficulty == g.difficulty
    ensures e.Enter? ==> h == g.(answer := e.value)
    ensures !e.Enter? ==> h.totalQuestions == g.totalQuestions + 1 && h.answer == None && h.multiplicand == e.draw
    ensures e.Skip? ==> h.score == g.score
    ensures e.Submit? ==> h.score == (if IsCorrect(g) then g.score + 1 else g.score)
  {
    match e
    case Enter(a) => g.(answer := a)
    case Submit(r) => SubmitAnswer(g, r)
    case Skip(r) => NextGame(g, r)
  }

  function Run(g: Game, es: seq<Event>): Game
    decreases |es|
  {
    if es == [] then g else Run(Step(g, es[0]), es[1..])
  }

  /** The number of events that advance to a new question. */
  function Advances(es: seq<Event>): nat {
    if es == [] then 0 else (if es[0].Enter? then 0 else 1) + Advances(es[1..])
  }

  /** The number of submitted answers. */
  function Submissions(es: seq<Event>): nat {
    if es == [] then 0 else (if es[0].Submit? then 1 else 0) + Submissions(es[1..])
  }

  lemma {:induction false} RunKeepsSettings(g: Game, es: seq<Event>)
    ensures Run(g, es).multiplier == g.multiplier && Run(g, es).difficulty == g.difficulty
    decreases |es|
  {
    if es != [] {
      RunKeepsSettings(Step(g, es[0]), es[1..]);
    }
  }

  lemma {:induction false} RunCountsQuestions(g: Game, es: seq<Event>)
    ensures Run(g, es).totalQuestions == g.totalQuestions + Advances(es)
    decreases |es|
  {
    if es != [] {
      RunCountsQuestions(Step(g, es[0]), es[1..]);
    }
  }

  /** The score never falls during a session and rises by at most one per submission. */
  lemma {:induction false} RunScoreBounds(g: Game, es: seq<Event>)
    ensures g.score <= Run(g, es).score <= g.score + Submissions(es)
    decreases |es|
  {
    if es != [] {
      RunScoreBounds(Step(g, es[0]), es[1..]);
    }
  }

  lemma {:induction false} RunPreservesInv(g: Game, es: seq<Event>)
    requires Inv(g) && DrawsInRange(es)
    ensures Inv(Run(g, es))
    decreases |es|
  {
    if es != [] {
      match es[0] {
        case Enter(a) =>
        case Submit(r) => TransitionsPreserveInv(g, r);
        case Skip(r) => TransitionsPreserveInv(g, r);
      }
      assert DrawsInRange(es[1..]) by {
        forall i | 0 <= i < |es[1..]| ensures es[1..][i].Enter? || DrawRange(es[1..][i].draw) {
          assert es[1..][i] == es[i + 1];
        }
      }
      RunPreservesInv(Step(g, es[0]), es[1..]);
    }
  }

  /**
   * The end-of-game dialog is shown after a session exactly when it was shown
   * before or the count reached the number of questions during the session.
   */
  lemma {:induction false} RunFinishes(g: Game, es: seq<Event>)
    ensures Run(g, es).showEndGame
        == (g.showEndGame || g.totalQuestions < g.difficulty <= g.totalQuestions + Advances(es))
    decreases |es|
  {
    if es != [] {
      RunFinishes(Step(g, es[0]), es[1..]);
    }
  }

  /**
   * From a new game screen: the game is finished exactly when at least `difficulty`
   * questions were answered or skipped, and the count is the number of those
   * questions, whether or not it has gone past `difficulty`.
   */
  lemma FreshSession(multiplier: int, difficulty: int, r: int, es: seq<Event>)
    requires DifficultyChoice(difficulty)
    ensures Run(Start(multiplier, difficulty, r), es).showEndGame <==> difficulty <= Advances(es)
    ensures Run(Start(multiplier, difficulty, r), es).totalQuestions == Advances(es)
  {
    RunFinishes(Start(multiplier, difficulty, r), es);
    RunCountsQuestions(Start(multiplier, difficulty, r), es);
  }

  /**
   * Because a restart sets the count to 1, a restarted game whose summary was
   * not already shown finishes after one question fewer than `difficulty`.
   */
  lemma RestartedSession(g: Game, r: int, es: seq<Event>)
    requires Inv(g) && !g.showEndGame
    ensures Run(RestartGame(g, r), es).showEndGame <==> g.difficulty - 1 <= Advances(es)
  {
    RunFinishes(RestartGame(g, r), es);
  }
}
