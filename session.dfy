/**
 * The session state machine of App (startGame, handleGameOver,
 * handleStageComplete and the space-key start), as functions on a session
 * record; the Game class's methods are specified by them.
 */
module GameSession {

  datatype GameState = Start | Playing | GameOver

  datatype Session = Session(state: GameState, score: int, stage: int, highScore: int)

  /** The score bonus for each stage cleared. */
  const STAGE_BONUS: int := 10

  /** A fresh page: START, score 0, stage 1, and the stored high score. */
  function Initial(storedHighScore: int): Session
  {
    Session(Start, 0, 1, storedHighScore)
  }

  /** startGame: score 0, stage 1, PLAYING; the high score is kept. */
  function AfterStart(s: Session): (r: Session)
    ensures r.state == Playing && r.highScore == s.highScore
    ensures r.score == 0 && r.stage == 1
    ensures ScoreMatchesStage(r)
  {
    s.(state := Playing, score := 0, stage := 1)
  }

  /**
   * handleGameOver: ignored unless PLAYING; otherwise GAMEOVER, and the high
   * score becomes finalScore when finalScore is larger. Score and stage stay.
   */
  function AfterGameOver(s: Session, finalScore: int): (r: Session)
    ensures r.score == s.score && r.stage == s.stage
    ensures r.highScore >= s.highScore
    ensures s.state == Playing ==> r.state == GameOver && r.highScore >= finalScore
    ensures r.highScore == s.highScore || (s.state == Playing && r.highScore == finalScore)
    ensures s.state != Playing ==> r == s
  {
    if s.state != Playing then s
    else s.(state := GameOver, highScore := if finalScore > s.highScore then finalScore else s.highScore)
  }

  /** handleStageComplete: one more stage and STAGE_BONUS more points. */
  function AfterStageComplete(s: Session): (r: Session)
    ensures r.state == s.state && r.highScore == s.highScore
    ensures r.stage == s.stage + 1 && r.score == s.score + STAGE_BONUS
  {
    s.(score := s.score + STAGE_BONUS, stage := s.stage + 1)
  }

  /** The space-key handler: a space starts a game from START or GAMEOVER; anything else is ignored. */
  function AfterSpace(s: Session, key: string): (r: Session)
    ensures s.state == Playing ==> r == s
    ensures key == " " && s.state != Playing ==>
      r.state == Playing && r.score == 0 && r.stage == 1 && r.highScore == s.highScore
    ensures key != " " ==> r == s
  {
    if key == " " && s.state != Playing then AfterStart(s) else s
  }

  /** The score is always the bonus for the stages cleared so far. */
  predicate ScoreMatchesStage(s: Session)
  {
    s.stage >= 1 && s.score == STAGE_BONUS * (s.stage - 1)
  }

  /** Every transition keeps the score equal to ten times the stages cleared. */
  lemma TransitionsKeepScore(s: Session, finalScore: int, key: string)
    requires ScoreMatchesStage(s)
    ensures ScoreMatchesStage(AfterStart(s))
    ensures ScoreMatchesStage(AfterGameOver(s, finalScore))
    ensures ScoreMatchesStage(AfterStageComplete(s))
    ensures ScoreMatchesStage(AfterSpace(s, key))
  {
  }

  /** A second game-over report, after the first, changes nothing. */
  lemma GameOverIdempotent(s: Session, first: int, second: int)
    ensures AfterGameOver(AfterGameOver(s, first), second) == AfterGameOver(s, first)
  {
  }

  /** Outside PLAYING, only the space key leaves the state, and it always leads to PLAYING. */
  lemma OnlySpaceLeavesIdle(s: Session, key: string, finalScore: int)
    requires s.state != Playing
    ensures AfterSpace(s, key).state == Playing <==> key == " "
    ensures AfterSpace(s, key) != s <==> key == " "
    ensures AfterGameOver(s, finalScore) == s
  {
  }

  /** The session-level events: the space key, a cleared stage, a terminal hazard (reporting the current score). */
  datatype Event = Space | Cleared | Died

  function Apply(s: Session, e: Event): Session
  {
    match e
    case Space => AfterSpace(s, " ")
    case Cleared => AfterStageComplete(s)
    case Died => AfterGameOver(s, s.score)
  }

  function Run(s: Session, events: seq<Event>): Session
    decreases |events|
  {
    if events == [] then s else Run(Apply(s, events[0]), events[1..])
  }

  /** The final scores of the games that actually ended during a run, in order. */
  function EndedScores(s: Session, events: seq<Event>): seq<int>
    decreases |events|
  {
    if events == [] then []
    else
      var rest := EndedScores(Apply(s, events[0]), events[1..]);
      if events[0] == Died && s.state == Playing then [s.score] + rest else rest
  }

  function MaxOf(m: int, xs: seq<int>): int
    decreases |xs|
  {
    if xs == [] then m else MaxOf(if xs[0] > m then xs[0] else m, xs[1..])
  }

  lemma {:induction false} MaxOfBounds(m: int, xs: seq<int>)
    ensures MaxOf(m, xs) >= m
    ensures forall i :: 0 <= i < |xs| ==> MaxOf(m, xs) >= xs[i]
    decreases |xs|
  {
    if xs != [] {
      var m' := if xs[0] > m then xs[0] else m;
      MaxOfBounds(m', xs[1..]);
      forall i | 0 < i < |xs| ensures MaxOf(m, xs) >= xs[i] {
        assert xs[i] == xs[1..][i - 1];
      }
    }
  }

  /** After any run of events the high score is the best of the stored value and every ended game's score. */
  lemma {:induction false} HighScoreIsBest(s: Session, events: seq<Event>)
    ensures Run(s, events).highScore == MaxOf(s.highScore, EndedScores(s, events))
    decreases |events|
  {
    if events != [] {
      HighScoreIsBest(Apply(s, events[0]), events[1..]);
    }
  }

  /** Hence the high score never decreases and is at least every ended game's score. */
  lemma HighScoreNeverDecreases(s: Session, events: seq<Event>)
    ensures Run(s, events).highScore >= s.highScore
    ensures forall i :: 0 <= i < |EndedScores(s, events)| ==> Run(s, events).highScore >= EndedScores(s, events)[i]
  {
    HighScoreIsBest(s, events);
    MaxOfBounds(s.highScore, EndedScores(s, events));
  }

  /** Any run keeps the score equal to ten times the stages cleared. */
  lemma {:induction false} RunKeepsScore(s: Session, events: seq<Event>)
    requires ScoreMatchesStage(s)
    ensures ScoreMatchesStage(Run(s, events))
    decreases |events|
  {
    if events != [] {
      TransitionsKeepScore(s, s.score, " ");
      RunKeepsScore(Apply(s, events[0]), events[1..]);
    }
  }

  /** A first-stage game cleared once is at stage 2 with 10 points. */
  lemma StageClearExample(highScore: int)
    ensures Run(Initial(highScore), [Space, Cleared]) == Session(Playing, 10, 2, highScore)
  {
  }
}
