/** The game session: the state script.js keeps in the variables of its
    `DOMContentLoaded` closure, and the handlers that change it.

    Which panel is on screen (set-up, game, game over) is part of the state,
    because the source decides what can happen next by showing and hiding
    panels rather than by testing a phase. The repeating timer is a flag that
    says whether an interval is armed; one firing of its callback is `Tick`. */
module Session {
  import opened Wrappers
  import opened Decimal
  import opened Problems
  import opened Outcomes

  datatype Phase = Setup | Playing | GameOver

  /** What the feedback line says after a submission. */
  datatype Feedback = InvalidInput | Right | Wrong(answer: int)

  function FeedbackText(f: Feedback): string {
    match f
    case InvalidInput => "Please enter a number!"
    case Right => "Correct!"
    case Wrong(a) => "Wrong! The answer was " + IntToString(a)
  }

  /** A player's score after one judged answer: one more when right, one less
      when wrong but never below zero. */
  function Judged(score: int, right: bool): int {
    if right then score + 1 else if score - 1 > 0 then score - 1 else 0
  }

  /** Whose turn follows `player`: the other player in mode 2, the same one in
      any other mode. */
  function NextPlayer(mode: Option<int>, player: int): int {
    if mode == Some(2) then (if player == 1 then 2 else 1) else player
  }

  /** True once a countdown value has run out; NaN never runs out, because
      every comparison with NaN is false. */
  predicate Expired(time: Option<int>) {
    time.Some? && time.value <= 0
  }

  /** `timeLeft--`: NaN stays NaN. */
  function Decrement(time: Option<int>): Option<int> {
    match time
    case None => None
    case Some(t) => Some(t - 1)
  }

  /** A score after a run of judged answers, first answer first. */
  function Replay(score: int, answers: seq<bool>): int
    decreases |answers|
  {
    if |answers| == 0 then score else Replay(Judged(score, answers[0]), answers[1..])
  }

  /** How many of the answers were right. */
  function CountRight(answers: seq<bool>): nat
    decreases |answers|
  {
    if |answers| == 0 then 0 else (if answers[0] then 1 else 0) + CountRight(answers[1..])
  }

  /** From a score of zero or more, a run of answers never drives the score
      below zero, moves it up by at most the number of right answers and down
      by at most the number of wrong ones; only a run with no wrong answer
      reaches `score + |answers|`. */
  lemma {:induction false} ReplayBounds(score: int, answers: seq<bool>)
    requires score >= 0
    ensures CountRight(answers) <= |answers|
    ensures 0 <= Replay(score, answers) <= score + CountRight(answers)
    ensures Replay(score, answers) >= score + CountRight(answers) - (|answers| - CountRight(answers))
    decreases |answers|
  {
    if |answers| > 0 {
      ReplayBounds(Judged(score, answers[0]), answers[1..]);
    }
  }

  /** The player whose turn it is after `n` numeric answers. */
  function Turns(mode: Option<int>, player: int, n: nat): int {
    if n == 0 then player else NextPlayer(mode, Turns(mode, player, n - 1))
  }

  /** In mode 2 the turn alternates, so after an even number of answers it is
      back with the player who started; in every other mode it never moves. */
  lemma {:induction false} TurnsAlternate(mode: Option<int>, player: int, n: nat)
    requires player == 1 || player == 2
    ensures mode == Some(2) ==> Turns(mode, player, n) == (if n % 2 == 0 then player else 3 - player)
    ensures mode != Some(2) ==> Turns(mode, player, n) == player
  {
    if n > 0 {
      TurnsAlternate(mode, player, n - 1);
    }
  }

  /** The countdown after `n` firings of the interval. */
  function Countdown(time: Option<int>, n: nat): Option<int> {
    if n == 0 then time else Decrement(Countdown(time, n - 1))
  }

  /** A countdown from `t` seconds has run out after `n` firings exactly when
      `n >= t`; so with `t >= 1` the game ends on firing `t` and not earlier,
      and with `t <= 0` on the first. A NaN countdown never runs out. */
  lemma {:induction false} CountdownExpires(time: Option<int>, n: nat)
    ensures time.None? ==> Countdown(time, n) == None && !Expired(Countdown(time, n))
    ensures time.Some? ==> Countdown(time, n) == Some(time.value - n)
    ensures time.Some? ==> (Expired(Countdown(time, n)) <==> n >= time.value)
  {
    if n > 0 {
      CountdownExpires(time, n - 1);
    }
  }

  /** Different feedback is shown as different text, and a wrong answer's
      text names the expected answer. */
  lemma FeedbackTextInjective(f: Feedback, g: Feedback)
    requires FeedbackText(f) == FeedbackText(g)
    ensures f == g
  {
    if f.Wrong? && g.Wrong? {
      var prefix := "Wrong! The answer was ";
      assert IntToString(f.answer) == FeedbackText(f)[|prefix|..];
      assert IntToString(g.answer) == FeedbackText(g)[|prefix|..];
      IntToStringInjective(f.answer, g.answer);
    } else {
      assert FeedbackText(f)[0] == FeedbackText(g)[0];
    }
  }

  class QuizSession {
    var score1: int
    var score2: int
    var stage: int
    var currentPlayer: int
    /** `parseInt` of the mode selector; `None` is NaN. */
    var gameMode: Option<int>
    var difficulty: string
    var timerMode: string
    /** Seconds left; `None` is NaN, which a non-numeric timer setting gives. */
    var timeLeft: Option<int>
    /** Whether `timerInterval` holds an interval. */
    var timerArmed: bool
    var currentProblem: Problem
    var gameActive: bool
    /** Which of the three panels are displayed. */
    var showSetup: bool
    var showGame: bool
    var showGameOver: bool
    /** The text of the game-over panel. */
    var winnerText: string

    /** What every handler preserves: scores never go below zero, the turn is
        player 1 or 2, and player 1 outside two-player mode, the stage is one
        of the four, and the current problem's answer is its true result. */
    ghost predicate Valid()
      reads this
    {
      score1 >= 0 && score2 >= 0 &&
      (currentPlayer == 1 || currentPlayer == 2) &&
      (gameMode != Some(2) ==> currentPlayer == 1) &&
      1 <= stage <= 4 &&
      Correct(currentProblem)
    }

    /** The screen as the buttons of the page can leave it: exactly one panel
        shown, answers accepted exactly while the game panel is shown, and an
        interval armed only during a game. */
    predicate UiConsistent()
      reads this
    {
      (if showSetup then 1 else 0) + (if showGame then 1 else 0) + (if showGameOver then 1 else 0) == 1 &&
      (gameActive <==> showGame) &&
      (timerArmed ==> gameActive)
    }

    function Phase(): Phase
      reads this
    {
      if showGame then Playing else if showGameOver then GameOver else Setup
    }

    /** The closure's initial values; the page opens on the set-up panel. */
    constructor ()
      ensures score1 == 0 && score2 == 0 && stage == 1 && currentPlayer == 1
      ensures gameMode == Some(1) && difficulty == "easy" && timerMode == "none"
      ensures timeLeft == Some(0) && !timerArmed && !gameActive
      ensures currentProblem == Initial && winnerText == ""
      ensures Valid() && UiConsistent() && Phase() == Setup
    {
      score1, score2, stage, currentPlayer := 0, 0, 1, 1;
      gameMode, difficulty, timerMode := Some(1), "easy", "none";
      timeLeft, timerArmed := Some(0), false;
      currentProblem, gameActive := Initial, false;
      showSetup, showGame, showGameOver := true, false, false;
      winnerText := "";
    }

    /** `generateProblem`: a new problem for the current difficulty, and the
        stage that difficulty shows. */
    method GenerateProblem(d: Draws)
      requires DrawsFit(difficulty, d) && 1 <= stage <= 4
      modifies this`stage, this`currentProblem
      ensures stage == StageFor(difficulty, old(stage))
      ensures currentProblem == Generate(difficulty, d)
      ensures 1 <= stage <= 4 && Correct(currentProblem)
    {
      DifficultyLadder(difficulty, stage);
      stage := StageFor(difficulty, stage);
      currentProblem := Generate(difficulty, d);
    }

    /** `switchPlayer`. */
    method SwitchPlayer()
      modifies this`currentPlayer
      ensures currentPlayer == NextPlayer(gameMode, old(currentPlayer))
    {
      if gameMode == Some(2) {
        currentPlayer := if currentPlayer == 1 then 2 else 1;
      }
    }

    /** `startTimer`: with a timer setting other than "none", the countdown
        starts from the setting read by parseInt and an interval is armed;
        otherwise nothing changes. */
    method StartTimer()
      modifies this`timeLeft, this`timerArmed
      ensures timerMode != "none" ==> timeLeft == ParseInt(timerMode) && timerArmed
      ensures timerMode == "none" ==> timeLeft == old(timeLeft) && timerArmed == old(timerArmed)
    {
      if timerMode != "none" {
        timeLeft := ParseInt(timerMode);
        timerArmed := true;
      }
    }

    /** `stopTimer`: afterwards no interval is armed; when none was, nothing
        happens. */
    method StopTimer()
      modifies this`timerArmed
      ensures !timerArmed
    {
      if timerArmed {
        timerArmed := false;
      }
    }

    /** `endGame`: answers are no longer accepted, the timer is stopped, and
        the game-over panel replaces the game panel with the outcome's text. */
    method EndGame()
      modifies this`gameActive, this`timerArmed, this`winnerText, this`showGame, this`showGameOver
      ensures !gameActive && !timerArmed
      ensures winnerText == Message(OutcomeOf(gameMode, score1, score2))
      ensures !showGame && showGameOver
      ensures old(UiConsistent()) && old(gameActive) ==> UiConsistent() && Phase() == GameOver
    {
      gameActive := false;
      StopTimer();
      var outcome := OutcomeOf(gameMode, score1, score2);
      winnerText := Message(outcome);
      showGame := false;
      showGameOver := true;
    }

    /** One firing of the interval: one second less, and the end of the game
        once the countdown is at or below zero. A cleared interval never
        fires, hence the precondition. */
    method Tick()
      requires timerArmed
      modifies this`timeLeft, this`gameActive, this`timerArmed, this`winnerText, this`showGame, this`showGameOver
      ensures timeLeft == Decrement(old(timeLeft))
      ensures Expired(timeLeft) ==>
        !gameActive && !timerArmed && !showGame && showGameOver &&
        winnerText == Message(OutcomeOf(gameMode, score1, score2))
      ensures !Expired(timeLeft) ==>
        gameActive == old(gameActive) && timerArmed && winnerText == old(winnerText) &&
        showGame == old(showGame) && showGameOver == old(showGameOver)
      ensures old(UiConsistent()) ==> UiConsistent()
    {
      timeLeft := Decrement(timeLeft);
      if Expired(timeLeft) {
        EndGame();
      }
    }

    /** `checkAnswer`. Outside a game, nothing happens and no feedback is shown.
        An answer that parseInt reads as NaN is refused and changes nothing.
        A number changes only the current player's score, passes the turn and
        brings a new problem. */
    method CheckAnswer(input: string, d: Draws) returns (feedback: Option<Feedback>)
      requires Valid() && DrawsFit(difficulty, d)
      modifies this`score1, this`score2, this`currentPlayer, this`stage, this`currentProblem
      ensures Valid()
      ensures !old(gameActive) ==> feedback == None
      ensures old(gameActive) && ParseInt(input).None? ==> feedback == Some(InvalidInput)
      ensures !old(gameActive) || ParseInt(input).None? ==>
        score1 == old(score1) && score2 == old(score2) && currentPlayer == old(currentPlayer) &&
        stage == old(stage) && currentProblem == old(currentProblem)
      ensures old(gameActive) && ParseInt(input).Some? ==>
        var right := ParseInt(input).value == old(currentProblem).answer;
        feedback == Some(if right then Right else Wrong(old(currentProblem).answer)) &&
        score1 == (if old(currentPlayer) == 1 then Judged(old(score1), right) else old(score1)) &&
        score2 == (if old(currentPlayer) == 2 then Judged(old(score2), right) else old(score2)) &&
        currentPlayer == NextPlayer(gameMode, old(currentPlayer)) &&
        stage == StageFor(difficulty, old(stage)) &&
        currentProblem == Generate(difficulty, d)
    {
      if !gameActive {
        return None;
      }
      var userAnswer := ParseInt(input);
      if userAnswer.None? {
        return Some(InvalidInput);
      }
      if userAnswer.value == currentProblem.answer {
        if currentPlayer == 1 {
          score1 := score1 + 1;
        } else {
          score2 := score2 + 1;
        }
        feedback := Some(Right);
      } else {
        if currentPlayer == 1 {
          score1 := if score1 - 1 > 0 then score1 - 1 else 0;
        } else {
          score2 := if score2 - 1 > 0 then score2 - 1 else 0;
        }
        feedback := Some(Wrong(currentProblem.answer));
      }
      SwitchPlayer();
      GenerateProblem(d);
    }

    /** The settings part of `startGame`: the settings are stored (the mode as
        parseInt read it), scores, stage and turn are reset, the game panel
        replaces the other two and answers are accepted. */
    method ApplySettings(mode: Option<int>, newDifficulty: string, newTimerMode: string)
      modifies this`gameMode, this`difficulty, this`timerMode, this`score1, this`score2, this`stage
      modifies this`currentPlayer, this`showSetup, this`showGame, this`showGameOver, this`gameActive
      ensures gameMode == mode && difficulty == newDifficulty && timerMode == newTimerMode
      ensures score1 == 0 && score2 == 0 && stage == 1 && currentPlayer == 1
      ensures gameActive && showGame && !showSetup && !showGameOver
    {
      gameMode := mode;
      difficulty := newDifficulty;
      timerMode := newTimerMode;
      score1, score2 := 0, 0;
      stage := 1;
      currentPlayer := 1;
      showSetup, showGameOver, showGame := false, false, true;
      gameActive := true;
    }

    /** `startGame` up to the timer: the settings are applied and the first
        problem is generated, which keeps the invariant. */
    method BeginGame(mode: Option<int>, newDifficulty: string, newTimerMode: string, d: Draws)
      requires DrawsFit(newDifficulty, d)
      modifies this`gameMode, this`difficulty, this`timerMode, this`score1, this`score2, this`stage
      modifies this`currentPlayer, this`showSetup, this`showGame, this`showGameOver, this`gameActive
      modifies this`currentProblem
      ensures gameMode == mode && difficulty == newDifficulty && timerMode == newTimerMode
      ensures score1 == 0 && score2 == 0 && currentPlayer == 1
      ensures gameActive && showGame && !showSetup && !showGameOver
      ensures stage == StageFor(newDifficulty, 1)
      ensures currentProblem == Generate(newDifficulty, d)
      ensures Valid()
    {
      ApplySettings(mode, newDifficulty, newTimerMode);
      GenerateProblem(d);
    }

    /** `startGame`: reads the three settings, resets scores, stage and turn,
        shows the game panel, accepts answers, generates the first problem and
        starts the timer. Nothing about the current phase is checked. */
    method StartGame(modeText: string, newDifficulty: string, newTimerMode: string, d: Draws)
      requires DrawsFit(newDifficulty, d)
      modifies this
      ensures gameMode == ParseInt(modeText) && difficulty == newDifficulty && timerMode == newTimerMode
      ensures score1 == 0 && score2 == 0 && currentPlayer == 1 && gameActive
      ensures stage == StageFor(newDifficulty, 1)
      ensures currentProblem == Generate(newDifficulty, d)
      ensures newTimerMode != "none" ==> timeLeft == ParseInt(newTimerMode) && timerArmed
      ensures newTimerMode == "none" ==> timeLeft == old(timeLeft) && timerArmed == old(timerArmed)
      ensures winnerText == old(winnerText)
      ensures Valid() && UiConsistent() && Phase() == Playing
    {
      var mode := ParseInt(modeText);
      BeginGame(mode, newDifficulty, newTimerMode, d);
      StartTimer();
    }

    /** `restartGame`: shows the set-up panel, hides the game-over panel and
        stops the timer; the game panel and `gameActive` are left as they are. */
    method RestartGame()
      modifies this`showSetup, this`showGameOver, this`timerArmed
      ensures showSetup && !showGameOver && !timerArmed
      ensures old(UiConsistent()) && old(Phase()) == GameOver ==> UiConsistent() && Phase() == Setup
    {
      showSetup := true;
      showGameOver := false;
      StopTimer();
    }
  }
}
