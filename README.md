# Arithmetic quiz engine

This project models the engine behind a browser arithmetic quiz (`script.js`). The quiz is written as one
`DOMContentLoaded` closure, and the model has two parts.

- **The problem generator.** A difficulty (`easy`, `medium`, `hard`, `expert`) chooses the allowed operators
  and the stage number. One operator is then drawn, and two operands are drawn from fixed ranges. Subtraction
  always stays positive and division is always exact. The problem is shown as `a op b = ?`.
- **The game session.** These are the closure variables: the two scores, stage, turn, game mode, difficulty,
  timer setting, seconds left, the `timerInterval` handle, the current problem, `gameActive` and the three
  panels on screen. The handlers `startGame`, `checkAnswer`, `switchPlayer`, `startTimer` (one firing of its
  interval is `Tick`), `stopTimer`, `endGame` and `restartGame` update them in place.

Modules:

- `Wrappers`: `Option`. `None` is the JavaScript NaN.
- `Decimal`: how a template literal renders an integer; `parseInt(s, 10)` as section 19.2.5 of ECMA-262
  defines it, restricted to ASCII white space; the `M:SS` countdown text.
- `Problems`: `generateProblem` as a total function of the difficulty and the random draws.
- `Outcomes`: the result announced by `endGame` and its message.
- `Session`: the class `QuizSession`, whose methods change its fields as the handlers change the closure
  variables. Beside the class sit pure definitions of what a series of handler calls does: the score after a
  run of answers, the turn after `n` answers, and the countdown after `n` seconds.

Each draw `Math.floor(Math.random() * n) + k` is a uniform integer in `[k, k + n)`. It becomes an integer
parameter counted from 0: `Draws(pick, first, second)`, constrained by `DrawsFit`. The model proves:

- that `Generate` maps the fitting draws one-to-one onto the problems `Possible` describes;
- that parseInt reads back every number the page renders;
- that the game-over message determines the outcome;
- that every handler keeps the session invariant `Valid()`: scores at least zero, the turn 1 or 2 (always 1
  outside two-player mode), the stage 1 to 4, and an answer that is the true result of the problem.

## Model

| member | source | states |
|---|---|---|
| Problems.Operators | script.js:38-57 | every difficulty, unknown ones included, allows at least one operator, and addition always comes first |
| Problems.DifficultyLadder | script.js:38-57 | the operator sets are nested prefixes of `+ - × ÷`; a known difficulty sets the stage to the number of operators it allows (easy 1 … expert 4); an unknown one allows only `+` and keeps the stage |
| Problems.ExactDivision | script.js:73-78 | the product of a positive divisor and a quotient divides exactly and gives that quotient back |
| Problems.Generate | script.js:59-78 | the problem's operator is one the difficulty allows; its operands keep to the ranges (`+` 1..15, `-` 5..19 with 1..num1-1, `×` 2..11, `÷` divisor and answer 2..11 with num1 = divisor × answer); its answer is the true result; subtraction gives an answer ≥ 1; division is exact |
| Problems.IndexOf | script.js:59 | the position that picks a given allowed operator |
| Problems.GenerateReachesAll | script.js:59-78 | every problem that the ranges allow is produced, by the draws `DrawsOf` gives, and those draws fit |
| Problems.GenerateInjective | script.js:59-78 | different fitting draws give different problems |
| Problems.ProblemTextReadsBack | script.js:80 | the text `a op b = ?` has the operator symbol after the first number, and parseInt reads back the first operand from the text and the second from what follows the symbol |
| Decimal.DigitChar | script.js:80 | a digit value renders as a digit character |
| Decimal.DigitValue | script.js:154 | a digit character has a value below ten |
| Decimal.DigitValueOfChar | script.js:154 | reading a rendered digit gives it back |
| Decimal.DigitRun | script.js:154 | the run of digits parseInt reads is all digits and cannot be extended |
| Decimal.SkipSpace | script.js:154 | after skipping white space the text does not start with white space |
| Decimal.NatToStringDigits | script.js:80 | the rendering of a number is nonempty, all digits, and denotes the number |
| Decimal.Pad2Digits | script.js:107 | padded seconds are exactly two digits and denote the seconds |
| Decimal.DigitRunOfDigits | script.js:154 | digits followed by a non-digit form a run exactly as long as the digits |
| Decimal.SkipSpaceSplits | script.js:154 | skipping white space removes a prefix that is all white space, and keeps the rest of the text |
| Decimal.DigitsThenStop | script.js:154 | digits followed by a non-digit are read as the value of the digits |
| Decimal.ParseIntSkipsSpace | script.js:154 | leading white space does not change what parseInt gives |
| Decimal.ParseIntOfShape | script.js:154 | white space, then an optional sign, then at least one digit, then anything that is not a digit: parseInt gives the signed value of the digits |
| Decimal.SignDigitsOfShape | script.js:154 | an optional sign, digits, and then a non-digit read as the signed value |
| Decimal.ParseUnsignedOfShape | script.js:154 | unsigned digits followed by a non-digit read as their value |
| Decimal.ParseWithSignOfShape | script.js:154 | `-` or `+`, digits, and then a non-digit read as the signed value |
| Decimal.ParseIntShape | script.js:154 | conversely, every text parseInt reads as a number has that shape (white space, sign, digits, non-digit rest) and its value is the signed digits; any other text, one with no digits in particular, gives NaN |
| Decimal.ParseIntOfRendered | script.js:154 | parseInt undoes the rendering of any integer followed by text that cannot continue its digits |
| Decimal.ParseIntRoundTrip | script.js:154 | parseInt of a rendered integer is that integer |
| Decimal.IntToStringInjective | script.js:80 | two integers with the same text are equal |
| Decimal.TimerTextReadsBack | script.js:107 | the countdown text is minutes, `:` and two digits; the minutes read back as `t / 60`, the two digits as `t % 60`, and together they make up `t` |
| Outcomes.OutcomeOf | script.js:133-144 | mode 1, and only mode 1, is a single-player result carrying score1; otherwise the strictly larger score wins with that player's score first, and equal scores tie |
| Outcomes.OutcomeSymmetric | script.js:137-143 | in two-player mode, exchanging the scores exchanges the winner (and the order of a tie) |
| Outcomes.ScoresInjective | script.js:138-142 | the `a - b)` part of the message determines both scores |
| Outcomes.PrefixedScoresInjective | script.js:138-142 | with a fixed heading, the message determines both scores |
| Outcomes.MessageHead | script.js:135-142 | the first character of a message tells a single-player result, a win and a tie apart, and the eighth names the winner |
| Outcomes.PrefixedIntInjective | script.js:135 | the single-player message determines the score |
| Outcomes.MessageInjective | script.js:133-144 | two outcomes with the same message are the same outcome, scores included |
| Session.ReplayBounds | script.js:162-178 | from a nonnegative score, a run of answers keeps the score at least zero, raises it by at most the number of right answers, and lowers it by at most the number of wrong ones |
| Session.TurnsAlternate | script.js:97-102 | in mode 2 the turn alternates with every numeric answer; in any other mode it never moves |
| Session.CountdownExpires | script.js:109-116 | after `n` firings the countdown from `t` is `t - n`, and it has run out exactly when `n >= t`; a NaN countdown never runs out |
| Session.FeedbackTextInjective | script.js:156-177 | the three feedback texts are distinct, and a wrong answer's text names the expected answer |
| Session.QuizSession.constructor | script.js:22-32 | the closure's initial values, the set-up panel on screen, and the invariant |
| Session.QuizSession.GenerateProblem | script.js:34-83 | the stage becomes the difficulty's stage (unchanged for an unknown difficulty), the problem is `Generate` of the draws, and it is correct |
| Session.QuizSession.SwitchPlayer | script.js:97-102 | the turn passes to the other player in mode 2 and stays otherwise |
| Session.QuizSession.StartTimer | script.js:104-120 | a timer setting other than `none` sets the seconds left to parseInt of the setting and arms the interval; `none` changes nothing |
| Session.QuizSession.StopTimer | script.js:122-127 | afterwards no interval is armed |
| Session.QuizSession.EndGame | script.js:129-149 | answers are no longer accepted; the timer is stopped; the winner text is the message of the outcome of the mode and scores; the game-over panel replaces the game panel |
| Session.QuizSession.Tick | script.js:109-116 | one second less (NaN stays NaN); at or below zero the game ends as `EndGame` ends it; otherwise nothing else changes and the interval stays armed; a consistent screen stays consistent |
| Session.QuizSession.CheckAnswer | script.js:151-185 | keeps the invariant; outside a game nothing changes and there is no feedback; a NaN answer shows the warning and changes nothing; a numeric answer scores only the current player (+1 if right, otherwise one less but not below 0), passes the turn, sets the stage and brings a new problem |
| Session.QuizSession.ApplySettings | script.js:188-213 | the settings are stored (the mode as parseInt read it), scores, stage and turn are reset, answers are accepted and the game panel is the only one shown |
| Session.QuizSession.BeginGame | script.js:188-214 | the settings are stored and reset as above, the stage and the first problem are those of the new difficulty, and the invariant holds |
| Session.QuizSession.StartGame | script.js:187-216 | in any phase: the settings are read, both scores are 0, player 1 starts, the stage and the problem are those of the new difficulty, and the timer is started as `StartTimer` starts it; the invariant holds, the screen is consistent and the game is on |
| Session.QuizSession.RestartGame | script.js:218-222 | the set-up panel is shown and the game-over panel hidden; the timer is stopped; from the game-over screen this is a consistent set-up screen |

## Left out

- The DOM is left out, except for the panel visibility and the winner text. That means element lookups,
  score, stage, turn-indicator, timer and feedback text writes, colours, clearing and focusing the answer
  field, and the event-listener wiring. The computed texts (`ProblemText`, `FeedbackText`, `TimerText`,
  `Message`) are modelled as functions.
- `setInterval` and `clearInterval` scheduling is asynchronous. An interval is a flag, and one firing of its
  callback is `Tick`. A cleared interval never fires, so `Tick` requires the flag.
- Session.QuizSession.StartGame: the source starts a new interval without clearing an armed one, which leaves
  the old interval firing. The flag cannot represent two intervals at once, so the model keeps only one. The
  page only offers the start button on the set-up panel, which `restartGame` shows after stopping the timer.
- `Math.random` and its floating point. Each draw is an integer parameter within the draw's range.
- Session.QuizSession.constructor: the page's initial panel visibility lives in the HTML, which is not part of
  this model. The constructor assumes the set-up panel is the one shown.
- Decimal.ParseInt: the non-ASCII white space of ECMA-262 (no-break space, byte order mark, Unicode space
  separators, line and paragraph separators) is not skipped.
- Decimal.ParseInt: digit strings beyond 2^53 are read exactly, where JavaScript rounds them to a double. The
  sign of `-0` is not kept. Neither matters to equality with an answer.
- Decimal.TimerText: the display of a negative or NaN countdown is left out. That display uses JavaScript's
  `Math.floor` and `%` on negative numbers. The text is modelled for `t >= 0`.
- The score counters never reach the range where JavaScript numbers stop being exact integers, so integers
  are unbounded.
