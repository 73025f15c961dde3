/** The outcome announced when a game ends (`endGame` in script.js). */
module Outcomes {
  import opened Wrappers
  import opened Decimal

  /** `Solo` is the single-player result; `Win` names the winning player with
      the winner's score first; `Tie` keeps the scores in player order. */
  datatype Outcome =
    | Solo(score: int)
    | Win(player: int, winnerScore: int, loserScore: int)
    | Tie(score1: int, score2: int)

  /** The outcome for a mode and the two final scores. `mode` is the parsed
      game mode, `None` when it was NaN; only mode 1 is single-player, every
      other mode compares the two scores. */
  function OutcomeOf(mode: Option<int>, score1: int, score2: int): (o: Outcome)
    ensures mode == Some(1) <==> o.Solo?
    ensures o.Solo? ==> o.score == score1
    ensures o.Win? ==> o.player in {1, 2} && o.winnerScore > o.loserScore
    ensures o.Win? && o.player == 1 ==> o.winnerScore == score1 && o.loserScore == score2
    ensures o.Win? && o.player == 2 ==> o.winnerScore == score2 && o.loserScore == score1
    ensures o.Tie? ==> o.score1 == o.score2 == score1 == score2
  {
    if mode == Some(1) then Solo(score1)
    else if score1 > score2 then Win(1, score1, score2)
    else if score2 > score1 then Win(2, score2, score1)
    else Tie(score1, score2)
  }

  /** The outcome with the players' roles exchanged. */
  function Swap(o: Outcome): Outcome {
    match o
    case Solo(s) => Solo(s)
    case Win(p, w, l) => Win(3 - p, w, l)
    case Tie(a, b) => Tie(b, a)
  }

  /** In a two-player game the outcome does not favour either player:
      exchanging the scores exchanges the winner. */
  lemma OutcomeSymmetric(mode: Option<int>, score1: int, score2: int)
    requires mode != Some(1)
    ensures OutcomeOf(mode, score2, score1) == Swap(OutcomeOf(mode, score1, score2))
  {
  }

  /** The winner text shown on the game-over panel. */
  function Message(o: Outcome): string {
    match o
    case Solo(s) => "Game Over! Your score: " + IntToString(s)
    case Win(p, w, l) =>
      (if p == 1 then "Player 1 Wins! (" else "Player 2 Wins! (") + Scores(w, l)
    case Tie(a, b) => "It's a Tie! (" + Scores(a, b)
  }

  /** `a - b)`: the two scores of the message, and its closing parenthesis. */
  function Scores(a: int, b: int): string {
    IntToString(a) + (" - " + (IntToString(b) + ")"))
  }

  lemma ScoresInjective(a: int, b: int, c: int, d: int)
    requires Scores(a, b) == Scores(c, d)
    ensures a == c && b == d
  {
    ParseIntOfRendered(a, " - " + (IntToString(b) + ")"));
    ParseIntOfRendered(c, " - " + (IntToString(d) + ")"));
    assert a == c;
    SuffixAfterSign(IntToString(a), IntToString(b) + ")");
    SuffixAfterSign(IntToString(c), IntToString(d) + ")");
    ParseIntOfRendered(b, ")");
    ParseIntOfRendered(d, ")");
  }

  lemma SuffixAfterSign(x: string, z: string)
    ensures (x + (" - " + z))[|x| + 3..] == z
  {
  }

  lemma PrefixedScoresInjective(prefix: string, a: int, b: int, c: int, d: int)
    requires prefix + Scores(a, b) == prefix + Scores(c, d)
    ensures a == c && b == d
  {
    assert Scores(a, b) == (prefix + Scores(a, b))[|prefix|..];
    assert Scores(c, d) == (prefix + Scores(c, d))[|prefix|..];
    ScoresInjective(a, b, c, d);
  }

  predicate WellFormed(o: Outcome) {
    o.Win? ==> o.player in {1, 2}
  }

  /** The message tells the outcome apart from every other: two well-formed
      outcomes with the same message are the same outcome, scores included. */
  lemma MessageInjective(o1: Outcome, o2: Outcome)
    requires WellFormed(o1) && WellFormed(o2)
    requires Message(o1) == Message(o2)
    ensures o1 == o2
  {
    MessageHead(o1);
    MessageHead(o2);
    match o1
    case Solo(s) =>
      PrefixedIntInjective("Game Over! Your score: ", s, o2.score);
    case Win(p, w, l) =>
      PrefixedScoresInjective(if p == 1 then "Player 1 Wins! (" else "Player 2 Wins! (", w, l, o2.winnerScore, o2.loserScore);
    case Tie(a, b) =>
      PrefixedScoresInjective("It's a Tie! (", a, b, o2.score1, o2.score2);
  }

  /** The first character of a message tells its kind, and the eighth the
      winner of a win. */
  lemma MessageHead(o: Outcome)
    requires WellFormed(o)
    ensures |Message(o)| > 7
    ensures Message(o)[0] == (if o.Solo? then 'G' else if o.Win? then 'P' else 'I')
    ensures o.Win? ==> Message(o)[7] == (if o.player == 1 then '1' else '2')
  {
  }

  lemma PrefixedIntInjective(prefix: string, a: int, b: int)
    requires prefix + IntToString(a) == prefix + IntToString(b)
    ensures a == b
  {
    assert IntToString(a) == (prefix + IntToString(a))[|prefix|..];
    assert IntToString(b) == (prefix + IntToString(b))[|prefix|..];
    IntToStringInjective(a, b);
  }
}
