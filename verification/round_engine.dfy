/**
 * The single-player round engine of script.js: the rock/paper/scissors rule
 * table, the shared `state` object updated by `play`, by the reset button and
 * by the best-of selector, and the best-of match-end decision of `updateUI`.
 * The computer's random move and the wall-clock time of a history entry are
 * parameters.
 */
module RoundEngine {
  import opened Wrappers

  datatype Move = Rock | Paper | Scissors

  datatype Outcome = Win | Lose | Tie

  /** One history entry: the two moves, the outcome for the player, and an opaque time stamp. */
  datatype Entry = Entry(player: Move, comp: Move, outcome: Outcome, time: string)

  datatype Side = PlayerSide | ComputerSide

  const InitialLives: int := 3

  function ChoiceName(m: Move): string {
    match m
    case Rock => "rock"
    case Paper => "paper"
    case Scissors => "scissors"
  }

  /** The membership test `['rock','paper','scissors'].includes(playerChoice)`, returning the move it names. */
  function ParseChoice(s: string): (m: Option<Move>)
    ensures m.Some? <==> s == "rock" || s == "paper" || s == "scissors"
    ensures m.Some? ==> ChoiceName(m.value) == s
  {
    if s == "rock" then Some(Rock)
    else if s == "paper" then Some(Paper)
    else if s == "scissors" then Some(Scissors)
    else None
  }

  lemma ParseChoiceName(m: Move)
    ensures ParseChoice(ChoiceName(m)) == Some(m)
  {
  }

  /** The rule table `outcome(player, comp)`, from the player's side. */
  function OutcomeOf(player: Move, comp: Move): (r: Outcome)
    ensures r == Tie <==> player == comp
    ensures r == Win <==>
      (player == Rock && comp == Scissors) ||
      (player == Paper && comp == Rock) ||
      (player == Scissors && comp == Paper)
  {
    if player == comp then Tie
    else if (player == Rock && comp == Scissors) ||
            (player == Paper && comp == Rock) ||
            (player == Scissors && comp == Paper) then Win
    else Lose
  }

  /** Position of a move on the cycle rock -> paper -> scissors -> rock, each beating its predecessor. */
  function Rank(m: Move): int {
    match m
    case Rock => 0
    case Paper => 1
    case Scissors => 2
  }

  /** The rule table agrees with the cyclic reading of the game. */
  lemma OutcomeIsCyclic(a: Move, b: Move)
    ensures OutcomeOf(a, b) ==
      if a == b then Tie
      else if (Rank(a) - Rank(b)) % 3 == 1 then Win
      else Lose
  {
  }

  /** Swapping the two moves swaps win and lose; equal moves tie. */
  lemma OutcomeAntisymmetric(a: Move, b: Move)
    ensures OutcomeOf(a, a) == Tie
    ensures OutcomeOf(a, b) == Win <==> OutcomeOf(b, a) == Lose
    ensures OutcomeOf(a, b) == Tie <==> OutcomeOf(b, a) == Tie
  {
  }

  /** 1 when `o` is the outcome `k`, else 0: the counter bump a round gives. */
  function Bump(o: Outcome, k: Outcome): nat {
    if o == k then 1 else 0
  }

  /** Number of history entries whose outcome is `o`. */
  function CountOf(h: seq<Entry>, o: Outcome): (n: nat)
    ensures n <= |h|
  {
    if h == [] then 0 else Bump(h[0].outcome, o) + CountOf(h[1..], o)
  }

  lemma {:induction false} CountOfAppend(h: seq<Entry>, e: Entry, o: Outcome)
    ensures CountOf(h + [e], o) == CountOf(h, o) + Bump(e.outcome, o)
  {
    if h != [] {
      assert (h + [e])[1..] == h[1..] + [e];
      CountOfAppend(h[1..], e, o);
    }
  }

  /** Every entry has exactly one of the three outcomes. */
  lemma {:induction false} CountsPartitionHistory(h: seq<Entry>)
    ensures CountOf(h, Win) + CountOf(h, Lose) + CountOf(h, Tie) == |h|
  {
    if h != [] {
      CountsPartitionHistory(h[1..]);
    }
  }

  /** Lives left after `losses` lost rounds, each costing one life, never below zero. */
  function LivesAfter(losses: nat): (l: int)
    ensures 0 <= l <= InitialLives
    ensures l == 0 <==> losses >= InitialLives
    ensures losses < InitialLives ==> l == InitialLives - losses
  {
    if losses >= InitialLives then 0 else InitialLives - losses
  }

  function Max(a: int, b: int): int {
    if a >= b then a else b
  }

  /** `Math.ceil(bestOf / 2)`: the least integer whose double is at least `bestOf`. */
  function RoundsNeeded(bestOf: int): (n: int)
    ensures bestOf <= 2 * n <= bestOf + 1
  {
    (bestOf + 1) / 2
  }

  /** The match-end test of `updateUI`. */
  predicate MatchOver(player: int, computer: int, bestOf: int) {
    player >= RoundsNeeded(bestOf) || computer >= RoundsNeeded(bestOf)
  }

  /** A match is over exactly when one side has won at least half of `bestOf` rounds. */
  lemma MatchOverAtHalf(player: int, computer: int, bestOf: int)
    ensures MatchOver(player, computer, bestOf) <==> 2 * player >= bestOf || 2 * computer >= bestOf
  {
  }

  /** The announced winner: the player only with strictly more rounds won, otherwise the computer. */
  function MatchWinner(player: int, computer: int, bestOf: int): (w: Option<Side>)
    ensures w.Some? <==> MatchOver(player, computer, bestOf)
    ensures w == Some(PlayerSide) <==> MatchOver(player, computer, bestOf) && player > computer
    ensures w == Some(ComputerSide) <==> MatchOver(player, computer, bestOf) && player <= computer
  {
    if !MatchOver(player, computer, bestOf) then None
    else if player > computer then Some(PlayerSide)
    else Some(ComputerSide)
  }

  /**
   * With `bestOf` left alone, the round that ends a match is never a tie,
   * leaves the scores unequal, and its winner is the match winner.
   */
  lemma DecidingRound(player: nat, computer: nat, bestOf: int, o: Outcome)
    requires !MatchOver(player, computer, bestOf)
    requires MatchOver(player + Bump(o, Win), computer + Bump(o, Lose), bestOf)
    ensures o != Tie
    ensures player + Bump(o, Win) != computer + Bump(o, Lose)
    ensures MatchWinner(player + Bump(o, Win), computer + Bump(o, Lose), bestOf)
      == Some(if o == Win then PlayerSide else ComputerSide)
  {
  }

  /**
   * A `bestOf` change that ends a match on equal scores always announces the
   * computer: equal scores never make the player the winner.
   */
  lemma BestOfChangeOnEqualScores(score: nat, bestOf: int, newBestOf: int)
    requires !MatchOver(score, score, bestOf) && MatchOver(score, score, newBestOf)
    ensures newBestOf < bestOf
    ensures MatchWinner(score, score, newBestOf) == Some(ComputerSide)
  {
  }

  /**
   * Changing `bestOf` keeps the scores, so a match can end on equal scores,
   * and then the computer is announced: 2-2 is undecided in a best of 5 and
   * goes to the computer once the selector says best of 3.
   */
  lemma ShrinkingBestOfEndsOnTie()
    ensures !MatchOver(2, 2, 5)
    ensures MatchWinner(2, 2, 3) == Some(ComputerSide)
  {
  }

  /** The counters and lives that a history of rounds leaves behind. */
  ghost predicate Tallied(h: seq<Entry>, player: nat, computer: nat, ties: nat, lives: int) {
    && player == CountOf(h, Win)
    && computer == CountOf(h, Lose)
    && ties == CountOf(h, Tie)
    && lives == LivesAfter(computer)
  }

  /** Tallied counters add up to the number of rounds, and lives stay within [0, 3]. */
  lemma TalliedBounds(h: seq<Entry>, player: nat, computer: nat, ties: nat, lives: int)
    requires Tallied(h, player, computer, ties, lives)
    ensures player + computer + ties == |h| && 0 <= lives <= InitialLives
  {
    CountsPartitionHistory(h);
  }

  /**
   * One more round keeps the tally: bump the counter of its outcome and, on a
   * loss, take one life with `Math.max(0, lives - 1)`.
   */
  lemma TalliedAfterRound(h: seq<Entry>, player: nat, computer: nat, ties: nat, lives: int, e: Entry)
    requires Tallied(h, player, computer, ties, lives)
    ensures Tallied(h + [e], player + Bump(e.outcome, Win), computer + Bump(e.outcome, Lose),
                    ties + Bump(e.outcome, Tie), if e.outcome == Lose then Max(0, lives - 1) else lives)
  {
    CountOfAppend(h, e, Win);
    CountOfAppend(h, e, Lose);
    CountOfAppend(h, e, Tie);
  }

  /** The `state` object of script.js, with the disabled flag of the choice buttons. */
  class Game {
    var player: nat
    var computer: nat
    var ties: nat
    var lives: int
    var history: seq<Entry>
    var bestOf: int
    var choicesDisabled: bool

    /** Counters are the tallies of the history; lives follow the losses; a finished match locks the choices. */
    ghost predicate Valid()
      reads this
    {
      && Tallied(history, player, computer, ties, lives)
      && (MatchOver(player, computer, bestOf) ==> choicesDisabled)
    }

    /** The initial `state` followed by the initial `updateUI()` render. */
    constructor (bestOf: int)
      ensures Valid()
      ensures player == 0 && computer == 0 && ties == 0 && history == []
      ensures lives == InitialLives && this.bestOf == bestOf
      ensures choicesDisabled == MatchOver(0, 0, bestOf)
    {
      player, computer, ties := 0, 0, 0;
      lives := InitialLives;
      history := [];
      this.bestOf := bestOf;
      choicesDisabled := MatchOver(0, 0, bestOf);
    }

    /** The part of `updateUI` that changes state: a finished match disables the choices; nothing enables them. */
    method UpdateUI()
      modifies this`choicesDisabled
      ensures choicesDisabled == (old(choicesDisabled) || MatchOver(player, computer, bestOf))
    {
      if MatchOver(player, computer, bestOf) {
        choicesDisabled := true;
      }
    }

    /**
     * `play(choice)` against the computer move `comp`. An invalid choice fails the
     * assertion before anything changes; a valid one appends one history entry
     * and bumps exactly the counter of its outcome, costing a life on a loss.
     */
    method Play(choice: string, comp: Move, time: string)
      requires Valid()
      modifies this
      ensures Valid()
      ensures player + computer + ties == |history| && 0 <= lives <= InitialLives
      ensures ParseChoice(choice).None? ==> unchanged(this)
      ensures ParseChoice(choice).Some? ==>
        var res := OutcomeOf(ParseChoice(choice).value, comp);
        && history == old(history) + [Entry(ParseChoice(choice).value, comp, res, time)]
        && player == old(player) + Bump(res, Win)
        && computer == old(computer) + Bump(res, Lose)
        && ties == old(ties) + Bump(res, Tie)
        && lives == (if res == Lose then Max(0, old(lives) - 1) else old(lives))
        && bestOf == old(bestOf)
        && choicesDisabled == (old(choicesDisabled) || MatchOver(player, computer, bestOf))
    {
      var m := ParseChoice(choice);
      if m.None? {
        TalliedBounds(history, player, computer, ties, lives);
        return;
      }
      RecordRound(Entry(m.value, comp, OutcomeOf(m.value, comp), time));
    }

    /** The state part of a valid `play`: push the entry, bump its outcome's counter, and refresh. */
    method RecordRound(e: Entry)
      requires Valid()
      modifies this
      ensures Valid()
      ensures player + computer + ties == |history| && 0 <= lives <= InitialLives
      ensures history == old(history) + [e]
      ensures player == old(player) + Bump(e.outcome, Win)
      ensures computer == old(computer) + Bump(e.outcome, Lose)
      ensures ties == old(ties) + Bump(e.outcome, Tie)
      ensures lives == (if e.outcome == Lose then Max(0, old(lives) - 1) else old(lives))
      ensures bestOf == old(bestOf)
      ensures choicesDisabled == (old(choicesDisabled) || MatchOver(player, computer, bestOf))
    {
      TalliedAfterRound(history, player, computer, ties, lives, e);
      history, player, computer, ties, lives :=
        history + [e], player + Bump(e.outcome, Win), computer + Bump(e.outcome, Lose), ties + Bump(e.outcome, Tie),
        if e.outcome == Lose then Max(0, lives - 1) else lives;
      UpdateUI();
      TalliedBounds(history, player, computer, ties, lives);
    }

    /** The reset button: counters and history cleared, three lives, choices enabled unless `updateUI` locks them again. */
    method Reset()
      modifies this
      ensures Valid()
      ensures player == 0 && computer == 0 && ties == 0 && history == []
      ensures lives == InitialLives && bestOf == old(bestOf)
      ensures choicesDisabled == MatchOver(0, 0, bestOf)
    {
      player, computer, ties := 0, 0, 0;
      history := [];
      lives := InitialLives;
      choicesDisabled := false;
      UpdateUI();
    }

    /** The best-of selector: only `bestOf` changes; the scores stay and the match may end at once. */
    method SetBestOf(newBestOf: int)
      requires Valid()
      modifies this
      ensures Valid()
      ensures bestOf == newBestOf
      ensures player == old(player) && computer == old(computer) && ties == old(ties)
      ensures lives == old(lives) && history == old(history)
      ensures choicesDisabled == (old(choicesDisabled) || MatchOver(player, computer, newBestOf))
    {
      bestOf := newBestOf;
      UpdateUI();
    }
  }
}
