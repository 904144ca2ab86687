/**
 * Keno: the player selects 1 to 10 numbers from 1..40, ten numbers are drawn
 * and the payout table gives a multiplier for the number of matches. A win
 * the win oracle refuses (for a non-YouTuber) is replaced by a draw of the
 * ten smallest numbers the player did not select, which matches nothing.
 */
module Keno {
  import opened Wrappers
  import opened Money
  import opened Accounts

  const MaxBet: real := 1000000.0
  const DefaultBet: real := 10.0
  const Highest: int := 40
  const DrawSize: int := 10
  const MaxPicks: int := 10

  /** The payout table: multiplier by (numbers selected, numbers matched); 0 when absent. */
  function Multiplier(picks: int, matches: int): real
  {
    if picks == 1 then (if matches == 1 then 3.0 else 0.0)
    else if picks == 2 then (if matches == 2 then 9.0 else 0.0)
    else if picks == 3 then (if matches == 2 then 2.0 else if matches == 3 then 25.0 else 0.0)
    else if picks == 4 then
      (if matches == 2 then 1.0 else if matches == 3 then 5.0 else if matches == 4 then 50.0 else 0.0)
    else if picks == 5 then
      (if matches == 3 then 3.0 else if matches == 4 then 15.0 else if matches == 5 then 100.0 else 0.0)
    else if picks == 6 then
      (if matches == 3 then 2.0 else if matches == 4 then 5.0 else if matches == 5 then 30.0
       else if matches == 6 then 200.0 else 0.0)
    else if picks == 7 then
      (if matches == 4 then 3.0 else if matches == 5 then 10.0 else if matches == 6 then 50.0
       else if matches == 7 then 500.0 else 0.0)
    else if picks == 8 then
      (if matches == 4 then 2.0 else if matches == 5 then 5.0 else if matches == 6 then 20.0
       else if matches == 7 then 100.0 else if matches == 8 then 1000.0 else 0.0)
    else if picks == 9 then
      (if matches == 5 then 3.0 else if matches == 6 then 10.0 else if matches == 7 then 30.0
       else if matches == 8 then 300.0 else if matches == 9 then 2000.0 else 0.0)
    else if picks == 10 then
      (if matches == 5 then 2.0 else if matches == 6 then 5.0 else if matches == 7 then 15.0
       else if matches == 8 then 100.0 else if matches == 9 then 500.0 else if matches == 10 then 5000.0 else 0.0)
    else 0.0
  }

  /** Every paying entry is for at most as many matches as numbers selected, and at least 1x. */
  lemma MultiplierShape(picks: int, matches: int)
    ensures Multiplier(picks, matches) > 0.0 ==>
              1 <= matches <= picks <= MaxPicks && Multiplier(picks, matches) >= 1.0
  {
  }

  /** The number of distinct selected numbers that were drawn. */
  function Matches(selected: seq<int>, drawn: seq<int>): nat
  {
    |(set x | x in selected) * (set y | y in drawn)|
  }

  /** The numbers 1..n that are not selected, in increasing order. */
  function Unselected(selected: seq<int>, n: int): seq<int>
    decreases n
  {
    if n <= 0 then [] else Unselected(selected, n - 1) + (if n in selected then [] else [n])
  }

  /** How many of the numbers 1..n are selected. */
  function Hits(selected: seq<int>, n: int): nat
    decreases n
  {
    if n <= 0 then 0 else Hits(selected, n - 1) + (if n in selected then 1 else 0)
  }

  /** The forced-loss draw: the first ten unselected numbers of 1..40. */
  function ForcedDraw(selected: seq<int>): seq<int>
  {
    var u := Unselected(selected, Highest);
    if |u| <= DrawSize then u else u[..DrawSize]
  }

  lemma {:induction false} UnselectedFacts(selected: seq<int>, n: int)
    ensures |Unselected(selected, n)| + Hits(selected, n) == if n <= 0 then 0 else n
    ensures forall k :: 0 <= k < |Unselected(selected, n)| ==>
              1 <= Unselected(selected, n)[k] <= n && Unselected(selected, n)[k] !in selected
    ensures forall i, j :: 0 <= i < j < |Unselected(selected, n)| ==>
              Unselected(selected, n)[i] < Unselected(selected, n)[j]
    decreases n
  {
    if n > 0 {
      UnselectedFacts(selected, n - 1);
    }
  }

  /** Dropping the first selected number loses at most the one hit it accounts for. */
  lemma {:induction false} HitsDropFirst(selected: seq<int>, n: int)
    requires |selected| > 0
    ensures Hits(selected, n) <= Hits(selected[1..], n) + (if 1 <= selected[0] <= n then 1 else 0)
    decreases n
  {
    if n > 0 {
      HitsDropFirst(selected, n - 1);
      assert n in selected <==> n == selected[0] || n in selected[1..] by {
        assert selected == [selected[0]] + selected[1..];
      }
    }
  }

  lemma {:induction false} HitsNone(n: int)
    ensures Hits([], n) == 0
    decreases n
  {
    if n > 0 {
      HitsNone(n - 1);
    }
  }

  /** At most as many of 1..n are selected as there are selected entries. */
  lemma {:induction false} HitsAtMostSelected(selected: seq<int>, n: int)
    ensures Hits(selected, n) <= |selected|
    decreases |selected|
  {
    if selected == [] {
      HitsNone(n);
    } else {
      HitsDropFirst(selected, n);
      HitsAtMostSelected(selected[1..], n);
    }
  }

  /** A selection is accepted when it has 1 to 10 entries, each in 1..40. */
  predicate ValidSelection(selected: seq<int>)
  {
    1 <= |selected| <= MaxPicks && forall i :: 0 <= i < |selected| ==> 1 <= selected[i] <= Highest
  }

  /**
   * For any selection of at most ten numbers the forced draw is ten distinct
   * numbers of 1..40 in increasing order, none of them selected, so it
   * matches nothing.
   */
  lemma ForcedDrawMisses(selected: seq<int>)
    requires |selected| <= MaxPicks
    ensures var d := ForcedDraw(selected);
            && |d| == DrawSize
            && (forall k :: 0 <= k < |d| ==> 1 <= d[k] <= Highest && d[k] !in selected)
            && (forall i, j :: 0 <= i < j < |d| ==> d[i] < d[j])
            && Matches(selected, d) == 0
  {
    UnselectedFacts(selected, Highest);
    HitsAtMostSelected(selected, Highest);
    var d := ForcedDraw(selected);
    var u := Unselected(selected, Highest);
    assert d == u[..DrawSize];
    forall k | 0 <= k < |d|
      ensures d[k] !in selected
    {
      assert d[k] == u[k];
    }
    var common := (set x | x in selected) * (set y | y in d);
    assert common == {};
  }

  /** What `keno_play` answers, with the account after the draw. */
  datatype Round = Round(account: Account, bet: real, drawn: seq<int>, matches: nat, multiplier: real, win: real)

  /** The payout of a paying multiplier: stake times multiplier, truncated to cents. */
  function Payout(bet: real, multiplier: real): real
  {
    if multiplier > 0.0 then RoundMoney(bet * multiplier) else 0.0
  }

  /**
   * `keno_play` for a player holding `a`: `requested` is the stake asked for,
   * `selected` the chosen numbers (empty when absent), `drawn` the random
   * sample of ten, `oracle` the win oracle's answer (asked only for a winning
   * draw of a non-YouTuber) and `racebackPercent` the cashback rate.
   */
  function Play(a: Account, requested: Option<real>, selected: seq<int>, drawn: seq<int>, oracle: bool,
                racebackPercent: real): Result<Round, ApiError>
  {
    if a.isBan then Err(Forbidden)
    else
      var bet := Stake(requested.GetOr(DefaultBet), a.balance, MaxBet);
      if |selected| < 1 || |selected| > MaxPicks then Err(BadRequest(InvalidSelection))
      else if exists i :: 0 <= i < |selected| && (selected[i] < 1 || selected[i] > Highest) then
        Err(BadRequest(InvalidSelection))
      else if bet < 1.0 then Err(BadRequest(InsufficientFunds))
      else
        var matches := Matches(selected, drawn);
        var multiplier := Multiplier(|selected|, matches);
        var win := Payout(bet, multiplier);
        var forced := win > 0.0 && !a.isYoutuber && !oracle;
        var finalDrawn := if forced then ForcedDraw(selected) else drawn;
        var finalMatches := if forced then 0 else matches;
        var finalWin := if forced then 0.0 else win;
        var change := if finalWin > 0.0 then finalWin - bet else -bet;
        var credit := if finalWin == 0.0 then RacebackCredit(bet, racebackPercent) else 0.0;
        Ok(Round(a.(balance := a.balance + change, wager := a.wager - bet, raceback := a.raceback + credit),
                 bet, finalDrawn, finalMatches, multiplier, finalWin))
  }

  /**
   * Only a YouTuber or a player the oracle favours is paid; then the payout is
   * the table's multiplier for the real matches. A refused win shows the
   * forced draw with no matches and pays nothing, while the reported
   * multiplier is still the one the real draw earned. The stake always leaves
   * the balance and is worked off the wagering requirement.
   */
  lemma PlayOutcome(a: Account, requested: Option<real>, selected: seq<int>, drawn: seq<int>, oracle: bool,
                    racebackPercent: real)
    requires Play(a, requested, selected, drawn, oracle, racebackPercent).Ok?
    ensures var r := Play(a, requested, selected, drawn, oracle, racebackPercent).value;
            var natural := Multiplier(|selected|, Matches(selected, drawn));
            && ValidSelection(selected) && !a.isBan && 1.0 <= r.bet <= a.balance
            && r.multiplier == natural
            && (r.win > 0.0 <==> natural > 0.0 && (a.isYoutuber || oracle))
            && (r.win > 0.0 ==> r.win == Payout(r.bet, natural) && r.drawn == drawn
                                && r.account.balance == a.balance - r.bet + r.win
                                && r.account.raceback == a.raceback)
            && (natural > 0.0 && !a.isYoutuber && !oracle ==>
                  r.drawn == ForcedDraw(selected) && r.matches == 0 && r.win == 0.0)
            && (r.win == 0.0 ==> r.account.balance == a.balance - r.bet
                                 && r.account.raceback == a.raceback + RacebackCredit(r.bet, racebackPercent))
            && r.account.wager == a.wager - r.bet
  {
    var bet := Stake(requested.GetOr(DefaultBet), a.balance, MaxBet);
    var natural := Multiplier(|selected|, Matches(selected, drawn));
    MultiplierShape(|selected|, Matches(selected, drawn));
    if natural > 0.0 {
      PayoutAtLeastOne(bet, natural);
    }
  }

  lemma PayoutAtLeastOne(bet: real, multiplier: real)
    requires bet >= 1.0 && multiplier >= 1.0
    ensures Payout(bet, multiplier) >= 1.0
  {
    assert bet * multiplier >= 1.0 * multiplier;
    RoundMoneyMonotonic(1.0, bet * multiplier);
    assert RoundMoney(1.0) == 1.0;
  }

  /** A player who is neither a YouTuber nor favoured by the oracle is never paid. */
  lemma UnfavouredNeverWins(a: Account, requested: Option<real>, selected: seq<int>, drawn: seq<int>,
                            racebackPercent: real)
    requires !a.isYoutuber && Play(a, requested, selected, drawn, false, racebackPercent).Ok?
    ensures Play(a, requested, selected, drawn, false, racebackPercent).value.win == 0.0
    ensures var r := Play(a, requested, selected, drawn, false, racebackPercent).value;
            Matches(selected, r.drawn) == 0 || Multiplier(|selected|, Matches(selected, drawn)) == 0.0
  {
    PlayOutcome(a, requested, selected, drawn, false, racebackPercent);
    var r := Play(a, requested, selected, drawn, false, racebackPercent).value;
    if Multiplier(|selected|, Matches(selected, drawn)) > 0.0 {
      ForcedDrawMisses(selected);
    }
  }
}
