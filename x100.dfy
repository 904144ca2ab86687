/**
 * The x100 wheel: the player picks a coefficient, the server decides from
 * the win oracle whether the player wins and then chooses a wheel position
 * that makes the spin agree with that decision. A random choice from a list
 * is given as any natural number `pick`, reduced modulo the list length.
 */
module X100 {
  import opened Wrappers
  import opened Money
  import opened Accounts

  const MaxBet: real := 1000000.0
  const DefaultBet: real := 10.0
  const DefaultCoef: int := 2

  /** `X100_WHEEL`: 99 segments, one of them the 100x jackpot, written in the source's five rows. */
  const Wheel: seq<int> := WheelRow1 + [100] + WheelRow3 + WheelRow4 + WheelRow5

  const WheelRow1: seq<int> := [2, 3, 2, 15, 2, 3, 2, 20, 2, 15, 2, 3, 2, 3, 2, 15, 2, 3, 10, 3, 2, 10, 2, 3, 2]
  const WheelRow3: seq<int> := [2, 3, 2, 10, 2, 3, 2, 3, 2, 15, 2, 3, 2, 3, 2, 20, 2, 3, 2, 10, 2, 3, 2, 10]
  const WheelRow4: seq<int> := [2, 3, 2, 15, 2, 3, 2, 3, 2, 10, 20, 3, 2, 3, 2, 15, 2, 10, 2, 3, 2, 20, 2, 3, 2]
  const WheelRow5: seq<int> := [15, 2, 3, 2, 10, 2, 3, 2, 3, 2, 10, 2, 3, 2, 3, 2, 10, 2, 3, 2, 3, 2, 3, 2]

  /** The coefficients a player may choose. */
  predicate ValidCoef(c: int)
  {
    c == 2 || c == 3 || c == 10 || c == 15 || c == 20 || c == 100
  }

  /** The wheel positions from `from` on whose coefficient is (`hit`) or is not (`!hit`) `sel`. */
  function Positions(sel: int, hit: bool, from: nat): seq<nat>
    decreases |Wheel| - from
  {
    if from >= |Wheel| then []
    else (if (Wheel[from] == sel) == hit then [from] else []) + Positions(sel, hit, from + 1)
  }

  /** Every listed position is on the wheel and shows (or avoids) `sel`. */
  lemma {:induction false} PositionsSound(sel: int, hit: bool, from: nat)
    ensures forall k :: 0 <= k < |Positions(sel, hit, from)| ==>
              Positions(sel, hit, from)[k] < |Wheel| && (Wheel[Positions(sel, hit, from)[k]] == sel) == hit
    decreases |Wheel| - from
  {
    if from < |Wheel| {
      var head: seq<nat> := if (Wheel[from] == sel) == hit then [from] else [];
      var rest := Positions(sel, hit, from + 1);
      PositionsSound(sel, hit, from + 1);
      assert Positions(sel, hit, from) == head + rest;
      forall k | 0 <= k < |head + rest|
        ensures (head + rest)[k] < |Wheel| && (Wheel[(head + rest)[k]] == sel) == hit
      {
        if k < |head| {
          assert (head + rest)[k] == from;
        } else {
          assert (head + rest)[k] == rest[k - |head|];
        }
      }
    }
  }

  /** A position at or after `from` with the wanted property is listed. */
  lemma {:induction false} PositionsComplete(sel: int, hit: bool, from: nat, j: nat)
    requires from <= j < |Wheel| && (Wheel[j] == sel) == hit
    ensures j in Positions(sel, hit, from)
    decreases |Wheel| - from
  {
    if from < j {
      PositionsComplete(sel, hit, from + 1, j);
    }
  }

  /** Every valid coefficient is on the wheel, and every value misses somewhere. */
  lemma WheelCoversCoefficients(sel: int)
    ensures ValidCoef(sel) ==> |Positions(sel, true, 0)| > 0
    ensures |Positions(sel, false, 0)| > 0
  {
    assert Wheel[0] == 2;
    assert Wheel[1] == 3;
    assert Wheel[3] == 15;
    assert Wheel[7] == 20;
    assert Wheel[18] == 10;
    assert Wheel[25] == 100;
    if sel == 2 {
      PositionsComplete(sel, true, 0, 0);
      PositionsComplete(sel, false, 0, 1);
    } else {
      PositionsComplete(sel, false, 0, 0);
      if sel == 3 { PositionsComplete(sel, true, 0, 1); }
      else if sel == 15 { PositionsComplete(sel, true, 0, 3); }
      else if sel == 20 { PositionsComplete(sel, true, 0, 7); }
      else if sel == 10 { PositionsComplete(sel, true, 0, 18); }
      else if sel == 100 { PositionsComplete(sel, true, 0, 25); }
    }
  }

  /**
   * The chosen position: one showing `sel` when the player is to win (any
   * position if none shows it), otherwise one not showing it.
   */
  function SpinPosition(sel: int, playerWins: bool, pick: nat): (p: nat)
    ensures p < |Wheel|
    ensures ValidCoef(sel) ==> (Wheel[p] == sel <==> playerWins)
  {
    WheelCoversCoefficients(sel);
    var wins := Positions(sel, true, 0);
    var losses := Positions(sel, false, 0);
    PositionsSound(sel, true, 0);
    PositionsSound(sel, false, 0);
    if playerWins then
      (if |wins| > 0 then wins[pick % |wins|] else pick % |Wheel|)
    else losses[pick % |losses|]
  }

  /** What `x100_play` answers, with the account after the spin. */
  datatype Spin = Spin(account: Account, bet: real, position: nat, resultCoef: int, win: real)

  /** A win pays the stake times the chosen coefficient, truncated to cents. */
  function Payout(bet: real, sel: int): (w: real)
    ensures bet >= 0.0 && sel >= 0 ==> 0.0 <= w <= bet * sel as real
  {
    NonNegativeProduct(bet, sel as real);
    RoundMoney(bet * sel as real)
  }

  /** The account and answer once the wheel has stopped on `position`, showing `result`. */
  function Settle(a: Account, bet: real, sel: int, position: nat, result: int, racebackPercent: real): (s: Spin)
    ensures s.bet == bet && s.position == position && s.resultCoef == result
    ensures s.account.wager == a.wager - bet
    ensures result == sel ==> s.win == Payout(bet, sel)
                              && s.account.balance == a.balance - bet + s.win && s.account.raceback == a.raceback
    ensures result != sel ==> s.win == 0.0 && s.account.balance == a.balance - bet
                              && s.account.raceback == a.raceback + RacebackCredit(bet, racebackPercent)
  {
    if result == sel then
      var win := Payout(bet, sel);
      Spin(a.(balance := a.balance + (win - bet), wager := a.wager - bet), bet, position, result, win)
    else
      Spin(a.(balance := a.balance - bet, wager := a.wager - bet,
              raceback := a.raceback + RacebackCredit(bet, racebackPercent)),
           bet, position, result, 0.0)
  }

  /**
   * `x100_play` for a player holding `a`: `requested` and `coef` are the
   * request's fields (`None`: absent), `oracle` the win oracle's answer (asked
   * only for a non-YouTuber), `racebackPercent` the configured cashback rate.
   */
  function Play(a: Account, requested: Option<real>, coef: Option<int>, oracle: bool, pick: nat,
                racebackPercent: real): Result<Spin, ApiError>
  {
    if a.isBan then Err(Forbidden)
    else
      var bet := Stake(requested.GetOr(DefaultBet), a.balance, MaxBet);
      var sel := coef.GetOr(DefaultCoef);
      if !ValidCoef(sel) then Err(BadRequest(InvalidCoefficient))
      else if bet < 1.0 then Err(BadRequest(InsufficientFunds))
      else
        var position := SpinPosition(sel, a.isYoutuber || oracle, pick);
        Ok(Settle(a, bet, sel, position, Wheel[position], racebackPercent))
  }

  /**
   * For a valid coefficient the spin lands on the chosen coefficient exactly
   * when the player is a YouTuber or the oracle says win; a win pays the
   * stake times the coefficient (truncated to cents), a loss forfeits the stake
   * and credits cashback. Every spin works the stake off the wagering requirement.
   */
  lemma PlayOutcome(a: Account, requested: Option<real>, coef: Option<int>, oracle: bool, pick: nat,
                    racebackPercent: real)
    requires Play(a, requested, coef, oracle, pick, racebackPercent).Ok?
    ensures var s := Play(a, requested, coef, oracle, pick, racebackPercent).value;
            var sel := coef.GetOr(DefaultCoef);
            && ValidCoef(sel) && !a.isBan && 1.0 <= s.bet <= a.balance
            && s.resultCoef == Wheel[s.position]
            && (s.resultCoef == sel <==> a.isYoutuber || oracle)
            && s.account.wager == a.wager - s.bet
            && (s.resultCoef == sel ==> s.win == Payout(s.bet, sel))
            && (s.resultCoef != sel ==> s.win == 0.0)
            && s.account.balance == a.balance - s.bet + s.win
            && s.account.raceback == if s.resultCoef == sel then a.raceback
                                     else a.raceback + RacebackCredit(s.bet, racebackPercent)
  {
    var sel := coef.GetOr(DefaultCoef);
    var bet := Stake(requested.GetOr(DefaultBet), a.balance, MaxBet);
    var position := SpinPosition(sel, a.isYoutuber || oracle, pick);
    var s := Settle(a, bet, sel, position, Wheel[position], racebackPercent);
    assert Play(a, requested, coef, oracle, pick, racebackPercent) == Ok(s);
  }

  /** A spin keeps the player's balances non-negative: the stake never exceeds the balance. */
  lemma PlayKeepsSolvent(a: Account, requested: Option<real>, coef: Option<int>, oracle: bool, pick: nat,
                         racebackPercent: real)
    requires Solvent(a) && racebackPercent >= 0.0
    requires Play(a, requested, coef, oracle, pick, racebackPercent).Ok?
    ensures Solvent(Play(a, requested, coef, oracle, pick, racebackPercent).value.account)
  {
    PlayOutcome(a, requested, coef, oracle, pick, racebackPercent);
  }
}
