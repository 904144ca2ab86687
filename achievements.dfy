/**
 * Achievements: `check_achievements` scans the player's games in the six game
 * collections, in collection order and oldest first within each, accumulating
 * totals, maxima, the set of game types played and the longest run of wins;
 * achievements whose condition holds are appended to the unlocked list, and
 * an unlocked one can be claimed once for its reward.
 */
module Achievements {
  import opened Wrappers
  import opened Accounts

  /** A game document: its stake, its payout and whether its status is "win". */
  datatype GameRow = GameRow(bet: real, win: real, won: bool)

  /** The collections scanned, in order; a game's type is its collection's name. */
  const GameTypes: seq<string> := ["mines", "dice", "bubbles", "wheel", "crash", "x100"]
  /** The index of `crash_games`, a collection no handler ever writes. */
  const CrashIndex: int := 4
  /** Each collection query returns at most this many games. */
  const RowLimit: int := 10000

  const HighRollerBet: real := 500.0
  const LuckyStreakLength: int := 5
  const BigWinAmount: real := 500.0
  const ExplorerTypes: int := 6
  const VeteranGames: int := 100
  const WeekStreakDays: int := 7

  /** The identifiers of `ACHIEVEMENTS`, in the order they are checked. */
  const Catalogue: seq<string> :=
    ["first_win", "high_roller", "lucky_streak", "big_win", "explorer", "veteran", "week_streak"]

  /** The reward of an achievement; `None` for an unknown identifier. */
  function Reward(id: string): Option<real>
  {
    if id == "first_win" then Some(10.0)
    else if id == "high_roller" then Some(25.0)
    else if id == "lucky_streak" then Some(50.0)
    else if id == "big_win" then Some(35.0)
    else if id == "explorer" then Some(15.0)
    else if id == "veteran" then Some(75.0)
    else if id == "week_streak" then Some(100.0)
    else None
  }

  lemma CatalogueHasRewards(id: string)
    ensures Reward(id).Some? <==> id in Catalogue
    ensures Reward(id).Some? ==> Reward(id).value > 0.0
  {
  }

  // ---------------------------------------------------------------------------
  // The statistics of a sequence of games, each defined by its last game

  function Games(collection: seq<GameRow>): seq<GameRow>
  {
    if |collection| <= RowLimit then collection else collection[..RowLimit]
  }

  /** All scanned games: the collections' (limited) lists one after another. */
  function Flatten(cols: seq<seq<GameRow>>): seq<GameRow>
    decreases |cols|
  {
    if cols == [] then [] else Flatten(cols[..|cols| - 1]) + Games(cols[|cols| - 1])
  }

  function TotalWins(rows: seq<GameRow>): nat
    decreases |rows|
  {
    if rows == [] then 0 else TotalWins(rows[..|rows| - 1]) + (if rows[|rows| - 1].won then 1 else 0)
  }

  /** The largest stake, or 0 when there is none larger. */
  function MaxBet(rows: seq<GameRow>): real
    decreases |rows|
  {
    if rows == [] then 0.0
    else
      var m := MaxBet(rows[..|rows| - 1]);
      if rows[|rows| - 1].bet > m then rows[|rows| - 1].bet else m
  }

  /** The largest payout, or 0 when there is none larger. */
  function MaxWin(rows: seq<GameRow>): real
    decreases |rows|
  {
    if rows == [] then 0.0
    else
      var m := MaxWin(rows[..|rows| - 1]);
      if rows[|rows| - 1].win > m then rows[|rows| - 1].win else m
  }

  /** The number of wins at the end of `rows`. */
  function Streak(rows: seq<GameRow>): nat
    decreases |rows|
  {
    if rows == [] then 0 else if rows[|rows| - 1].won then Streak(rows[..|rows| - 1]) + 1 else 0
  }

  /** The longest streak seen after any prefix of `rows`. */
  function MaxRun(rows: seq<GameRow>): nat
    decreases |rows|
  {
    if rows == [] then 0
    else
      var m := MaxRun(rows[..|rows| - 1]);
      if Streak(rows) > m then Streak(rows) else m
  }

  /** The indices of the collections with at least one game. */
  function TypesPlayed(cols: seq<seq<GameRow>>): set<int>
  {
    set c | 0 <= c < |cols| && cols[c] != []
  }

  datatype Stats = Stats(totalGames: nat, totalWins: nat, maxWin: real, maxBet: real,
                         typesPlayed: set<int>, maxStreak: nat)

  /** What the scan accumulates over the six collections. */
  function Summary(cols: seq<seq<GameRow>>): Stats
  {
    var rows := Flatten(cols);
    Stats(|rows|, TotalWins(rows), MaxWin(rows), MaxBet(rows), TypesPlayed(cols), MaxRun(rows))
  }

  // ---------------------------------------------------------------------------
  // What a win streak means

  /** `rows[i..i+k]` are all wins. */
  predicate WinRun(rows: seq<GameRow>, i: int, k: int)
  {
    0 <= i && i + k <= |rows| && forall m :: i <= m < i + k ==> rows[m].won
  }

  /** The streak at the end consists of wins. */
  lemma {:induction false} StreakIsTrailingRun(rows: seq<GameRow>)
    ensures WinRun(rows, |rows| - Streak(rows), Streak(rows))
    decreases |rows|
  {
    if rows != [] {
      StreakIsTrailingRun(rows[..|rows| - 1]);
    }
  }

  /** Any run of wins that ends at the end is no longer than the streak. */
  lemma {:induction false} TrailingRunWithinStreak(rows: seq<GameRow>, k: nat)
    requires k <= |rows| && WinRun(rows, |rows| - k, k)
    ensures k <= Streak(rows)
    decreases |rows|
  {
    if k > 0 {
      var init := rows[..|rows| - 1];
      assert rows[|rows| - 1].won;
      assert WinRun(init, |init| - (k - 1), k - 1) by {
        forall m | |init| - (k - 1) <= m < |init|
          ensures init[m].won
        {
          assert init[m] == rows[m];
        }
      }
      TrailingRunWithinStreak(init, k - 1);
    }
  }

  /** A longest run seen in a prefix is still seen in the whole. */
  lemma {:induction false} MaxRunOfPrefix(rows: seq<GameRow>, j: nat)
    requires j <= |rows|
    ensures MaxRun(rows[..j]) <= MaxRun(rows)
    decreases |rows| - j
  {
    if j < |rows| {
      MaxRunOfPrefix(rows, j + 1);
      assert rows[..j + 1][..j] == rows[..j];
    } else {
      assert rows[..j] == rows;
    }
  }

  /**
   * The longest streak is at least `k` exactly when some `k` consecutive
   * games (across collection boundaries) are all wins.
   */
  lemma {:induction false} MaxRunMeansConsecutiveWins(rows: seq<GameRow>, k: nat)
    ensures MaxRun(rows) >= k <==> exists i :: WinRun(rows, i, k)
    decreases |rows|
  {
    if rows == [] {
      if k > 0 {
        assert forall i :: !WinRun(rows, i, k);
      } else {
        assert WinRun(rows, 0, 0);
      }
    } else {
      var init := rows[..|rows| - 1];
      MaxRunMeansConsecutiveWins(init, k);
      StreakIsTrailingRun(rows);
      if MaxRun(rows) >= k {
        if MaxRun(init) >= k {
          var i :| WinRun(init, i, k);
          assert WinRun(rows, i, k) by {
            forall m | i <= m < i + k
              ensures rows[m].won
            {
              assert rows[m] == init[m];
            }
          }
        } else {
          var s := Streak(rows);
          assert WinRun(rows, |rows| - s, s);
          assert WinRun(rows, |rows| - k, k);
        }
      }
      if exists i :: WinRun(rows, i, k) {
        var i :| WinRun(rows, i, k);
        var j := i + k;
        assert WinRun(rows[..j], j - k, k) by {
          forall m | j - k <= m < j
            ensures rows[..j][m].won
          {
            assert rows[..j][m] == rows[m];
          }
        }
        TrailingRunWithinStreak(rows[..j], k);
        MaxRunOfPrefix(rows, j);
        if j > 0 {
          assert rows[..j][..j - 1] == rows[..j - 1];
        }
      }
    }
  }

  /** No collection index outside the six is counted; explorer needs a crash game. */
  lemma ExplorerNeedsCrashGames(cols: seq<seq<GameRow>>)
    requires |cols| == |GameTypes|
    ensures |Summary(cols).typesPlayed| >= ExplorerTypes ==> cols[CrashIndex] != []
  {
    var t := TypesPlayed(cols);
    if cols[CrashIndex] == [] {
      assert t <= {0, 1, 2, 3, 5};
      assert |{0, 1, 2, 3, 5}| == 5;
      SubsetCard(t, {0, 1, 2, 3, 5});
    }
  }

  lemma SubsetCard<T>(a: set<T>, b: set<T>)
    requires a <= b
    ensures |a| <= |b|
  {
    if a != {} {
      var x :| x in a;
      SubsetCard(a - {x}, b - {x});
    }
  }

  // ---------------------------------------------------------------------------
  // The scan

  /** How each statistic changes when one more game is scanned. */
  lemma Extend(rows: seq<GameRow>, g: GameRow)
    ensures var more := rows + [g];
            && TotalWins(more) == TotalWins(rows) + (if g.won then 1 else 0)
            && MaxBet(more) == (if g.bet > MaxBet(rows) then g.bet else MaxBet(rows))
            && MaxWin(more) == (if g.win > MaxWin(rows) then g.win else MaxWin(rows))
            && Streak(more) == (if g.won then Streak(rows) + 1 else 0)
            && MaxRun(more) == (if Streak(more) > MaxRun(rows) then Streak(more) else MaxRun(rows))
  {
    var more := rows + [g];
    assert more[..|more| - 1] == rows;
  }

  /**
   * The loops of `check_achievements` over the query results `cols`, one
   * list per collection of `GameTypes`, each oldest first. The win streak is
   * not reset between collections.
   */
  method Scan(cols: seq<seq<GameRow>>) returns (st: Stats)
    requires |cols| == |GameTypes|
    ensures st == Summary(cols)
  {
    var totalGames: nat, totalWins: nat, maxWin, maxBet := 0, 0, 0.0, 0.0;
    var types: set<int> := {};
    var current: nat, maxStreak: nat := 0, 0;
    ghost var done: seq<GameRow> := [];
    var c := 0;
    while c < |cols|
      invariant 0 <= c <= |cols|
      invariant done == Flatten(cols[..c])
      invariant totalGames == |done| && totalWins == TotalWins(done)
      invariant maxWin == MaxWin(done) && maxBet == MaxBet(done)
      invariant current == Streak(done) && maxStreak == MaxRun(done)
      invariant types == set i | 0 <= i < c && cols[i] != []
    {
      var games := Games(cols[c]);
      ghost var before := done;
      var k := 0;
      while k < |games|
        invariant 0 <= k <= |games|
        invariant done == before + games[..k]
        invariant totalGames == |done| && totalWins == TotalWins(done)
        invariant maxWin == MaxWin(done) && maxBet == MaxBet(done)
        invariant current == Streak(done) && maxStreak == MaxRun(done)
        invariant types == (set i | 0 <= i < c && cols[i] != []) + (if k > 0 then {c} else {})
      {
        var g := games[k];
        assert games[..k + 1] == games[..k] + [g];
        Extend(done, g);
        done := done + [g];
        totalGames := totalGames + 1;
        if g.bet > maxBet {
          maxBet := g.bet;
        }
        if g.win > maxWin {
          maxWin := g.win;
        }
        types := types + {c};
        if g.won {
          totalWins := totalWins + 1;
          current := current + 1;
          if current > maxStreak {
            maxStreak := current;
          }
        } else {
          current := 0;
        }
        k := k + 1;
      }
      assert games[..k] == games;
      assert cols[..c + 1][..c] == cols[..c];
      assert done == Flatten(cols[..c + 1]);
      assert cols[c] != [] <==> games != [];
      c := c + 1;
    }
    assert cols[..c] == cols;
    st := Stats(totalGames, totalWins, maxWin, maxBet, types, maxStreak);
  }

  // ---------------------------------------------------------------------------
  // Unlocking and claiming

  /** Whether the statistics (and the daily-bonus streak) meet an achievement's condition. */
  predicate Earned(id: string, st: Stats, dailyStreak: int)
  {
    if id == "first_win" then st.totalWins >= 1
    else if id == "high_roller" then st.maxBet >= HighRollerBet
    else if id == "lucky_streak" then st.maxStreak >= LuckyStreakLength
    else if id == "big_win" then st.maxWin >= BigWinAmount
    else if id == "explorer" then |st.typesPlayed| >= ExplorerTypes
    else if id == "veteran" then st.totalGames >= VeteranGames
    else if id == "week_streak" then dailyStreak >= WeekStreakDays
    else false
  }

  /** The identifiers of `ids`, in order, that are earned and not yet unlocked. */
  function Select(ids: seq<string>, unlocked: seq<string>, st: Stats, dailyStreak: int): seq<string>
    decreases |ids|
  {
    if ids == [] then []
    else
      (if ids[0] !in unlocked && Earned(ids[0], st, dailyStreak) then [ids[0]] else [])
      + Select(ids[1..], unlocked, st, dailyStreak)
  }

  lemma {:induction false} SelectMembers(ids: seq<string>, unlocked: seq<string>, st: Stats, dailyStreak: int)
    ensures forall x :: x in Select(ids, unlocked, st, dailyStreak) <==>
                          x in ids && x !in unlocked && Earned(x, st, dailyStreak)
    decreases |ids|
  {
    if ids != [] {
      SelectMembers(ids[1..], unlocked, st, dailyStreak);
      assert ids == [ids[0]] + ids[1..];
    }
  }

  /** `check_achievements` for `a`, once the scan has produced `st`: append the newly earned. */
  function Unlock(a: Account, st: Stats): Account
  {
    a.(achievements := a.achievements + Select(Catalogue, a.achievements, st, a.dailyStreak))
  }

  /** Nothing is selected when every earned identifier is already unlocked. */
  lemma {:induction false} SelectNothingNew(ids: seq<string>, unlocked: seq<string>, st: Stats, dailyStreak: int)
    requires forall x :: x in ids && Earned(x, st, dailyStreak) ==> x in unlocked
    ensures Select(ids, unlocked, st, dailyStreak) == []
    decreases |ids|
  {
    if ids != [] {
      assert forall x :: x in ids[1..] ==> x in ids;
      SelectNothingNew(ids[1..], unlocked, st, dailyStreak);
    }
  }

  /**
   * Unlocking keeps every earlier achievement in place and adds exactly the
   * catalogue entries that are earned and were not unlocked; it touches
   * nothing else.
   */
  lemma UnlockAddsEarned(a: Account, st: Stats)
    ensures var b := Unlock(a, st);
            && b.achievements[..|a.achievements|] == a.achievements
            && (forall x :: x in b.achievements <==>
                  x in a.achievements || (x in Catalogue && Earned(x, st, a.dailyStreak)))
            && b.(achievements := a.achievements) == a
  {
    SelectMembers(Catalogue, a.achievements, st, a.dailyStreak);
  }

  /** A second check with the same statistics unlocks nothing more. */
  lemma UnlockIdempotent(a: Account, st: Stats)
    ensures Unlock(Unlock(a, st), st) == Unlock(a, st)
  {
    var b := Unlock(a, st);
    UnlockAddsEarned(a, st);
    SelectNothingNew(Catalogue, b.achievements, st, b.dailyStreak);
    assert b.achievements + [] == b.achievements;
  }

  /** `claim_achievement`: demo 403, unknown 404, then not unlocked or already claimed 400. */
  function Claim(a: Account, id: string): (r: Result<(Account, real), ApiError>)
    ensures r.Ok? <==> !a.isDemo && id in Catalogue && id in a.achievements && id !in a.claimedAchievements
    ensures r.Ok? ==> Reward(id).Some? && r.value.1 == Reward(id).value
                      && r.value.0 == a.(balance := a.balance + r.value.1,
                                         claimedAchievements := a.claimedAchievements + [id])
  {
    CatalogueHasRewards(id);
    if a.isDemo then Err(Forbidden)
    else if Reward(id).None? then Err(NotFound)
    else if id !in a.achievements then Err(BadRequest(NotUnlocked))
    else if id in a.claimedAchievements then Err(BadRequest(AlreadyClaimed))
    else
      var reward := Reward(id).value;
      Ok((a.(balance := a.balance + reward, claimedAchievements := a.claimedAchievements + [id]), reward))
  }

  /** An achievement pays once: claiming it again is refused, and no claim lowers the balance. */
  lemma ClaimOnce(a: Account, id: string)
    requires Claim(a, id).Ok?
    ensures Claim(a, id).value.0.balance > a.balance
    ensures Claim(Claim(a, id).value.0, id) == Err(BadRequest(AlreadyClaimed))
  {
    CatalogueHasRewards(id);
  }
}
