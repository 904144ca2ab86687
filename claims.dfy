/**
 * The server's claim and payout guards: referral income withdrawal, cashback
 * ("raceback") claims, withdrawal requests, promo codes and daily tasks.
 * Each handler reads one user record (and a promo table), checks its guards
 * in the source's order and either refuses or applies one update.
 */
module Claims {
  import opened Wrappers
  import opened Accounts

  // ------------------------------------------------------ referral income

  const MinRefWithdraw: real := 10.0

  /** `ref_withdraw`: move the whole referral income onto the balance. */
  function RefWithdraw(a: Account): (r: Result<(Account, real), ApiError>)
    ensures r.Ok? <==> !a.isDemo && a.income >= MinRefWithdraw
    ensures a.isDemo ==> r == Err(Forbidden)
    ensures r.Ok? ==> r.value.1 == a.income && r.value.0.income == 0.0
                      && r.value.0.balance + r.value.0.income == a.balance + a.income
                      && r.value.0.(balance := a.balance, income := a.income) == a
  {
    if a.isDemo then Err(Forbidden)
    else if a.income < MinRefWithdraw then Err(BadRequest(IncomeBelowMinimum))
    else Ok((a.(balance := a.balance + a.income, income := 0.0), a.income))
  }

  /** Income is paid out once: a second withdrawal right after is refused. */
  lemma RefWithdrawOnce(a: Account)
    requires RefWithdraw(a).Ok?
    ensures RefWithdraw(RefWithdraw(a).value.0) == Err(BadRequest(IncomeBelowMinimum))
  {
  }

  // ------------------------------------------------------------- raceback

  const MinRaceback: real := 1.0

  /** `claim_raceback`: only with an empty (or negative) balance and at least 1 of cashback. */
  function ClaimRaceback(a: Account): (r: Result<(Account, real), ApiError>)
    ensures r.Ok? <==> !a.isDemo && a.balance <= 0.0 && a.raceback >= MinRaceback
    ensures r.Ok? ==> r.value.1 == a.raceback && r.value.0.raceback == 0.0
                      && r.value.0.balance + r.value.0.raceback == a.balance + a.raceback
                      && r.value.0.(balance := a.balance, raceback := a.raceback) == a
  {
    if a.isDemo then Err(Forbidden)
    else if a.balance > 0.0 then Err(BadRequest(BalanceNotZero))
    else if a.raceback < MinRaceback then Err(BadRequest(RacebackTooSmall))
    else Ok((a.(balance := a.balance + a.raceback, raceback := 0.0), a.raceback))
  }

  /** Cashback is paid out once: after a claim the balance is positive and nothing is left. */
  lemma RacebackOnce(a: Account)
    requires ClaimRaceback(a).Ok?
    ensures ClaimRaceback(ClaimRaceback(a).value.0).Err?
  {
  }

  // ----------------------------------------------------------- withdrawal

  const DefaultWithdrawAmount: real := 100.0

  /**
   * `create_withdraw`: `amount` is the requested sum (`None`: the default 100),
   * `minWithdraw` the configured minimum. The balance is debited at once; the
   * withdrawal record is left pending for an administrator.
   */
  function CreateWithdraw(a: Account, amount: Option<real>, minWithdraw: real): (r: Result<(Account, real), ApiError>)
    ensures var x := amount.GetOr(DefaultWithdrawAmount);
            r.Ok? <==> !a.isDemo && x >= minWithdraw && a.balance >= x && a.wager <= 0.0
    ensures a.wager > 0.0 ==> r.Err?
    ensures r.Ok? ==> r.value.1 == amount.GetOr(DefaultWithdrawAmount)
                      && r.value.0 == a.(balance := a.balance - r.value.1)
                      && r.value.0.balance >= 0.0
  {
    var x := amount.GetOr(DefaultWithdrawAmount);
    if a.isDemo then Err(Forbidden)
    else if x < minWithdraw then Err(BadRequest(BelowMinimumWithdraw))
    else if a.balance < x then Err(BadRequest(InsufficientFunds))
    else if a.wager > 0.0 then Err(BadRequest(WagerOutstanding))
    else Ok((a.(balance := a.balance - x), x))
  }

  /** With a positive minimum a withdrawal never raises the balance and keeps it non-negative. */
  lemma WithdrawKeepsSolvent(a: Account, amount: Option<real>, minWithdraw: real)
    requires Solvent(a) && minWithdraw > 0.0 && CreateWithdraw(a, amount, minWithdraw).Ok?
    ensures Solvent(CreateWithdraw(a, amount, minWithdraw).value.0)
    ensures CreateWithdraw(a, amount, minWithdraw).value.0.balance < a.balance
  {
  }

  // ---------------------------------------------------------------- promo

  /** A `promos` document; `disabled` is its `status` flag (only `False` ones are found). */
  datatype Promo = Promo(id: string, limited: int, limit: int, depositRequired: bool,
                         reward: real, wagerMultiplier: real, promoType: int, disabled: bool)

  /** The promo table by code, and the `promo_logs` pairs (user, promo id). */
  datatype PromoBook = PromoBook(promos: map<string, Promo>, logs: set<(UserId, string)>)

  /** No promo has been activated more often than its limit allows. */
  ghost predicate WithinLimits(book: PromoBook)
  {
    forall code :: code in book.promos ==> book.promos[code].limited <= book.promos[code].limit
  }

  /** The wagering requirement a promo adds: none for type 3, else reward times multiplier. */
  function PromoWager(p: Promo): real
  {
    if p.promoType != 3 then p.reward * p.wagerMultiplier else 0.0
  }

  /**
   * `activate_promo` by user `uid` holding account `a` with code `code`.
   * On success: the new promo table, the new account, the reward and the
   * wager added.
   */
  function ActivatePromo(book: PromoBook, uid: UserId, a: Account, code: string)
    : (r: Result<(PromoBook, Account, real, real), ApiError>)
    ensures r.Ok? <==> && code in book.promos && !book.promos[code].disabled
                       && book.promos[code].limited < book.promos[code].limit
                       && (uid, book.promos[code].id) !in book.logs
                       && !(book.promos[code].depositRequired && a.deposit == 0.0)
    ensures r.Ok? ==> var p := book.promos[code];
                      && r.value.2 == p.reward && r.value.3 == PromoWager(p)
                      && r.value.1 == a.(balance := a.balance + p.reward, wager := a.wager + PromoWager(p))
                      && r.value.0.logs == book.logs + {(uid, p.id)}
                      && r.value.0.promos == book.promos[code := p.(limited := p.limited + 1)]
    ensures r.Err? ==> (r.error == NotFound <==> code !in book.promos || book.promos[code].disabled)
  {
    if code !in book.promos || book.promos[code].disabled then Err(NotFound)
    else
      var p := book.promos[code];
      if p.limited >= p.limit then Err(BadRequest(PromoExhausted))
      else if (uid, p.id) in book.logs then Err(BadRequest(PromoAlreadyUsed))
      else if p.depositRequired && a.deposit == 0.0 then Err(BadRequest(DepositRequired))
      else
        var w := PromoWager(p);
        Ok((book.(promos := book.promos[code := p.(limited := p.limited + 1)], logs := book.logs + {(uid, p.id)}),
            a.(balance := a.balance + p.reward, wager := a.wager + w), p.reward, w))
  }

  /** Activation keeps every promo within its limit. */
  lemma ActivationKeepsLimits(book: PromoBook, uid: UserId, a: Account, code: string)
    requires WithinLimits(book) && ActivatePromo(book, uid, a, code).Ok?
    ensures WithinLimits(ActivatePromo(book, uid, a, code).value.0)
  {
    var book' := ActivatePromo(book, uid, a, code).value.0;
    forall c | c in book'.promos
      ensures book'.promos[c].limited <= book'.promos[c].limit
    {
      if c != code {
        assert book'.promos[c] == book.promos[c];
      }
    }
  }

  /** A user activates a code at most once: the second try is refused as already used. */
  lemma PromoOncePerUser(book: PromoBook, uid: UserId, a: Account, code: string)
    requires ActivatePromo(book, uid, a, code).Ok?
    ensures var (book', a', _, _) := ActivatePromo(book, uid, a, code).value;
            ActivatePromo(book', uid, a', code).Err?
  {
    var (book', a', _, _) := ActivatePromo(book, uid, a, code).value;
    assert (uid, book.promos[code].id) in book'.logs;
    assert book'.promos[code].id == book.promos[code].id;
  }

  // ---------------------------------------------------------- daily tasks

  datatype TaskKind = GamesPlayed | GamesWon | TotalBet | TotalWin | DifferentGames

  datatype TaskSpec = TaskSpec(reward: real, target: real, kind: TaskKind)

  /** The `DAILY_TASKS` catalogue. */
  function DailyTask(id: string): Option<TaskSpec>
  {
    if id == "play_3_games" then Some(TaskSpec(7.0, 3.0, GamesPlayed))
    else if id == "win_any_game" then Some(TaskSpec(5.0, 1.0, GamesWon))
    else if id == "bet_100" then Some(TaskSpec(10.0, 100.0, TotalBet))
    else if id == "play_2_different" then Some(TaskSpec(7.0, 2.0, DifferentGames))
    else if id == "win_50" then Some(TaskSpec(12.0, 50.0, TotalWin))
    else None
  }

  /** Today's counters, as the progress query computes them from the game collections. */
  datatype TaskProgress = TaskProgress(gamesPlayed: int, gamesWon: int, totalBet: real,
                                       totalWin: real, differentGames: int)

  function ProgressOf(p: TaskProgress, k: TaskKind): real
  {
    match k
    case GamesPlayed => p.gamesPlayed as real
    case GamesWon => p.gamesWon as real
    case TotalBet => p.totalBet
    case TotalWin => p.totalWin
    case DifferentGames => p.differentGames as real
  }

  /** The ids of daily tasks already claimed on `today`. */
  function ClaimedOn(a: Account, today: string): seq<string>
  {
    if today in a.tasksClaimed then a.tasksClaimed[today] else []
  }

  /** `claim_daily_task` on day `today` with today's `progress`. */
  function ClaimDailyTask(a: Account, taskId: string, today: string, progress: TaskProgress)
    : (r: Result<(Account, real), ApiError>)
    ensures r.Ok? <==> && !a.isDemo && DailyTask(taskId).Some?
                       && taskId !in ClaimedOn(a, today)
                       && ProgressOf(progress, DailyTask(taskId).value.kind) >= DailyTask(taskId).value.target
    ensures r.Ok? ==> && r.value.1 == DailyTask(taskId).value.reward
                      && r.value.0 == a.(balance := a.balance + r.value.1,
                                         tasksClaimed := a.tasksClaimed[today := ClaimedOn(a, today) + [taskId]])
                      && ClaimedOn(r.value.0, today) == ClaimedOn(a, today) + [taskId]
                      && (forall d :: d != today ==> ClaimedOn(r.value.0, d) == ClaimedOn(a, d))
  {
    if a.isDemo then Err(Forbidden)
    else if DailyTask(taskId).None? then Err(NotFound)
    else
      var claimedToday := ClaimedOn(a, today);
      if taskId in claimedToday then Err(BadRequest(AlreadyClaimedToday))
      else
        var t := DailyTask(taskId).value;
        if ProgressOf(progress, t.kind) < t.target then Err(BadRequest(TaskIncomplete))
        else Ok((a.(balance := a.balance + t.reward,
                    tasksClaimed := a.tasksClaimed[today := claimedToday + [taskId]]), t.reward))
  }

  /**
   * A task pays once per day: the same claim again that day is refused,
   * whatever the progress, while other days keep their own record.
   */
  lemma DailyTaskOncePerDay(a: Account, taskId: string, today: string, p: TaskProgress, later: TaskProgress)
    requires ClaimDailyTask(a, taskId, today, p).Ok?
    ensures ClaimDailyTask(ClaimDailyTask(a, taskId, today, p).value.0, taskId, today, later)
            == Err(BadRequest(AlreadyClaimedToday))
  {
    var a' := ClaimDailyTask(a, taskId, today, p).value.0;
    assert taskId in ClaimedOn(a', today);
  }
}
