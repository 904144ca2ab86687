/**
 * The user record shared by the server's handlers, and the errors they raise.
 */
module Accounts {
  import opened Wrappers
  import opened Money

  type UserId = string

  /**
   * The fields of a `users` document that the modelled handlers read or
   * write. `lastDailyClaimDay` is the UTC calendar day (a day number) of the
   * stored `last_daily_claim` timestamp; `tasksClaimed` maps a `YYYY-MM-DD`
   * day to the ids of the daily tasks claimed on it.
   */
  datatype Account = Account(
    balance: real,
    wager: real,
    raceback: real,
    income: real,
    deposit: real,
    isBan: bool,
    isYoutuber: bool,
    isDemo: bool,
    dailyStreak: int,
    lastDailyClaimDay: Option<int>,
    achievements: seq<string>,
    claimedAchievements: seq<string>,
    tasksClaimed: map<string, seq<string>>)

  /** Why a request was refused with status 400. */
  datatype Refusal =
    | InsufficientFunds
    | InvalidCoefficient
    | InvalidSelection
    | AlreadyClaimedToday
    | NotUnlocked
    | AlreadyClaimed
    | TaskIncomplete
    | IncomeBelowMinimum
    | BalanceNotZero
    | RacebackTooSmall
    | BelowMinimumWithdraw
    | WagerOutstanding
    | PromoExhausted
    | PromoAlreadyUsed
    | DepositRequired

  /** HTTP errors: 401, 403, 404 and 400 with its reason. */
  datatype ApiError = Unauthorized | Forbidden | NotFound | BadRequest(reason: Refusal)

  /** Every balance the server stores for this user is non-negative. */
  predicate Solvent(a: Account)
  {
    a.balance >= 0.0 && a.raceback >= 0.0 && a.income >= 0.0
  }

  /** The stake a game accepts: `min(requested, balance, cap)`. */
  function Stake(requested: real, balance: real, cap: real): (s: real)
    ensures s <= requested && s <= balance && s <= cap
    ensures s == requested || s == balance || s == cap
  {
    var m := if requested <= balance then requested else balance;
    if m <= cap then m else cap
  }

  /** `calculate_raceback`: the cashback credited for a lost stake at `percent` per cent. */
  function RacebackCredit(bet: real, percent: real): (c: real)
    ensures bet >= 0.0 && percent >= 0.0 ==> 0.0 <= c <= bet * (percent / 100.0)
  {
    RoundMoney(bet * (percent / 100.0))
  }
}
