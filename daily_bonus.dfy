/**
 * The daily login bonus: a streak of consecutive UTC days, paid from a
 * seven-day reward table that starts again after day 7. Days are whole UTC
 * calendar days given as day numbers, so `today - last` is the source's
 * `days_since_claim`.
 */
module DailyBonus {
  import opened Wrappers
  import opened Accounts

  /** `DAILY_BONUS_REWARDS`, with the lookup default 10 outside 1..7. */
  function Reward(day: int): real
  {
    if day == 1 then 5.0
    else if day == 2 then 8.0
    else if day == 3 then 12.0
    else if day == 4 then 20.0
    else if day == 5 then 30.0
    else if day == 6 then 40.0
    else if day == 7 then 75.0
    else 10.0
  }

  const DemoNextBonus: real := 10.0

  /** What `get_daily_bonus` reports; a demo account gets no `next_day`. */
  datatype BonusStatus = BonusStatus(canClaim: bool, streak: int, nextDay: Option<int>, nextBonus: real)

  /** The streak that counts on `today`: kept after yesterday's claim, reset after a missed day. */
  function LiveStreak(a: Account, today: int): int
  {
    match a.lastDailyClaimDay
    case None => 0
    case Some(last) => if today - last > 1 then 0 else a.dailyStreak
  }

  /**
   * The streak a claim on `today` builds on: the stored streak, reset to 0
   * after a missed day. Unlike `LiveStreak`, an account that never claimed
   * keeps whatever streak is stored.
   */
  function CarriedStreak(a: Account, today: int): int
  {
    if a.lastDailyClaimDay.Some? && today - a.lastDailyClaimDay.value > 1 then 0 else a.dailyStreak
  }

  /** The day of the seven-day cycle after a streak of `streak` days. */
  function NextDay(streak: int): (d: int)
    ensures 1 <= d <= 7
    ensures streak > 0 ==> d == streak % 7 + 1
  {
    if streak > 0 then (streak % 7) + 1 else 1
  }

  /** `get_daily_bonus` on day `today`. */
  function Status(a: Account, today: int): (s: BonusStatus)
    ensures s.nextDay.Some? ==> 1 <= s.nextDay.value <= 7
    ensures a.isDemo <==> s.nextDay.None?
    ensures !a.isDemo ==> (s.canClaim <==> a.lastDailyClaimDay.None? || today - a.lastDailyClaimDay.value >= 1)
    ensures !a.isDemo ==> s.nextBonus == Reward(s.nextDay.value)
  {
    if a.isDemo then BonusStatus(false, 0, None, DemoNextBonus)
    else
      var canClaim := a.lastDailyClaimDay.None? || today - a.lastDailyClaimDay.value >= 1;
      var streak := LiveStreak(a, today);
      var day := NextDay(streak);
      BonusStatus(canClaim, streak, Some(day), Reward(day))
  }

  /** A successful claim: the new account, the bonus paid, the new streak and the cycle day. */
  datatype Claimed = Claimed(account: Account, bonus: real, streak: int, day: int)

  /**
   * `claim_daily_bonus` on day `today`: refuse a second claim on the same day,
   * otherwise pay the reward for the next cycle day, add it to the wagering
   * requirement and record the claim.
   */
  function Claim(a: Account, today: int): (r: Result<Claimed, ApiError>)
    ensures r.Ok? <==> !a.isDemo && (a.lastDailyClaimDay.None? || today - a.lastDailyClaimDay.value >= 1)
    ensures a.isDemo ==> r == Err(Forbidden)
    ensures !a.isDemo && a.lastDailyClaimDay.Some? && today - a.lastDailyClaimDay.value < 1
            ==> r == Err(BadRequest(AlreadyClaimedToday))
    ensures r.Ok? ==> && 1 <= r.value.day <= 7
                      && r.value.streak == CarriedStreak(a, today) + 1
                      && r.value.bonus == Reward(r.value.day)
                      && r.value.account == a.(balance := a.balance + r.value.bonus,
                                              wager := a.wager + r.value.bonus,
                                              lastDailyClaimDay := Some(today),
                                              dailyStreak := r.value.streak)
  {
    if a.isDemo then Err(Forbidden)
    else if a.lastDailyClaimDay.Some? && today - a.lastDailyClaimDay.value < 1 then
      Err(BadRequest(AlreadyClaimedToday))
    else
      var newStreak := CarriedStreak(a, today) + 1;
      var day := ((newStreak - 1) % 7) + 1;
      var bonus := Reward(day);
      Ok(Claimed(a.(balance := a.balance + bonus, wager := a.wager + bonus,
                    lastDailyClaimDay := Some(today), dailyStreak := newStreak),
                 bonus, newStreak, day))
  }

  /** The bonus is paid at most once per day: a second claim on the same day is refused. */
  lemma OncePerDay(a: Account, today: int)
    requires Claim(a, today).Ok?
    ensures Claim(Claim(a, today).value.account, today) == Err(BadRequest(AlreadyClaimedToday))
  {
  }

  /** A missed day starts the streak again at day 1 with the smallest reward. */
  lemma MissedDayRestarts(a: Account, today: int)
    requires !a.isDemo && a.lastDailyClaimDay.Some? && today - a.lastDailyClaimDay.value > 1
    ensures Claim(a, today).Ok?
    ensures Claim(a, today).value.streak == 1 && Claim(a, today).value.day == 1
    ensures Claim(a, today).value.bonus == 5.0
  {
  }

  /**
   * Status and claim agree for a non-negative streak that is 0 whenever no
   * claim is recorded: the status offers a claim exactly when the claim
   * succeeds, and announces the day and bonus it pays.
   */
  lemma StatusMatchesClaim(a: Account, today: int)
    requires !a.isDemo && a.dailyStreak >= 0
    requires a.lastDailyClaimDay.Some? || a.dailyStreak == 0
    ensures Status(a, today).canClaim <==> Claim(a, today).Ok?
    ensures Claim(a, today).Ok? ==> Claim(a, today).value.day == Status(a, today).nextDay.value
                                    && Claim(a, today).value.bonus == Status(a, today).nextBonus
  {
    var s := LiveStreak(a, today);
    assert s >= 0;
    if s > 0 {
      assert ((s + 1 - 1) % 7) + 1 == s % 7 + 1;
    }
  }

  /** Claims on consecutive days from a fresh streak run through the week and wrap to day 1 on day 8. */
  lemma WeekCycle(a: Account, d0: int)
    requires !a.isDemo && a.lastDailyClaimDay.None? && a.dailyStreak == 0
    ensures var c1 := Claim(a, d0);
            c1.Ok? && c1.value.day == 1 && c1.value.bonus == 5.0
    ensures var c1 := Claim(a, d0).value.account;
            var c2 := Claim(c1, d0 + 1).value.account;
            var c3 := Claim(c2, d0 + 2).value.account;
            var c4 := Claim(c3, d0 + 3).value.account;
            var c5 := Claim(c4, d0 + 4).value.account;
            var c6 := Claim(c5, d0 + 5).value.account;
            var c7 := Claim(c6, d0 + 6);
            c7.Ok? && c7.value.day == 7 && c7.value.bonus == 75.0 && c7.value.streak == 7
            && Claim(c7.value.account, d0 + 7).value.day == 1
  {
  }

  /** A negative stored streak makes the status announce day 1 while the claim pays another day. */
  lemma NegativeStreakDisagrees()
    ensures var a := Account(0.0, 0.0, 0.0, 0.0, 0.0, false, false, false, -3, Some(0), [], [], map[]);
            Status(a, 1).nextDay == Some(1) && Claim(a, 1).value.day == 5
  {
  }

  /**
   * A stored streak without a recorded claim makes the status announce day 1
   * while the claim continues the stored streak and pays day 4.
   */
  lemma NoClaimStreakDisagrees()
    ensures var a := Account(0.0, 0.0, 0.0, 0.0, 0.0, false, false, false, 3, None, [], [], map[]);
            && Status(a, 10).nextDay == Some(1) && Status(a, 10).nextBonus == 5.0
            && Claim(a, 10).Ok? && Claim(a, 10).value.day == 4
            && Claim(a, 10).value.bonus == 20.0 && Claim(a, 10).value.streak == 4
  {
  }
}
