# Crash round engine and casino server rules, in Dafny

This project models the crash game of a small online casino, with the server rules around it.

- **Client round controller.** `CrashGame` in `frontend/src/App.js` runs a shared round through four phases: waiting (3 s countdown), betting (5 s countdown), flying and crashed. In flight the multiplier grows until it reaches a locally predicted crash point. The round then freezes, reports itself, settles the player's bet, refreshes the history strip and restarts 4 s later.
- **Server crash handlers.** In `backend/server.py` these:
  - accept a bet with its crash point already drawn (with a forced-loss override chosen by a win oracle);
  - settle it once against the stored crash point;
  - log client-reported rounds;
  - build a 20-entry history strip.
- **Supporting server rules.**
  - money rounding (`round_money`);
  - the sliding-window rate limiter;
  - the daily login bonus;
  - the Mines coefficient;
  - the achievement scan and claim;
  - the claim and withdrawal guards (referral income, cashback, withdrawal, promo codes, daily tasks);
  - outcome selection in the x100 wheel and in Keno.

How the model is organised:

- **Client controller.** `CrashClient.CrashGame` is a class whose fields are the component's state, refs and pending callbacks. Each callback is a method. Each method is proved equal to a pure step function, and the properties are lemmas about those step functions and about runs of events.
- **Server crash handlers.** `CrashServer.CrashStore` holds `users` and `crash_bets` as maps. Its methods are proved against step functions in the same way.
- **Loops.** The loops of the source are methods with loop invariants, proved against recursive specification functions:
  - `get_mines_coefficient`;
  - `check_rate_limit`;
  - `get_crash_history`;
  - the achievement scan.
- **Pure rules.** The remaining rules are functions.

Money is an exact `real`.

- `round_money` (`Decimal` quantize with `ROUND_DOWN`) is truncation toward zero to cents.
- Python's `round(x, 2)` and JavaScript's `toFixed(2)` are modelled as round-half-up to cents.

Random draws, the win oracle `should_player_win`, database query results, clock readings and fresh ids are parameters.

Where the code and the design intent differ, the model follows the code, with one exception (the frame callback). The bullets after it record other notable behaviour of the code as modelled.
- **Frame callback.** The client's `OnFrame`/`FrameStep` follow the intended behaviour: they read the live bet id. The callback as written reads the first render's `betId` and never settles. `FrameStepAsWritten` models it, and the first row of "## Findings" explains it.
- **Crash bet debit.** The server's `BetStep` and `CrashStore.PlaceBet` follow the code: the stake is added to the wagering requirement (`DebitAsWritten`). The corrected debit (`Debit`) is defined and compared beside it; see the second row of "## Findings".
- **Client crash point.** The client's predicted crash point is not confined to [1, 1000]: it ranges over [0.79, 1200] (`ClientCrashPointCanBeBelowOne`, `ClientCrashPointCanExceedMax`).
- **One bet per round.** Nothing in `placeBet` refuses a second bet in the same round. Only the hidden bet button does (`BetButtonShown`).
- **Teardown.** Teardown does not cancel the one-shot history refresh scheduled after a crash: its request is still sent after unmount, but React drops its state update, so the list no longer changes (`HistoryRefreshOutlivesTeardown`). A settlement answer arriving after unmount still updates the balance, which lives in the application's context, but not the page's result panel.
- **Daily rewards.** The daily reward table is the server's, not the client's fallback table.

## Model

| member | source | states |
|---|---|---|
| Money.RoundMoney | backend/server.py:103-104 | the result is a whole number of cents; for v ≥ 0 it lies in [0, v] and is less than a cent below v; for v < 0 it lies in [v, 0], less than a cent above v (truncation toward zero) |
| Money.RoundMoneyIdempotent | backend/server.py:103-104 | rounding an already rounded amount changes nothing |
| Money.RoundMoneyKeepsCents | backend/server.py:103-104 | an amount that is already whole cents is left unchanged |
| Money.RoundMoneyMonotonic | backend/server.py:103-104 | for non-negative amounts, rounding preserves order |
| Money.Round2 | backend/server.py:300 | two-decimal rounding yields whole cents within half a cent of the input |
| Money.Round2AtLeast | backend/server.py:300 | rounding never drops below a whole-cent lower bound of the input |
| Money.Round2AtMost | backend/server.py:300 | rounding never exceeds a whole-cent upper bound of the input |
| Money.Round2Monotonic | backend/server.py:300 | two-decimal rounding preserves order |
| Accounts.Stake | backend/server.py:624 | the stake is the least of requested amount, balance and cap, and equals one of them |
| Accounts.RacebackCredit | backend/server.py:161-165 | cashback for a lost stake is between 0 and stake × percent / 100 |
| RateLimit.LimitFor | backend/server.py:46-52 | every category's limit is at least 5 (auth 10, games 30, admin 20, payment 5, anything else 100) |
| RateLimit.RecentKeepsExactlyYoung | backend/server.py:69-73 | pruning keeps exactly the timestamps younger than 60 s, never more entries than before |
| RateLimit.RecentIdempotent | backend/server.py:69-73 | pruning twice at the same instant is pruning once |
| RateLimit.RecentAppend | backend/server.py:69-73 | pruning distributes over concatenation |
| RateLimit.RateLimiter.constructor | backend/server.py:55 | the limiter starts empty and within every limit |
| RateLimit.RateLimiter.Check | backend/server.py:64-81 | the stored list is pruned; the request is admitted iff fewer than the limit remain, and then its time is appended; no stored list ever exceeds its category's limit; other entries are unchanged |
| RateLimit.FullWindowRefuses | backend/server.py:76-77 | a list holding the limit's worth of requests all within the window is still full after pruning |
| RateLimit.RecentAllYoung | backend/server.py:69-73 | pruning a list of in-window requests keeps all of them |
| RateLimit.OldRequestsExpire | backend/server.py:69-73 | once every stored request is older than the window the list empties |
| Mines.Coefficient | backend/server.py:296-300 | the loop answers iff no factor divides by zero, and then its answer is the rounded product of (25 − i)/(25 − bombs − i) |
| Mines.ProductAtLeastOne | backend/server.py:296-300 | on a board where the opened cells fit among the safe ones, every factor is defined, the product is at least 1 and does not fall as cells open |
| Mines.CoefficientAtLeastOne | backend/server.py:296-300 | the rounded coefficient of a playable board is at least 1 and never decreases with one more opened cell |
| Mines.NoBombsNoGain | backend/server.py:296-300 | with no mines every factor is 1 |
| Mines.OverfullBoardFails | backend/server.py:296-300 | opening more cells than the safe ones divides by zero |
| CrashPoint.Base | frontend/src/App.js:1817-1823 | the base lies in [0.99, 99) when r < 0.99 and in [100, 1000) otherwise |
| CrashPoint.JitteredRange | frontend/src/App.js:1824-1825 | the clamped base times the 0.8–1.2 variation lies in [0.79, 1200] |
| CrashPoint.ClientCrashPointRange | frontend/src/App.js:1817-1826 | the client's predicted crash point lies in [0.79, 1200] |
| CrashPoint.ClientCrashPointCanBeBelowOne | frontend/src/App.js:1817-1826 | r = 0 with the lowest variation predicts 0.79, below 1 |
| CrashPoint.ClientCrashPointCanExceedMax | frontend/src/App.js:1817-1826 | the big-win branch with a high variation predicts above 1000 |
| CrashPoint.BigWinBranch | frontend/src/App.js:1821-1822 | r ≥ 0.99 draws the base uniformly from [100, 1000) |
| CrashPoint.ServerCrashPoint | backend/server.py:636-647 | the server's crash point is whole cents within [0.99, 1000] |
| CrashPoint.UniformWithin | backend/server.py:652 | a uniform draw lies between its bounds |
| CrashPoint.ForcedLossBeforeTarget | backend/server.py:650-653 | for a target above 1.01 the forced-loss crash point is at least 1.00 and below the target |
| CrashPoint.ForcedLossCanReachLowTarget | backend/server.py:650-651 | for a target of 1.00 the forced-loss crash point can reach the target |
| CrashClient.InitialInv | frontend/src/App.js:1714-1731 | a freshly rendered page satisfies the controller invariant, not running and with no timer |
| CrashClient.StepInv | frontend/src/App.js:1753-1927 | every event keeps the invariant: at most one live phase callback, live exactly while running, each countdown in range, a crashed round shows its crash point |
| CrashClient.RunInv | frontend/src/App.js:1753-1927 | the invariant holds after any sequence of events |
| CrashClient.StoppedEntryPointsInert | frontend/src/App.js:1767-1838 | with the running flag off, the three phase entry points change nothing, and a frame only drops the animation handle |
| CrashClient.WaitingCountsDown | frontend/src/App.js:1778-1786 | waiting counts 3, 2, 1, 0; the last tick clears the interval and opens betting with a countdown of 5 |
| CrashClient.BettingCountsDown | frontend/src/App.js:1797-1805 | betting counts down five ticks; the last one clears the interval and starts the flight |
| CrashClient.FrameOutcome | frontend/src/App.js:1844-1878 | a frame that reaches the crash point freezes the multiplier at exactly the crash point, enters crashed, cancels the frame and leaves exactly the restart timer; any other frame shows the clock value and requests exactly one more frame |
| CrashClient.TeardownIsFinal | frontend/src/App.js:1760-1764 | after teardown no scheduled callback changes anything, however many are delivered |
| CrashClient.HistoryRefreshOutlivesTeardown | frontend/src/App.js:1759-1764 | teardown does not cancel the history refresh scheduled after a crash (line 1867): after unmount it still sends its request but leaves the list unchanged, while before unmount its answer replaces the list |
| CrashClient.AtMostOneSettlementPerFlight | frontend/src/App.js:1829-1864 | between flight starts the client sends at most one result request, and none unless the round was flying |
| CrashClient.OneStepSettles | frontend/src/App.js:1860-1864 | only a crashing frame adds a result request, one at most |
| CrashClient.CrashSettlesHeldBet | frontend/src/App.js:1860-1864 | the crashing frame requests settlement exactly when a bet is held and not yet processed, with the frozen multiplier, and marks it processed |
| CrashClient.AsWrittenNeverSettles | frontend/src/App.js:1860-1864 | the frame callback as written belongs to the first render (lines 1753-1757) and reads that render's `betId` (null): a held bet is never settled, where the corrected callback sends one request |
| CrashClient.PlaceBetContract | frontend/src/App.js:1884-1903 | a bet is accepted iff a user is signed in with at least the stake, the round is betting and the server returned an id; then that id is held, the stake is debited optimistically and the bet button hidden; a rejection keeps phase, bet and balance, and outside betting nothing changes |
| CrashClient.SettlementOverwritesBalance | frontend/src/App.js:1905-1911 | after settlement the balance is the server's value (`updateBalance`, lines 2980-2982), whatever the optimistic balance was |
| CrashClient.HistoryKeepsFirstTwenty | frontend/src/App.js:1734-1743 | a successful refresh keeps a prefix of the reply of length min(20, reply length); a failed one leaves the list unchanged |
| CrashClient.CrashGame.constructor | frontend/src/App.js:1714-1731 | the fields start as the initial state |
| CrashClient.CrashGame.StartGameLoop | frontend/src/App.js:1767-1789 | the new state is the loop start: waiting, countdown 3, bet and result cleared, one wait timer; nothing if not running |
| CrashClient.CrashGame.StartBettingPhase | frontend/src/App.js:1791-1808 | the new state is betting with countdown 5 and the bet timer; nothing if not running |
| CrashClient.CrashGame.StartFlightPhase | frontend/src/App.js:1810-1881 | the new state is flying with the drawn crash point, the per-flight flag cleared and one frame requested; nothing if not running |
| CrashClient.CrashGame.OnMount | frontend/src/App.js:1734-1757 | the page is mounted, one history request is sent and its answer replaces the list with at most its first 20 entries (a failed request leaves it unchanged), polling starts, and the loop starts unless already running |
| CrashClient.CrashGame.OnTeardown | frontend/src/App.js:1759-1764 | the running flag, the phase timer, the frame and (line 1749) the poll are all cleared, and the page is no longer mounted |
| CrashClient.CrashGame.OnWaitTick | frontend/src/App.js:1779-1786 | one tick of the waiting interval |
| CrashClient.CrashGame.OnBetTick | frontend/src/App.js:1798-1805 | one tick of the betting interval |
| CrashClient.CrashGame.OnFrame | frontend/src/App.js:1831-1879 | one animation frame, with the live bet id |
| CrashClient.CrashGame.FreezeFlight | frontend/src/App.js:1844-1874 | the crashing frame's updates |
| CrashClient.CrashGame.RequestSettlement | frontend/src/App.js:1860-1864 | the result request is sent once and the flight marked processed |
| CrashClient.CrashGame.OnRestart | frontend/src/App.js:1870-1874 | the cooldown restarts the loop only while running |
| CrashClient.CrashGame.OnHistoryPoll | frontend/src/App.js:1734-1748 | while polling, one history request is sent and its reply applied while mounted |
| CrashClient.CrashGame.OnHistoryRefresh | frontend/src/App.js:1867 | the pending post-crash refresh sends one request and applies its reply only while mounted |
| CrashClient.CrashGame.PlaceBet | frontend/src/App.js:1884-1903 | the bet action with the server's answer |
| CrashClient.CrashGame.OnSettleResponse | frontend/src/App.js:1908-1926 | the settlement answer overwrites the balance and, while mounted, shows the result |
| CrashServer.DebitAsWritten | backend/server.py:631 | the debit as written takes the stake from the balance and raises the wagering requirement by a positive stake |
| CrashServer.Debit | backend/server.py:631 | the corrected debit takes the stake from the balance and never raises the wagering requirement |
| CrashServer.CrashBetBlocksWithdrawalAsWritten | backend/server.py:631 | a player with no requirement left who places a 10 crash bet can no longer withdraw with the debit as written, and still can with the corrected debit |
| CrashServer.DebitKeepsWithdrawalOpen | backend/server.py:1598-1603 | with the corrected debit of line 631 a bet never blocks a withdrawal; as written, the withdrawal stays open only while the stake does not lift the requirement above 0 |
| CrashServer.BetAccepted | backend/server.py:618-665 | an accepted bet stakes min(requested, balance, 10000) ≥ 1, takes exactly the stake from the balance and adds it to the wagering requirement (line 631 as written), every other account field unchanged, and stores one pending record with the target, nothing else changing; a refused bet changes nothing; a known unbanned user is refused iff that stake is below 1 |
| CrashServer.AcceptedBetBlocksWithdrawal | backend/server.py:631 | through the handler as written, a player with no wagering requirement who places a crash bet is left with a positive requirement and any withdrawal is refused |
| CrashServer.StoredCrashPoint | backend/server.py:636-653 | a refused non-YouTuber's bet with a target above 1.01 stores a crash point in [1.00, target); otherwise it is whole cents in [0.99, 1000] |
| CrashServer.SettleOutcome | backend/server.py:689-720 | settling a pending bet wins iff crash point ≥ target; a win adds round_money(bet × target) to the balance, records it, logs it and charges the bank; a loss records win 0, leaves the balance, credits cashback and feeds the bank 75 % of the stake; nothing else changes; the reported final multiplier makes no difference |
| CrashServer.SettleIdempotent | backend/server.py:680-686 | once settled, a second request answers the same status, crash point and win and changes nothing |
| CrashServer.ForcedBetLoses | backend/server.py:648-653 | a bet the oracle refused with a target above 1.01 always settles as a loss with no payout |
| CrashServer.BetKeepsInv | backend/server.py:624-631 | placing bets keeps every balance non-negative |
| CrashServer.SettleKeepsInv | backend/server.py:689-713 | settling a bet with a non-negative target keeps every balance non-negative |
| CrashServer.NegativeTargetDrainsBalance | backend/server.py:692-695 | an unvalidated negative target wins at any crash point and drives the balance below 0 |
| CrashServer.SystemRoundNeverPaid | backend/server.py:776-793 | a client-reported round is stored already lost: no user can collect it, and asking for it changes nothing |
| CrashServer.OneEntryPerRound | backend/server.py:746-759 | the deduplicated history has exactly one entry per distinct (crash point, minute) key |
| CrashServer.FirstOccurrencesPrefix | backend/server.py:753-759 | the entries found in a prefix of the rows are a prefix of those found in all rows |
| CrashServer.Pad | backend/server.py:762-771 | a padding entry is whole cents within [1, 50] |
| CrashServer.PadHistory | backend/server.py:762-773 | the entries found so far are kept in order and padded to exactly 20, each padding entry within [1, 50] |
| CrashServer.CrashHistory | backend/server.py:734-773 | exactly 20 entries: first the first occurrences of each round among the newest 30 rows, at most 20 of them, then padding entries in [1, 50] |
| CrashServer.CrashStore.constructor | backend/server.py:617-793 | the store starts with the given users and no bets |
| CrashServer.CrashStore.PlaceBet | backend/server.py:618-670 | the new state and answer are the bet step's, with the debit as written |
| CrashServer.CrashStore.Settle | backend/server.py:674-730 | the new state and answer are the settlement step's |
| CrashServer.CrashStore.RoundComplete | backend/server.py:776-793 | the reported round is stored as a lost system round |
| DailyBonus.NextDay | backend/server.py:1119 | the announced day is in 1..7, and streak mod 7 + 1 for a positive streak |
| DailyBonus.Status | backend/server.py:1088-1129 | a claim is offered iff there was no claim or the last was at least a day ago; the day is in 1..7 and the bonus is that day's reward; demo accounts get no day |
| DailyBonus.Claim | backend/server.py:1132-1184 | succeeds iff not demo and there was no earlier claim or the last one was at least a day ago; demo refused with 403, same day with 400; on success the stored streak (reset to 0 after a missed day, kept as stored when no claim is recorded) grows by one, the cycle day is in 1..7, the reward is paid and added to the wagering requirement, and the claim day recorded |
| DailyBonus.OncePerDay | backend/server.py:1149-1150 | a second claim on the same day is refused |
| DailyBonus.MissedDayRestarts | backend/server.py:1152-1158 | after a missed day the claim pays day 1 (5) with streak 1 |
| DailyBonus.StatusMatchesClaim | backend/server.py:1113-1158 | for a non-negative streak that is 0 when no claim is recorded, status offers a claim exactly when the claim succeeds, and announces the day and bonus the claim pays |
| DailyBonus.WeekCycle | backend/server.py:1156-1158 | daily claims from a fresh account (no recorded claim, stored streak 0) pay days 1..7 (5 to 75) and wrap to day 1 on the eighth |
| DailyBonus.NegativeStreakDisagrees | backend/server.py:1119-1157 | with a negative stored streak the status announces day 1 while the claim pays another day |
| DailyBonus.NoClaimStreakDisagrees | backend/server.py:1104-1157 | with a stored streak of 3 and no recorded claim the status announces day 1 (5) while the claim continues the streak and pays day 4 (20) with streak 4 |
| Claims.RefWithdraw | backend/server.py:1043-1052 | succeeds iff not demo and income ≥ 10; moves all income to the balance, total unchanged |
| Claims.RefWithdrawOnce | backend/server.py:1047-1050 | a second withdrawal right after is refused |
| Claims.ClaimRaceback | backend/server.py:1061-1072 | succeeds iff not demo, balance ≤ 0 and cashback ≥ 1; moves all cashback to the balance |
| Claims.RacebackOnce | backend/server.py:1065-1070 | a second claim right after is refused |
| Claims.CreateWithdraw | backend/server.py:1588-1613 | succeeds iff not demo, amount (default 100) ≥ minimum, balance ≥ amount and no wagering requirement left; then only the balance falls, by the amount |
| Claims.WithdrawKeepsSolvent | backend/server.py:1600-1605 | a withdrawal never leaves a negative balance |
| Claims.ActivatePromo | backend/server.py:1623-1651 | succeeds iff the code names an enabled promo below its limit, unused by this user, and its deposit condition holds; pays the reward, adds reward × multiplier to the requirement (none for type 3), counts one use and logs it |
| Claims.ActivationKeepsLimits | backend/server.py:1630-1644 | activations never push a promo beyond its limit |
| Claims.PromoOncePerUser | backend/server.py:1633-1635 | a user cannot activate the same code twice |
| Claims.ClaimDailyTask | backend/server.py:1487-1529 | succeeds iff not demo, a daily task with that id exists, it was not claimed today and today's progress reaches its target; pays the reward and records it for today only, every other account field unchanged |
| Claims.DailyTaskOncePerDay | backend/server.py:1497-1517 | the same task cannot be claimed twice on one day, whatever the progress |
| X100.WheelCoversCoefficients | backend/server.py:885-902 | every selectable coefficient appears on the wheel, and every value is missing somewhere |
| X100.SpinPosition | backend/server.py:914-928 | the chosen position is on the wheel and, for a valid coefficient, shows it exactly when the player is to win |
| X100.Payout | backend/server.py:932 | a win pays at most stake × coefficient and never less than 0 |
| X100.Settle | backend/server.py:928-939 | a hit pays round_money(bet × coefficient) with the stake taken; a miss forfeits the stake and credits cashback; the stake always works off the requirement |
| X100.PlayOutcome | backend/server.py:894-939 | for a valid coefficient and a stake ≥ 1, the spin hits iff the player is a YouTuber or the oracle says win, with the balances of `Settle` |
| X100.PlayKeepsSolvent | backend/server.py:899-939 | a spin keeps every balance non-negative |
| Keno.MultiplierShape | backend/server.py:995-1008 | a paying entry of the table needs 1 ≤ matches ≤ picks ≤ 10 and pays at least 1× |
| Keno.UnselectedFacts | backend/server.py:1014 | the unselected numbers up to n are increasing, in 1..n, not selected, and as many as n minus the selected ones |
| Keno.HitsAtMostSelected | backend/server.py:1014 | no more of 1..n are selected than there are selected entries |
| Keno.ForcedDrawMisses | backend/server.py:1012-1016 | for at most 10 selected numbers the forced draw is 10 increasing numbers of 1..40, none selected, matching nothing |
| Keno.PlayOutcome | backend/server.py:969-1022 | an accepted play has a valid selection and a stake in [1, balance]; it pays iff the table pays and the player is a YouTuber or favoured, and then pays round_money(stake × multiplier) on the real draw; a refused win shows the forced draw with 0 matches; the reported multiplier is always the real one; a loss credits cashback |
| Keno.UnfavouredNeverWins | backend/server.py:1012-1016 | a non-YouTuber the oracle does not favour is never paid |
| Achievements.CatalogueHasRewards | backend/server.py:1188-1196 | exactly the seven catalogue ids have a reward, each positive |
| Achievements.StreakIsTrailingRun | backend/server.py:1237-1243 | the current streak is a run of wins ending at the last game |
| Achievements.TrailingRunWithinStreak | backend/server.py:1237-1243 | no run of wins ending at the last game is longer than the streak |
| Achievements.MaxRunOfPrefix | backend/server.py:1240-1241 | the longest streak never shrinks as games are added |
| Achievements.MaxRunMeansConsecutiveWins | backend/server.py:1237-1243 | the longest streak is at least k iff k consecutive games, across collection boundaries, are all wins |
| Achievements.ExplorerNeedsCrashGames | backend/server.py:1208-1263 | explorer's six game types can only be reached with a game in `crash_games` |
| Achievements.Extend | backend/server.py:1220-1243 | how each statistic changes when one more game is scanned |
| Achievements.Scan | backend/server.py:1208-1245 | the nested loops compute the total games, total wins, largest win and stake (at least 0), the set of types played and the longest run of wins over all six collections in order |
| Achievements.SelectMembers | backend/server.py:1247-1273 | the selection holds exactly the given ids that are earned and not yet unlocked |
| Achievements.UnlockAddsEarned | backend/server.py:1247-1280 | unlocking keeps earlier achievements in place and adds exactly the earned catalogue entries not yet unlocked, touching nothing else |
| Achievements.UnlockIdempotent | backend/server.py:1247-1280 | a second check with the same statistics unlocks nothing more |
| Achievements.Claim | backend/server.py:1325-1359 | succeeds iff not demo, the id is in the catalogue, unlocked and not yet claimed; pays the id's reward and records the claim |
| Achievements.ClaimOnce | backend/server.py:1346-1357 | an achievement pays once and its claim raises the balance |

## Left out

- The frame clock `Math.exp(0.18·t)` and `Date.now` are not modelled: a frame receives the displayed multiplier as a parameter, so monotonic growth of the clock is not modelled.
- Binary floating point is not modelled. `str(float)` inside `round_money` and the float tie behaviour of `round`/`toFixed` are left out; amounts are exact reals.
- Randomness (`Math.random`, `random.random`/`uniform`/`choice`/`sample`) and the win oracle `should_player_win` are parameters. The oracle's RTP arithmetic and drain rule (backend/server.py:175-201) are not modelled.
- React rendering, toasts, navigation and the Telegram widget are left out. So are axios, MongoDB, JWT and the Telegram login. A missing user becomes a 401 result, or an absent account.
- CrashClient.PlaceBetStep treats the bet request and its reply as one event, so a bet reply that arrives after unmount is not modelled. The bet button exists only on the mounted page.
- Concurrency is not modelled. Callbacks and replies are single events applied one at a time, and the non-atomic read-then-update of `get_crash_result` under concurrent requests is not modelled.
- CrashServer.CrashHistory takes the query result (settled bets, newest first) as a parameter. The database sort is not modelled; only the limit of 30 is applied. The history key is the pair (crash point, `created_at[:16]`) rather than the formatted string.
- CrashServer.BetStep and CrashServer.RoundCompleteStep take the fresh bet id as a parameter and require it to be unused in `crash_bets`, standing in for the source's random uuid. uuid generation and the negligible chance of a collision are not modelled.
- The `bets` history document for a won bet keeps only user, stake, multiplier and win. Other games' own state and history writes are not modelled.
- Claims.ClaimDailyTask takes today's progress counters as a parameter. The `get_daily_task_progress` aggregation over the game collections is not modelled.
- Claims.ActivatePromo assumes promo codes are unique keys. The source's `find_one` by name picks any matching document.
- DailyBonus works on UTC day numbers. Timestamp parsing and ISO formatting are not modelled.
- Fake online counts, bot history, the support chat, payments, the admin console and the Mines, Dice, Bubbles and Wheel game handlers are outside this model. Only the Mines coefficient rule is included.
- The x100 and Keno handlers' history documents and the wheel rotation angle are not modelled.
- Achievements.Scan takes each collection's query result (oldest first) as a parameter. The per-collection limit of 10000 is applied.
- The explorer achievement needs games in six collections, but no handler ever writes `crash_games`: crash bets are stored in `crash_bets`. So explorer cannot be unlocked. `ExplorerNeedsCrashGames` states the dependency; the absence of writers is a fact about the rest of the server and is not modelled.
- CrashServer.SettleKeepsInv requires a non-negative auto-cashout target, because the server does not validate it (see `NegativeTargetDrainsBalance`).
- DailyBonus.StatusMatchesClaim requires a non-negative stored streak that is 0 when no claim is recorded, because status and claim disagree otherwise: the status resets the streak when no claim is recorded and the claim does not (see `NegativeStreakDisagrees` and `NoClaimStreakDisagrees`).
- DailyBonus.WeekCycle requires a stored streak of 0 as well as no recorded claim; with a positive stored streak the first claim continues that streak instead of paying day 1.

## Findings

| source | as written | input that shows it | evidently intended | confidence | as-written member | corrected member |
|---|---|---|---|---|---|---|
| frontend/src/App.js:1860-1864 | the frame callback (lines 1831-1879) belongs to the first render's closure, so it reads `crashed == false` and `betId == null` forever; the bet guard never passes and `checkResult` is never called | sign in, place a bet during betting, and let the flight reach its crash point: no result request is sent and the server bet stays pending | the crashing frame settles the bet currently held, once per flight | high (not executed) | CrashClient.AsWrittenNeverSettles | CrashClient.CrashSettlesHeldBet |
| backend/server.py:631 | `crash_bet` adds the stake to `wager` (`"wager": bet`), while every other game subtracts it (lines 317, 459, 531, 589, 939, 1020); a withdrawal is refused while `wager > 0` (line 1602) | balance 200, wager 0; a crash bet of 10; then a withdrawal of 100 is refused for an outstanding wager | the stake works off the wagering requirement (`"wager": -bet`) | medium (not executed) | CrashServer.CrashBetBlocksWithdrawalAsWritten | CrashServer.DebitKeepsWithdrawalOpen |
