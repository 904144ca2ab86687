/**
 * The server side of Crash: a bet is accepted with its crash point already
 * drawn and stored as `pending`; the result request settles it once, paying
 * the stake times the auto-cashout target when the crash point reaches the
 * target. Users and `crash_bets` are maps from ids to records.
 */
module CrashServer {
  import opened Wrappers
  import opened Money
  import opened CrashPoint
  import opened Accounts
  import Claims

  const MaxStake: real := 10000.0
  const DefaultStake: real := 10.0
  const DefaultAutoCashout: real := 2.0
  /** The share of a lost stake the house bank keeps. */
  const BankShare: real := 0.75
  /** The owner of the rounds the client reports as finished. */
  const SystemUser: UserId := "system"
  const HistoryLength: int := 20
  const HistoryQueryLimit: int := 30
  /** `created_at[:16]`: an ISO timestamp cut to the minute. */
  const MinuteKeyLength: int := 16

  datatype Status = Pending | Won | Lost

  /** A `crash_bets` document; `win` is absent until the bet is settled. */
  datatype BetRecord = BetRecord(userId: UserId, bet: real, autoCashout: real, crashPoint: real,
                                 status: Status, win: Option<real>, createdAt: string)

  /** A `bets` history document written for a won crash bet. */
  datatype LogEntry = LogEntry(userId: UserId, bet: real, multiplier: real, win: real)

  /** The stored state the crash handlers read and write. */
  datatype Store = Store(users: map<UserId, Account>, bets: map<string, BetRecord>, bank: real,
                         racebackPercent: real, log: seq<LogEntry>)

  /**
   * The random draws of one bet: `r` and `u` for the crash point, the win
   * oracle's verdict and `forcedU` for the forced-loss crash point.
   */
  datatype Draws = Draws(r: real, u: real, playerWins: bool, forcedU: real)

  predicate ValidDraws(d: Draws)
  {
    IsDraw(d.r) && IsDraw(d.u) && IsDraw(d.forcedU)
  }

  /** The answer of the result request; `autoCashout` and `balance` only for a fresh settlement. */
  datatype Answer = Answer(status: Status, crashPoint: real, autoCashout: Option<real>, win: real,
                           balance: Option<real>)

  // ---------------------------------------------------------------------------
  // Placing a bet

  /**
   * The stake debit as `crash_bet` writes it: the stake leaves the balance but
   * is added to the wagering requirement, unlike every other game.
   */
  function DebitAsWritten(a: Account, bet: real): (b: Account)
    ensures b.balance + bet == a.balance
    ensures bet > 0.0 ==> b.wager > a.wager
  {
    a.(balance := a.balance - bet, wager := a.wager + bet)
  }

  /**
   * The corrected stake debit, as every other game does it: the stake works
   * off the wagering requirement. The handler below keeps the debit as written.
   */
  function Debit(a: Account, bet: real): (b: Account)
    ensures bet >= 0.0 ==> b.wager <= a.wager
    ensures b.balance + bet == a.balance
  {
    a.(balance := a.balance - bet, wager := a.wager - bet)
  }

  /**
   * With the debit as written, a player with no wagering requirement left
   * who places one crash bet can no longer withdraw.
   */
  lemma CrashBetBlocksWithdrawalAsWritten()
    ensures var a := Account(200.0, 0.0, 0.0, 0.0, 0.0, false, false, false, 0, None, [], [], map[]);
            && Claims.CreateWithdraw(a, Some(100.0), 100.0).Ok?
            && Claims.CreateWithdraw(DebitAsWritten(a, 10.0), Some(100.0), 100.0) == Err(BadRequest(WagerOutstanding))
            && Claims.CreateWithdraw(Debit(a, 10.0), Some(100.0), 100.0).Ok?
  {
  }

  /**
   * With the corrected debit a bet never creates a wagering requirement that
   * blocks withdrawal; with the debit as written the withdrawal stays open
   * only while the stake does not lift the requirement above 0.
   */
  lemma DebitKeepsWithdrawalOpen(a: Account, bet: real, amount: Option<real>, minWithdraw: real)
    requires a.wager <= 0.0 && 0.0 <= bet <= a.balance
    requires var x := amount.GetOr(Claims.DefaultWithdrawAmount);
             !a.isDemo && x >= minWithdraw && a.balance - bet >= x
    ensures Claims.CreateWithdraw(Debit(a, bet), amount, minWithdraw).Ok?
    ensures Claims.CreateWithdraw(DebitAsWritten(a, bet), amount, minWithdraw).Ok? <==> a.wager + bet <= 0.0
  {
  }

  /** The stored crash point: the forced-loss override unless the player is a YouTuber or favoured. */
  function DrawCrashPoint(a: Account, autoCashout: real, d: Draws): real
    requires ValidDraws(d)
  {
    if !a.isYoutuber && !d.playerWins then ForcedLossCrashPoint(autoCashout, d.forcedU)
    else ServerCrashPoint(d.r, d.u)
  }

  /**
   * `crash_bet` by user `uid` (401 when no such user): `id` is the fresh bet
   * id, `now` the creation timestamp. Answers the new bet's id.
   */
  function BetStep(s: Store, uid: UserId, requested: Option<real>, autoCashout: Option<real>, d: Draws,
                   id: string, now: string): (Store, Result<string, ApiError>)
    requires ValidDraws(d) && id !in s.bets
  {
    if uid !in s.users then (s, Err(Unauthorized))
    else
      var a := s.users[uid];
      if a.isBan then (s, Err(Forbidden))
      else
        var bet := Stake(requested.GetOr(DefaultStake), a.balance, MaxStake);
        var ac := autoCashout.GetOr(DefaultAutoCashout);
        if bet < 1.0 then (s, Err(BadRequest(InsufficientFunds)))
        else
          var record := BetRecord(uid, bet, ac, DrawCrashPoint(a, ac, d), Pending, None, now);
          (s.(users := s.users[uid := DebitAsWritten(a, bet)], bets := s.bets[id := record]), Ok(id))
  }

  /**
   * An accepted bet stakes min(requested, balance, 10000), at least 1, takes
   * exactly the stake from the balance, adds it to the wagering requirement
   * (the debit as written) and stores a pending record; nothing else changes. A refused bet changes nothing, and a known, unbanned user
   * is refused exactly when that stake is below 1.
   */
  lemma BetAccepted(s: Store, uid: UserId, requested: Option<real>, autoCashout: Option<real>, d: Draws,
                    id: string, now: string)
    requires ValidDraws(d) && id !in s.bets
    ensures var (t, r) := BetStep(s, uid, requested, autoCashout, d, id, now);
            && (r.Err? ==> t == s)
            && (uid in s.users && !s.users[uid].isBan ==>
                  (r.Err? <==> Stake(requested.GetOr(DefaultStake), s.users[uid].balance, MaxStake) < 1.0))
            && (r.Ok? ==>
                  var a := s.users[uid];
                  var bet := Stake(requested.GetOr(DefaultStake), a.balance, MaxStake);
                  && uid in s.users && !a.isBan && r.value == id
                  && 1.0 <= bet <= a.balance && bet <= MaxStake
                  && (bet == requested.GetOr(DefaultStake) || bet == a.balance || bet == MaxStake)
                  && t.users == s.users[uid := t.users[uid]]
                  && t.users[uid] == a.(balance := a.balance - bet, wager := a.wager + bet)
                  && t.bets == s.bets[id := t.bets[id]]
                  && t.bets[id].userId == uid && t.bets[id].bet == bet && t.bets[id].status == Pending
                  && t.bets[id].autoCashout == autoCashout.GetOr(DefaultAutoCashout)
                  && t.bank == s.bank && t.log == s.log)
  {
  }

  /**
   * Through the handler as written: a player with no wagering requirement
   * left who places a crash bet can no longer withdraw anything.
   */
  lemma AcceptedBetBlocksWithdrawal(s: Store, uid: UserId, requested: Option<real>, autoCashout: Option<real>,
                                    d: Draws, id: string, now: string, amount: Option<real>, minWithdraw: real)
    requires ValidDraws(d) && id !in s.bets && uid in s.users && s.users[uid].wager == 0.0
    requires BetStep(s, uid, requested, autoCashout, d, id, now).1.Ok?
    ensures var t := BetStep(s, uid, requested, autoCashout, d, id, now).0;
            && t.users[uid].wager > 0.0
            && Claims.CreateWithdraw(t.users[uid], amount, minWithdraw).Err?
  {
    BetAccepted(s, uid, requested, autoCashout, d, id, now);
  }

  /**
   * A bet the oracle refuses (for a non-YouTuber) with a target above 1.01 is
   * stored with a crash point at least 1.00 and below the target; any other
   * bet gets a rounded crash point in [0.99, 1000].
   */
  lemma StoredCrashPoint(s: Store, uid: UserId, requested: Option<real>, autoCashout: Option<real>, d: Draws,
                         id: string, now: string)
    requires ValidDraws(d) && id !in s.bets
    requires BetStep(s, uid, requested, autoCashout, d, id, now).1.Ok?
    ensures var rec := BetStep(s, uid, requested, autoCashout, d, id, now).0.bets[id];
            && (!s.users[uid].isYoutuber && !d.playerWins && rec.autoCashout > 1.01 ==>
                  1.0 <= rec.crashPoint < rec.autoCashout)
            && (s.users[uid].isYoutuber || d.playerWins ==> IsCents(rec.crashPoint) && 0.99 <= rec.crashPoint <= MaxCrash)
  {
    var ac := autoCashout.GetOr(DefaultAutoCashout);
    if !s.users[uid].isYoutuber && !d.playerWins && ac > 1.01 {
      ForcedLossBeforeTarget(ac, d.forcedU);
    }
  }

  // ---------------------------------------------------------------------------
  // Settling a bet

  /** Whether a bet wins: the crash point reached the auto-cashout target. */
  predicate Wins(rec: BetRecord)
  {
    rec.crashPoint >= rec.autoCashout
  }

  /** A winning bet pays the stake times the target, truncated to cents. */
  function Payout(rec: BetRecord): real
  {
    RoundMoney(rec.bet * rec.autoCashout)
  }

  /** The bank after a settlement; a YouTuber's bets leave it alone. */
  function BankAfter(bank: real, a: Account, rec: BetRecord, win: real): real
  {
    if a.isYoutuber then bank
    else if Wins(rec) then bank - (win - rec.bet)
    else bank + rec.bet * BankShare
  }

  /**
   * `get_crash_result` of bet `betId` by user `uid`. `finalMultiplier` is
   * the multiplier the client reports; the handler reads it and ignores it.
   */
  function SettleStep(s: Store, uid: UserId, betId: string, finalMultiplier: real): (Store, Result<Answer, ApiError>)
  {
    if uid !in s.users then (s, Err(Unauthorized))
    else if betId !in s.bets || s.bets[betId].userId != uid then (s, Err(NotFound))
    else
      var rec := s.bets[betId];
      if rec.status != Pending then
        (s, Ok(Answer(rec.status, rec.crashPoint, None, rec.win.GetOr(0.0), None)))
      else
        var a := s.users[uid];
        if Wins(rec) then
          var win := Payout(rec);
          var b := a.(balance := a.balance + win);
          (s.(users := s.users[uid := b],
              bets := s.bets[betId := rec.(status := Won, win := Some(win))],
              bank := BankAfter(s.bank, a, rec, win),
              log := s.log + [LogEntry(uid, rec.bet, rec.autoCashout, win)]),
           Ok(Answer(Won, rec.crashPoint, Some(rec.autoCashout), win, Some(b.balance))))
        else
          var b := a.(raceback := a.raceback + RacebackCredit(rec.bet, s.racebackPercent));
          (s.(users := s.users[uid := b],
              bets := s.bets[betId := rec.(status := Lost, win := Some(0.0))],
              bank := BankAfter(s.bank, a, rec, 0.0)),
           Ok(Answer(Lost, rec.crashPoint, Some(rec.autoCashout), 0.0, Some(b.balance))))
  }

  /**
   * Settling a pending bet decides win exactly when the crash point reached
   * the target. A win adds the payout to the balance, records it and logs the
   * bet; a loss leaves the balance alone, records a win of 0 and credits
   * cashback. The bet is no longer pending, no other user or bet changes, and
   * the reported final multiplier makes no difference.
   */
  lemma SettleOutcome(s: Store, uid: UserId, betId: string, finalMultiplier: real)
    requires SettleStep(s, uid, betId, finalMultiplier).1.Ok?
    requires s.bets[betId].status == Pending
    ensures SettleStep(s, uid, betId, finalMultiplier) == SettleStep(s, uid, betId, 1.0)
    ensures var (t, r) := SettleStep(s, uid, betId, finalMultiplier);
            var rec := s.bets[betId];
            var a := s.users[uid];
            && uid in s.users && rec.userId == uid
            && (r.value.status == Won <==> rec.crashPoint >= rec.autoCashout)
            && r.value.status != Pending
            && t.bets == s.bets[betId := rec.(status := r.value.status, win := Some(r.value.win))]
            && t.users == s.users[uid := t.users[uid]]
            && r.value.balance == Some(t.users[uid].balance)
            && (r.value.status == Won ==>
                  && r.value.win == Payout(rec)
                  && t.users[uid] == a.(balance := a.balance + r.value.win)
                  && t.log == s.log + [LogEntry(uid, rec.bet, rec.autoCashout, r.value.win)]
                  && t.bank == (if a.isYoutuber then s.bank else s.bank - (r.value.win - rec.bet)))
            && (r.value.status == Lost ==>
                  && r.value.win == 0.0
                  && t.users[uid] == a.(raceback := a.raceback + RacebackCredit(rec.bet, s.racebackPercent))
                  && t.log == s.log
                  && t.bank == (if a.isYoutuber then s.bank else s.bank + rec.bet * BankShare))
  {
    var rec := s.bets[betId];
    var a := s.users[uid];
    if Wins(rec) {
      var win := Payout(rec);
      var b := a.(balance := a.balance + win);
      var t := s.(users := s.users[uid := b],
                  bets := s.bets[betId := rec.(status := Won, win := Some(win))],
                  bank := BankAfter(s.bank, a, rec, win),
                  log := s.log + [LogEntry(uid, rec.bet, rec.autoCashout, win)]);
      assert SettleStep(s, uid, betId, finalMultiplier)
          == (t, Ok(Answer(Won, rec.crashPoint, Some(rec.autoCashout), win, Some(b.balance))));
    } else {
      var b := a.(raceback := a.raceback + RacebackCredit(rec.bet, s.racebackPercent));
      var t := s.(users := s.users[uid := b],
                  bets := s.bets[betId := rec.(status := Lost, win := Some(0.0))],
                  bank := BankAfter(s.bank, a, rec, 0.0));
      assert SettleStep(s, uid, betId, finalMultiplier)
          == (t, Ok(Answer(Lost, rec.crashPoint, Some(rec.autoCashout), 0.0, Some(b.balance))));
    }
  }

  /**
   * A settled bet is answered from its record: the same status, crash point
   * and win, and nothing changes, so asking twice settles once.
   */
  lemma SettleIdempotent(s: Store, uid: UserId, betId: string, f1: real, f2: real)
    requires SettleStep(s, uid, betId, f1).1.Ok?
    ensures var (t, r) := SettleStep(s, uid, betId, f1);
            var (t2, r2) := SettleStep(t, uid, betId, f2);
            && t2 == t
            && r2.Ok? && r2.value.status == r.value.status && r2.value.crashPoint == r.value.crashPoint
            && r2.value.win == r.value.win
  {
    var rec := s.bets[betId];
    if rec.status == Pending {
      SettleOutcome(s, uid, betId, f1);
    }
  }

  /** A bet whose stored crash point lies below its target is always lost. */
  lemma ForcedBetLoses(s: Store, uid: UserId, requested: Option<real>, autoCashout: Option<real>, d: Draws,
                       id: string, now: string, f: real)
    requires ValidDraws(d) && id !in s.bets
    requires uid in s.users && !s.users[uid].isYoutuber && !d.playerWins
    requires autoCashout.GetOr(DefaultAutoCashout) > 1.01
    requires BetStep(s, uid, requested, autoCashout, d, id, now).1.Ok?
    ensures var t := BetStep(s, uid, requested, autoCashout, d, id, now).0;
            var (t2, r) := SettleStep(t, uid, id, f);
            && r.Ok? && r.value.status == Lost && r.value.win == 0.0
            && t2.users[uid].balance == t.users[uid].balance
  {
    StoredCrashPoint(s, uid, requested, autoCashout, d, id, now);
  }

  /** Every balance is non-negative and every pending stake and target is non-negative. */
  ghost predicate StoreInv(s: Store)
  {
    && s.racebackPercent >= 0.0
    && (forall u :: u in s.users ==> Solvent(s.users[u]))
    && (forall b :: b in s.bets ==> s.bets[b].bet >= 0.0)
  }

  /** Bets never break the store invariant: a stake never exceeds the balance. */
  lemma BetKeepsInv(s: Store, uid: UserId, requested: Option<real>, autoCashout: Option<real>, d: Draws,
                    id: string, now: string)
    requires ValidDraws(d) && id !in s.bets && StoreInv(s)
    ensures StoreInv(BetStep(s, uid, requested, autoCashout, d, id, now).0)
  {
    var (t, r) := BetStep(s, uid, requested, autoCashout, d, id, now);
    if r.Ok? {
      BetAccepted(s, uid, requested, autoCashout, d, id, now);
      forall u | u in t.users
        ensures Solvent(t.users[u])
      {
        if u != uid {
          assert t.users[u] == s.users[u];
        }
      }
    }
  }

  /** Settling a bet with a non-negative target keeps the store invariant. */
  lemma SettleKeepsInv(s: Store, uid: UserId, betId: string, f: real)
    requires StoreInv(s)
    requires betId in s.bets ==> s.bets[betId].autoCashout >= 0.0
    ensures StoreInv(SettleStep(s, uid, betId, f).0)
  {
    var (t, r) := SettleStep(s, uid, betId, f);
    if r.Ok? && s.bets[betId].status == Pending {
      SettleOutcome(s, uid, betId, f);
      var rec := s.bets[betId];
      NonNegativeProduct(rec.bet, rec.autoCashout);
      forall u | u in t.users
        ensures Solvent(t.users[u])
      {
        if u != uid {
          assert t.users[u] == s.users[u];
        }
      }
    }
  }

  /**
   * The target is not validated: a negative target wins whatever the crash
   * point and its negative payout is added to the balance, which goes below 0.
   */
  lemma NegativeTargetDrainsBalance()
    ensures var a := Account(10.0, 0.0, 0.0, 0.0, 0.0, false, false, false, 0, None, [], [], map[]);
            var s := Store(map["p" := a], map[], 0.0, 10.0, []);
            var d := Draws(0.5, 0.5, true, 0.5);
            var t := BetStep(s, "p", Some(10.0), Some(-100.0), d, "b", "t").0;
            var (t2, r) := SettleStep(t, "p", "b", 1.0);
            r.Ok? && r.value.status == Won && t2.users["p"].balance < 0.0
  {
    var a := Account(10.0, 0.0, 0.0, 0.0, 0.0, false, false, false, 0, None, [], [], map[]);
    var s := Store(map["p" := a], map[], 0.0, 10.0, []);
    var d := Draws(0.5, 0.5, true, 0.5);
    var t := BetStep(s, "p", Some(10.0), Some(-100.0), d, "b", "t").0;
    assert t.bets["b"].bet == 10.0 && t.bets["b"].autoCashout == -100.0;
    assert t.bets["b"].crashPoint >= 0.99;
    assert t.users["p"].balance == 0.0;
    assert RoundMoney(10.0 * -100.0) <= 0.0 - 1000.0 + 0.01;
  }

  // ---------------------------------------------------------------------------
  // Rounds reported by the client

  /** `crash_round_complete`: store the reported crash point (default 1.0) as a lost system round. */
  function RoundCompleteStep(s: Store, crashPoint: Option<real>, id: string, now: string): (Store, real)
    requires id !in s.bets
  {
    var cp := crashPoint.GetOr(1.0);
    (s.(bets := s.bets[id := BetRecord(SystemUser, 0.0, 0.0, cp, Lost, None, now)]), cp)
  }

  /**
   * A reported round is stored already settled: no user can collect it, and
   * asking for its result pays nothing and changes nothing.
   */
  lemma SystemRoundNeverPaid(s: Store, crashPoint: Option<real>, id: string, now: string, uid: UserId, f: real)
    requires id !in s.bets
    ensures var t := RoundCompleteStep(s, crashPoint, id, now).0;
            var (t2, r) := SettleStep(t, uid, id, f);
            && t2 == t
            && (r.Ok? ==> uid == SystemUser && r.value.status == Lost && r.value.win == 0.0)
            && t.users == s.users && t.bank == s.bank
  {
  }

  // ---------------------------------------------------------------------------
  // The history strip

  /** A completed bet as the history query returns it. */
  datatype HistoryRow = HistoryRow(crashPoint: real, createdAt: string)

  /** Rounds are told apart by crash point and creation minute. */
  function Key(row: HistoryRow): (real, string)
  {
    (row.crashPoint, if |row.createdAt| <= MinuteKeyLength then row.createdAt else row.createdAt[..MinuteKeyLength])
  }

  function Keys(rows: seq<HistoryRow>): set<(real, string)>
  {
    set i | 0 <= i < |rows| :: Key(rows[i])
  }

  /** The crash points of the rows whose key no earlier row has, in order. */
  function FirstOccurrences(rows: seq<HistoryRow>): seq<real>
    decreases |rows|
  {
    if rows == [] then []
    else
      var init := rows[..|rows| - 1];
      var last := rows[|rows| - 1];
      FirstOccurrences(init) + (if Key(last) in Keys(init) then [] else [last.crashPoint])
  }

  lemma KeysSnoc(rows: seq<HistoryRow>, row: HistoryRow)
    ensures Keys(rows + [row]) == Keys(rows) + {Key(row)}
  {
    var xs := rows + [row];
    forall k | k in Keys(xs)
      ensures k in Keys(rows) + {Key(row)}
    {
      var i :| 0 <= i < |xs| && Key(xs[i]) == k;
      if i < |rows| {
        assert xs[i] == rows[i];
      }
    }
    forall k | k in Keys(rows)
      ensures k in Keys(xs)
    {
      var i :| 0 <= i < |rows| && Key(rows[i]) == k;
      assert xs[i] == rows[i];
    }
    assert xs[|rows|] == row;
  }

  /** There is exactly one first occurrence per distinct key. */
  lemma {:induction false} OneEntryPerRound(rows: seq<HistoryRow>)
    ensures |FirstOccurrences(rows)| == |Keys(rows)|
    decreases |rows|
  {
    if rows != [] {
      var init := rows[..|rows| - 1];
      var last := rows[|rows| - 1];
      OneEntryPerRound(init);
      assert rows == init + [last];
      KeysSnoc(init, last);
      assert Keys(rows) == Keys(init) + {Key(last)};
      if Key(last) in Keys(init) {
        assert Keys(rows) == Keys(init);
      } else {
        assert |Keys(init) + {Key(last)}| == |Keys(init)| + 1;
      }
    }
  }

  /** The first occurrences of a prefix are a prefix of the first occurrences. */
  lemma {:induction false} FirstOccurrencesPrefix(rows: seq<HistoryRow>, j: nat)
    requires j <= |rows|
    ensures var f := FirstOccurrences(rows[..j]);
            |f| <= |FirstOccurrences(rows)| && f == FirstOccurrences(rows)[..|f|]
    decreases |rows| - j
  {
    if j < |rows| {
      FirstOccurrencesPrefix(rows, j + 1);
      assert rows[..j + 1][..j] == rows[..j];
    } else {
      assert rows[..j] == rows;
    }
  }

  /** A padding entry drawn from `r` (which band) and `u` (where in it). */
  function Pad(r: real, u: real): (m: real)
    requires IsDraw(r) && IsDraw(u)
    ensures IsCents(m) && 1.0 <= m <= 50.0
  {
    var (lo, hi) := if r < 0.3 then (1.0, 1.9) else if r < 0.6 then (2.0, 5.0)
                    else if r < 0.85 then (5.0, 10.0) else (10.0, 50.0);
    UniformWithin(lo, hi, u);
    Round2AtLeast(Uniform(lo, hi, u), lo);
    Round2AtMost(Uniform(lo, hi, u), hi);
    Round2(Uniform(lo, hi, u))
  }

  /** Scanning one more row: its key joins the seen set, and its crash point is kept iff the key is new. */
  lemma ScanRow(rows: seq<HistoryRow>, i: nat)
    requires i < |rows|
    ensures Keys(rows[..i + 1]) == Keys(rows[..i]) + {Key(rows[i])}
    ensures FirstOccurrences(rows[..i + 1])
            == FirstOccurrences(rows[..i]) + (if Key(rows[i]) in Keys(rows[..i]) then [] else [rows[i].crashPoint])
  {
    assert rows[..i + 1] == rows[..i] + [rows[i]];
    assert rows[..i + 1][..i] == rows[..i];
    KeysSnoc(rows[..i], rows[i]);
  }

  /** Where the scan stops, its entries are the first `n` first occurrences of all rows. */
  lemma ScanStopped(rows: seq<HistoryRow>, i: nat, h: seq<real>)
    requires i <= |rows| && h == FirstOccurrences(rows[..i]) && |h| <= HistoryLength
    requires |h| < HistoryLength ==> i == |rows|
    ensures var found := FirstOccurrences(rows);
            var n := if |found| <= HistoryLength then |found| else HistoryLength;
            |h| == n && h == found[..n]
  {
    FirstOccurrencesPrefix(rows, i);
    if i == |rows| {
      assert rows[..i] == rows;
    }
  }

  /** Pads `h` up to 20 entries with the draws in `pads`, keeping `h` as the prefix. */
  method PadHistory(h0: seq<real>, pads: seq<(real, real)>) returns (h: seq<real>)
    requires |h0| <= HistoryLength && |pads| >= HistoryLength
    requires forall k :: 0 <= k < |pads| ==> IsDraw(pads[k].0) && IsDraw(pads[k].1)
    ensures |h| == HistoryLength && h[..|h0|] == h0
    ensures forall k :: |h0| <= k < HistoryLength ==> 1.0 <= h[k] <= 50.0
  {
    h := h0;
    var j := 0;
    while |h| < HistoryLength
      invariant |h0| <= |h| <= HistoryLength
      invariant j == |h| - |h0|
      invariant h[..|h0|] == h0
      invariant forall k :: |h0| <= k < |h| ==> 1.0 <= h[k] <= 50.0
      decreases HistoryLength - |h|
    {
      h := h + [Pad(pads[j].0, pads[j].1)];
      j := j + 1;
    }
  }

  /**
   * `get_crash_history`: `completed` is the settled bets newest first (the
   * query's sort); `pads` holds the draws for padding entries. The answer
   * is 20 crash points: the first occurrence of each round among the newest
   * 30 rows, at most 20 of them, then padding entries between 1 and 50.
   */
  method CrashHistory(completed: seq<HistoryRow>, pads: seq<(real, real)>) returns (h: seq<real>)
    requires |pads| >= HistoryLength
    requires forall k :: 0 <= k < |pads| ==> IsDraw(pads[k].0) && IsDraw(pads[k].1)
    ensures |h| == HistoryLength
    ensures var rows := if |completed| <= HistoryQueryLimit then completed else completed[..HistoryQueryLimit];
            var found := FirstOccurrences(rows);
            var n := if |found| <= HistoryLength then |found| else HistoryLength;
            && h[..n] == found[..n]
            && forall k :: n <= k < HistoryLength ==> 1.0 <= h[k] <= 50.0
  {
    var rows := if |completed| <= HistoryQueryLimit then completed else completed[..HistoryQueryLimit];
    var seen: set<(real, string)> := {};
    var unique: seq<real> := [];
    var i := 0;
    while i < |rows|
      invariant 0 <= i <= |rows|
      invariant seen == Keys(rows[..i])
      invariant unique == FirstOccurrences(rows[..i])
      invariant |unique| < HistoryLength
    {
      ScanRow(rows, i);
      var key := Key(rows[i]);
      if key !in seen {
        unique := unique + [rows[i].crashPoint];
      }
      seen := seen + {key};
      i := i + 1;
      if |unique| >= HistoryLength {
        break;
      }
    }
    ScanStopped(rows, i, unique);
    h := PadHistory(unique, pads);
  }

  // ---------------------------------------------------------------------------
  // The store as the server holds it

  class CrashStore {
    var users: map<UserId, Account>
    var bets: map<string, BetRecord>
    var bank: real
    var racebackPercent: real
    var log: seq<LogEntry>

    /** The fields read as one `Store` value. */
    function State(): Store
      reads this
    {
      Store(users, bets, bank, racebackPercent, log)
    }

    constructor (accounts: map<UserId, Account>, racebackPercent: real)
      ensures State() == Store(accounts, map[], 0.0, racebackPercent, [])
    {
      users, bets, bank, this.racebackPercent, log := accounts, map[], 0.0, racebackPercent, [];
    }

    /** `crash_bet`: validate, debit the stake, draw and store the crash point. */
    method PlaceBet(uid: UserId, requested: Option<real>, autoCashout: Option<real>, d: Draws,
                    id: string, now: string) returns (r: Result<string, ApiError>)
      requires ValidDraws(d) && id !in bets
      modifies this
      ensures (State(), r) == BetStep(old(State()), uid, requested, autoCashout, d, id, now)
    {
      if uid !in users {
        return Err(Unauthorized);
      }
      var a := users[uid];
      if a.isBan {
        return Err(Forbidden);
      }
      var bet := Stake(requested.GetOr(DefaultStake), a.balance, MaxStake);
      var ac := autoCashout.GetOr(DefaultAutoCashout);
      if bet < 1.0 {
        return Err(BadRequest(InsufficientFunds));
      }
      users := users[uid := DebitAsWritten(a, bet)];
      var cp := DrawCrashPoint(a, ac, d);
      bets := bets[id := BetRecord(uid, bet, ac, cp, Pending, None, now)];
      r := Ok(id);
    }

    /** `get_crash_result`: answer a settled bet from its record, else settle it now. */
    method Settle(uid: UserId, betId: string, finalMultiplier: real) returns (r: Result<Answer, ApiError>)
      modifies this
      ensures (State(), r) == SettleStep(old(State()), uid, betId, finalMultiplier)
    {
      if uid !in users {
        return Err(Unauthorized);
      }
      if betId !in bets || bets[betId].userId != uid {
        return Err(NotFound);
      }
      var rec := bets[betId];
      if rec.status != Pending {
        return Ok(Answer(rec.status, rec.crashPoint, None, rec.win.GetOr(0.0), None));
      }
      var a := users[uid];
      if rec.crashPoint >= rec.autoCashout {
        var win := Payout(rec);
        users := users[uid := a.(balance := a.balance + win)];
        bets := bets[betId := rec.(status := Won, win := Some(win))];
        if !a.isYoutuber {
          bank := bank - (win - rec.bet);
        }
        log := log + [LogEntry(uid, rec.bet, rec.autoCashout, win)];
        r := Ok(Answer(Won, rec.crashPoint, Some(rec.autoCashout), win, Some(users[uid].balance)));
      } else {
        bets := bets[betId := rec.(status := Lost, win := Some(0.0))];
        if !a.isYoutuber {
          bank := bank + rec.bet * BankShare;
        }
        users := users[uid := a.(raceback := a.raceback + RacebackCredit(rec.bet, racebackPercent))];
        r := Ok(Answer(Lost, rec.crashPoint, Some(rec.autoCashout), 0.0, Some(users[uid].balance)));
      }
    }

    /** `crash_round_complete`: store the reported round. */
    method RoundComplete(crashPoint: Option<real>, id: string, now: string) returns (cp: real)
      requires id !in bets
      modifies this
      ensures (State(), cp) == RoundCompleteStep(old(State()), crashPoint, id, now)
    {
      cp := crashPoint.GetOr(1.0);
      bets := bets[id := BetRecord(SystemUser, 0.0, 0.0, cp, Lost, None, now)];
    }
  }
}
