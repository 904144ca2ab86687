/**
 * The client's crash-round controller (`CrashGame` in the web front end).
 *
 * The round runs Waiting -> Betting -> Flying -> Crashed -> Waiting. Timers
 * and animation frames are explicit: `pendingTimer` is the callback held in
 * `gameLoopRef` that has neither fired nor been cleared, `framePending` says
 * that `animationRef` holds a requested frame. The browser delivers only a
 * pending callback, so an event whose callback is not pending changes nothing.
 * The interval's local counter always equals the `countdown` state (it is set
 * from the counter after each decrement), so the two are one field here.
 *
 * Each transition is a pure function on `Client` (the specification); the
 * class `CrashGame` holds the same state in mutable fields and each of its
 * methods is proved to perform that transition.
 */
module CrashClient {
  import opened Wrappers
  import opened CrashPoint

  type BetId = string

  datatype Phase = Waiting | Betting | Flying | Crashed

  /** The phase callback stored in `gameLoopRef` that is still live. */
  datatype Timer = NoTimer | WaitCountdown | BetCountdown | Restart

  /** What the settlement endpoint answered (`success`, `status`, ...). */
  datatype SettleReply = SettleReply(success: bool, status: string, crashPoint: real, win: real, balance: real)

  /** The result panel shown after settlement. */
  datatype RoundResult = RoundResult(status: string, crashPoint: real, win: real)

  /** A `POST /games/crash/bet` the client sent. */
  datatype BetRequest = BetRequest(stake: real, autoCashout: real)

  /** A `POST /games/crash/result/{id}` the client sent. */
  datatype SettleRequest = SettleRequest(betId: BetId, finalMultiplier: real)

  /** Why `placeBet` refused (redirect to login, or an error toast). */
  datatype BetRejection = NeedLogin | InsufficientFunds | WaitNextRound | ServerRefused

  const WaitSeconds: int := 3
  const BetSeconds: int := 5
  const HistorySize: nat := 20

  /**
   * The controller's whole state: React state, the three refs, the current
   * flight's closure variables (`finalCrash`, `hasProcessedResult`), the
   * signed-in user's balance (`None`: no user), logs of the requests sent
   * to the server, whether the component is still mounted (React drops the
   * state updates of an unmounted component), and how many history requests
   * were sent.
   */
  datatype Client = Client(
    phase: Phase,
    countdown: int,
    running: bool,
    pendingTimer: Timer,
    framePending: bool,
    currentMult: real,
    finalCrash: real,
    processed: bool,
    betId: Option<BetId>,
    user: Option<real>,
    history: seq<real>,
    result: Option<RoundResult>,
    historyPolling: bool,
    historyRefreshPending: bool,
    roundReports: seq<real>,
    betRequests: seq<BetRequest>,
    settleRequests: seq<SettleRequest>,
    settlesAwaited: nat,
    mounted: bool,
    historyFetches: nat)

  /** The state of a freshly rendered page, before its effects run. */
  function Initial(user: Option<real>): Client
  {
    Client(Waiting, WaitSeconds, false, NoTimer, false, 1.0, 0.0, false, None, user,
           [], None, false, false, [], [], [], 0, true, 0)
  }

  /**
   * The controller invariant: at most one scheduled callback is alive, one is
   * alive exactly while the loop runs, each timer belongs to its phase with a
   * countdown in range, and a crashed round shows its crash point.
   */
  ghost predicate Inv(s: Client)
  {
    && (s.pendingTimer == WaitCountdown ==> s.phase == Waiting && 1 <= s.countdown <= WaitSeconds)
    && (s.pendingTimer == BetCountdown ==> s.phase == Betting && 1 <= s.countdown <= BetSeconds)
    && (s.pendingTimer == Restart ==> s.phase == Crashed)
    && (s.framePending ==> s.phase == Flying)
    && !(s.pendingTimer != NoTimer && s.framePending)
    && (s.running <==> (s.pendingTimer != NoTimer || s.framePending))
    && (s.phase == Flying ==> !s.processed)
    && (s.phase == Crashed ==> s.currentMult == s.finalCrash)
    && |s.history| <= HistorySize
  }

  // ---------------------------------------------------------------- phases

  /** `startGameLoop`: reset the round and start the 3-second countdown, if running. */
  function StartLoop(s: Client): Client
  {
    if !s.running then s
    else s.(phase := Waiting, countdown := WaitSeconds, currentMult := 1.0, result := None,
            betId := None, pendingTimer := WaitCountdown)
  }

  /** `startBettingPhase`: open betting with a 5-second countdown, if running. */
  function StartBetting(s: Client): Client
  {
    if !s.running then s
    else s.(phase := Betting, countdown := BetSeconds, pendingTimer := BetCountdown)
  }

  /** `startFlightPhase`: draw the predicted crash point and request the first frame. */
  function StartFlight(s: Client, r: real, u: real, w: real): Client
    requires IsDraw(r) && IsDraw(u) && IsDraw(w)
  {
    if !s.running then s
    else s.(phase := Flying, finalCrash := ClientCrashPoint(r, u, w), processed := false,
            framePending := true)
  }

  /**
   * The mount effects: fetch the history once (its answer `reply` is delivered
   * with the mount), start history polling, then start the loop unless it runs.
   */
  function MountStep(s: Client, reply: Option<seq<real>>): Client
  {
    var s1 := FetchHistory(s.(mounted := true, historyPolling := true), reply);
    if s1.running then s1 else StartLoop(s1.(running := true))
  }

  /**
   * The unmount cleanup: clear the running flag, the phase timer, the
   * animation frame and the history interval. The one-shot history refresh
   * scheduled after a crash is not cleared by the source and stays pending.
   */
  function TeardownStep(s: Client): Client
  {
    s.(running := false, pendingTimer := NoTimer, framePending := false, historyPolling := false,
       mounted := false)
  }

  /** One tick of the waiting interval. */
  function WaitTickStep(s: Client): Client
  {
    if s.pendingTimer != WaitCountdown then s
    else
      var time := s.countdown - 1;
      if time <= 0 then StartBetting(s.(countdown := time, pendingTimer := NoTimer))
      else s.(countdown := time)
  }

  /** One tick of the betting interval; the last one starts the flight with draws r, u, w. */
  function BetTickStep(s: Client, r: real, u: real, w: real): Client
    requires IsDraw(r) && IsDraw(u) && IsDraw(w)
  {
    if s.pendingTimer != BetCountdown then s
    else
      var time := s.countdown - 1;
      if time <= 0 then StartFlight(s.(countdown := time, pendingTimer := NoTimer), r, u, w)
      else s.(countdown := time)
  }

  /**
   * Freezing the flight on the crashing frame: show the crash point, report the
   * round, settle the bet once if there is one, schedule the history refresh and
   * the restart. `betSeen` is the bet id the frame callback reads.
   */
  function Freeze(s: Client, betSeen: Option<BetId>): Client
  {
    var frozen := s.(currentMult := s.finalCrash, phase := Crashed,
                     roundReports := s.roundReports + [s.finalCrash],
                     historyRefreshPending := true, pendingTimer := Restart);
    if betSeen.Some? && !s.processed then
      frozen.(processed := true,
              settleRequests := s.settleRequests + [SettleRequest(betSeen.value, s.finalCrash)],
              settlesAwaited := s.settlesAwaited + 1)
    else frozen
  }

  /**
   * One animation frame (`animate`) showing the clock value `displayed`; the
   * bet guard reads the live bet id, as the code evidently intends.
   */
  function FrameStep(s: Client, displayed: real): Client
  {
    if !s.framePending then s
    else
      var s1 := s.(framePending := false);
      if !s1.running then s1
      else if displayed >= s1.finalCrash then Freeze(s1, s1.betId)
      else s1.(currentMult := displayed, framePending := true)
  }

  /**
   * The frame callback as written: it was created by the first render, so the
   * `crashed` and `betId` it reads are that render's values, `false` and `null`.
   */
  function FrameStepAsWritten(s: Client, displayed: real): Client
  {
    var mountCrashed := false;
    var mountBetId: Option<BetId> := None;
    if !s.framePending then s
    else
      var s1 := s.(framePending := false);
      if !s1.running || mountCrashed then s1
      else if displayed >= s1.finalCrash then Freeze(s1, mountBetId)
      else s1.(currentMult := displayed, framePending := true)
  }

  /** The 4-second cooldown timer: restart the loop only if still running. */
  function RestartStep(s: Client): Client
  {
    if s.pendingTimer != Restart then s
    else
      var s1 := s.(pendingTimer := NoTimer);
      if s1.running then StartLoop(s1) else s1
  }

  // --------------------------------------------------------------- history

  /** `fetchHistory`'s answer: keep the first 20 entries, or leave the list on failure. */
  function ApplyHistory(current: seq<real>, reply: Option<seq<real>>): seq<real>
  {
    match reply
    case None => current
    case Some(h) => if |h| <= HistorySize then h else h[..HistorySize]
  }

  /** `fetchHistory` sends its request; the answer reaches the list only while mounted. */
  function FetchHistory(s: Client, reply: Option<seq<real>>): Client
  {
    s.(historyFetches := s.historyFetches + 1,
       history := if s.mounted then ApplyHistory(s.history, reply) else s.history)
  }

  /** The 10-second history poll delivering `reply`, while polling is on. */
  function HistoryPollStep(s: Client, reply: Option<seq<real>>): Client
  {
    if !s.historyPolling then s else FetchHistory(s, reply)
  }

  /** The one-shot refresh scheduled 500 ms after a crash delivering `reply`. */
  function HistoryRefreshStep(s: Client, reply: Option<seq<real>>): Client
  {
    if !s.historyRefreshPending then s
    else FetchHistory(s.(historyRefreshPending := false), reply)
  }

  // ------------------------------------------------------- bets and balance

  /** `updateBalance`: replace the signed-in user's balance; no user stays no user. */
  function UpdateBalance(user: Option<real>, newBalance: real): Option<real>
  {
    if user.Some? then Some(newBalance) else None
  }

  /**
   * `placeBet` with the bet endpoint's answer `reply` (`None`: the call failed
   * or was refused). The checks run in the source's order; a rejection
   * changes nothing, except that a refused request was still sent.
   */
  function PlaceBetStep(s: Client, stake: real, autoCashout: real, reply: Option<BetId>)
    : (Client, Result<BetId, BetRejection>)
  {
    if s.user.None? then (s, Err(NeedLogin))
    else if s.user.value < stake then (s, Err(InsufficientFunds))
    else if s.phase != Betting then (s, Err(WaitNextRound))
    else
      var sent := s.(betRequests := s.betRequests + [BetRequest(stake, autoCashout)]);
      match reply
      case None => (sent, Err(ServerRefused))
      case Some(id) =>
        (sent.(betId := Some(id), user := UpdateBalance(s.user, s.user.value - stake)), Ok(id))
  }

  /** The bet button is rendered only while betting and before a bet is placed. */
  predicate BetButtonShown(s: Client)
  {
    s.phase == Betting && s.betId.None?
  }

  /**
   * The settlement answer arriving (`None`: the request failed). On success
   * the balance is overwritten with the server's value (the balance lives in
   * the application's context, which outlives the page) and the result is
   * shown while the page is mounted.
   */
  function SettleResponseStep(s: Client, reply: Option<SettleReply>): Client
  {
    if s.settlesAwaited == 0 then s
    else
      var s1 := s.(settlesAwaited := s.settlesAwaited - 1);
      match reply
      case None => s1
      case Some(rep) =>
        if !rep.success then s1
        else s1.(user := UpdateBalance(s1.user, rep.balance),
                 result := if s.mounted then Some(RoundResult(rep.status, rep.crashPoint, rep.win)) else s.result)
  }

  // ---------------------------------------------------------------- events

  /** Everything that can happen to the page: scheduled callbacks, replies, user actions. */
  datatype Event =
    | Mount(mountReply: Option<seq<real>>)
    | Teardown
    | WaitTick
    | BetTick(r: real, u: real, w: real)
    | Frame(displayed: real)
    | RestartFires
    | HistoryPoll(historyReply: Option<seq<real>>)
    | HistoryRefresh(refreshReply: Option<seq<real>>)
    | PlaceBet(stake: real, autoCashout: real, betReply: Option<BetId>)
    | SettleResponse(settleReply: Option<SettleReply>)

  predicate WellFormed(e: Event)
  {
    e.BetTick? ==> IsDraw(e.r) && IsDraw(e.u) && IsDraw(e.w)
  }

  /** A callback the browser's scheduler delivers: a phase timer or an animation frame. */
  predicate Scheduled(e: Event)
  {
    e.WaitTick? || e.BetTick? || e.Frame? || e.RestartFires?
  }

  function Step(s: Client, e: Event): Client
    requires WellFormed(e)
  {
    match e
    case Mount(h) => MountStep(s, h)
    case Teardown => TeardownStep(s)
    case WaitTick => WaitTickStep(s)
    case BetTick(r, u, w) => BetTickStep(s, r, u, w)
    case Frame(d) => FrameStep(s, d)
    case RestartFires => RestartStep(s)
    case HistoryPoll(h) => HistoryPollStep(s, h)
    case HistoryRefresh(h) => HistoryRefreshStep(s, h)
    case PlaceBet(stake, ac, reply) => PlaceBetStep(s, stake, ac, reply).0
    case SettleResponse(reply) => SettleResponseStep(s, reply)
  }

  predicate AllWellFormed(es: seq<Event>)
  {
    forall i :: 0 <= i < |es| ==> WellFormed(es[i])
  }

  function Run(s: Client, es: seq<Event>): Client
    requires AllWellFormed(es)
    decreases |es|
  {
    if es == [] then s else Run(Step(s, es[0]), es[1..])
  }

  // ------------------------------------------------------------ properties

  /** A fresh page satisfies the invariant. */
  lemma InitialInv(user: Option<real>)
    ensures Inv(Initial(user))
    ensures !Initial(user).running && Initial(user).pendingTimer == NoTimer
  {
  }

  /** Every event keeps the controller invariant. */
  lemma StepInv(s: Client, e: Event)
    requires Inv(s) && WellFormed(e)
    ensures Inv(Step(s, e))
  {
    match e
    case Mount(h) => MountKeepsInv(s, h);
    case Teardown => TeardownKeepsInv(s);
    case WaitTick => WaitTickKeepsInv(s);
    case BetTick(r, u, w) => BetTickKeepsInv(s, r, u, w);
    case Frame(d) => FrameKeepsInv(s, d);
    case RestartFires => RestartKeepsInv(s);
    case HistoryPoll(h) => HistoryKeepsInv(s, h);
    case HistoryRefresh(h) => HistoryKeepsInv(s, h);
    case PlaceBet(stake, ac, reply) => PlaceBetKeepsInv(s, stake, ac, reply);
    case SettleResponse(reply) => SettleResponseKeepsInv(s, reply);
  }

  lemma MountKeepsInv(s: Client, h: Option<seq<real>>)
    requires Inv(s)
    ensures Inv(MountStep(s, h))
  {
    HistoryKeepsFirstTwenty(s.history, h);
  }

  lemma TeardownKeepsInv(s: Client)
    requires Inv(s)
    ensures Inv(TeardownStep(s))
  {
  }

  lemma HistoryKeepsInv(s: Client, h: Option<seq<real>>)
    requires Inv(s)
    ensures Inv(HistoryPollStep(s, h)) && Inv(HistoryRefreshStep(s, h))
  {
    HistoryKeepsFirstTwenty(s.history, h);
  }

  lemma PlaceBetKeepsInv(s: Client, stake: real, ac: real, reply: Option<BetId>)
    requires Inv(s)
    ensures Inv(PlaceBetStep(s, stake, ac, reply).0)
  {
  }

  lemma SettleResponseKeepsInv(s: Client, reply: Option<SettleReply>)
    requires Inv(s)
    ensures Inv(SettleResponseStep(s, reply))
  {
    var t := SettleResponseStep(s, reply);
    assert t == s.(user := t.user, result := t.result, settlesAwaited := t.settlesAwaited);
  }

  lemma WaitTickKeepsInv(s: Client)
    requires Inv(s)
    ensures Inv(WaitTickStep(s))
  {
  }

  lemma BetTickKeepsInv(s: Client, r: real, u: real, w: real)
    requires Inv(s) && IsDraw(r) && IsDraw(u) && IsDraw(w)
    ensures Inv(BetTickStep(s, r, u, w))
  {
  }

  lemma FrameKeepsInv(s: Client, d: real)
    requires Inv(s)
    ensures Inv(FrameStep(s, d))
  {
    if s.framePending && s.running && d >= s.finalCrash {
      assert Inv(Freeze(s.(framePending := false), s.betId));
    }
  }

  lemma RestartKeepsInv(s: Client)
    requires Inv(s)
    ensures Inv(RestartStep(s))
  {
  }

  /** The invariant holds after any sequence of events. */
  lemma {:induction false} RunInv(s: Client, es: seq<Event>)
    requires Inv(s) && AllWellFormed(es)
    ensures Inv(Run(s, es))
    decreases |es|
  {
    if es != [] {
      StepInv(s, es[0]);
      RunInv(Step(s, es[0]), es[1..]);
    }
  }

  /** With the loop stopped, the phase entry points change nothing. */
  lemma StoppedEntryPointsInert(s: Client, r: real, u: real, w: real)
    requires !s.running && IsDraw(r) && IsDraw(u) && IsDraw(w)
    ensures StartLoop(s) == s && StartBetting(s) == s && StartFlight(s, r, u, w) == s
    ensures s.framePending ==> FrameStep(s, 0.0) == s.(framePending := false)
  {
  }

  /**
   * Waiting lasts exactly three ticks, counting 3, 2, 1; the third clears the
   * interval and opens betting with its own 5-second countdown.
   */
  lemma WaitingCountsDown(s: Client)
    requires Inv(s) && s.pendingTimer == WaitCountdown && s.countdown == WaitSeconds
    ensures WaitTickStep(s).countdown == 2 && WaitTickStep(s).phase == Waiting
    ensures WaitTickStep(WaitTickStep(s)).countdown == 1
    ensures var t := WaitTickStep(WaitTickStep(WaitTickStep(s)));
            t.phase == Betting && t.countdown == BetSeconds && t.pendingTimer == BetCountdown
            && t.betId == s.betId
  {
  }

  /** Betting lasts exactly five ticks; the fifth starts the flight with its crash point. */
  lemma BettingCountsDown(s: Client, r: real, u: real, w: real)
    requires Inv(s) && s.pendingTimer == BetCountdown && s.countdown == BetSeconds
    requires IsDraw(r) && IsDraw(u) && IsDraw(w)
    ensures var t1 := BetTickStep(s, r, u, w);
            var t4 := BetTickStep(BetTickStep(BetTickStep(t1, r, u, w), r, u, w), r, u, w);
            t1.countdown == 4 && t4.countdown == 1 && t4.phase == Betting && t4.pendingTimer == BetCountdown
    ensures var t4 := BetTickStep(BetTickStep(BetTickStep(BetTickStep(s, r, u, w), r, u, w), r, u, w), r, u, w);
            var t5 := BetTickStep(t4, r, u, w);
            t5.phase == Flying && t5.framePending && t5.pendingTimer == NoTimer
            && t5.finalCrash == ClientCrashPoint(r, u, w) && !t5.processed
  {
  }

  /**
   * A frame that reaches the predicted crash point freezes the round on that
   * exact value, cancels the animation and leaves exactly one timer, the
   * restart; any other frame shows the clock value and requests one more frame.
   */
  lemma FrameOutcome(s: Client, displayed: real)
    requires Inv(s) && s.framePending
    ensures var t := FrameStep(s, displayed);
            if displayed >= s.finalCrash then
              t.phase == Crashed && t.currentMult == s.finalCrash && !t.framePending
              && t.pendingTimer == Restart && t.roundReports == s.roundReports + [s.finalCrash]
            else
              t.phase == Flying && t.currentMult == displayed && t.framePending
              && t.pendingTimer == NoTimer && t.roundReports == s.roundReports
  {
  }

  /** After teardown no scheduled callback changes anything, however many are delivered. */
  lemma {:induction false} TeardownIsFinal(s: Client, es: seq<Event>)
    requires AllWellFormed(es)
    requires forall i :: 0 <= i < |es| ==> Scheduled(es[i])
    ensures Run(TeardownStep(s), es) == TeardownStep(s)
    decreases |es|
  {
    if es != [] {
      var t := TeardownStep(s);
      assert Scheduled(es[0]);
      assert Step(t, es[0]) == t;
      assert TeardownStep(t) == t;
      TeardownIsFinal(t, es[1..]);
    }
  }

  /**
   * The one-shot history refresh is not cancelled by teardown: its request is
   * still sent, but its answer no longer reaches the unmounted list. Before
   * teardown the same answer replaces the list.
   */
  lemma HistoryRefreshOutlivesTeardown(s: Client, reply: Option<seq<real>>)
    requires s.historyRefreshPending
    ensures var t := HistoryRefreshStep(TeardownStep(s), reply);
            t.historyFetches == s.historyFetches + 1 && t.history == s.history && !t.historyRefreshPending
    ensures s.mounted ==> HistoryRefreshStep(s, reply).history == ApplyHistory(s.history, reply)
  {
  }

  /** No event other than a flight start makes a non-flying round fly. */
  predicate NoFlightStart(s: Client, es: seq<Event>)
    requires AllWellFormed(es)
    decreases |es|
  {
    es == [] ||
    (!(s.phase != Flying && Step(s, es[0]).phase == Flying) && NoFlightStart(Step(s, es[0]), es[1..]))
  }

  /**
   * Settlement is requested at most once per flight: between two flight starts
   * the client sends at most one result request, and none unless the round
   * was flying at the start.
   */
  lemma {:induction false} AtMostOneSettlementPerFlight(s: Client, es: seq<Event>)
    requires Inv(s) && AllWellFormed(es) && NoFlightStart(s, es)
    ensures |Run(s, es).settleRequests| <= |s.settleRequests| + (if s.phase == Flying then 1 else 0)
    ensures s.phase != Flying ==> Run(s, es).settleRequests == s.settleRequests
    decreases |es|
  {
    if es != [] {
      var t := Step(s, es[0]);
      StepInv(s, es[0]);
      OneStepSettles(s, es[0]);
      AtMostOneSettlementPerFlight(t, es[1..]);
    }
  }

  /** What one event does to the settlement requests. */
  lemma OneStepSettles(s: Client, e: Event)
    requires Inv(s) && WellFormed(e)
    ensures var t := Step(s, e);
            && |s.settleRequests| <= |t.settleRequests| <= |s.settleRequests| + 1
            && s.settleRequests <= t.settleRequests
            && (|t.settleRequests| > |s.settleRequests| ==> s.phase == Flying && t.phase == Crashed)
  {
    match e
    case BetTick(r, u, w) =>
    case Frame(d) =>
    case PlaceBet(stake, ac, reply) =>
    case _ =>
  }

  /**
   * The crashing frame asks for settlement exactly when a bet is held and
   * has not been processed, with the frozen multiplier, and marks it processed.
   */
  lemma CrashSettlesHeldBet(s: Client, displayed: real)
    requires Inv(s) && s.framePending && s.running && displayed >= s.finalCrash
    ensures var t := FrameStep(s, displayed);
            && t.processed == s.betId.Some?
            && (s.betId.Some? ==> t.settleRequests == s.settleRequests + [SettleRequest(s.betId.value, s.finalCrash)])
            && (s.betId.None? ==> t.settleRequests == s.settleRequests)
  {
  }

  /**
   * The frame callback as written never asks for settlement, so a bet placed
   * in the round is left pending on the server.
   */
  lemma AsWrittenNeverSettles(s: Client, displayed: real)
    requires Inv(s) && s.framePending && s.running && s.betId.Some? && displayed >= s.finalCrash
    ensures FrameStepAsWritten(s, displayed).settleRequests == s.settleRequests
    ensures !FrameStepAsWritten(s, displayed).processed
    ensures |FrameStep(s, displayed).settleRequests| == |s.settleRequests| + 1
  {
  }

  /**
   * A bet is accepted only from a signed-in user with enough balance during
   * betting; then its id is held, the balance is debited optimistically by the
   * stake and the bet button disappears. Every rejection leaves the round as it was.
   */
  lemma PlaceBetContract(s: Client, stake: real, autoCashout: real, reply: Option<BetId>)
    ensures var (t, out) := PlaceBetStep(s, stake, autoCashout, reply);
            && (out.Ok? <==> s.user.Some? && s.user.value >= stake && s.phase == Betting && reply.Some?)
            && (out.Ok? ==> t.betId == Some(out.value) && t.user == Some(s.user.value - stake)
                            && !BetButtonShown(t))
            && (out.Err? ==> t.phase == s.phase && t.betId == s.betId && t.user == s.user)
            && (s.phase != Betting ==> t == s)
  {
  }

  /**
   * Settlement replaces the balance with the server's value: the answer does
   * not depend on the optimistic balance held before.
   */
  lemma SettlementOverwritesBalance(s: Client, b: real, rep: SettleReply)
    requires s.settlesAwaited > 0 && s.user.Some? && rep.success
    ensures SettleResponseStep(s, Some(rep)).user == Some(rep.balance)
    ensures SettleResponseStep(s.(user := Some(b)), Some(rep)).user == Some(rep.balance)
  {
  }

  /** A refresh keeps at most the first 20 entries; a failed one leaves the list alone. */
  lemma HistoryKeepsFirstTwenty(current: seq<real>, reply: Option<seq<real>>)
    ensures reply.None? ==> ApplyHistory(current, reply) == current
    ensures reply.Some? ==> |ApplyHistory(current, reply)| == if |reply.value| < HistorySize then |reply.value| else HistorySize
    ensures reply.Some? ==> ApplyHistory(current, reply) <= reply.value
  {
  }

  // ------------------------------------------------------------ the object

  /** The page component, with its state held in fields that the callbacks update. */
  class CrashGame {
    var phase: Phase
    var countdown: int
    var running: bool
    var pendingTimer: Timer
    var framePending: bool
    var currentMult: real
    var finalCrash: real
    var processed: bool
    var betId: Option<BetId>
    var user: Option<real>
    var history: seq<real>
    var result: Option<RoundResult>
    var historyPolling: bool
    var historyRefreshPending: bool
    var roundReports: seq<real>
    var betRequests: seq<BetRequest>
    var settleRequests: seq<SettleRequest>
    var settlesAwaited: nat
    var mounted: bool
    var historyFetches: nat

    /** The fields read as one `Client` value. */
    function State(): Client
      reads this
    {
      Client(phase, countdown, running, pendingTimer, framePending, currentMult, finalCrash,
             processed, betId, user, history, result, historyPolling, historyRefreshPending,
             roundReports, betRequests, settleRequests, settlesAwaited, mounted, historyFetches)
    }

    constructor (signedIn: Option<real>)
      ensures State() == Initial(signedIn)
    {
      phase, countdown, running, pendingTimer, framePending := Waiting, WaitSeconds, false, NoTimer, false;
      currentMult, finalCrash, processed, betId, user := 1.0, 0.0, false, None, signedIn;
      history, result, historyPolling, historyRefreshPending := [], None, false, false;
      roundReports, betRequests, settleRequests, settlesAwaited := [], [], [], 0;
      mounted, historyFetches := true, 0;
    }

    method StartGameLoop()
      modifies this
      ensures State() == StartLoop(old(State()))
    {
      if !running {
        return;
      }
      ghost var target := StartLoop(State());
      phase, countdown, currentMult := Waiting, WaitSeconds, 1.0;
      result, betId, pendingTimer := None, None, WaitCountdown;
      assert State() == target;
    }

    method StartBettingPhase()
      modifies this
      ensures State() == StartBetting(old(State()))
    {
      if !running {
        return;
      }
      phase := Betting;
      countdown := BetSeconds;
      pendingTimer := BetCountdown;
    }

    method StartFlightPhase(r: real, u: real, w: real)
      requires IsDraw(r) && IsDraw(u) && IsDraw(w)
      modifies this
      ensures State() == StartFlight(old(State()), r, u, w)
    {
      if !running {
        return;
      }
      phase := Flying;
      finalCrash := ClientCrashPoint(r, u, w);
      processed := false;
      framePending := true;
    }

    method OnMount(reply: Option<seq<real>>)
      modifies this
      ensures State() == MountStep(old(State()), reply)
    {
      ghost var s1 := FetchHistory(State().(mounted := true, historyPolling := true), reply);
      mounted := true;
      historyPolling := true;
      historyFetches := historyFetches + 1;
      history := ApplyHistory(history, reply);
      assert State() == s1;
      if !running {
        running := true;
        StartGameLoop();
      }
    }

    method OnTeardown()
      modifies this
      ensures State() == TeardownStep(old(State()))
      ensures !running && pendingTimer == NoTimer && !framePending
    {
      running := false;
      pendingTimer := NoTimer;
      framePending := false;
      historyPolling := false;
      mounted := false;
    }

    method OnWaitTick()
      modifies this
      ensures State() == WaitTickStep(old(State()))
    {
      if pendingTimer != WaitCountdown {
        return;
      }
      countdown := countdown - 1;
      if countdown <= 0 {
        pendingTimer := NoTimer;
        StartBettingPhase();
      }
    }

    method OnBetTick(r: real, u: real, w: real)
      requires IsDraw(r) && IsDraw(u) && IsDraw(w)
      modifies this
      ensures State() == BetTickStep(old(State()), r, u, w)
    {
      if pendingTimer != BetCountdown {
        return;
      }
      countdown := countdown - 1;
      if countdown <= 0 {
        pendingTimer := NoTimer;
        StartFlightPhase(r, u, w);
      }
    }

    method OnFrame(displayed: real)
      modifies this
      ensures State() == FrameStep(old(State()), displayed)
    {
      if !framePending {
        return;
      }
      framePending := false;
      if !running {
        return;
      }
      if displayed >= finalCrash {
        FreezeFlight();
      } else {
        currentMult := displayed;
        framePending := true;
      }
    }

    /** The crashing frame's work, with the bet guard reading the live bet id. */
    method FreezeFlight()
      modifies this
      ensures State() == Freeze(old(State()), old(betId))
    {
      var settle := betId.Some? && !processed;
      currentMult := finalCrash;
      phase := Crashed;
      roundReports := roundReports + [finalCrash];
      historyRefreshPending := true;
      pendingTimer := Restart;
      if settle {
        RequestSettlement();
      }
    }

    /** `checkResult` reached with a bet id: send the result request. */
    method RequestSettlement()
      requires betId.Some?
      modifies this
      ensures State() == old(State()).(processed := true,
                settleRequests := old(settleRequests) + [SettleRequest(old(betId).value, old(finalCrash))],
                settlesAwaited := old(settlesAwaited) + 1)
    {
      processed := true;
      settleRequests := settleRequests + [SettleRequest(betId.value, finalCrash)];
      settlesAwaited := settlesAwaited + 1;
    }

    method OnRestart()
      modifies this
      ensures State() == RestartStep(old(State()))
    {
      if pendingTimer != Restart {
        return;
      }
      pendingTimer := NoTimer;
      if running {
        StartGameLoop();
      }
    }

    method OnHistoryPoll(reply: Option<seq<real>>)
      modifies this
      ensures State() == HistoryPollStep(old(State()), reply)
    {
      if historyPolling {
        historyFetches := historyFetches + 1;
        if mounted {
          history := ApplyHistory(history, reply);
        }
      }
    }

    method OnHistoryRefresh(reply: Option<seq<real>>)
      modifies this
      ensures State() == HistoryRefreshStep(old(State()), reply)
    {
      if historyRefreshPending {
        historyRefreshPending := false;
        historyFetches := historyFetches + 1;
        if mounted {
          history := ApplyHistory(history, reply);
        }
      }
    }

    method PlaceBet(stake: real, autoCashout: real, reply: Option<BetId>)
      returns (outcome: Result<BetId, BetRejection>)
      modifies this
      ensures (State(), outcome) == PlaceBetStep(old(State()), stake, autoCashout, reply)
    {
      if user.None? {
        return Err(NeedLogin);
      }
      if user.value < stake {
        return Err(InsufficientFunds);
      }
      if phase != Betting {
        return Err(WaitNextRound);
      }
      betRequests := betRequests + [BetRequest(stake, autoCashout)];
      if reply.None? {
        return Err(ServerRefused);
      }
      betId := reply;
      user := UpdateBalance(user, user.value - stake);
      outcome := Ok(reply.value);
    }

    method OnSettleResponse(reply: Option<SettleReply>)
      modifies this
      ensures State() == SettleResponseStep(old(State()), reply)
    {
      if settlesAwaited == 0 {
        return;
      }
      settlesAwaited := settlesAwaited - 1;
      if reply.Some? && reply.value.success {
        user := UpdateBalance(user, reply.value.balance);
        if mounted {
          result := Some(RoundResult(reply.value.status, reply.value.crashPoint, reply.value.win));
        }
      }
    }
  }
}
