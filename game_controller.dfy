/** The game-session controller of the client (`AppController`): its session
    fields, its three countdown handles and the buttons it drives, updated
    in place by the handlers for server messages, clicks, chain outcomes and
    timer ticks. Every handler is stated against the pure rules in
    `SessionRules`. */
module GameController {
  import opened JsValues
  import opened ServerConfig
  import opened SessionRules
  import opened TimeParts

  /** The controller's `ws`: null, a socket still connecting, or an open one. */
  datatype Socket = NoSocket | Connecting | Open

  /** The react button's caption. */
  datatype ReactLabel = ClickLabel | ClickedLabel | TimeUpLabel

  /** The `code` of the error a failed transaction carries. */
  datatype ErrorCode = NamedCode(name: string) | NumericCode(n: int) | NoCode

  /** What happened to the deposit transaction, as the wallet reports it. */
  datatype TxOutcome = Confirmed | Reverted(code: ErrorCode)

  /** A cancellation by the user: ethers' `ACTION_REJECTED` or EIP-1193's 4001. */
  predicate IsUserRejection(code: ErrorCode) {
    code == NamedCode("ACTION_REJECTED") || code == NumericCode(4001)
  }

  class AppController {
    /** Wallet and backend facts, set by the connection code. */
    var conn: Connection

    // Session fields.
    var gameId: Option<string>
    var onchainId: Option<string>
    var state: Option<GameState>
    var hasDeposited: bool

    /** Interval handles, each held as the deadline (ms) its callback
        compares the clock with; `None` is a cleared handle. */
    var waitingRoomTimer: Option<int>
    var depositTimer: Option<int>
    var clickTimer: Option<int>
    var waitingRoomTimerShown: bool
    var depositTimerShown: bool
    var clickTimerShown: bool

    var ws: Socket
    /** React actions written to the socket so far. */
    var reactsSent: nat

    // Buttons.
    var depositShown: bool
    var depositDisabled: bool
    var joinDisabled: bool
    var refundShown: bool
    var refundDisabled: bool
    var reactShown: bool
    var reactDisabled: bool
    var reactLabel: ReactLabel
    var claimShown: bool
    var claimDisabled: bool
    var referralsLinkShown: bool
    var networkColor: StatusColor

    function CurrentSession(): Session
      reads this
    {
      Session(gameId, onchainId, state, hasDeposited)
    }

    /** No two countdowns run at once. */
    predicate AtMostOneTimer()
      reads this
    {
      !(waitingRoomTimer.Some? && depositTimer.Some?) &&
      !(waitingRoomTimer.Some? && clickTimer.Some?) &&
      !(depositTimer.Some? && clickTimer.Some?)
    }

    /** What `resetGameControls` leaves: the session forgotten, the game
        buttons hidden, no socket and no countdown. */
    predicate ControlsReset()
      reads this
    {
      && CurrentSession() == Idle
      && !depositShown && reactDisabled && !reactShown && reactLabel == ClickLabel
      && !refundShown && !claimShown && ws == NoSocket
      && waitingRoomTimer.None? && depositTimer.None? && clickTimer.None?
      && !depositTimerShown && !waitingRoomTimerShown
    }

    /** The fields `resetGameControls` does not touch keep their values. */
    twostate predicate OutsideResetKept()
      reads this
    {
      && conn == old(conn) && reactsSent == old(reactsSent) && clickTimerShown == old(clickTimerShown)
      && depositDisabled == old(depositDisabled) && joinDisabled == old(joinDisabled)
      && refundDisabled == old(refundDisabled) && claimDisabled == old(claimDisabled)
      && referralsLinkShown == old(referralsLinkShown) && networkColor == old(networkColor)
    }

    /** A controller before any join, with every game control hidden. */
    constructor (c: Connection)
      ensures conn == c && CurrentSession() == Idle
      ensures waitingRoomTimer.None? && depositTimer.None? && clickTimer.None?
      ensures !waitingRoomTimerShown && !depositTimerShown && !clickTimerShown
      ensures ws == NoSocket && reactsSent == 0
      ensures !depositShown && joinDisabled && !refundShown && !reactShown && reactDisabled
      ensures reactLabel == ClickLabel && !claimShown && !referralsLinkShown
    {
      conn := c;
      gameId, onchainId, state, hasDeposited := None, None, None, false;
      waitingRoomTimer, depositTimer, clickTimer := None, None, None;
      waitingRoomTimerShown, depositTimerShown, clickTimerShown := false, false, false;
      ws, reactsSent := NoSocket, 0;
      depositShown, depositDisabled, joinDisabled := false, false, true;
      refundShown, refundDisabled := false, true;
      reactShown, reactDisabled, reactLabel := false, true, ClickLabel;
      claimShown, claimDisabled, referralsLinkShown := false, true, false;
      networkColor := NetworkColor(c.chainId, c.requiredChainId);
    }

    /** `checkNetwork`. */
    method CheckNetwork() returns (ok: bool)
      modifies this`networkColor
      ensures ok == NetworkMatches(conn.chainId, conn.requiredChainId)
      ensures networkColor == NetworkColor(conn.chainId, conn.requiredChainId)
    {
      if !TruthyInt(conn.chainId) || !TruthyInt(conn.requiredChainId) {
        networkColor := Orange;
        return false;
      }
      if conn.chainId.value == conn.requiredChainId.value {
        networkColor := Green;
        ok := true;
      } else {
        networkColor := Red;
        ok := false;
      }
    }

    /** `resetGameControls`: forget the game, hide its controls, close the
        socket and stop every timer. The click countdown's container is
        left as it was. */
    method ResetGameControls()
      modifies this`gameId, this`onchainId, this`state, this`hasDeposited
      modifies this`depositShown, this`reactDisabled, this`reactShown, this`reactLabel
      modifies this`refundShown, this`claimShown, this`ws
      modifies this`waitingRoomTimer, this`depositTimer, this`clickTimer
      modifies this`depositTimerShown, this`waitingRoomTimerShown
      ensures ControlsReset()
    {
      gameId, onchainId, state, hasDeposited := None, None, None, false;
      HideGameButtons();
      ws := NoSocket;
      StopTimers();
    }

    /** `resetGameControls` followed by `updateUIButtons`, as the handlers
        that abandon a game do it. */
    method ResetAndRefresh()
      modifies this`gameId, this`onchainId, this`state, this`hasDeposited
      modifies this`depositShown, this`reactDisabled, this`reactShown, this`reactLabel
      modifies this`refundShown, this`claimShown, this`ws
      modifies this`waitingRoomTimer, this`depositTimer, this`clickTimer
      modifies this`depositTimerShown, this`waitingRoomTimerShown
      modifies this`networkColor, this`referralsLinkShown, this`joinDisabled, this`refundDisabled
      ensures ControlsReset()
      ensures ButtonsUpdated()
      ensures joinDisabled == !CanInteract(conn)
    {
      ResetGameControls();
      UpdateUIButtons();
      IdleOffersOnlyJoin(conn, None, false);
    }

    /** The button part of `resetGameControls`. */
    method HideGameButtons()
      modifies this`depositShown, this`reactDisabled, this`reactShown, this`reactLabel
      modifies this`refundShown, this`claimShown
      ensures !depositShown && reactDisabled && !reactShown && reactLabel == ClickLabel
      ensures !refundShown && !claimShown
    {
      depositShown := false;
      reactDisabled, reactShown, reactLabel := true, false, ClickLabel;
      refundShown, claimShown := false, false;
    }

    /** The timer part of `resetGameControls`: all three handles are cleared
        and the waiting-room and deposit containers hidden. */
    method StopTimers()
      modifies this`waitingRoomTimer, this`depositTimer, this`clickTimer
      modifies this`depositTimerShown, this`waitingRoomTimerShown
      ensures waitingRoomTimer.None? && depositTimer.None? && clickTimer.None?
      ensures !depositTimerShown && !waitingRoomTimerShown
    {
      waitingRoomTimer, depositTimer, clickTimer := None, None, None;
      depositTimerShown, waitingRoomTimerShown := false, false;
    }

    /** `updateDepositButtonVisibility`. `threw` reports that the caption's
        `formatEther` of a missing stake amount threw after the button was
        shown and enabled. */
    method UpdateDepositButtonVisibility() returns (threw: bool)
      modifies this`depositShown, this`depositDisabled
      ensures depositShown == DepositShown(conn, CurrentSession())
      ensures depositDisabled == (if depositShown then false else old(depositDisabled))
      ensures threw == DepositCaptionThrows(conn, CurrentSession())
    {
      threw := false;
      if !conn.ethersLoaded {
        depositShown := false;
        return;
      }
      if conn.contract && conn.config.Some? && Truthy(conn.playerAddress) && Truthy(onchainId) &&
         state == Some(WaitingForDeposits) && !hasDeposited {
        depositShown, depositDisabled := true, false;
        threw := conn.config.value.stakeAmount.None?;
      } else {
        depositShown := false;
      }
    }

    /** `updateUIButtons`: join, refund and the referrals link. */
    method UpdateUIButtons()
      modifies this`networkColor, this`referralsLinkShown, this`joinDisabled
      modifies this`refundShown, this`refundDisabled
      ensures networkColor == NetworkColor(conn.chainId, conn.requiredChainId)
      ensures referralsLinkShown == CanInteract(conn)
      ensures joinDisabled == !JoinEnabled(conn, CurrentSession())
      ensures refundShown == RefundShown(conn, CurrentSession())
      ensures refundDisabled == !refundShown
    {
      var isWalletConnected := Truthy(conn.playerAddress) && conn.signer;
      var isNetworkCorrect := CheckNetwork();
      var canInteract := isWalletConnected && isNetworkCorrect;
      referralsLinkShown := canInteract;
      joinDisabled := !(canInteract && !Truthy(gameId) && !Truthy(onchainId));
      var showRefund := canInteract && (state == Some(Cancelled) || state == Some(Failed));
      refundShown := showRefund;
      refundDisabled := !showRefund;
    }

    /** `startWaitingRoomTimer`: clear the old handle, then arm one only in
        the waiting room with both time fields set. The container is hidden
        when nothing is armed and otherwise waits for the first tick. */
    method StartWaitingRoomTimer(st: Option<GameState>, createdAt: int, timeout: int)
      modifies this`waitingRoomTimer, this`waitingRoomTimerShown
      ensures waitingRoomTimer == TimerDeadline(WaitingRoomTimer, st, createdAt, timeout)
      ensures waitingRoomTimerShown == (old(waitingRoomTimerShown) && waitingRoomTimer.Some?)
    {
      if waitingRoomTimer.Some? {
        waitingRoomTimer := None;
      }
      if st != Some(WaitingForPlayers) || createdAt == 0 || timeout == 0 {
        waitingRoomTimerShown := false;
        return;
      }
      waitingRoomTimer := Some((createdAt + timeout) * 1000);
    }

    /** `startDepositTimer`. */
    method StartDepositTimer(st: Option<GameState>, createdAt: int, timeout: int)
      modifies this`depositTimer, this`depositTimerShown
      ensures depositTimer == TimerDeadline(DepositTimer, st, createdAt, timeout)
      ensures depositTimerShown == (old(depositTimerShown) && depositTimer.Some?)
    {
      if depositTimer.Some? {
        depositTimer := None;
      }
      if st != Some(WaitingForDeposits) || createdAt == 0 || timeout == 0 {
        depositTimerShown := false;
        return;
      }
      depositTimer := Some((createdAt + timeout) * 1000);
    }

    /** `startClickTimer`. */
    method StartClickTimer(st: Option<GameState>, windowOpen: int, timeout: int)
      modifies this`clickTimer, this`clickTimerShown
      ensures clickTimer == TimerDeadline(ClickTimer, st, windowOpen, timeout)
      ensures clickTimerShown == (old(clickTimerShown) && clickTimer.Some?)
    {
      if clickTimer.Some? {
        clickTimer := None;
      }
      if st != Some(AwaitingClicks) || windowOpen == 0 || timeout == 0 {
        clickTimerShown := false;
        return;
      }
      clickTimer := Some((windowOpen + timeout) * 1000);
    }

    /** One run of the waiting-room interval callback: at or past the
        deadline it clears its handle and hides; otherwise it shows `MM:SS`. */
    method TickWaitingRoomTimer(nowMs: int) returns (face: Option<string>)
      requires waitingRoomTimer.Some?
      modifies this`waitingRoomTimer, this`waitingRoomTimerShown
      ensures var t := TickAt(old(waitingRoomTimer.value), nowMs);
        && (t.Expired? ==> waitingRoomTimer.None? && !waitingRoomTimerShown && face.None?)
        && (t.Remaining? ==> waitingRoomTimer == old(waitingRoomTimer) && waitingRoomTimerShown &&
                             face == Some(ClockText(t.ms)))
    {
      var remaining := waitingRoomTimer.value - nowMs;
      if remaining <= 0 {
        waitingRoomTimer := None;
        waitingRoomTimerShown := false;
        return None;
      }
      face := Some(ClockText(remaining));
      waitingRoomTimerShown := true;
    }

    /** One run of the deposit interval callback; expiry also hides the
        deposit button. */
    method TickDepositTimer(nowMs: int) returns (face: Option<string>)
      requires depositTimer.Some?
      modifies this`depositTimer, this`depositTimerShown, this`depositShown
      ensures var t := TickAt(old(depositTimer.value), nowMs);
        && (t.Expired? ==> depositTimer.None? && !depositTimerShown && !depositShown && face.None?)
        && (t.Remaining? ==> depositTimer == old(depositTimer) && depositTimerShown &&
                             depositShown == old(depositShown) && face == Some(ClockText(t.ms)))
    {
      var remaining := depositTimer.value - nowMs;
      if remaining <= 0 {
        depositTimer := None;
        depositTimerShown := false;
        depositShown := false;
        return None;
      }
      face := Some(ClockText(remaining));
      depositTimerShown := true;
    }

    /** One run of the click interval callback; expiry disables the react
        button with "Time is up!". It returns the milliseconds still left. */
    method TickClickTimer(nowMs: int) returns (left: Option<nat>)
      requires clickTimer.Some?
      modifies this`clickTimer, this`clickTimerShown, this`reactDisabled, this`reactLabel
      ensures var t := TickAt(old(clickTimer.value), nowMs);
        && (t.Expired? ==> clickTimer.None? && !clickTimerShown && reactDisabled &&
                           reactLabel == TimeUpLabel && left.None?)
        && (t.Remaining? ==> clickTimer == old(clickTimer) && clickTimerShown &&
                             reactDisabled == old(reactDisabled) && reactLabel == old(reactLabel) &&
                             left == Some(t.ms))
    {
      var remaining := clickTimer.value - nowMs;
      if remaining <= 0 {
        clickTimer := None;
        reactDisabled, reactLabel := true, TimeUpLabel;
        clickTimerShown := false;
        return None;
      }
      left := Some(remaining);
      clickTimerShown := true;
    }

    /** `checkClaimStatus`; `unclaimedOnChain` is what the contract reports
        (false also when a query fails). */
    method CheckClaimStatus(winners: Option<seq<string>>, unclaimedOnChain: bool)
      modifies this`claimShown, this`claimDisabled
      ensures claimShown == ClaimShown(conn, CurrentSession(), winners, unclaimedOnChain)
      ensures claimDisabled == (if ClaimQueried(conn, CurrentSession()) then !claimShown else old(claimDisabled))
    {
      if !conn.contract || !Truthy(conn.playerAddress) || !Truthy(onchainId) || state != Some(Finished) {
        claimShown := false;
        return;
      }
      claimShown, claimDisabled := false, true;
      var iAmWinner := winners.Some? && ContainsIgnoringCase(winners.value, conn.playerAddress.value);
      if !iAmWinner {
        return;
      }
      if !unclaimedOnChain {
        return;
      }
      if !conn.ethersLoaded {
        return;
      }
      claimShown, claimDisabled := true, false;
    }

    /** `handleGameUpdate`. `unclaimedOnChain` is the answer of the
        claim-status query, used only when it is made. `threw` reports that
        the deposit caption threw, which ends the handler there. */
    method HandleGameUpdate(p: Option<Payload>, unclaimedOnChain: bool) returns (effect: UpdateEffect, threw: bool)
      modifies this
      ensures effect == EffectOf(old(CurrentSession()), conn.playerAddress, p)
      ensures threw <==> effect.Applied? && DepositCaptionThrows(conn, CurrentSession())
      ensures UpdateHandled(p, unclaimedOnChain)
    {
      threw := false;
      var oldState := state;
      if !IsValidPayload(p) {
        return InvalidPayload, false;
      }
      var q := p.value;
      if (q.state == Some(Cancelled) || q.state == Some(Failed)) && oldState == Some(WaitingForPlayers) {
        ResetAndRefresh();
        return WaitingRoomTimedOut, false;
      }
      var result;
      result, threw := ApplySnapshot(q, unclaimedOnChain);
      effect := Applied(result);
    }

    /** What `handleGameUpdate` leaves: the session `ApplyUpdate` gives;
        nothing changed for an invalid payload; the reset for a waiting-room
        timeout; otherwise the snapshot's controls, or, when the deposit
        caption throws, the controls up to that point. */
    twostate predicate UpdateHandled(p: Option<Payload>, unclaimedOnChain: bool)
      reads this
    {
      var effect := EffectOf(old(CurrentSession()), conn.playerAddress, p);
      var threw := effect.Applied? && DepositCaptionThrows(conn, CurrentSession());
      && CurrentSession() == ApplyUpdate(old(CurrentSession()), conn.playerAddress, p)
      && conn == old(conn) && reactsSent == old(reactsSent)
      && (!IsValidPayload(p) ==> unchanged(this))
      && (effect == WaitingRoomTimedOut ==> TimeoutReset())
      && (effect.Applied? && !threw ==> SnapshotApplied(p.value, unclaimedOnChain, effect.result))
      && (threw ==> SnapshotAborted(p.value))
      && (IsValidPayload(p) && !threw ==> ButtonsUpdated())
    }

    /** The controls the waiting-room timeout leaves: a reset, the click
        container and the disabled flags of deposit and claim kept. */
    twostate predicate TimeoutReset()
      reads this
    {
      && waitingRoomTimer.None? && depositTimer.None? && clickTimer.None?
      && !waitingRoomTimerShown && !depositTimerShown && clickTimerShown == old(clickTimerShown)
      && !depositShown && depositDisabled == old(depositDisabled)
      && !reactShown && reactDisabled && reactLabel == ClickLabel
      && !claimShown && claimDisabled == old(claimDisabled) && ws == NoSocket
    }

    /** The join, refund and referrals-link state `updateUIButtons` leaves. */
    ghost predicate ButtonsUpdated()
      reads this
    {
      && networkColor == NetworkColor(conn.chainId, conn.requiredChainId)
      && referralsLinkShown == CanInteract(conn)
      && joinDisabled == !JoinEnabled(conn, CurrentSession())
      && refundShown == RefundShown(conn, CurrentSession())
      && refundDisabled == !refundShown
    }

    /** The controls a snapshot that is neither invalid nor a waiting-room
        timeout leaves, starting from the old values of the fields. */
    twostate predicate SnapshotApplied(q: Payload, unclaimedOnChain: bool, result: RoundResult)
      reads this
    {
      && SnapshotTimersStarted(q)
      && depositShown == DepositShown(conn, CurrentSession())
      && depositDisabled == (if depositShown then false else old(depositDisabled))
      && claimShown == ClaimShown(conn, CurrentSession(), q.winners, unclaimedOnChain)
      && claimDisabled == (if ClaimQueried(conn, Replace(old(CurrentSession()), conn.playerAddress, q))
                           then !claimShown else old(claimDisabled))
      && reactShown == ReactShown(CurrentSession())
      && (state != Some(AwaitingClicks) ==> reactDisabled && reactLabel == ClickLabel)
      && (state == Some(AwaitingClicks) ==> reactDisabled == old(reactDisabled) && reactLabel == old(reactLabel))
      && ws == (if result == YouLost then NoSocket else old(ws))
    }

    /** The controls a snapshot leaves when the deposit caption throws:
        the timers restarted and the deposit button shown and enabled, and
        every later step of `handleGameUpdate` not run. */
    twostate predicate SnapshotAborted(q: Payload)
      reads this
    {
      SnapshotTimersStarted(q) && CaptionAborted()
    }

    /** The deposit button shown and enabled, and no control after it
        touched. */
    twostate predicate CaptionAborted()
      reads this
    {
      && depositShown && !depositDisabled
      && claimShown == old(claimShown) && claimDisabled == old(claimDisabled)
      && reactShown == old(reactShown) && reactDisabled == old(reactDisabled) && reactLabel == old(reactLabel)
      && ws == old(ws) && networkColor == old(networkColor) && referralsLinkShown == old(referralsLinkShown)
      && joinDisabled == old(joinDisabled) && refundShown == old(refundShown) && refundDisabled == old(refundDisabled)
    }

    /** The body of `handleGameUpdate` past its two early returns. */
    method ApplySnapshot(q: Payload, unclaimedOnChain: bool) returns (result: RoundResult, threw: bool)
      requires IsValidPayload(Some(q)) && !IsWaitingRoomTimeout(CurrentSession(), q)
      modifies this`gameId, this`onchainId, this`state, this`hasDeposited
      modifies this`waitingRoomTimer, this`waitingRoomTimerShown, this`depositTimer, this`depositTimerShown
      modifies this`clickTimer, this`clickTimerShown, this`depositShown, this`depositDisabled
      modifies this`claimShown, this`claimDisabled, this`reactDisabled, this`reactShown, this`reactLabel
      modifies this`refundShown, this`ws, this`networkColor, this`referralsLinkShown, this`joinDisabled
      modifies this`refundDisabled
      ensures result == RoundResultOf(old(state), conn.playerAddress, q)
      ensures CurrentSession() == (if result == YouLost then Idle
                                   else Replace(old(CurrentSession()), conn.playerAddress, q))
      ensures threw == DepositCaptionThrows(conn, CurrentSession())
      ensures !threw ==> SnapshotApplied(q, unclaimedOnChain, result) && ButtonsUpdated()
      ensures threw ==> SnapshotAborted(q)
    {
      var oldState := state;
      threw := PrepareSnapshot(q, unclaimedOnChain);
      if threw {
        CaptionThrowsOnlyAwaitingDeposits(conn, old(CurrentSession()), q);
        return NoResult, true;
      }
      result := FinishSnapshot(oldState, q);
      if result == YouLost {
        IdleOffersOnlyJoin(conn, q.winners, unclaimedOnChain);
      }
    }

    /** The steps of `handleGameUpdate` up to the claim button. */
    method PrepareSnapshot(q: Payload, unclaimedOnChain: bool) returns (threw: bool)
      modifies this`gameId, this`onchainId, this`state, this`hasDeposited
      modifies this`waitingRoomTimer, this`waitingRoomTimerShown, this`depositTimer, this`depositTimerShown
      modifies this`clickTimer, this`clickTimerShown
      modifies this`depositShown, this`depositDisabled, this`claimShown, this`claimDisabled
      ensures CurrentSession() == Replace(old(CurrentSession()), conn.playerAddress, q)
      ensures SnapshotTimersStarted(q)
      ensures depositShown == DepositShown(conn, CurrentSession())
      ensures depositDisabled == (if depositShown then false else old(depositDisabled))
      ensures threw == DepositCaptionThrows(conn, CurrentSession())
      ensures !threw ==> claimShown == ClaimShown(conn, CurrentSession(), q.winners, unclaimedOnChain)
      ensures !threw ==>
        claimDisabled == (if ClaimQueried(conn, CurrentSession()) then !claimShown else old(claimDisabled))
      ensures threw ==> SnapshotAborted(q)
    {
      StartSnapshot(q);
      threw := ShowDepositAndClaim(q.winners, unclaimedOnChain);
    }

    /** The deposit and claim buttons of `handleGameUpdate`; the claim step
        is not reached when the deposit caption throws. */
    method ShowDepositAndClaim(winners: Option<seq<string>>, unclaimedOnChain: bool) returns (threw: bool)
      modifies this`depositShown, this`depositDisabled, this`claimShown, this`claimDisabled
      ensures depositShown == DepositShown(conn, CurrentSession())
      ensures depositDisabled == (if depositShown then false else old(depositDisabled))
      ensures threw == DepositCaptionThrows(conn, CurrentSession())
      ensures !threw ==> claimShown == ClaimShown(conn, CurrentSession(), winners, unclaimedOnChain)
      ensures !threw ==>
        claimDisabled == (if ClaimQueried(conn, CurrentSession()) then !claimShown else old(claimDisabled))
      ensures threw ==> CaptionAborted()
    {
      threw := UpdateDepositButtonVisibility();
      if threw {
        return;
      }
      UpdateClaimButton(winners, unclaimedOnChain);
    }

    /** The countdowns a snapshot restarts, from the old handles. */
    twostate predicate SnapshotTimersStarted(q: Payload)
      reads this
    {
      && waitingRoomTimer == PayloadDeadline(WaitingRoomTimer, q)
      && depositTimer == PayloadDeadline(DepositTimer, q)
      && clickTimer == PayloadDeadline(ClickTimer, q)
      && waitingRoomTimerShown == (old(waitingRoomTimerShown) && waitingRoomTimer.Some?)
      && depositTimerShown == (old(depositTimerShown) && depositTimer.Some?)
      && clickTimerShown == (old(clickTimerShown) && clickTimer.Some?)
      && AtMostOneTimer()
    }

    /** The session replacement and the timer starts of `handleGameUpdate`. */
    method StartSnapshot(q: Payload)
      modifies this`gameId, this`onchainId, this`state, this`hasDeposited
      modifies this`waitingRoomTimer, this`waitingRoomTimerShown, this`depositTimer, this`depositTimerShown
      modifies this`clickTimer, this`clickTimerShown
      ensures CurrentSession() == Replace(old(CurrentSession()), conn.playerAddress, q)
      ensures SnapshotTimersStarted(q)
    {
      ReplaceSessionFields(q);
      StartTimers(q);
    }

    /** The steps of `handleGameUpdate` from the win/loss check on. */
    method FinishSnapshot(oldState: Option<GameState>, q: Payload) returns (result: RoundResult)
      requires state == q.state
      modifies this`gameId, this`onchainId, this`state, this`hasDeposited
      modifies this`depositShown, this`reactDisabled, this`reactShown, this`reactLabel
      modifies this`refundShown, this`claimShown, this`ws
      modifies this`waitingRoomTimer, this`depositTimer, this`clickTimer
      modifies this`depositTimerShown, this`waitingRoomTimerShown
      modifies this`networkColor, this`referralsLinkShown, this`joinDisabled, this`refundDisabled
      ensures result == RoundResultOf(oldState, conn.playerAddress, q)
      ensures result != YouLost ==>
        && CurrentSession() == old(CurrentSession()) && ws == old(ws) && depositShown == old(depositShown)
        && claimShown == old(claimShown) && waitingRoomTimer == old(waitingRoomTimer)
        && depositTimer == old(depositTimer) && clickTimer == old(clickTimer)
        && depositTimerShown == old(depositTimerShown) && waitingRoomTimerShown == old(waitingRoomTimerShown)
      ensures result == YouLost ==>
        && CurrentSession() == Idle && ws == NoSocket && !depositShown && !claimShown
        && waitingRoomTimer.None? && depositTimer.None? && clickTimer.None?
        && !depositTimerShown && !waitingRoomTimerShown
      ensures reactShown == ReactShown(CurrentSession())
      ensures state != Some(AwaitingClicks) ==> reactDisabled && reactLabel == ClickLabel
      ensures state == Some(AwaitingClicks) ==> reactDisabled == old(reactDisabled) && reactLabel == old(reactLabel)
      ensures ButtonsUpdated()
    {
      result := ReportRoundResult(oldState, q);
      UpdateReactButton();
      UpdateUIButtons();
    }

    /** Whole-field replacement of the session from a snapshot. */
    method ReplaceSessionFields(q: Payload)
      modifies this`gameId, this`onchainId, this`state, this`hasDeposited
      ensures CurrentSession() == Replace(old(CurrentSession()), conn.playerAddress, q)
    {
      state := q.state;
      if Truthy(q.backendPendingID) {
        gameId := q.backendPendingID;
      }
      if Truthy(q.onchainGameID) {
        onchainId := q.onchainGameID;
      }
      if q.depositedPlayers.Some? && Truthy(conn.playerAddress) {
        hasDeposited := ContainsIgnoringCase(q.depositedPlayers.value, conn.playerAddress.value);
      }
    }

    /** The three timer starts of `handleGameUpdate`. */
    method StartTimers(q: Payload)
      modifies this`waitingRoomTimer, this`waitingRoomTimerShown, this`depositTimer, this`depositTimerShown
      modifies this`clickTimer, this`clickTimerShown
      ensures waitingRoomTimer == PayloadDeadline(WaitingRoomTimer, q)
      ensures depositTimer == PayloadDeadline(DepositTimer, q)
      ensures clickTimer == PayloadDeadline(ClickTimer, q)
      ensures waitingRoomTimerShown == (old(waitingRoomTimerShown) && waitingRoomTimer.Some?)
      ensures depositTimerShown == (old(depositTimerShown) && depositTimer.Some?)
      ensures clickTimerShown == (old(clickTimerShown) && clickTimer.Some?)
      ensures AtMostOneTimer()
    {
      StartWaitingRoomTimer(q.state, q.createdAtUnix, q.timeoutSeconds);
      StartDepositTimer(q.state, q.createdAtUnix, q.timeoutSeconds);
      StartClickTimer(q.state, q.clickWindowOpenUnix, q.clickTimeoutSeconds);
      if waitingRoomTimer.Some? && depositTimer.Some? {
        AtMostOneTimerArmed(q, WaitingRoomTimer, DepositTimer);
      }
      if waitingRoomTimer.Some? && clickTimer.Some? {
        AtMostOneTimerArmed(q, WaitingRoomTimer, ClickTimer);
      }
      if depositTimer.Some? && clickTimer.Some? {
        AtMostOneTimerArmed(q, DepositTimer, ClickTimer);
      }
    }

    /** The claim-button step of `handleGameUpdate`. */
    method UpdateClaimButton(winners: Option<seq<string>>, unclaimedOnChain: bool)
      modifies this`claimShown, this`claimDisabled
      ensures claimShown == ClaimShown(conn, CurrentSession(), winners, unclaimedOnChain)
      ensures claimDisabled == (if ClaimQueried(conn, CurrentSession()) then !claimShown else old(claimDisabled))
    {
      if state == Some(Finished) && Truthy(conn.playerAddress) && conn.contract && Truthy(onchainId) {
        CheckClaimStatus(winners, unclaimedOnChain);
      } else {
        claimShown := false;
      }
    }

    /** The win/loss step of `handleGameUpdate`: only the loser's branch
        changes anything, by resetting the controls. */
    method ReportRoundResult(oldState: Option<GameState>, q: Payload) returns (result: RoundResult)
      requires state == q.state
      modifies this`gameId, this`onchainId, this`state, this`hasDeposited
      modifies this`depositShown, this`reactDisabled, this`reactShown, this`reactLabel
      modifies this`refundShown, this`claimShown, this`ws
      modifies this`waitingRoomTimer, this`depositTimer, this`clickTimer
      modifies this`depositTimerShown, this`waitingRoomTimerShown
      modifies this`networkColor, this`referralsLinkShown, this`joinDisabled, this`refundDisabled
      ensures result == RoundResultOf(oldState, conn.playerAddress, q)
      ensures result != YouLost ==> unchanged(this)
      ensures result == YouLost ==>
        && CurrentSession() == Idle && ws == NoSocket
        && !depositShown && reactDisabled && !reactShown && reactLabel == ClickLabel
        && !refundShown && !claimShown
        && waitingRoomTimer.None? && depositTimer.None? && clickTimer.None?
        && !depositTimerShown && !waitingRoomTimerShown
        && ButtonsUpdated()
    {
      result := NoResult;
      if state == Some(Finished) && oldState != Some(Finished) {
        if Truthy(conn.playerAddress) {
          var isWinner := q.winners.Some? && ContainsIgnoringCase(q.winners.value, conn.playerAddress.value);
          var isLoser := Truthy(q.loser) && SameIgnoringCase(q.loser.value, conn.playerAddress.value);
          if isWinner {
            result := YouWon;
          } else if isLoser {
            result := YouLost;
            ResetAndRefresh();
          }
        }
      }
    }

    /** The react-button step of `handleGameUpdate`. */
    method UpdateReactButton()
      modifies this`reactShown, this`reactDisabled, this`reactLabel
      ensures reactShown == ReactShown(CurrentSession())
      ensures state != Some(AwaitingClicks) ==> reactDisabled && reactLabel == ClickLabel
      ensures state == Some(AwaitingClicks) ==> reactDisabled == old(reactDisabled) && reactLabel == old(reactLabel)
    {
      reactShown := state == Some(WaitingForDeposits) || state == Some(MusicPlaying) || state == Some(AwaitingClicks);
      if state != Some(AwaitingClicks) {
        reactDisabled, reactLabel := true, ClickLabel;
      }
    }

    /** The click window open: `AwaitingClicks` with the react button shown
        and enabled, and nothing else changed. */
    twostate predicate ClickingStarted()
      reads this
    {
      && state == Some(AwaitingClicks) && reactShown && !reactDisabled && reactLabel == ClickLabel
      && unchanged(this`conn, this`gameId, this`onchainId, this`hasDeposited, this`ws, this`reactsSent)
      && unchanged(this`waitingRoomTimer, this`depositTimer, this`clickTimer)
      && unchanged(this`waitingRoomTimerShown, this`depositTimerShown, this`clickTimerShown)
      && unchanged(this`depositShown, this`depositDisabled, this`joinDisabled, this`refundShown)
      && unchanged(this`refundDisabled, this`claimShown, this`claimDisabled)
      && unchanged(this`referralsLinkShown, this`networkColor)
    }

    /** `handleStartClicking`: the click window opens. */
    method HandleStartClicking()
      modifies this`state, this`reactShown, this`reactDisabled, this`reactLabel
      ensures ClickingStarted()
    {
      state := Some(AwaitingClicks);
      reactShown, reactDisabled, reactLabel := true, false, ClickLabel;
    }

    /** `sendReact`: the button is disabled first and the click countdown
        stopped; the react is written only on an open socket while clicks
        are awaited, and otherwise the button is enabled again. */
    method SendReact() returns (sent: bool)
      modifies this`reactDisabled, this`reactLabel, this`clickTimer, this`clickTimerShown, this`reactsSent
      ensures sent <==> ws == Open && state == Some(AwaitingClicks)
      ensures reactsSent == old(reactsSent) + (if sent then 1 else 0)
      ensures reactDisabled == sent
      ensures reactLabel == (if sent then ClickedLabel else ClickLabel)
      ensures clickTimer.None?
      ensures clickTimerShown == (old(clickTimerShown) && old(clickTimer).None?)
    {
      reactDisabled, reactLabel := true, ClickedLabel;
      if clickTimer.Some? {
        clickTimer := None;
        clickTimerShown := false;
      }
      if ws != Open {
        reactDisabled, reactLabel := false, ClickLabel;
        return false;
      }
      if state != Some(AwaitingClicks) {
        reactDisabled, reactLabel := false, ClickLabel;
        return false;
      }
      reactsSent := reactsSent + 1;
      sent := true;
    }

    /** `depositStake` with the wallet's verdict as input. It returns
        whether the transaction was attempted at all. */
    method DepositStake(outcome: TxOutcome) returns (attempted: bool)
      modifies this`networkColor, this`depositDisabled, this`depositShown, this`hasDeposited
      ensures attempted <==> DepositAllowed(conn, CurrentSession())
      ensures networkColor == (if Truthy(onchainId) && conn.contract
                               then NetworkColor(conn.chainId, conn.requiredChainId) else old(networkColor))
      ensures !attempted ==> depositDisabled == old(depositDisabled) && depositShown == old(depositShown) &&
                             hasDeposited == old(hasDeposited)
      ensures attempted && outcome.Confirmed? ==> !depositShown && depositDisabled && hasDeposited
      ensures attempted && outcome.Reverted? && IsUserRejection(outcome.code) ==>
                depositShown && !depositDisabled && hasDeposited == old(hasDeposited)
      ensures attempted && outcome.Reverted? && !IsUserRejection(outcome.code) ==>
                !depositShown && depositDisabled && hasDeposited == old(hasDeposited)
    {
      if !Truthy(onchainId) {
        return false;
      }
      if !conn.contract {
        return false;
      }
      var onRightChain := CheckNetwork();
      if !onRightChain || conn.config.None? || conn.config.value.stakeAmount.None? {
        return false;
      }
      depositDisabled := true;
      attempted := true;
      if outcome.Confirmed? {
        depositShown := false;
        hasDeposited := true;
      } else if IsUserRejection(outcome.code) {
        depositDisabled, depositShown := false, true;
      } else {
        depositShown := false;
      }
    }

    /** The `ws.onclose` handler: the socket is dropped, and outside the
        three end states the game is reset. */
    method OnSocketClose()
      modifies this`gameId, this`onchainId, this`state, this`hasDeposited
      modifies this`depositShown, this`reactDisabled, this`reactShown, this`reactLabel
      modifies this`refundShown, this`claimShown, this`ws
      modifies this`waitingRoomTimer, this`depositTimer, this`clickTimer
      modifies this`depositTimerShown, this`waitingRoomTimerShown
      modifies this`networkColor, this`referralsLinkShown, this`joinDisabled, this`refundDisabled
      ensures ws == NoSocket
      ensures var ended := old(state) == Some(Finished) || old(state) == Some(Cancelled) || old(state) == Some(Failed);
        && (ended ==> unchanged(this`gameId, this`onchainId, this`state, this`hasDeposited) &&
                      unchanged(this`depositShown, this`reactDisabled, this`reactShown, this`reactLabel) &&
                      unchanged(this`refundShown, this`claimShown, this`waitingRoomTimer, this`depositTimer) &&
                      unchanged(this`clickTimer, this`depositTimerShown, this`waitingRoomTimerShown) &&
                      unchanged(this`networkColor, this`referralsLinkShown, this`joinDisabled, this`refundDisabled))
        && (!ended ==> ControlsReset() && ButtonsUpdated() && joinDisabled == !CanInteract(conn))
    {
      ws := NoSocket;
      if state != Some(Finished) && state != Some(Cancelled) && state != Some(Failed) {
        ResetAndRefresh();
      }
    }

    /** `connectWebSocketWithToken`: nothing when a socket is open or no
        token is given; otherwise a new socket starts connecting. */
    method ConnectSocket(token: Option<string>)
      modifies this`ws
      ensures ws == (if old(ws) == Open || !Truthy(token) then old(ws) else Connecting)
    {
      if ws == Open {
        return;
      }
      if !Truthy(token) {
        return;
      }
      ws := Connecting;
    }

    /** The socket's `open` event. */
    method OnSocketOpen()
      modifies this`ws
      ensures ws == (if old(ws) == Connecting then Open else old(ws))
    {
      if ws == Connecting {
        ws := Open;
      }
    }

    /** The deposit button hidden and join disabled while the server's
        status message is shown, and nothing else changed. */
    twostate predicate StatusMessageShown()
      reads this
    {
      && !depositShown && joinDisabled
      && unchanged(this`conn, this`gameId, this`onchainId, this`state, this`hasDeposited, this`ws, this`reactsSent)
      && unchanged(this`waitingRoomTimer, this`depositTimer, this`clickTimer)
      && unchanged(this`waitingRoomTimerShown, this`depositTimerShown, this`clickTimerShown)
      && unchanged(this`depositDisabled, this`refundShown, this`refundDisabled, this`reactShown)
      && unchanged(this`reactDisabled, this`reactLabel, this`claimShown, this`claimDisabled)
      && unchanged(this`referralsLinkShown, this`networkColor)
    }

    /** The `game_status_message` case of `handleWebSocketMessage`. */
    method ShowStatusMessage()
      modifies this`depositShown, this`joinDisabled
      ensures StatusMessageShown()
    {
      depositShown := false;
      joinDisabled := true;
    }

    /** `handleWebSocketMessage`, with the claim-status answer for the
        snapshots it forwards. */
    method HandleWebSocketMessage(m: Message, unclaimedOnChain: bool)
      modifies this
      ensures CurrentSession() == SessionAfterMessage(old(CurrentSession()), conn.playerAddress, m)
      ensures conn == old(conn)
      ensures m.GameUpdate? ==> UpdateHandled(m.payload, unclaimedOnChain)
      ensures m.PlayerJoined? ==> UpdateHandled(m.gameState, unclaimedOnChain)
      ensures m.GameStatusMessage? ==> StatusMessageShown()
      ensures m.ServerError? || m.Unknown? ==> unchanged(this)
      ensures m.PendingGameCancelled? && old(gameId) != Some(m.pendingGameID) ==> unchanged(this)
      ensures m.GameCreationFailed? || (m.PendingGameCancelled? && old(gameId) == Some(m.pendingGameID)) ==>
                ControlsReset() && OutsideResetKept()
      ensures m.StartClicking? ==> ClickingStarted()
    {
      match m
      case GameUpdate(p) =>
        var _, _ := HandleGameUpdate(p, unclaimedOnChain);
      case PlayerJoined(_, p) =>
        var _, _ := HandleGameUpdate(p, unclaimedOnChain);
      case _ =>
        HandleControlMessage(m);
    }

    /** The branches of `handleWebSocketMessage` other than the two game
        snapshots. */
    method HandleControlMessage(m: Message)
      requires !m.GameUpdate? && !m.PlayerJoined?
      modifies this
      ensures CurrentSession() == SessionAfterMessage(old(CurrentSession()), conn.playerAddress, m)
      ensures conn == old(conn)
      ensures m.GameStatusMessage? ==> StatusMessageShown()
      ensures m.ServerError? || m.Unknown? ==> unchanged(this)
      ensures m.PendingGameCancelled? && old(gameId) != Some(m.pendingGameID) ==> unchanged(this)
      ensures m.GameCreationFailed? || (m.PendingGameCancelled? && old(gameId) == Some(m.pendingGameID)) ==>
                ControlsReset() && OutsideResetKept()
      ensures m.StartClicking? ==> ClickingStarted()
    {
      match m
      case GameCreationFailed(_, _) =>
        ResetGameControls();
      case StartClicking =>
        HandleStartClicking();
      case GameStatusMessage(_) =>
        ShowStatusMessage();
      case ServerError =>
      case PendingGameCancelled(id, _) =>
        if gameId == Some(id) {
          ResetGameControls();
        }
      case Unknown(_) =>
    }

    /** `resetConnection`: the wallet facts are forgotten (the config and
        required chain are kept), then the game is reset. */
    method ResetConnection()
      modifies this`conn, this`gameId, this`onchainId, this`state, this`hasDeposited
      modifies this`depositShown, this`reactDisabled, this`reactShown, this`reactLabel
      modifies this`refundShown, this`claimShown, this`ws
      modifies this`waitingRoomTimer, this`depositTimer, this`clickTimer
      modifies this`depositTimerShown, this`waitingRoomTimerShown
      modifies this`networkColor, this`referralsLinkShown, this`joinDisabled, this`refundDisabled
      ensures conn == old(conn).(playerAddress := None, signer := false, chainId := None, contract := false)
      ensures ControlsReset() && ButtonsUpdated()
      ensures joinDisabled && !refundShown && refundDisabled && !referralsLinkShown && networkColor == Orange
    {
      conn := conn.(playerAddress := None, signer := false, chainId := None, contract := false);
      ResetAndRefresh();
    }
  }

  /** From a fresh controller, a valid snapshot of an on-chain game awaiting
      deposits offers the deposit button; a confirmed deposit then hides it
      and a snapshot listing the player keeps it hidden. */
  method DepositScenario(c: Connection, p: Payload) returns (offered: bool, ctl: AppController)
    requires DepositShown(c, Replace(Idle, c.playerAddress, p)) && DepositAllowed(c, Replace(Idle, c.playerAddress, p))
    requires IsValidPayload(Some(p))
    requires p.depositedPlayers == Some([])
    ensures offered && ctl.hasDeposited && !ctl.depositShown
  {
    ctl := new AppController(c);
    var e, threw := ctl.HandleGameUpdate(Some(p), false);
    assert e == Applied(NoResult) && !threw;
    offered := ctl.depositShown;
    var attempted := ctl.DepositStake(Confirmed);
    assert attempted && !ctl.depositShown && ctl.hasDeposited;
    var q := p.(depositedPlayers := Some([c.playerAddress.value]));
    assert ContainsIgnoringCase(q.depositedPlayers.value, c.playerAddress.value) by {
      assert SameIgnoringCase(q.depositedPlayers.value[0], c.playerAddress.value);
    }
    e, threw := ctl.HandleGameUpdate(Some(q), false);
    assert ctl.hasDeposited && !ctl.depositShown;
  }
}
