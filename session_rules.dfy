/** The decisions of the game-session controller (`AppController`) as pure
    functions over values: how a server snapshot replaces the session
    fields, which buttons the session fields enable, when a countdown is
    armed and what it shows, and the display helpers. The class in
    `GameController` performs these decisions step by step on its fields. */
module SessionRules {
  import opened JsValues
  import opened ServerConfig
  import opened TimeParts

  datatype GameState =
    | WaitingForPlayers
    | WaitingForDeposits
    | MusicPlaying
    | AwaitingClicks
    | Finished
    | Cancelled
    | Failed

  /** A game snapshot as the server pushes it (`game_update`, the
      `gameState` of `player_joined`, the join response). A numeric field
      the server leaves out reads as 0, which the controller's guards treat
      exactly like a missing one. */
  datatype Payload = Payload(
    backendPendingID: Option<string>,
    state: Option<GameState>,
    onchainGameID: Option<string>,
    depositedPlayers: Option<seq<string>>,
    winners: Option<seq<string>>,
    loser: Option<string>,
    createdAtUnix: int,
    timeoutSeconds: int,
    clickWindowOpenUnix: int,
    clickTimeoutSeconds: int)

  /** The controller's session fields: `currentGameId`,
      `currentOnchainGameId`, `currentGameState` (null is `None`) and
      `hasDeposited`. */
  datatype Session = Session(
    gameId: Option<string>,
    onchainId: Option<string>,
    state: Option<GameState>,
    hasDeposited: bool)

  /** The session after `resetGameControls`, and before any join. */
  const Idle := Session(None, None, None, false)

  /** What the controller knows about the wallet and the backend, set by
      the connection code outside this model. */
  datatype Connection = Connection(
    playerAddress: Option<string>,
    signer: bool,
    chainId: Option<int>,
    requiredChainId: Option<int>,
    contract: bool,
    config: Option<Config>,
    ethersLoaded: bool)

  // ---------------------------------------------------------------------
  // Applying a snapshot (handleGameUpdate)
  // ---------------------------------------------------------------------

  /** A payload that is null, or lacks `backendPendingID` or `state`, is
      logged and ignored. */
  predicate IsValidPayload(p: Option<Payload>) {
    p.Some? && Truthy(p.value.backendPendingID) && p.value.state.Some?
  }

  /** A waiting room that is cancelled or fails: no stake can have been
      placed, so the controller resets instead of entering that state. */
  predicate IsWaitingRoomTimeout(s: Session, p: Payload) {
    (p.state == Some(Cancelled) || p.state == Some(Failed)) && s.state == Some(WaitingForPlayers)
  }

  /** Whole-field replacement from the snapshot: state and pending id are
      taken from it, the on-chain id only when the snapshot carries one,
      and `hasDeposited` is recomputed from `depositedPlayers` when both
      that list and the player's address are present. */
  function Replace(s: Session, player: Option<string>, p: Payload): Session {
    Session(
      if Truthy(p.backendPendingID) then p.backendPendingID else s.gameId,
      if Truthy(p.onchainGameID) then p.onchainGameID else s.onchainId,
      p.state,
      if p.depositedPlayers.Some? && Truthy(player)
      then ContainsIgnoringCase(p.depositedPlayers.value, player.value)
      else s.hasDeposited)
  }

  /** The win/loss effect. */
  datatype RoundResult = NoResult | YouWon | YouLost

  /** Computed only on entering `Finished` from another state, and only for
      a connected player; membership in `winners` is tested before equality
      with `loser`. */
  function RoundResultOf(oldState: Option<GameState>, player: Option<string>, p: Payload): RoundResult {
    if p.state == Some(Finished) && oldState != Some(Finished) && Truthy(player) then
      if p.winners.Some? && ContainsIgnoringCase(p.winners.value, player.value) then YouWon
      else if Truthy(p.loser) && SameIgnoringCase(p.loser.value, player.value) then YouLost
      else NoResult
    else NoResult
  }

  /** Which way `handleGameUpdate` went. */
  datatype UpdateEffect = InvalidPayload | WaitingRoomTimedOut | Applied(result: RoundResult)

  function EffectOf(s: Session, player: Option<string>, p: Option<Payload>): UpdateEffect {
    if !IsValidPayload(p) then InvalidPayload
    else if IsWaitingRoomTimeout(s, p.value) then WaitingRoomTimedOut
    else Applied(RoundResultOf(s.state, player, p.value))
  }

  /** The session fields after `handleGameUpdate`; a loss resets the
      controls so that the loser can join again. */
  function ApplyUpdate(s: Session, player: Option<string>, p: Option<Payload>): Session {
    match EffectOf(s, player, p)
    case InvalidPayload => s
    case WaitingRoomTimedOut => Idle
    case Applied(r) => if r == YouLost then Idle else Replace(s, player, p.value)
  }

  /** An invalid payload changes no session field. */
  lemma InvalidPayloadIgnored(s: Session, player: Option<string>, p: Option<Payload>)
    requires !IsValidPayload(p)
    ensures ApplyUpdate(s, player, p) == s
  {
  }

  /** A cancelled or failed waiting room resets everything and does not
      enter the reported state. */
  lemma WaitingRoomTimeoutResets(s: Session, player: Option<string>, p: Payload)
    requires IsValidPayload(Some(p)) && IsWaitingRoomTimeout(s, p)
    ensures ApplyUpdate(s, player, Some(p)) == Idle
    ensures ApplyUpdate(s, player, Some(p)).state != p.state
  {
  }

  /** Otherwise (and short of a loss) the session takes the snapshot's state
      and pending id, overwrites the on-chain id only when one is carried,
      and sets `hasDeposited` to exactly the case-insensitive membership of
      the player in `depositedPlayers` when both are present. */
  lemma SnapshotReplacesFields(s: Session, player: Option<string>, p: Payload)
    requires IsValidPayload(Some(p)) && !IsWaitingRoomTimeout(s, p)
    requires RoundResultOf(s.state, player, p) != YouLost
    ensures var t := ApplyUpdate(s, player, Some(p));
      && t.state == p.state
      && t.gameId == p.backendPendingID
      && (Truthy(p.onchainGameID) ==> t.onchainId == p.onchainGameID)
      && (!Truthy(p.onchainGameID) ==> t.onchainId == s.onchainId)
      && (p.depositedPlayers.Some? && Truthy(player) ==>
            (t.hasDeposited <==> exists i :: 0 <= i < |p.depositedPlayers.value| &&
                                   Lower(p.depositedPlayers.value[i]) == Lower(player.value)))
      && (!(p.depositedPlayers.Some? && Truthy(player)) ==> t.hasDeposited == s.hasDeposited)
  {
  }

  /** `hasDeposited` is overwritten, not latched: a later snapshot whose
      deposit list lacks the player clears it. */
  lemma DepositFlagCanClear()
    ensures var s := Session(Some("g1"), Some("7"), Some(WaitingForDeposits), true);
      var p := Payload(Some("g1"), Some(WaitingForDeposits), None, Some([]), None, None, 0, 0, 0, 0);
      s.hasDeposited && !ApplyUpdate(s, Some("0xab"), Some(p)).hasDeposited
  {
  }

  /** Applying the same snapshot twice gives the same session as applying
      it once, unless the first application was the waiting-room reset. */
  lemma {:induction false} ApplyUpdateIdempotent(s: Session, player: Option<string>, p: Option<Payload>)
    requires EffectOf(s, player, p) != WaitingRoomTimedOut
    ensures ApplyUpdate(ApplyUpdate(s, player, p), player, p) == ApplyUpdate(s, player, p)
  {
    if IsValidPayload(p) {
      var once := ApplyUpdate(s, player, p);
      var q := p.value;
      assert !IsWaitingRoomTimeout(once, q);
      if RoundResultOf(s.state, player, q) == YouLost {
        assert once == Idle;
        assert RoundResultOf(Idle.state, player, q) == YouLost;
      } else {
        assert once == Replace(s, player, q);
        assert once.state == Some(Finished) ==> RoundResultOf(once.state, player, q) == NoResult;
        assert RoundResultOf(once.state, player, q) != YouLost;
      }
    }
  }

  /** From a controller that has not joined yet, a snapshot applied twice
      gives the session it gives once. */
  lemma IdleSeededIdempotent(player: Option<string>, p: Option<Payload>)
    ensures ApplyUpdate(ApplyUpdate(Idle, player, p), player, p) == ApplyUpdate(Idle, player, p)
  {
    ApplyUpdateIdempotent(Idle, player, p);
  }

  /** The exception: replaying the snapshot that reset a timed-out waiting
      room enters `Cancelled`, since the reset session is no longer in
      `WaitingForPlayers`. */
  lemma ReplayedTimeoutEntersCancelled()
    ensures var s := Session(Some("abc"), None, Some(WaitingForPlayers), false);
      var p := Some(Payload(Some("abc"), Some(Cancelled), None, None, None, None, 0, 0, 0, 0));
      && ApplyUpdate(s, None, p) == Idle
      && ApplyUpdate(ApplyUpdate(s, None, p), None, p).state == Some(Cancelled)
  {
  }

  /** A winner who is also named as loser is treated as a winner, and a
      repeated `Finished` snapshot produces no effect. */
  lemma WinnerTestedFirst(oldState: Option<GameState>, player: Option<string>, p: Payload)
    ensures p.state == Some(Finished) && oldState != Some(Finished) && Truthy(player) &&
            p.winners.Some? && player.value in p.winners.value ==>
              RoundResultOf(oldState, player, p) == YouWon
    ensures oldState == Some(Finished) ==> RoundResultOf(oldState, player, p) == NoResult
    ensures RoundResultOf(oldState, player, p) != NoResult ==> p.state == Some(Finished)
  {
    if p.state == Some(Finished) && oldState != Some(Finished) && Truthy(player) &&
       p.winners.Some? && player.value in p.winners.value {
      var i :| 0 <= i < |p.winners.value| && p.winners.value[i] == player.value;
      assert SameIgnoringCase(p.winners.value[i], player.value);
    }
  }

  // ---------------------------------------------------------------------
  // Inbound messages (handleWebSocketMessage)
  // ---------------------------------------------------------------------

  /** The message types the server sends; any other `type` is `Unknown`. */
  datatype Message =
    | GameUpdate(payload: Option<Payload>)
    | GameCreationFailed(pendingGameID: string, reason: string)
    | StartClicking
    | PlayerJoined(joinedPlayer: string, gameState: Option<Payload>)
    | GameStatusMessage(text: string)
    | ServerError
    | PendingGameCancelled(pendingGameID: string, text: string)
    | Unknown(kind: string)

  /** The session fields after a message is routed. */
  function SessionAfterMessage(s: Session, player: Option<string>, m: Message): Session {
    match m
    case GameUpdate(p) => ApplyUpdate(s, player, p)
    case PlayerJoined(_, p) => ApplyUpdate(s, player, p)
    case GameCreationFailed(_, _) => Idle
    case StartClicking => s.(state := Some(AwaitingClicks))
    case PendingGameCancelled(id, _) => if s.gameId == Some(id) then Idle else s
    case GameStatusMessage(_) => s
    case ServerError => s
    case Unknown(_) => s
  }

  /** Status, error and unknown messages leave the session alone; only a
      cancellation of the room the player is in resets it. */
  lemma MessageRouting(s: Session, player: Option<string>, m: Message)
    ensures m.GameStatusMessage? || m.ServerError? || m.Unknown? ==> SessionAfterMessage(s, player, m) == s
    ensures m.PendingGameCancelled? ==>
              (SessionAfterMessage(s, player, m) == Idle <==> s.gameId == Some(m.pendingGameID) || s == Idle)
    ensures m.PlayerJoined? ==> SessionAfterMessage(s, player, m) == SessionAfterMessage(s, player, GameUpdate(m.gameState))
    ensures m.StartClicking? ==> SessionAfterMessage(s, player, m).state == Some(AwaitingClicks)
  {
  }

  // ---------------------------------------------------------------------
  // Buttons (updateDepositButtonVisibility, updateUIButtons, the react and
  // claim rules inside handleGameUpdate and checkClaimStatus)
  // ---------------------------------------------------------------------

  /** Wallet connected with a signer and on the configured chain. */
  predicate CanInteract(c: Connection) {
    Truthy(c.playerAddress) && c.signer && NetworkMatches(c.chainId, c.requiredChainId)
  }

  predicate DepositShown(c: Connection, s: Session) {
    c.ethersLoaded && c.contract && c.config.Some? && Truthy(c.playerAddress) &&
    Truthy(s.onchainId) && s.state == Some(WaitingForDeposits) && !s.hasDeposited
  }

  predicate JoinEnabled(c: Connection, s: Session) {
    CanInteract(c) && !Truthy(s.gameId) && !Truthy(s.onchainId)
  }

  predicate RefundShown(c: Connection, s: Session) {
    CanInteract(c) && (s.state == Some(Cancelled) || s.state == Some(Failed))
  }

  predicate ReactShown(s: Session) {
    s.state == Some(WaitingForDeposits) || s.state == Some(MusicPlaying) || s.state == Some(AwaitingClicks)
  }

  /** The guard under which the claim status is queried at all. */
  predicate ClaimQueried(c: Connection, s: Session) {
    s.state == Some(Finished) && Truthy(c.playerAddress) && c.contract && Truthy(s.onchainId)
  }

  /** `checkClaimStatus`: shown for a winner of a finished on-chain game
      whose chain queries report the winnings unclaimed and their amount. */
  predicate ClaimShown(c: Connection, s: Session, winners: Option<seq<string>>, unclaimedOnChain: bool) {
    ClaimQueried(c, s) &&
    winners.Some? && ContainsIgnoringCase(winners.value, c.playerAddress.value) &&
    c.ethersLoaded && unclaimedOnChain
  }

  /** The guards `depositStake` passes before it sends the transaction. */
  predicate DepositAllowed(c: Connection, s: Session) {
    Truthy(s.onchainId) && c.contract && NetworkMatches(c.chainId, c.requiredChainId) &&
    c.config.Some? && c.config.value.stakeAmount.Some?
  }

  /** Once the player is known to have deposited, the deposit button is
      not offered again. */
  lemma DepositedHidesDepositButton(c: Connection, s: Session)
    ensures !DepositShown(c, s.(hasDeposited := true))
    ensures DepositShown(c, s) ==> Truthy(s.onchainId) && c.contract && c.config.Some?
  {
  }

  /** The deposit button does not test the network, so it can be offered
      on the wrong chain, where pressing it is refused. */
  lemma DepositOfferedOnWrongChain()
    ensures var c := Connection(Some("0xab"), true, Some(1), Some(42161), true,
                                Some(Config(None, Some(7), None, Some(42161), None)), true);
      var s := Session(Some("g"), Some("3"), Some(WaitingForDeposits), false);
      DepositShown(c, s) && !DepositAllowed(c, s)
  {
  }

  /** `updateDepositButtonVisibility` shows the button and then formats the
      stake for its caption; without a stake amount the formatting throws,
      and the rest of `handleGameUpdate` does not run. */
  predicate DepositCaptionThrows(c: Connection, s: Session) {
    DepositShown(c, s) && c.config.value.stakeAmount.None?
  }

  /** The caption throws only while deposits are awaited, so it never cuts
      off a round result, and never where a deposit could be sent. */
  lemma CaptionThrowsOnlyAwaitingDeposits(c: Connection, s: Session, p: Payload)
    requires DepositCaptionThrows(c, Replace(s, c.playerAddress, p))
    ensures p.state == Some(WaitingForDeposits)
    ensures RoundResultOf(s.state, c.playerAddress, p) == NoResult
    ensures !DepositAllowed(c, Replace(s, c.playerAddress, p))
  {
  }

  /** A configuration without a stake amount makes the caption throw as
      soon as an on-chain game awaits the player's deposit. */
  lemma StakelessConfigThrows()
    ensures var c := Connection(Some("0xab"), true, Some(1), Some(1), true,
                                Some(Config(Some("0xc"), None, Some(300), Some(1), None)), true);
      var s := Session(Some("g"), Some("3"), Some(WaitingForDeposits), false);
      DepositCaptionThrows(c, s)
  {
  }

  /** No two of join, deposit and refund are offered at once, and the
      refund and react buttons never show together. */
  lemma AffordancesExclusive(c: Connection, s: Session, winners: Option<seq<string>>, unclaimed: bool)
    ensures !(DepositShown(c, s) && JoinEnabled(c, s))
    ensures !(DepositShown(c, s) && RefundShown(c, s))
    ensures !(JoinEnabled(c, s) && Truthy(s.gameId))
    ensures !(RefundShown(c, s) && ReactShown(s))
    ensures !(ClaimShown(c, s, winners, unclaimed) && (DepositShown(c, s) || RefundShown(c, s) || ReactShown(s)))
  {
  }

  /** After a reset only joining can be offered, and it is offered exactly
      when the player can interact. */
  lemma IdleOffersOnlyJoin(c: Connection, winners: Option<seq<string>>, unclaimed: bool)
    ensures JoinEnabled(c, Idle) == CanInteract(c)
    ensures !DepositShown(c, Idle) && !RefundShown(c, Idle) && !ReactShown(Idle)
    ensures !ClaimShown(c, Idle, winners, unclaimed)
  {
  }

  // ---------------------------------------------------------------------
  // Countdowns (startWaitingRoomTimer, startDepositTimer, startClickTimer)
  // ---------------------------------------------------------------------

  datatype TimerKind = WaitingRoomTimer | DepositTimer | ClickTimer

  /** The state in which each countdown runs. */
  function TimerState(k: TimerKind): GameState {
    match k
    case WaitingRoomTimer => WaitingForPlayers
    case DepositTimer => WaitingForDeposits
    case ClickTimer => AwaitingClicks
  }

  /** A timer is armed only in its own state and only when both time
      fields are non-zero; its deadline is `(start + timeout) * 1000` ms. */
  function TimerDeadline(k: TimerKind, state: Option<GameState>, start: int, timeout: int): (d: Option<int>)
    ensures d.Some? <==> state == Some(TimerState(k)) && start != 0 && timeout != 0
    ensures d.Some? ==> d.value == (start + timeout) * 1000
  {
    if state == Some(TimerState(k)) && start != 0 && timeout != 0 then Some((start + timeout) * 1000) else None
  }

  /** The deadline a snapshot arms for each timer: the waiting-room and
      deposit timers read `createdAtUnix`/`timeoutSeconds`, the click
      timer `clickWindowOpenUnix`/`clickTimeoutSeconds`. */
  function PayloadDeadline(k: TimerKind, p: Payload): Option<int> {
    match k
    case WaitingRoomTimer => TimerDeadline(k, p.state, p.createdAtUnix, p.timeoutSeconds)
    case DepositTimer => TimerDeadline(k, p.state, p.createdAtUnix, p.timeoutSeconds)
    case ClickTimer => TimerDeadline(k, p.state, p.clickWindowOpenUnix, p.clickTimeoutSeconds)
  }

  /** A snapshot arms at most one of the three timers. */
  lemma AtMostOneTimerArmed(p: Payload, k1: TimerKind, k2: TimerKind)
    requires PayloadDeadline(k1, p).Some? && PayloadDeadline(k2, p).Some?
    ensures k1 == k2
  {
  }

  /** What one tick of an armed timer finds. */
  datatype Tick = Expired | Remaining(ms: nat)

  function TickAt(deadlineMs: int, nowMs: int): (t: Tick)
    ensures t.Expired? <==> deadlineMs - nowMs <= 0
    ensures t.Remaining? ==> t.ms == deadlineMs - nowMs
  {
    if deadlineMs - nowMs <= 0 then Expired else Remaining(deadlineMs - nowMs)
  }

  /** Once the clock reaches `start + timeout` seconds the timer reports
      expiry; before that, and after `start`, it shows at most the whole
      timeout. */
  lemma TimerExpiresAtDeadline(k: TimerKind, state: GameState, start: int, timeout: int, nowMs: int)
    requires TimerDeadline(k, Some(state), start, timeout).Some?
    ensures var d := TimerDeadline(k, Some(state), start, timeout).value;
      && (nowMs >= (start + timeout) * 1000 ==> TickAt(d, nowMs) == Expired)
      && (start * 1000 <= nowMs < (start + timeout) * 1000 ==>
            TickAt(d, nowMs).Remaining? && TickAt(d, nowMs).ms <= timeout * 1000)
  {
  }

  /** The `MM:SS` a ticking waiting-room or deposit timer shows. */
  lemma TimerClockFace(remainingMs: nat)
    requires remainingMs < MsPerHour
    ensures var p := Decompose(remainingMs);
      p.minutes == remainingMs / MsPerMinute && p.seconds == (remainingMs % MsPerMinute) / MsPerSecond
    ensures DecimalValue(ClockText(remainingMs)[..2]) * MsPerMinute +
            DecimalValue(ClockText(remainingMs)[3..]) * MsPerSecond <= remainingMs
    ensures remainingMs < DecimalValue(ClockText(remainingMs)[..2]) * MsPerMinute +
            DecimalValue(ClockText(remainingMs)[3..]) * MsPerSecond + MsPerSecond
  {
    ClockTextReadsBack(remainingMs);
    RecomposeDecompose(remainingMs);
    WithinHour(remainingMs);
    var p := Decompose(remainingMs);
    var mm := DecimalValue(ClockText(remainingMs)[..2]);
    var ss := DecimalValue(ClockText(remainingMs)[3..]);
    assert mm == p.minutes && ss == p.seconds;
    assert PartsMs(p) == mm * MsPerMinute + ss * MsPerSecond;
  }

  lemma WithinHour(ms: nat)
    requires ms < MsPerHour
    ensures ms % MsPerHour == ms && ms % MsPerDay == ms
    ensures ms / MsPerDay == 0 && ms / MsPerHour == 0
  {
  }

  // ---------------------------------------------------------------------
  // Display helpers
  // ---------------------------------------------------------------------

  /** `formatAddress`: "N/A" for a missing or shorter-than-10 address,
      otherwise its first six characters, "..." and its last four. */
  function FormatAddress(address: Option<string>): (r: string)
    ensures address.None? || |address.value| < 10 ==> r == "N/A"
    ensures address.Some? && |address.value| >= 10 ==>
              |r| == 13 && r[..6] == address.value[..6] && r[6..9] == "..." &&
              r[9..] == address.value[|address.value| - 4..]
  {
    if address.None? || |address.value| < 10 then "N/A"
    else address.value[..6] + "..." + address.value[|address.value| - 4..]
  }

  /** A formatted address can never be mistaken for the placeholder. */
  lemma FormattedAddressIsNotPlaceholder(a: string)
    requires |a| >= 10
    ensures FormatAddress(Some(a)) != "N/A"
  {
    assert |FormatAddress(Some(a))| == 13;
  }

  /** BigInt `/`: truncates toward zero. */
  function TruncDiv(a: int, b: int): int
    requires b != 0
  {
    var q := (if a < 0 then -a else a) / (if b < 0 then -b else b);
    if (a < 0) != (b < 0) then -q else q
  }

  /** The per-player commission shown: `stake * bps / 10000`, or nothing
      when either field is missing. */
  function CommissionPerPlayer(cfg: Config): (r: Option<int>)
    ensures r.Some? <==> cfg.platformCommissionBps.Some? && cfg.stakeAmount.Some?
  {
    if cfg.platformCommissionBps.Some? && cfg.stakeAmount.Some?
    then Some(TruncDiv(cfg.stakeAmount.value * cfg.platformCommissionBps.value, 10000))
    else None
  }

  /** For a commission between 0 and 100% the amount is the stake's share
      rounded down, and never exceeds the stake. */
  lemma CommissionBounds(cfg: Config)
    requires cfg.stakeAmount.Some? && cfg.platformCommissionBps.Some?
    requires 0 <= cfg.platformCommissionBps.value <= 10000
    ensures var c := CommissionPerPlayer(cfg).value;
      var x := cfg.stakeAmount.value * cfg.platformCommissionBps.value;
      && 0 <= c <= cfg.stakeAmount.value
      && c * 10000 <= x < c * 10000 + 10000
  {
    var stake, bps := cfg.stakeAmount.value, cfg.platformCommissionBps.value;
    var x := stake * bps;
    assert x >= 0;
    assert x <= stake * 10000 by {
      assert stake * (10000 - bps) >= 0;
    }
    assert TruncDiv(x, 10000) == x / 10000;
    DivBelow(x, stake, 10000);
  }

  lemma DivBelow(x: nat, stake: nat, d: nat)
    requires d > 0 && x <= stake * d
    ensures x / d <= stake
  {
  }

  /** The rules' network label for a configured chain id. */
  function NetworkName(chainId: int): string {
    if chainId == 42161 then "(Arbitrum One)"
    else if chainId == 8453 then "(Base)"
    else if chainId == 1 then "(Ethereum Mainnet)"
    else if chainId == 421614 then "(Arbitrum Sepolia Testnet)"
    else "(Chain ID " + IntToDecimal(chainId) + ")"
  }

  /** The four known chains get their names; any other chain is labelled by
      its id, so two different unknown chains never share a label. */
  lemma NetworkNamesDistinguishChains(a: int, b: int)
    requires NetworkName(a) == NetworkName(b)
    ensures a == b
  {
    UnknownChainLabel(a);
    UnknownChainLabel(b);
    if !IsKnownChain(a) && !IsKnownChain(b) {
      var na, nb := NetworkName(a), NetworkName(b);
      assert na[10..|na| - 1] == IntToDecimal(a);
      assert nb[10..|nb| - 1] == IntToDecimal(b);
      IntToDecimalInjective(a, b);
    }
  }

  predicate IsKnownChain(chainId: int) {
    chainId == 42161 || chainId == 8453 || chainId == 1 || chainId == 421614
  }

  /** Only the fallback label starts with "(C". */
  lemma UnknownChainLabel(chainId: int)
    ensures |NetworkName(chainId)| > 1
    ensures NetworkName(chainId)[1] == 'C' <==> !IsKnownChain(chainId)
  {
  }
}
