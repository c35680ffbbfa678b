# Musical Chairs client: the game-session controller and its companions

This project models the browser client of an on-chain "musical chairs"
game in Dafny. It covers three pieces of that client.

- **`AppController`**: the per-player game-session controller. It holds the
  current pending game id, the on-chain game id, the game state, the
  deposited flag and three countdown handles. Server snapshots arriving
  over the WebSocket whole-field replace that state. Clicks, wallet
  transaction outcomes and timer ticks update it, and the controller shows
  or hides the join, deposit, refund, react and claim buttons from it.
- **The landing page** (`app.js`): the typewriter that retypes a rule
  section character by character, the tournament countdown, the rule
  texts picked from the host name, the light/dark theme switch, and the
  one-shot guard around entering the game.
- **The referrals dashboard** (`ReferralsController`): the chain-id check,
  the referral link, the claim threshold, the pending-referrals list and
  the connection reset.

Modules:

- `JsValues`: JavaScript value semantics the code relies on. Covers
  nullable values, truthiness, ASCII `toLowerCase`, `Array.some` under
  case folding, `includes`, `String(n)`, `padStart(2, "0")` and
  `substring` clamping.
- `TimeParts`: the millisecond to days/hours/minutes/seconds arithmetic
  that the countdown and the session timers share.
- `ServerConfig`: the backend configuration record and the chain-id check
  both controllers apply.
- `SessionRules`: the controller's decisions as pure functions over
  values, with the lemmas about them.
- `GameController`: the `AppController` class. Its methods update the
  fields in place, and each method's `ensures` ties the new fields to the
  `SessionRules` functions.
- `Landing`: the `app.js` pieces. `Typewriter`, `TournamentCountdown`,
  `ThemeSwitch` and `EntryGuard` are classes over the page state they
  mutate. The host-name rules are a function.
- `Referrals`: the `ReferralsController` class and the pure rules it uses.

Inputs the client gets from outside are parameters of the methods:

- the clock (`nowMs`);
- the wallet's verdict on a transaction (`TxOutcome`);
- the contract's answers (`unclaimedOnChain`, `EarningsQuery`);
- the results of `fetch` (`ConfigFetch`, `PendingFetch`);
- the page origin, the host name and the stored theme.

Where the code and the design description of the system disagree, the
model follows the code:

- The design says `hasDeposited` only goes from false to true. The code
  overwrites it from every snapshot that carries `depositedPlayers`, so a
  later snapshot can clear it (`SessionRules.DepositFlagCanClear`).
- The design says applying a message twice is idempotent. That holds from
  the idle session (`SessionRules.IdleSeededIdempotent`) and whenever the
  first application is not the waiting-room-timeout reset
  (`SessionRules.ApplyUpdateIdempotent`). Replaying a timeout snapshot
  after the reset makes the controller enter `Cancelled`
  (`SessionRules.ReplayedTimeoutEntersCancelled`).
- The design describes a generation counter that drops stale callbacks.
  The code has none: it clears the interval handles instead. The model has
  no such counter.
- The deposit button does not check the network, so it can be offered on
  the wrong chain, where pressing it is refused
  (`SessionRules.DepositOfferedOnWrongChain`).
- Collapsing a rule section while it is still typing restores the full
  text. It leaves `dataset.typingTimeout` and the cursor in place, so the
  next expansion clears them first (`Landing.Typewriter.HeaderClicked`).

## Model

| member | source | states |
|---|---|---|
| JsValues.Lower | frontend-staging/js/appController.js:1441-1446 | ASCII `toLowerCase` keeps the length and folds exactly the letters A-Z at each position |
| JsValues.LowerIdempotent | frontend-staging/js/appController.js:1442-1444 | lower-casing an already lower-cased address changes nothing |
| JsValues.ContainsIgnoringCase | frontend-staging/js/appController.js:1443-1445 | `list.some(a => a.toLowerCase() === p.toLowerCase())` is true iff some element equals the player's address up to case |
| JsValues.ContainsIgnoresCaseOfKey | frontend-staging/js/appController.js:1539-1541 | the membership test gives the same answer for an address and its lower-cased form |
| JsValues.IncludesSuffix | app.js:226 | a string that includes `a + b` includes `b` |
| JsValues.NatToDecimalRoundTrip | app.js:134 | the decimal text of a number reads back as that number |
| JsValues.IntToDecimalRoundTrip | frontend-staging/js/referrals.js:68 | `String(n)` of any integer, sign included, reads back as `n` |
| JsValues.IntToDecimalInjective | frontend-staging/js/referrals.js:68 | two different chain ids never print the same text |
| JsValues.PadTwoRoundTrip | frontend-staging/js/appController.js:2165 | `String(n).padStart(2, "0")` of a number below 100 is two digits that read back as `n` |
| JsValues.SubstringFrom | frontend-staging/js/referrals.js:122 | `substring(start)` clamps a negative or too-large start into the string and returns that suffix |
| JsValues.SubstringTo | frontend-staging/js/referrals.js:122 | `substring(0, end)` clamps `end` into the string and returns that prefix |
| TimeParts.Decompose | app.js:127-132 | hours < 24, minutes < 60 and seconds < 60 for any non-negative distance |
| TimeParts.RecomposeDecompose | app.js:127-132 | the days, hours, minutes and seconds add back up to the distance, short of less than one second |
| TimeParts.ClockText | frontend-staging/js/appController.js:2159-2165 | the timer face is five characters with ':' in the middle |
| TimeParts.ClockTextReadsBack | frontend-staging/js/appController.js:2159-2165 | the `MM` part reads back as `(r mod 3600000) div 60000` and the `SS` part as `(r mod 60000) div 1000` |
| ServerConfig.RequiredChainId | frontend-staging/js/referrals.js:61 | the required chain is null exactly when the config has no (or a zero) `chainId`, and is that id otherwise |
| ServerConfig.NetworkMatches | frontend-staging/js/referrals.js:136-149 | false when either id is missing; otherwise true iff the two ids are the same integer |
| ServerConfig.NetworkMatchesSymmetric | frontend-staging/js/appController.js:707-725 | the verdict does not depend on which id is the wallet's |
| ServerConfig.NoRequiredChainNeverMatches | frontend-staging/js/referrals.js:61 | a config without a chain id lets no wallet pass the check |
| ServerConfig.ColorAgreesWithVerdict | frontend-staging/js/referrals.js:136-149 | the indicator is green iff the check passes, and orange iff an id is missing |
| SessionRules.InvalidPayloadIgnored | frontend-staging/js/appController.js:1400-1403 | a null payload, or one without `backendPendingID` or `state`, changes no session field |
| SessionRules.WaitingRoomTimeoutResets | frontend-staging/js/appController.js:1410-1419 | `Cancelled`/`Failed` arriving in `WaitingForPlayers` resets the session to idle and does not enter the reported state |
| SessionRules.SnapshotReplacesFields | frontend-staging/js/appController.js:1422-1446 | otherwise the snapshot's state and pending id are taken, and the on-chain id only when carried. `hasDeposited` becomes exactly the case-insensitive membership of the player when the list and the address are both present, and is kept otherwise |
| SessionRules.DepositFlagCanClear | frontend-staging/js/appController.js:1441-1446 | a snapshot whose deposit list lacks the player clears a set `hasDeposited` |
| SessionRules.ApplyUpdateIdempotent | frontend-staging/js/appController.js:1390-1582 | applying a snapshot twice equals applying it once whenever the first application is not the waiting-room reset |
| SessionRules.IdleSeededIdempotent | frontend-staging/js/appController.js:1390-1582 | from the idle session, a snapshot applied twice gives the same session as once |
| SessionRules.ReplayedTimeoutEntersCancelled | frontend-staging/js/appController.js:1410-1437 | replaying the snapshot that reset a timed-out room enters `Cancelled` |
| SessionRules.WinnerTestedFirst | frontend-staging/js/appController.js:1536-1557 | a player in `winners` wins even if also named loser; a repeated `Finished` gives no result; a result needs `Finished` |
| SessionRules.MessageRouting | frontend-staging/js/appController.js:1323-1383 | status, error and unknown messages leave the session alone; a cancellation resets only the room the player is in; `player_joined` is handled like a snapshot; `start_clicking` enters `AwaitingClicks` |
| SessionRules.DepositedHidesDepositButton | frontend-staging/js/appController.js:1164-1178 | once `hasDeposited` is set the deposit button is hidden, and showing it needs an on-chain id, a contract and a config |
| SessionRules.DepositOfferedOnWrongChain | frontend-staging/js/appController.js:1164-1178 | the deposit button can show on the wrong chain, where `depositStake` refuses to send |
| SessionRules.CaptionThrowsOnlyAwaitingDeposits | frontend-staging/js/appController.js:1164-1175 | a snapshot whose deposit caption throws is one awaiting deposits, so it has no round result and deposits are not allowed in it |
| SessionRules.StakelessConfigThrows | frontend-staging/js/appController.js:1164-1175 | a connected on-chain session awaiting deposits with a config lacking `stakeAmount` makes the caption throw |
| SessionRules.AffordancesExclusive | frontend-staging/js/appController.js:2106-2118 | join, deposit and refund are never offered two at once; refund and react never show together; claim shows alone |
| SessionRules.IdleOffersOnlyJoin | frontend-staging/js/appController.js:1896-1928 | after a reset only join can be offered, and exactly when the player is connected on the right chain |
| SessionRules.TimerDeadline | frontend-staging/js/appController.js:2139-2144 | a timer is armed iff the state is its own and both time fields are non-zero, with deadline `(start + timeout) * 1000` ms |
| SessionRules.AtMostOneTimerArmed | frontend-staging/js/appController.js:1466-1484 | no snapshot arms two of the three timers |
| SessionRules.TickAt | frontend-staging/js/appController.js:2148-2150 | a tick expires iff the remaining time is at most zero, and otherwise reports that remaining time |
| SessionRules.TimerExpiresAtDeadline | frontend-staging/js/appController.js:2144-2157 | from `start + timeout` seconds on the tick expires; between start and deadline it shows at most the timeout |
| SessionRules.TimerClockFace | frontend-staging/js/appController.js:2159-2165 | within the hour the face's minutes and seconds recompose to the remaining time, short of less than a second |
| SessionRules.FormatAddress | frontend-staging/js/appController.js:169-176 | "N/A" for a missing or shorter-than-10 address; otherwise first six characters, "...", last four |
| SessionRules.FormattedAddressIsNotPlaceholder | frontend-staging/js/appController.js:169-176 | a real address never renders as the placeholder |
| SessionRules.CommissionPerPlayer | frontend-staging/js/appController.js:891-895 | a commission is shown iff both the stake and the basis points are configured |
| SessionRules.CommissionBounds | frontend-staging/js/appController.js:891-895 | for 0..10000 bps the BigInt `stake * bps / 10000` is the share rounded down and never exceeds the stake |
| SessionRules.NetworkNamesDistinguishChains | frontend-staging/js/appController.js:907-915 | two chain ids with the same rule label are the same chain |
| SessionRules.UnknownChainLabel | frontend-staging/js/appController.js:907-915 | only the fallback label names the chain by id |
| GameController.AppController.constructor | frontend-staging/js/appController.js:22-40 | the field initialisers: a fresh controller is idle with no interval handle and no socket. The button flags it starts with (every game button hidden, join disabled) are assumptions about the page's initial markup |
| GameController.AppController.CheckNetwork | frontend-staging/js/appController.js:707-725 | returns the network verdict and colours the indicator to match |
| GameController.AppController.ResetGameControls | frontend-staging/js/appController.js:1896-1938 | the session becomes idle, game buttons are hidden, the socket dropped, all three handles cleared |
| GameController.AppController.ResetAndRefresh | frontend-staging/js/appController.js:1555-1556 | a reset followed by `updateUIButtons`: join is enabled exactly when the player can interact |
| GameController.AppController.HideGameButtons | frontend-staging/js/appController.js:1902-1907 | deposit, react, refund and claim are hidden and the react button is reset |
| GameController.AppController.StopTimers | frontend-staging/js/appController.js:1914-1930 | all three handles cleared, waiting-room and deposit containers hidden |
| GameController.AppController.UpdateDepositButtonVisibility | frontend-staging/js/appController.js:1146-1179 | the deposit button shows iff `SessionRules.DepositShown` holds of the current fields, and is then enabled; it reports that the caption throws exactly when the button is shown and the config has no stake amount (`SessionRules.DepositCaptionThrows`) |
| GameController.AppController.UpdateUIButtons | frontend-staging/js/appController.js:2097-2123 | join, refund and referrals link follow `JoinEnabled`, `RefundShown` and `CanInteract` |
| GameController.AppController.StartWaitingRoomTimer | frontend-staging/js/appController.js:2131-2146 | the old handle is cleared and the new one is `TimerDeadline(WaitingRoomTimer, …)` |
| GameController.AppController.StartDepositTimer | frontend-staging/js/appController.js:2176-2191 | the old handle is cleared and the new one is `TimerDeadline(DepositTimer, …)` |
| GameController.AppController.StartClickTimer | frontend-staging/js/appController.js:2223-2242 | the old handle is cleared and the new one is `TimerDeadline(ClickTimer, …)` |
| GameController.AppController.TickWaitingRoomTimer | frontend-staging/js/appController.js:2146-2168 | expiry clears the handle and hides; otherwise the face is `ClockText` of the remaining time |
| GameController.AppController.TickDepositTimer | frontend-staging/js/appController.js:2191-2214 | as the waiting-room tick, and expiry also hides the deposit button |
| GameController.AppController.TickClickTimer | frontend-staging/js/appController.js:2242-2259 | expiry clears the handle and disables the react button with "Time is up!" |
| GameController.AppController.CheckClaimStatus | frontend-staging/js/appController.js:1776-1834 | the claim button shows iff `SessionRules.ClaimShown` holds |
| GameController.AppController.HandleGameUpdate | frontend-staging/js/appController.js:1390-1582 | the session becomes `ApplyUpdate` of the old one; an invalid payload changes nothing; the timeout reset clears every timer; an applied snapshot reports a throw exactly when the deposit caption throws, and then only the timers and the deposit button have changed; otherwise the buttons follow the snapshot rules |
| GameController.AppController.ApplySnapshot | frontend-staging/js/appController.js:1422-1582 | timers, deposit, claim, react and UI buttons after a snapshot that is applied; when the deposit caption throws (line 1175), no round result, the claim, react and UI steps are skipped and their fields keep their old values |
| GameController.AppController.PrepareSnapshot | frontend-staging/js/appController.js:1422-1533 | the steps up to the claim button leave the replaced session, the snapshot's deadlines (at most one) and the deposit rule; the claim rule holds unless the deposit caption threw, in which case the claim fields are untouched |
| GameController.AppController.StartSnapshot | frontend-staging/js/appController.js:1422-1484 | the session becomes `Replace` of the old one and the timers follow the snapshot's deadlines, at most one armed |
| GameController.AppController.ShowDepositAndClaim | frontend-staging/js/appController.js:1519-1533 | the deposit rule, a throw exactly when its caption throws, and then the claim fields untouched; otherwise the claim rule |
| GameController.AppController.FinishSnapshot | frontend-staging/js/appController.js:1536-1581 | only a loss resets; the react button and the UI buttons then follow their rules |
| GameController.AppController.ReplaceSessionFields | frontend-staging/js/appController.js:1422-1446 | the session becomes `Replace` of the old one |
| GameController.AppController.StartTimers | frontend-staging/js/appController.js:1466-1484 | each handle becomes its `PayloadDeadline`, and at most one is armed |
| GameController.AppController.UpdateClaimButton | frontend-staging/js/appController.js:1523-1533 | the claim button follows `ClaimShown`, and its enabled state changes only when the query is made |
| GameController.AppController.ReportRoundResult | frontend-staging/js/appController.js:1536-1557 | the result is `RoundResultOf`; a win or no result changes nothing; a loss resets the controls |
| GameController.AppController.UpdateReactButton | frontend-staging/js/appController.js:1566-1579 | react is visible iff the state is one of the three playing states, and disabled with "CLICK!" outside `AwaitingClicks` |
| GameController.AppController.HandleStartClicking | frontend-staging/js/appController.js:1655-1668 | the state becomes `AwaitingClicks` and the react button is shown, enabled and labelled with the click caption; every other field is kept |
| GameController.AppController.SendReact | frontend-staging/js/appController.js:1673-1704 | exactly one react is sent iff the socket is open and clicks are awaited; otherwise the button is enabled again; the click timer is always stopped |
| GameController.AppController.DepositStake | frontend-staging/js/appController.js:1184-1261 | sent iff `DepositAllowed`; a confirmation hides the button and sets `hasDeposited`; a user rejection re-enables the button; any other failure keeps it hidden; no failure changes `hasDeposited` |
| GameController.AppController.OnSocketClose | frontend-staging/js/appController.js:1300-1316 | the socket is dropped. In `Finished`/`Cancelled`/`Failed` nothing else changes; otherwise the game is reset (`ControlsReset`) and the buttons refreshed (`ButtonsUpdated`, join enabled iff the player can interact) |
| GameController.AppController.ConnectSocket | frontend-staging/js/appController.js:1267-1281 | nothing happens with an open socket or without a token; otherwise a socket starts connecting |
| GameController.AppController.OnSocketOpen | frontend-staging/js/appController.js:1283-1285 | a connecting socket becomes open |
| GameController.AppController.HandleWebSocketMessage | frontend-staging/js/appController.js:1323-1383 | the session becomes `SessionAfterMessage` of the old one. `game_update` and `player_joined` carry `HandleGameUpdate`'s whole outcome; a creation failure or the own room's cancellation is `resetGameControls` with the other fields kept; `start_clicking` opens the react button; a status message hides deposit and disables join (lines 1352-1357); every other field stays, and an error, an unknown type or another room's cancellation changes nothing |
| GameController.AppController.HandleControlMessage | frontend-staging/js/appController.js:1331-1382 | for every message other than the two snapshots: the session becomes `SessionAfterMessage`; a creation failure or the own room's cancellation resets the controls and keeps the rest; `start_clicking` and status messages have their effects alone; an error, an unknown type or another room's cancellation changes nothing |
| GameController.AppController.ResetConnection | frontend-staging/js/appController.js:666-678 | the wallet facts are forgotten (config and required chain kept), the game reset with every timer cleared, and the buttons refreshed: the indicator orange, join and refund disabled, the referrals link hidden |
| GameController.DepositScenario | frontend-staging/js/appController.js:1219-1220 | after a snapshot that offers the deposit and a confirmed deposit, the flag is set and the button stays hidden |
| Landing.TypedSoFar | app.js:378-399 | the live copy has as many text nodes as the original |
| Landing.TypedIsPrefix | app.js:381-398 | every live node is a prefix of its original; nodes before the cursor are complete and nodes after it empty |
| Landing.TypedAllIsOriginal | app.js:394-397 | once the cursor passes every node the live text equals the original |
| Landing.TypedOneMore | app.js:385-388 | appending the next character advances the cursor by one in the same node |
| Landing.TypedNextNode | app.js:389-392 | a finished node hands the cursor to the next one without changing the page |
| Landing.Typewriter.constructor | app.js:308-318 | a collapsed section showing its saved text, nothing scheduled |
| Landing.Typewriter.TypeNext | app.js:381-398 | one `type()` call keeps the cursor invariant and skips only a finished node and empty nodes after it. It then either types exactly one more character (the next of the same node, or the first of the next non-empty node) and schedules the next call, or, when no character is left, finishes with the full text and no cursor |
| Landing.Typewriter.ClearPendingTyping | app.js:345-350 | a pending animation is cancelled and the full text and no cursor restored |
| Landing.Typewriter.Start | app.js:343-400 | a pending earlier animation is stopped and typing restarts from an empty section: exactly the first character of the first non-empty node is shown and the next call scheduled, and the typewriter finishes at once, without cursor, iff every node is empty |
| Landing.Typewriter.HeaderClicked | app.js:320-339 | expanding restarts the typewriter as `Start` does, from the first character; collapsing cuts a running animation short with the full text shown, and leaves the cursor and the recorded timeout as they were |
| Landing.Typewriter.RunPendingTimeouts | app.js:381-398 | running the scheduled callbacks to the end leaves the full text, no cursor and no pending timeout |
| Landing.CountdownText | app.js:134 | the countdown text begins with "Tournament starts in: <strong>" and ends with "s</strong>" |
| Landing.CountdownFiguresShort | app.js:127-134 | the hours, minutes and seconds shown have at most two digits |
| Landing.TournamentCountdown.constructor | app.js:110-139 | the interval starts and the first update runs at once |
| Landing.TournamentCountdown.Tick | app.js:115-135 | a negative distance hides the countdown and stops the interval; otherwise the text is that of the distance |
| Landing.RulesFromHost | app.js:221-240 | one of the four rule sets, with commission always "3%" |
| Landing.RulesAreFirstMatch | app.js:226-235 | the branch chain is a first-match lookup over eth, base, test in that order, falling back to Arbitrum One |
| Landing.SubdomainGetsRules | app.js:226-228 | any host ending in `eth.muschairs.com` gets the mainnet rules |
| Landing.BaseHostGetsBaseRules | app.js:229-231 | `base.muschairs.com` gets the Base rules |
| Landing.TestHostGetsTestnetRules | app.js:232-234 | `test.muschairs.com` gets the Sepolia rules |
| Landing.BareDomainGetsDefaultRules | app.js:223-224 | a host with no marker gets Arbitrum One / 0.0007 ETH |
| Landing.SavedTheme | app.js:99 | the stored theme when it is a non-empty string, "dark" otherwise |
| Landing.ToggleTheme | app.js:104 | the toggle saves "light" iff it is checked |
| Landing.SavedToggleRestored | app.js:99-105 | reloading after a toggle restores the toggle's position |
| Landing.ThemeSwitch.constructor | app.js:99-100 | the page loads with the light class iff the saved theme is "light" |
| Landing.ThemeSwitch.ApplyTheme | app.js:88-96 | only "light" sets the light class and checks the toggle |
| Landing.ThemeSwitch.ToggleChanged | app.js:103-107 | the matching theme is stored and applied |
| Landing.EntryGuard.constructor | app.js:245-252 | not entered, no initialisation yet, with whether the handler is attached and whether the story section exists |
| Landing.EntryGuard.EnterAppClicked | app.js:252-270 | with every section present each click switches the sections, and `initApp` and the music start only on the first. Without the story section the click hides the landing and throws: the app is not shown and `initApp` never runs |
| Landing.ClickRepeatedly | app.js:249-268 | however many clicks arrive, `initApp` runs at most once: exactly once after a first click when every section exists, never when the story section is missing |
| Referrals.ConnectedAddressText | frontend-staging/js/referrals.js:122 | six characters, "...", the last four, for an address of ten or more |
| Referrals.ShortAddress | frontend-staging/js/referrals.js:252 | the first 8 and last 6 characters around "..." for an address of 14 or more; a very short one overlaps itself |
| Referrals.ReferralLink | frontend-staging/js/referrals.js:206 | the link is the origin, then `/?ref=`, then the address |
| Referrals.RefOf | frontend-staging/js/referrals.js:206 | what follows `/?ref=` after the origin |
| Referrals.ReferralLinkRoundTrip | frontend-staging/js/referrals.js:206 | the referrer read back from a link is the player it was built for |
| Referrals.ReferralLinkInjective | frontend-staging/js/referrals.js:206 | different players get different links |
| Referrals.DefaultMinimumNeverBlocks | frontend-staging/js/referrals.js:12 | with the default minimum of 0 no earnings amount disables the claim |
| Referrals.ClaimBlockedMonotone | frontend-staging/js/referrals.js:218 | raising the minimum or lowering the earnings can only disable the claim |
| Referrals.DashboardImpliesConnected | frontend-staging/js/referrals.js:118-134 | whenever the dashboard may open, the status bar says "Connected" |
| Referrals.PendingEntries | frontend-staging/js/referrals.js:250-258 | one entry per referral, in order, with its shortened and its full address |
| Referrals.PendingList | frontend-staging/js/referrals.js:243-258 | an empty list renders the single "No pending confirmations." notice; otherwise the entries |
| Referrals.PendingListEntriesAreReferrals | frontend-staging/js/referrals.js:250-258 | a non-empty list shows no notice, and each button confirms one of the given referrals |
| Referrals.ReferralsController.constructor | frontend-staging/js/referrals.js:5-12 | nothing connected, no config, minimum claim 0 |
| Referrals.ReferralsController.CheckNetwork | frontend-staging/js/referrals.js:136-149 | returns `NetworkMatches` and colours the indicator to match |
| Referrals.ReferralsController.InitContracts | frontend-staging/js/referrals.js:151-166 | the contract exists once provider, signer and a config with an address are present, and is untouched otherwise |
| Referrals.ReferralsController.FetchGameConfig | frontend-staging/js/referrals.js:55-74 | a failed fetch changes nothing. A `null` body is stored and throws, so nothing else changes. Otherwise: the config is stored; the required chain is null without `chainId`; the minimum changes only when one is configured; the network text is the id or "?" |
| Referrals.ReferralsController.UpdateConnectionStatusUI | frontend-staging/js/referrals.js:118-134 | "Connected" iff an address and a chain id are both present, with texts and buttons to match |
| Referrals.ReferralsController.ResetConnectionState | frontend-staging/js/referrals.js:171-180 | provider, signer, address, chain id and contract cleared; config, required chain and minimum kept; dashboard hidden |
| Referrals.ReferralsController.RenderPendingReferrals | frontend-staging/js/referrals.js:243-266 | the list becomes `PendingList` of the referrals |
| Referrals.ReferralsController.UpdateReferralDashboard | frontend-staging/js/referrals.js:196-241 | shown iff a player is on the required chain (no check without a player). When shown: the link is built; the claim is disabled iff earnings are below the minimum, and always when the query fails; the list is rendered or shows the error notice |
| Referrals.RefreshAfterReset | frontend-staging/js/referrals.js:171-200 | after a reset no refresh shows the dashboard, and the configured minimum is kept |

## Left out

- Network I/O is not modelled: `fetch`, WebSocket framing, JSON parsing and the ethers contract calls. Their results are method parameters.
- Wallet connection and provider detection are left out: `connectWallet`, `_initializeConnection`, `_getWalletName`, `promptSwitchNetwork`, and the MetaMask `accountsChanged`/`chainChanged` listeners. The model takes their results as the `Connection` value or as controller fields.
- Asynchronous interleaving is not modelled. Each handler runs to completion. The `await`s inside `handleGameUpdate` (`checkClaimStatus`, `updateBalanceDisplay`, `fetchDailyRecord`) are treated as immediate, and their chain answers are parameters.
- DOM text that only reports progress is left out: logs, alerts, status text, the game-id label, the list rendering done by `updateGameStateUI`, the button captions in `depositStake`'s `finally`, and the section icons.
- Audio (background and game music, the random track choice, the win sound), analytics, QR codes, `confirmReferral` signing, `claimReferralEarnings` and `fetchAllReferrals` are left out. They are I/O or foreign APIs.
- Floating-point display is left out: `formatEther`, `parseFloat(...).toFixed(5)` of the earnings, and the click timer's `(ms / 1000).toFixed(2)`. `TickClickTimer` returns the remaining milliseconds instead. The deposit caption text is not modelled; only the throw of `formatEther` on a missing `stakeAmount` is, as the `threw` result of `UpdateDepositButtonVisibility`.
- `GameController.AppController.HandleWebSocketMessage`: a message `type` outside the listed ones is `Unknown`, and a snapshot `state` outside the seven game states cannot be represented.
- `ServerConfig.Config`: `stakeAmount` and `minReferralClaimAmount` are taken as already-parsed integers. A malformed decimal string that would make `BigInt` throw is not modelled.
- `Landing.Typewriter`: the text nodes are given as a sequence of strings. The HTML parsing, `TreeWalker` and `cloneNode` are not modelled, and the 5 ms timer delay is abstracted to "a callback is pending".
- `Landing.TournamentCountdown`: the start date is a parameter, with `Landing.TournamentStartMs` holding 2025-10-25T00:00:00Z. The element-absent case simply creates no countdown.
- The back-to-home button and the collapsible-section icon rotation in `app.js` are not part of this model.
- `Referrals.ReferralsController.UpdateReferralDashboard`: a pending entry whose `player_address` is missing would throw. The model's entries are plain address strings.
- `JsValues.Lower`: only ASCII letters are folded. Unicode case mapping, which lower-cases other letters and can change the length (`"İ"` becomes two characters), is not modelled; the addresses compared are hexadecimal.
- `AppController.joinGame` is left out: it is a backend and chain call. It is the other writer of `currentGameId` and `currentOnchainGameId`, and the model takes the session it leaves as the state the first snapshot arrives in.
- `AppController`'s own `fetchGameConfig` and `initContracts` are left out: the model takes the backend config, the required chain id and the contract they produce as given fields.
- `AppController`'s recovery checks, refund and claim transactions and `fetchDailyRecord` are left out: they are chain calls outside the session controller's rule logic.
- `dashboard.js`, `leaderboard.js`, `public/js/collapsible.js` and `vite.config.js` are not part of this model.
