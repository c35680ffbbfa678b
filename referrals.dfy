/** The referrals dashboard (`referrals.js`): the wallet connection it keeps,
    the chain-id check that gates it, the referral link, the claim threshold
    and the list of referrals waiting for confirmation. */
module Referrals {
  import opened JsValues
  import opened ServerConfig

  // ---------------------------------------------------------------------
  // Pure rules

  /** `addr.substring(0, 6) + "..." + addr.substring(addr.length - 4)`, the
      address shown once a wallet is connected. */
  function ConnectedAddressText(address: string): (r: string)
    ensures |address| >= 10 ==>
      |r| == 13 && r[..6] == address[..6] && r[6..9] == "..." && r[9..] == address[|address| - 4..]
    ensures |address| <= 4 ==> r == address + "..." + address
  {
    SubstringTo(address, 6) + "..." + SubstringFrom(address, |address| - 4)
  }

  /** The shortened address of a pending referral: its first 8 and last 6
      characters around "...". */
  function ShortAddress(address: string): (r: string)
    ensures |address| >= 14 ==>
      |r| == 17 && r[..8] == address[..8] && r[8..11] == "..." && r[11..] == address[|address| - 6..]
    ensures |address| <= 6 ==> r == address + "..." + address
  {
    SubstringTo(address, 8) + "..." + SubstringFrom(address, |address| - 6)
  }

  /** The referral link handed to other players. */
  function ReferralLink(origin: string, playerAddress: string): (link: string)
    ensures |link| == |origin| + 6 + |playerAddress|
    ensures link[..|origin|] == origin && link[|origin|..|origin| + 6] == "/?ref="
  {
    origin + "/?ref=" + playerAddress
  }

  /** The referrer a link built on `origin` names: what follows `/?ref=`. */
  function RefOf(origin: string, link: string): (ref: Option<string>)
    ensures ref.Some? ==> |link| >= |origin| + 6 && ref.value == link[|origin| + 6..]
  {
    if |link| >= |origin| + 6 && link[..|origin|] == origin && link[|origin|..|origin| + 6] == "/?ref="
    then Some(link[|origin| + 6..])
    else None
  }

  /** Reading the referrer back from a link gives the player it was built for. */
  lemma ReferralLinkRoundTrip(origin: string, playerAddress: string)
    ensures RefOf(origin, ReferralLink(origin, playerAddress)) == Some(playerAddress)
  {
    var link := ReferralLink(origin, playerAddress);
    assert link[|origin| + 6..] == playerAddress;
  }

  /** Distinct players get distinct links. */
  lemma ReferralLinkInjective(origin: string, p: string, q: string)
    requires ReferralLink(origin, p) == ReferralLink(origin, q)
    ensures p == q
  {
    ReferralLinkRoundTrip(origin, p);
    ReferralLinkRoundTrip(origin, q);
  }

  /** The claim button is disabled when the earnings fall short of the
      configured minimum. */
  predicate ClaimBlocked(earnings: nat, minClaimAmount: int) {
    earnings < minClaimAmount
  }

  /** With the default minimum of zero, no earnings amount blocks a claim. */
  lemma DefaultMinimumNeverBlocks(earnings: nat)
    ensures !ClaimBlocked(earnings, 0)
  {
  }

  /** Raising the minimum can only block more claims; earning more can only
      unblock them. */
  lemma ClaimBlockedMonotone(e1: nat, e2: nat, m1: int, m2: int)
    requires e2 <= e1 && m1 <= m2
    ensures ClaimBlocked(e1, m1) ==> ClaimBlocked(e2, m2)
  {
  }

  /** The dashboard opens for a connected player on the required chain. */
  predicate DashboardAllowed(playerAddress: Option<string>, chainId: Option<int>, requiredChainId: Option<int>) {
    Truthy(playerAddress) && NetworkMatches(chainId, requiredChainId)
  }

  /** Whenever the dashboard may open, the status bar says "Connected". */
  lemma DashboardImpliesConnected(playerAddress: Option<string>, chainId: Option<int>, requiredChainId: Option<int>)
    requires DashboardAllowed(playerAddress, chainId, requiredChainId)
    ensures Truthy(playerAddress) && TruthyInt(chainId)
  {
  }

  /** An entry of the pending-referrals list. */
  datatype ListItem = Notice(text: string) | PendingEntry(shortened: string, address: string)

  const NoPendingNotice := Notice("No pending confirmations.")
  const PendingErrorNotice := Notice("Error loading pending referrals.")

  /** One entry per referral, in order: its shortened address and a confirm
      button carrying the full one. */
  function PendingEntries(referrals: seq<string>): (items: seq<ListItem>)
    ensures |items| == |referrals|
    ensures forall i :: 0 <= i < |referrals| ==>
      items[i] == PendingEntry(ShortAddress(referrals[i]), referrals[i])
  {
    if referrals == [] then []
    else [PendingEntry(ShortAddress(referrals[0]), referrals[0])] + PendingEntries(referrals[1..])
  }

  /** What `renderPendingReferrals` leaves in the list. */
  function PendingList(referrals: seq<string>): (items: seq<ListItem>)
    ensures referrals == [] ==> items == [NoPendingNotice]
    ensures referrals != [] ==> items == PendingEntries(referrals)
  {
    if referrals == [] then [NoPendingNotice] else PendingEntries(referrals)
  }

  /** A list with entries never shows the empty-list notice, and every entry
      confirms one of the referrals given. */
  lemma PendingListEntriesAreReferrals(referrals: seq<string>, i: nat)
    requires referrals != [] && i < |PendingList(referrals)|
    ensures PendingList(referrals)[i].PendingEntry?
    ensures PendingList(referrals)[i].address in referrals
  {
  }

  /** The outcome of `referralEarnings` on the contract. */
  datatype EarningsQuery = EarningsFailed | Earnings(amount: nat)

  /** The outcome of fetching the pending referrals: a failed request, or
      the decoded body (JSON `null` is `None`), each element a referred
      player's address. */
  datatype PendingFetch = FetchFailed | Fetched(body: Option<seq<string>>)

  /** The outcome of fetching `/api/v1/config`: a failed request, a body of
      JSON `null`, or a decoded configuration. */
  datatype ConfigFetch = ConfigFailed | ConfigNull | ConfigBody(cfg: Config)

  // ---------------------------------------------------------------------
  // The controller

  class ReferralsController {
    var provider: bool
    var signer: bool
    var playerAddress: Option<string>
    var chainId: Option<int>
    var backendConfig: Option<Config>
    var contract: bool
    var requiredChainId: Option<int>
    var minClaimAmount: int

    /** The colour of the network indicator; `None` until first checked. */
    var networkColor: Option<StatusColor>
    var requiredNetworkText: string
    var walletConnected: bool
    var playerAddrText: string
    var networkStatusText: string
    var connectButtonShown: bool
    var showReferralsDisabled: bool
    var dashboardShown: bool
    var referralLink: string
    var earningsError: bool
    var claimDisabled: bool
    var pendingItems: seq<ListItem>

    /** The field initialisers: nothing connected, no config, a minimum
        claim of zero. */
    constructor ()
      ensures !provider && !signer && playerAddress.None? && chainId.None? && backendConfig.None?
      ensures !contract && requiredChainId.None? && minClaimAmount == 0
      ensures !dashboardShown && pendingItems == []
    {
      provider, signer, contract := false, false, false;
      playerAddress, chainId, backendConfig, requiredChainId := None, None, None, None;
      minClaimAmount := 0;
      networkColor := None;
      requiredNetworkText, playerAddrText, networkStatusText, referralLink := "", "", "", "";
      walletConnected, connectButtonShown, showReferralsDisabled := false, true, false;
      dashboardShown, earningsError, claimDisabled := false, false, false;
      pendingItems := [];
    }

    /** `checkNetwork`: colours the indicator and reports whether the wallet
        is on the required chain. */
    method CheckNetwork() returns (ok: bool)
      modifies this`networkColor
      ensures ok == NetworkMatches(chainId, requiredChainId)
      ensures networkColor == Some(NetworkColor(chainId, requiredChainId))
    {
      ColorAgreesWithVerdict(chainId, requiredChainId);
      if !TruthyInt(chainId) || !TruthyInt(requiredChainId) {
        networkColor := Some(Orange);
        return false;
      }
      if chainId.value == requiredChainId.value {
        networkColor := Some(Green);
        return true;
      } else {
        networkColor := Some(Red);
        return false;
      }
    }

    /** `initContracts`: the contract handle exists once provider, signer
        and a config naming a contract address are all present. */
    method InitContracts()
      modifies this`contract
      ensures provider && signer && backendConfig.Some? && Truthy(backendConfig.value.contractAddress) ==> contract
      ensures !(provider && signer && backendConfig.Some? && Truthy(backendConfig.value.contractAddress)) ==>
                contract == old(contract)
    {
      if !provider || !signer || backendConfig.None? || !Truthy(backendConfig.value.contractAddress) {
        return;
      }
      contract := true;
    }

    /** `fetchGameConfig` given the outcome of the request. A failed
        request only logs. A body of JSON `null` is stored and then throws
        on reading its `chainId`, so only `backendConfig` changes. */
    method FetchGameConfig(response: ConfigFetch)
      modifies this`backendConfig, this`requiredChainId, this`minClaimAmount, this`requiredNetworkText,
               this`networkColor, this`contract
      ensures response.ConfigFailed? ==>
        backendConfig == old(backendConfig) && requiredChainId == old(requiredChainId) &&
        minClaimAmount == old(minClaimAmount) && requiredNetworkText == old(requiredNetworkText) &&
        contract == old(contract) && networkColor == old(networkColor)
      ensures response.ConfigNull? ==>
        backendConfig.None? && requiredChainId == old(requiredChainId) && minClaimAmount == old(minClaimAmount) &&
        requiredNetworkText == old(requiredNetworkText) && contract == old(contract) && networkColor == old(networkColor)
      ensures response.ConfigBody? ==> backendConfig == Some(response.cfg) && requiredChainId == RequiredChainId(response.cfg)
      ensures response.ConfigBody? ==> requiredChainId.None? == !TruthyInt(response.cfg.chainId)
      ensures response.ConfigBody? ==> (minClaimAmount ==
        if response.cfg.minReferralClaimAmount.Some? then response.cfg.minReferralClaimAmount.value
        else old(minClaimAmount))
      ensures response.ConfigBody? ==> (requiredNetworkText ==
        if requiredChainId.Some? then IntToDecimal(requiredChainId.value) else "?")
      ensures response.ConfigBody? && TruthyInt(chainId) ==> networkColor == Some(NetworkColor(chainId, requiredChainId))
      ensures response.ConfigBody? && !TruthyInt(chainId) ==> networkColor == old(networkColor)
      ensures response.ConfigBody? && provider && signer && Truthy(response.cfg.contractAddress) ==> contract
      ensures response.ConfigBody? && !(provider && signer && Truthy(response.cfg.contractAddress)) ==>
                contract == old(contract)
    {
      match response
      case ConfigFailed =>
        return;
      case ConfigNull =>
        backendConfig := None;
        return;
      case ConfigBody(cfg) =>
        backendConfig := Some(cfg);
        requiredChainId := RequiredChainId(cfg);
        if cfg.minReferralClaimAmount.Some? {
          minClaimAmount := cfg.minReferralClaimAmount.value;
        }
        requiredNetworkText := if requiredChainId.Some? then IntToDecimal(requiredChainId.value) else "?";
        if TruthyInt(chainId) {
          var _ := CheckNetwork();
        }
        if provider {
          InitContracts();
        }
    }

    /** `updateConnectionStatusUI`: "Connected" needs both an address and a
        chain id. */
    method UpdateConnectionStatusUI()
      modifies this`walletConnected, this`playerAddrText, this`networkStatusText, this`connectButtonShown,
               this`showReferralsDisabled
      ensures walletConnected == (Truthy(playerAddress) && TruthyInt(chainId))
      ensures connectButtonShown == !walletConnected && showReferralsDisabled == !walletConnected
      ensures walletConnected ==> playerAddrText == ConnectedAddressText(playerAddress.value) &&
                                  networkStatusText == IntToDecimal(chainId.value)
      ensures !walletConnected ==> playerAddrText == "N/A" && networkStatusText == "Unknown"
    {
      if Truthy(playerAddress) && TruthyInt(chainId) {
        walletConnected := true;
        playerAddrText := ConnectedAddressText(playerAddress.value);
        networkStatusText := IntToDecimal(chainId.value);
        connectButtonShown := false;
        showReferralsDisabled := false;
      } else {
        walletConnected := false;
        playerAddrText := "N/A";
        networkStatusText := "Unknown";
        connectButtonShown := true;
        showReferralsDisabled := true;
      }
    }

    /** `resetConnectionState`: forgets the wallet, keeps what the backend
        configured, and hides the dashboard. */
    method ResetConnectionState()
      modifies this`provider, this`signer, this`playerAddress, this`chainId, this`contract,
               this`walletConnected, this`playerAddrText, this`networkStatusText, this`connectButtonShown,
               this`showReferralsDisabled, this`dashboardShown
      ensures !provider && !signer && playerAddress.None? && chainId.None? && !contract
      ensures backendConfig == old(backendConfig) && requiredChainId == old(requiredChainId) &&
              minClaimAmount == old(minClaimAmount)
      ensures !walletConnected && connectButtonShown && showReferralsDisabled
      ensures playerAddrText == "N/A" && networkStatusText == "Unknown"
      ensures !dashboardShown
    {
      provider, signer := false, false;
      playerAddress, chainId := None, None;
      contract := false;
      UpdateConnectionStatusUI();
      dashboardShown := false;
    }

    /** `renderPendingReferrals`: clears the list, then shows the notice for
        an empty one or appends one entry per referral. */
    method RenderPendingReferrals(referrals: seq<string>)
      modifies this`pendingItems
      ensures pendingItems == PendingList(referrals)
    {
      pendingItems := [];
      if |referrals| == 0 {
        pendingItems := [NoPendingNotice];
        return;
      }
      var k := 0;
      while k < |referrals|
        invariant 0 <= k <= |referrals|
        invariant |pendingItems| == k
        invariant forall i :: 0 <= i < k ==> pendingItems[i] == PendingEntry(ShortAddress(referrals[i]), referrals[i])
      {
        pendingItems := pendingItems + [PendingEntry(ShortAddress(referrals[k]), referrals[k])];
        k := k + 1;
      }
      assert pendingItems == PendingEntries(referrals);
    }

    /** `updateReferralDashboard` with the page origin and the outcomes of
        the earnings query and the pending-referrals request as inputs.
        Without a player the network is not even checked. */
    method UpdateReferralDashboard(origin: string, earnings: EarningsQuery, pending: PendingFetch)
      modifies this`networkColor, this`dashboardShown, this`referralLink, this`earningsError,
               this`claimDisabled, this`pendingItems
      ensures Truthy(playerAddress) ==> networkColor == Some(NetworkColor(chainId, requiredChainId))
      ensures !Truthy(playerAddress) ==> networkColor == old(networkColor)
      ensures dashboardShown == DashboardAllowed(playerAddress, chainId, requiredChainId)
      ensures !dashboardShown ==>
        referralLink == old(referralLink) && earningsError == old(earningsError) &&
        claimDisabled == old(claimDisabled) && pendingItems == old(pendingItems)
      ensures dashboardShown ==> referralLink == ReferralLink(origin, playerAddress.value)
      ensures dashboardShown && contract && earnings.Earnings? ==>
        !earningsError && claimDisabled == ClaimBlocked(earnings.amount, minClaimAmount)
      ensures dashboardShown && !(contract && earnings.Earnings?) ==> earningsError && claimDisabled
      ensures dashboardShown && pending.FetchFailed? ==> pendingItems == [PendingErrorNotice]
      ensures dashboardShown && pending.Fetched? ==>
        pendingItems == PendingList(if pending.body.Some? then pending.body.value else [])
    {
      if !Truthy(playerAddress) {
        dashboardShown := false;
        return;
      }
      var ok := CheckNetwork();
      if !ok {
        dashboardShown := false;
        return;
      }
      dashboardShown := true;
      referralLink := ReferralLink(origin, playerAddress.value);
      // A missing contract handle makes the query throw, like a failed call.
      if contract && earnings.Earnings? {
        earningsError := false;
        claimDisabled := ClaimBlocked(earnings.amount, minClaimAmount);
      } else {
        earningsError := true;
        claimDisabled := true;
      }
      if pending.FetchFailed? {
        pendingItems := [PendingErrorNotice];
      } else {
        RenderPendingReferrals(if pending.body.Some? then pending.body.value else []);
      }
    }
  }

  /** After a reset, no dashboard refresh can show the dashboard until a
      wallet connects again, whatever the chain queries return. */
  method RefreshAfterReset(c: ReferralsController, origin: string, earnings: EarningsQuery, pending: PendingFetch)
    modifies c
    ensures !c.dashboardShown && c.playerAddress.None?
    ensures c.backendConfig == old(c.backendConfig) && c.minClaimAmount == old(c.minClaimAmount)
  {
    c.ResetConnectionState();
    c.UpdateReferralDashboard(origin, earnings, pending);
  }
}
