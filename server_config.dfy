/** The backend configuration (`/api/v1/config`) both controllers load, and
    the chain-id test both of them apply before any chain action. */
module ServerConfig {
  import opened JsValues

  /** The configuration fields the controllers read. `stakeAmount` and
      `minReferralClaimAmount` are wei amounts sent as decimal strings:
      `Some(v)` stands for a non-empty string whose value is `v`. */
  datatype Config = Config(
    contractAddress: Option<string>,
    stakeAmount: Option<nat>,
    platformCommissionBps: Option<int>,
    chainId: Option<int>,
    minReferralClaimAmount: Option<int>)

  /** `requiredChainId`: the configured chain id, or null when the config
      carries none (a missing or zero `chainId`). */
  function RequiredChainId(cfg: Config): (r: Option<int>)
    ensures r.Some? <==> TruthyInt(cfg.chainId)
    ensures r.Some? ==> r == cfg.chainId
  {
    if TruthyInt(cfg.chainId) then cfg.chainId else None
  }

  /** `checkNetwork`'s verdict: false when either chain id is missing,
      otherwise whether the two are the same integer. */
  function NetworkMatches(chainId: Option<int>, requiredChainId: Option<int>): (ok: bool)
    ensures ok ==> TruthyInt(chainId) && TruthyInt(requiredChainId)
    ensures TruthyInt(chainId) && TruthyInt(requiredChainId) ==>
              (ok <==> chainId.value == requiredChainId.value)
  {
    if !TruthyInt(chainId) || !TruthyInt(requiredChainId) then false
    else chainId.value == requiredChainId.value
  }

  /** The verdict does not depend on which side is the wallet's. */
  lemma NetworkMatchesSymmetric(a: Option<int>, b: Option<int>)
    ensures NetworkMatches(a, b) == NetworkMatches(b, a)
  {
  }

  /** A config without a chain id never lets any wallet pass the check. */
  lemma NoRequiredChainNeverMatches(cfg: Config, chainId: Option<int>)
    requires !TruthyInt(cfg.chainId)
    ensures !NetworkMatches(chainId, RequiredChainId(cfg))
  {
  }

  /** The colour `checkNetwork` gives the network indicator. */
  datatype StatusColor = Orange | Green | Red

  /** Orange when either id is missing, green when they agree, red otherwise. */
  function NetworkColor(chainId: Option<int>, requiredChainId: Option<int>): StatusColor {
    if !TruthyInt(chainId) || !TruthyInt(requiredChainId) then Orange
    else if chainId.value == requiredChainId.value then Green
    else Red
  }

  /** The indicator is green exactly when the check passes, and orange
      exactly when it cannot be made. */
  lemma ColorAgreesWithVerdict(chainId: Option<int>, requiredChainId: Option<int>)
    ensures NetworkColor(chainId, requiredChainId) == Green <==> NetworkMatches(chainId, requiredChainId)
    ensures NetworkColor(chainId, requiredChainId) == Orange <==> !TruthyInt(chainId) || !TruthyInt(requiredChainId)
  {
  }
}
