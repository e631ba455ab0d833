/** Which deployed contract the front end talks to, by chain id and build-time environment. */
module Addresses {
  import opened Wrappers
  import opened Text

  /** The `NEXT_PUBLIC_*` address variables; `None` is an unset variable. */
  datatype Env = Env(
    localSoberJourney: Option<string>,
    sepoliaSoberJourney: Option<string>,
    localBadge: Option<string>,
    sepoliaBadge: Option<string>)

  const LocalChainId: int := 31337
  const SepoliaChainId: int := 11155111
  const ZeroAddress: string := "0x0000000000000000000000000000000000000000"

  /** `!chainId`: undefined or 0. */
  predicate FalsyChain(chainId: Option<int>) {
    chainId.None? || chainId.value == 0
  }

  /** The Sepolia rule: the variable when it is set and starts with "0x", else the zero address. */
  function SepoliaOrZero(envAddr: Option<string>): (r: string)
    ensures StartsWith(r, "0x")
    ensures Some(r) == envAddr <==> envAddr.Some? && StartsWith(envAddr.value, "0x")
    ensures !(envAddr.Some? && StartsWith(envAddr.value, "0x")) ==> r == ZeroAddress
  {
    if Truthy(envAddr) && StartsWith(envAddr.value, "0x") then envAddr.value
    else assert ZeroAddress[0] == "0x"[0] && ZeroAddress[1] == "0x"[1]; ZeroAddress
  }

  /** `getSoberJourneyAddressByChainId` */
  function SoberJourneyAddress(chainId: Option<int>, env: Env): (r: Option<string>)
    ensures FalsyChain(chainId) ==> r == None
    ensures chainId == Some(LocalChainId) ==> r == env.localSoberJourney
    ensures chainId == Some(SepoliaChainId) ==> r.Some? && StartsWith(r.value, "0x")
    ensures chainId == Some(SepoliaChainId) ==>
      (r == env.sepoliaSoberJourney <==> env.sepoliaSoberJourney.Some? && StartsWith(env.sepoliaSoberJourney.value, "0x"))
    ensures chainId == Some(SepoliaChainId) && !(env.sepoliaSoberJourney.Some? && StartsWith(env.sepoliaSoberJourney.value, "0x")) ==>
      r == Some(ZeroAddress)
    ensures r.Some? ==> chainId == Some(LocalChainId) || chainId == Some(SepoliaChainId)
  {
    if FalsyChain(chainId) then None
    else if chainId.value == LocalChainId then env.localSoberJourney
    else if chainId.value == SepoliaChainId then Some(SepoliaOrZero(env.sepoliaSoberJourney))
    else None
  }

  /** `getBadgeAddressByChainId` */
  function BadgeAddress(chainId: Option<int>, env: Env): (r: Option<string>)
    ensures FalsyChain(chainId) ==> r == None
    ensures chainId == Some(LocalChainId) ==> r == env.localBadge
    ensures chainId == Some(SepoliaChainId) ==> r.Some? && StartsWith(r.value, "0x")
    ensures chainId == Some(SepoliaChainId) ==>
      (r == env.sepoliaBadge <==> env.sepoliaBadge.Some? && StartsWith(env.sepoliaBadge.value, "0x"))
    ensures chainId == Some(SepoliaChainId) && !(env.sepoliaBadge.Some? && StartsWith(env.sepoliaBadge.value, "0x")) ==>
      r == Some(ZeroAddress)
    ensures r.Some? ==> chainId == Some(LocalChainId) || chainId == Some(SepoliaChainId)
  {
    if FalsyChain(chainId) then None
    else if chainId.value == LocalChainId then env.localBadge
    else if chainId.value == SepoliaChainId then Some(SepoliaOrZero(env.sepoliaBadge))
    else None
  }

  /** The badge lookup is the journey lookup applied to the badge variables. */
  lemma BadgeMirrorsJourney(chainId: Option<int>, env: Env)
    ensures BadgeAddress(chainId, env)
         == SoberJourneyAddress(chainId, Env(env.localBadge, env.sepoliaBadge, None, None))
  {
  }

  /** Only the two known chains have an address; every other id, and a missing one, has none. */
  lemma OnlyKnownChainsHaveAddresses(chainId: Option<int>, env: Env)
    requires chainId != Some(LocalChainId) && chainId != Some(SepoliaChainId)
    ensures SoberJourneyAddress(chainId, env) == None && BadgeAddress(chainId, env) == None
  {
  }
}
