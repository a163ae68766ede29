/** opinion-hub-frontend/abi/OpinionResearchPlatformAddresses.ts: where the
    registry is deployed on each supported chain. */
module Addresses {
  import opened Base
  import AccessModal

  const LocalhostChainId := 31337
  const SepoliaChainId := 11155111

  const LocalhostAddress := "0x5c653ca4AeA7F2Da07f0AABf75F85766EAFDA615"
  const SepoliaAddress := "0x19F3581962E2D120107F0aF7817e7cdb32369Be6"

  /** `getContractAddress(chainId)`: the switch over the two known chains;
      any other chain has no deployment (`undefined`). */
  function GetContractAddress(chainId: int): (r: Option<string>)
    ensures chainId == LocalhostChainId ==> r == Some(LocalhostAddress)
    ensures chainId == SepoliaChainId ==> r == Some(SepoliaAddress)
    ensures r.Some? <==> chainId == LocalhostChainId || chainId == SepoliaChainId
  {
    if chainId == LocalhostChainId then Some(LocalhostAddress)
    else if chainId == SepoliaChainId then Some(SepoliaAddress)
    else None
  }

  /** Both deployed addresses are well-formed account addresses, and they
      differ, so the two chains never share a registry by accident. */
  lemma DeployedAddressesWellFormed(chainId: int)
    ensures GetContractAddress(chainId).Some? ==> AccessModal.ValidateAddress(GetContractAddress(chainId).value)
    ensures LocalhostAddress != SepoliaAddress
  {
    assert LocalhostAddress[2] != SepoliaAddress[2];
  }
}
