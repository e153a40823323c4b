/** The chain guard (packages/sdk/src/order/check-chain-id.ts). */
module ChainCheck {
  import opened Wrappers
  import opened Errors
  import opened Provider

  /**
   * `checkChainId`: queries the chain id of the required wallet and compares
   * it with the configured one. It succeeds with `true` exactly when the two
   * agree; it never yields `false`; a mismatch fails naming both ids, and a
   * missing wallet fails before any comparison.
   */
  function CheckChainId(ethereum: Option<Wallet>, configChainId: int): (r: Result<bool>)
    ensures r.Ok? <==> ethereum.Some? && ethereum.value.chainId == configChainId
    ensures r.Ok? ==> r.value
    ensures ethereum.None? ==> r == Err(WalletRequired)
    ensures ethereum.Some? && ethereum.value.chainId != configChainId ==>
              r == Err(ChainMismatch(configChainId, ethereum.value.chainId))
  {
    match GetRequiredWallet(ethereum)
    case Err(e) => Err(e)
    case Ok(wallet) =>
      var networkId := wallet.chainId;
      if configChainId != networkId then Err(ChainMismatch(configChainId, networkId))
      else Ok(true)
  }
}
