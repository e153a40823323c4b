/** The wallet/provider collaborator, reduced to what the order code queries. */
module Provider {
  import opened Wrappers
  import opened OrderTypes
  import opened Errors

  /** A connected wallet: the account `getFrom()` reports and the chain id `getChainId()` reports. */
  datatype Wallet = Wallet(account: Address, chainId: int)

  /** A submitted transaction (`EthereumTransaction`), known by its hash. */
  datatype Transaction = Transaction(hash: string)

  /** `getRequiredWallet`: the wallet, or a failure when none is connected. */
  function GetRequiredWallet(ethereum: Option<Wallet>): Result<Wallet>
  {
    match ethereum
    case Some(w) => Ok(w)
    case None => Err(WalletRequired)
  }
}
