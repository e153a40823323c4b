/** The failures the order code raises, and results that carry them. */
module Errors {
  import opened OrderTypes

  /**
   * Each thrown error, identified by what the code tests; the message text
   * (with its JSON snapshot of the offending value) is not modelled.
   */
  datatype Error =
    | WalletUndefined                                   // "Wallet undefined", thrown by the fill code
    | WalletRequired                                    // getRequiredWallet finds no wallet
    | ChainMismatch(configChainId: int, walletChainId: int)
    | UnsupportedOrder(orderType: OrderType)            // "Unsupported order: ..."
    | UnsupportedRequest(orderType: OrderType)          // "Unsupported request: ..."
    | NoCreator                                         // a lazy NFT without creators has no signer
    | Rejected(reason: string)                          // a failure reported by an external collaborator

  /** The outcome of an operation that may throw. */
  datatype Result<T> = Ok(value: T) | Err(error: Error)
}
