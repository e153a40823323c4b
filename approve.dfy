/** Approval routing (packages/sdk/src/order/approve.ts). */
module Approval {
  import opened Wrappers
  import opened OrderTypes
  import opened Errors
  import opened Provider

  /** The transfer-proxy addresses of the configuration: standard NFTs and lazy ERC1155 mints. */
  datatype TransferProxies = TransferProxies(nft: Address, erc1155Lazy: Address)

  /** One `approveErc1155(ethereum, send, contract, owner, operator)` call. */
  datatype Erc1155Approval = Erc1155Approval(contract: Address, owner: Address, operator: Address)

  /**
   * `approveErc1155`, an external collaborator: it may send an
   * approval-for-all transaction, report that none is needed, or fail.
   */
  type ApproveErc1155 = Erc1155Approval -> Result<Option<Transaction>>

  /** What `approve` returns, with the approval calls it made, in order. */
  datatype ApproveOutcome = ApproveOutcome(result: Result<Option<Transaction>>, calls: seq<Erc1155Approval>)

  /**
   * `approve`: an ERC1155 asset is approved for the NFT transfer proxy, an
   * ERC1155_LAZY asset for the lazy-mint proxy, each on the asset's own
   * contract and for the given owner; any other asset class needs no
   * approval and makes no call. At most one call is ever made, and the flag
   * `infinite` (absent means `true`) is not consulted.
   */
  function Approve(approveErc1155: ApproveErc1155, config: TransferProxies, owner: Address,
                   asset: Asset, infinite: Option<bool>): (r: ApproveOutcome)
    ensures |r.calls| <= 1
    ensures forall c :: c in r.calls ==> c.owner == owner && !asset.assetType.Eth? && c.contract == asset.assetType.contract
    ensures asset.assetType.Erc1155? ==>
              r.calls == [Erc1155Approval(asset.assetType.contract, owner, config.nft)]
    ensures asset.assetType.Erc1155Lazy? ==>
              r.calls == [Erc1155Approval(asset.assetType.contract, owner, config.erc1155Lazy)]
    ensures r.calls == [] <==> asset.assetType.AssetClass() != "ERC1155" && asset.assetType.AssetClass() != "ERC1155_LAZY"
    ensures r.calls == [] ==> r.result == Ok(None)
    ensures r.calls != [] ==> r.result == approveErc1155(r.calls[0])
  {
    match asset.assetType
    case Erc1155(contract, _) =>
      var call := Erc1155Approval(contract, owner, config.nft);
      ApproveOutcome(approveErc1155(call), [call])
    case Erc1155Lazy(contract, _, _, _, _, _, _) =>
      var call := Erc1155Approval(contract, owner, config.erc1155Lazy);
      ApproveOutcome(approveErc1155(call), [call])
    case _ => ApproveOutcome(Ok(None), [])
  }

  /** The operator an asset is approved for: it is fixed by the asset class and the configuration alone. */
  function OperatorFor(config: TransferProxies, assetType: AssetType): Option<Address>
  {
    if assetType.Erc1155? then Some(config.nft)
    else if assetType.Erc1155Lazy? then Some(config.erc1155Lazy)
    else None
  }

  /**
   * The approval call agrees with the operator table: a call is made exactly
   * when the class has an operator, and it names that operator.
   */
  lemma ApproveMatchesOperatorTable(approveErc1155: ApproveErc1155, config: TransferProxies,
                                    owner: Address, asset: Asset, infinite: Option<bool>)
    ensures var r := Approve(approveErc1155, config, owner, asset, infinite);
            (r.calls == [] <==> OperatorFor(config, asset.assetType).None?) &&
            (r.calls != [] ==> Some(r.calls[0].operator) == OperatorFor(config, asset.assetType))
  {
  }

  /** The `infinite` flag influences neither the call made nor the result. */
  lemma ApproveIgnoresInfinite(approveErc1155: ApproveErc1155, config: TransferProxies,
                               owner: Address, asset: Asset, a: Option<bool>, b: Option<bool>)
    ensures Approve(approveErc1155, config, owner, asset, a) == Approve(approveErc1155, config, owner, asset, b)
  {
  }
}
