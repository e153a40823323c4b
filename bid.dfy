/** Bid construction (packages/protocol-ethereum-sdk/src/order/bid.ts). */
module Bid {
  import opened OrderTypes
  import opened Errors

  /** The currencies a bid can offer: the native currency or an ERC20 token. */
  type CurrencyAssetType = t: AssetType | t.Eth? || t.Erc20? witness Eth

  /**
   * An asset-type request as `checkAssetType` accepts it: a complete asset
   * type, or only a contract and token id whose class is still to be found.
   */
  datatype AssetTypeRequest =
    | Typed(assetType: AssetType)
    | Untyped(contract: Address, tokenId: nat)

  /** What the caller asks to bid: the price is per unit of the amount bid for. */
  datatype BidRequest = BidRequest(
    maker: Address,
    makeAssetType: CurrencyAssetType,
    amount: int,
    takeAssetType: AssetTypeRequest,
    price: int,
    payouts: seq<Part>,
    originFees: seq<Part>)

  /** The order form sent to the API; its asset values may be any integer, as the form does not check them. */
  datatype FormAsset = FormAsset(assetType: AssetType, value: int)

  /** The `OrderForm` a bid builds. */
  datatype OrderForm = OrderForm(
    maker: Address,
    make: FormAsset,
    take: FormAsset,
    orderType: OrderType,
    data: OrderData,
    salt: nat)

  /** One call into a collaborator of `bid`. */
  datatype BidCall =
    | CheckAssetType(request: AssetTypeRequest)
    | UpsertOrder(form: OrderForm, infinite: bool)

  /** The result of `bid`, with the collaborator calls it made, oldest first. */
  datatype BidOutcome = BidOutcome(result: Result<SimpleOrder>, calls: seq<BidCall>)

  /** The order literal of `bid`, once the asset type of the take side is known. */
  function BidForm(request: BidRequest, takeAssetType: AssetType, salt: nat): OrderForm
  {
    OrderForm(
      request.maker,
      FormAsset(request.makeAssetType, request.price * request.amount),
      FormAsset(takeAssetType, request.amount),
      RaribleV2,
      RaribleV2DataV1(request.payouts, request.originFees),
      salt)
  }

  /**
   * `bid`: resolves the take asset type first; if that fails nothing is
   * upserted. Otherwise the built form is upserted exactly once, with second
   * argument `false`, and the upsert's result is returned. The form offers
   * the requested currency for price × amount, asks for the resolved asset
   * in the requested amount, is a RARIBLE_V2 order with RARIBLE_V2_DATA_V1
   * data copied from the request, and carries the given salt.
   */
  function PlaceBid(checkAssetType: AssetTypeRequest -> Result<AssetType>,
                    upsertOrder: (OrderForm, bool) -> Result<SimpleOrder>,
                    request: BidRequest, salt: nat): (r: BidOutcome)
    ensures 1 <= |r.calls| <= 2 && r.calls[0] == CheckAssetType(request.takeAssetType)
    ensures checkAssetType(request.takeAssetType).Err? ==>
              r == BidOutcome(Err(checkAssetType(request.takeAssetType).error), [CheckAssetType(request.takeAssetType)])
    ensures checkAssetType(request.takeAssetType).Ok? ==>
              |r.calls| == 2 && r.calls[1].UpsertOrder? && !r.calls[1].infinite &&
              r.result == upsertOrder(r.calls[1].form, false) &&
              var form := r.calls[1].form;
              form.maker == request.maker &&
              form.make == FormAsset(request.makeAssetType, request.price * request.amount) &&
              form.take == FormAsset(checkAssetType(request.takeAssetType).value, request.amount) &&
              form.orderType == RaribleV2 &&
              form.data == RaribleV2DataV1(request.payouts, request.originFees) &&
              form.salt == salt
  {
    match checkAssetType(request.takeAssetType)
    case Err(e) => BidOutcome(Err(e), [CheckAssetType(request.takeAssetType)])
    case Ok(takeAssetType) =>
      var form := BidForm(request, takeAssetType, salt);
      BidOutcome(upsertOrder(form, false), [CheckAssetType(request.takeAssetType), UpsertOrder(form, false)])
  }

  /** Whatever the collaborators answer, `bid` upserts at most one order, never with an infinite approval. */
  lemma BidUpsertsAtMostOnce(checkAssetType: AssetTypeRequest -> Result<AssetType>,
                             upsertOrder: (OrderForm, bool) -> Result<SimpleOrder>,
                             request: BidRequest, salt: nat)
    ensures var r := PlaceBid(checkAssetType, upsertOrder, request, salt);
            (forall i, j :: 0 <= i < j < |r.calls| ==> !(r.calls[i].UpsertOrder? && r.calls[j].UpsertOrder?)) &&
            (forall c :: c in r.calls && c.UpsertOrder? ==> !c.infinite && c.form.orderType == RaribleV2)
  {
  }
}
