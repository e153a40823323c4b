/**
 * The order data model of the SDK (packages/sdk/src/order/types.ts) and the
 * API-client records it is built from: assets, asset types, payout parts.
 *
 * Every order variant is a projection of the API-client order onto the same
 * ten fields; the variants differ only in their protocol tag, so the model has
 * one record `SimpleOrder` and one subset type per variant.
 */
module OrderTypes {
  import opened Wrappers

  /** An Ethereum address, as the API client carries it (a hex string). */
  type Address = string

  /** Hex-encoded binary data (a signature, encoded call data). */
  type Binary = string

  /** A payout or fee share: an account and its part in basis points. */
  datatype Part = Part(account: Address, value: int)

  /** The asset types of the API client, one constructor per `assetClass`. */
  datatype AssetType =
    | Eth
    | Erc20(contract: Address)
    | Erc721(contract: Address, tokenId: nat)
    | Erc1155(contract: Address, tokenId: nat)
    | Erc721Lazy(contract: Address, tokenId: nat, uri: string, creators: seq<Part>, royalties: seq<Part>, signatures: seq<Binary>)
    | Erc1155Lazy(contract: Address, tokenId: nat, uri: string, supply: nat, creators: seq<Part>, royalties: seq<Part>, signatures: seq<Binary>)
    | CryptoPunks(contract: Address, punkId: nat)
    | GenArt(contract: Address)
  {
    /** The `assetClass` discriminant as it appears on the wire. */
    function AssetClass(): string
    {
      match this
      case Eth => "ETH"
      case Erc20(_) => "ERC20"
      case Erc721(_, _) => "ERC721"
      case Erc1155(_, _) => "ERC1155"
      case Erc721Lazy(_, _, _, _, _, _) => "ERC721_LAZY"
      case Erc1155Lazy(_, _, _, _, _, _, _) => "ERC1155_LAZY"
      case CryptoPunks(_, _) => "CRYPTO_PUNKS"
      case GenArt(_) => "GEN_ART"
    }
  }

  /** An amount of an asset; a BigNumber string in the API client, a natural number here. */
  datatype Asset = Asset(assetType: AssetType, value: nat)

  /** The protocol tag (`type`) of an order: the four order protocols the SDK knows. */
  datatype OrderType = RaribleV1 | RaribleV2 | OpenSeaV1 | CryptoPunk {

    /** The tag string carried in the order's `type` field. */
    function Tag(): string
    {
      match this
      case RaribleV1 => "RARIBLE_V1"
      case RaribleV2 => "RARIBLE_V2"
      case OpenSeaV1 => "OPEN_SEA_V1"
      case CryptoPunk => "CRYPTO_PUNK"
    }
  }

  /**
   * The protocol-specific `data` payload. Only the RARIBLE_V2_DATA_V1 shape
   * (payouts and origin fees) is spelled out; the payloads of the other
   * protocols are carried by their `dataType` tag alone.
   */
  datatype OrderData =
    | RaribleV2DataV1(payouts: seq<Part>, originFees: seq<Part>)
    | OtherData(dataType: string)

  /** The ten fields every simple order keeps; `orderType` is the `type` field. */
  datatype SimpleOrder = SimpleOrder(
    data: OrderData,
    maker: Address,
    taker: Option<Address>,
    make: Asset,
    take: Asset,
    salt: nat,
    start: Option<int>,
    end: Option<int>,
    orderType: OrderType,
    signature: Option<Binary>)

  /** An order with every field but the tag empty; it only witnesses the subset types below. */
  function BlankOrder(t: OrderType): SimpleOrder
  {
    SimpleOrder(OtherData(""), "", None, Asset(Eth, 0), Asset(Eth, 0), 0, None, None, t, None)
  }

  type SimpleLegacyOrder = o: SimpleOrder | o.orderType == RaribleV1 witness BlankOrder(RaribleV1)
  type SimpleRaribleV2Order = o: SimpleOrder | o.orderType == RaribleV2 witness BlankOrder(RaribleV2)
  type SimpleOpenSeaV1Order = o: SimpleOrder | o.orderType == OpenSeaV1 witness BlankOrder(OpenSeaV1)
  type SimpleCryptoPunkOrder = o: SimpleOrder | o.orderType == CryptoPunk witness BlankOrder(CryptoPunk)

  /** 1 when the order belongs to the variant of tag `t`, 0 otherwise. */
  function InVariant(o: SimpleOrder, t: OrderType): nat
  {
    if o.orderType == t then 1 else 0
  }

  /**
   * `SimpleOrder` is the union of the four variants, and they are disjoint:
   * every simple order belongs to exactly one of them.
   */
  lemma ExactlyOneVariant(o: SimpleOrder)
    ensures InVariant(o, RaribleV1) + InVariant(o, RaribleV2) + InVariant(o, OpenSeaV1) + InVariant(o, CryptoPunk) == 1
  {
  }

  /** The protocols whose orders can be upserted: legacy and Rarible V2. */
  predicate Upsertable(t: OrderType)
  {
    t == RaribleV1 || t == RaribleV2
  }

  type UpsertSimpleOrder = o: SimpleOrder | Upsertable(o.orderType) witness BlankOrder(RaribleV2)

  /**
   * Narrowing a simple order to an upsertable one: it succeeds exactly for the
   * legacy and Rarible V2 variants, changes no field, and refuses OpenSea and
   * CryptoPunk orders.
   */
  function AsUpsert(o: SimpleOrder): (r: Option<UpsertSimpleOrder>)
    ensures r.Some? <==> o.orderType == RaribleV1 || o.orderType == RaribleV2
    ensures r.Some? ==> r.value == o
    ensures o.orderType == OpenSeaV1 || o.orderType == CryptoPunk ==> r.None?
  {
    if Upsertable(o.orderType) then Some(o) else None
  }

  /** Every upsertable order is, unchanged, a simple order of the legacy or Rarible V2 variant. */
  lemma UpsertIsSimple(u: UpsertSimpleOrder)
    ensures var o: SimpleOrder := u; o.orderType == RaribleV1 || o.orderType == RaribleV2
    ensures AsUpsert(u) == Some(u)
  {
  }

  /** The wire tags are pairwise distinct, so the tag alone identifies the protocol. */
  lemma TagInjective(a: OrderType, b: OrderType)
    ensures a.Tag() == b.Tag() ==> a == b
  {
  }
}
