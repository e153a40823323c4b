/** EIP-712 typed data for lazy-mint signatures (src/nft/sign-nft.ts). */
module SignNft {
  import opened OrderTypes
  import opened Errors

  /** A lazy NFT without its signatures (`SimpleLazyNft<"signatures">`), tagged by `@type`. */
  datatype LazyNft =
    | LazyErc721(contract: Address, tokenId: nat, uri: string, creators: seq<Part>, royalties: seq<Part>)
    | LazyErc1155(contract: Address, tokenId: nat, uri: string, supply: nat, creators: seq<Part>, royalties: seq<Part>)

  /** The fixed fields of the NFT signing domain (the domain template): name and version. */
  datatype DomainTemplate = DomainTemplate(name: string, version: string)

  /** An EIP-712 domain: `name`, `version`, `chainId`, `verifyingContract`. */
  datatype EIP712Domain = EIP712Domain(name: string, version: string, chainId: int, verifyingContract: Address)

  /** A member of an EIP-712 struct type. */
  datatype TypedField = TypedField(name: string, fieldType: string)

  /** The NFT typed-data constants: the domain template, the struct types and the primary type. */
  datatype NftTypedDataConstants = NftTypedDataConstants(
    domainTemplate: DomainTemplate,
    types: map<string, seq<TypedField>>,
    primaryType: string)

  /** The signed message `{...nft, tokenURI: nft.uri}`: every field of the NFT and one more. */
  datatype NftMessage = NftMessage(nft: LazyNft, tokenURI: string)

  /** The argument of `eth_signTypedData`. */
  datatype TypedData = TypedData(
    types: map<string, seq<TypedField>>,
    domain: EIP712Domain,
    primaryType: string,
    message: NftMessage)

  /** One `signTypedData(web3, signer, data)` call. */
  datatype SignRequest = SignRequest(signer: Address, data: TypedData)

  /** The signature `signNft` returns, with the signing calls it made. */
  datatype SignOutcome = SignOutcome(result: Result<Binary>, requests: seq<SignRequest>)

  /** `createEIP712NftDomain`: the template's fields, with the chain id and the verifying contract set. */
  function CreateEIP712NftDomain(template: DomainTemplate, chainId: int, verifyingContract: Address): (d: EIP712Domain)
    ensures d.name == template.name && d.version == template.version
    ensures d.chainId == chainId && d.verifyingContract == verifyingContract
  {
    EIP712Domain(template.name, template.version, chainId, verifyingContract)
  }

  /**
   * `signNft`: an ERC721 lazy NFT is signed once, by its first creator, over
   * the NFT typed data for the given chain and the NFT's own contract, with
   * the NFT as message plus `tokenURI` equal to its `uri`; without creators
   * no signer exists and it fails before signing. An ERC1155 lazy NFT gets
   * the empty binary and no signing call.
   */
  function SignNftTypedData(signTypedData: (Address, TypedData) -> Result<Binary>,
                            constants: NftTypedDataConstants, chainId: int, nft: LazyNft): (r: SignOutcome)
    ensures |r.requests| <= 1
    ensures nft.LazyErc1155? ==> r == SignOutcome(Ok(""), [])
    ensures nft.LazyErc721? && nft.creators == [] ==> r == SignOutcome(Err(NoCreator), [])
    ensures nft.LazyErc721? && nft.creators != [] ==>
              |r.requests| == 1 &&
              var request := r.requests[0];
              request.signer == nft.creators[0].account &&
              request.data.domain.verifyingContract == nft.contract &&
              request.data.domain.chainId == chainId &&
              request.data.domain.name == constants.domainTemplate.name &&
              request.data.domain.version == constants.domainTemplate.version &&
              request.data.types == constants.types &&
              request.data.primaryType == constants.primaryType &&
              request.data.message == NftMessage(nft, nft.uri) &&
              r.result == signTypedData(request.signer, request.data)
  {
    match nft
    case LazyErc721(contract, _, uri, creators, _) =>
      var domain := CreateEIP712NftDomain(constants.domainTemplate, chainId, contract);
      var data := TypedData(constants.types, domain, constants.primaryType, NftMessage(nft, uri));
      if creators == [] then SignOutcome(Err(NoCreator), [])
      else
        var request := SignRequest(creators[0].account, data);
        SignOutcome(signTypedData(request.signer, request.data), [request])
    case LazyErc1155(_, _, _, _, _, _) => SignOutcome(Ok(""), [])
  }
}
