# Order filling in the Rarible Ethereum SDK, modelled in Dafny

This project models the order-fill side of the Rarible Ethereum SDK. It covers six source files:

- the `OrderFiller` dispatcher and its staged fill action (`approve`, then `send-tx`, with a chain-id guard in front);
- approval routing by asset class;
- the chain-id guard;
- the simple-order data model;
- bid construction;
- the EIP-712 typed data for lazy-NFT mint signatures ("Definition of domainSeparator" in EIP-712, signed through `eth_signTypedData`).

Everything outside the SDK's own code is a parameter of the model. That covers the Rarible V2 order handler, the wallet, `approveErc1155`, `checkAssetType`, `upsertOrder` and `signTypedData`. The V2 handler is a record of functions, `FillOrder.V2Handler`, and each of its operations may fail. The wallet is the account and chain id it reports.

Every call into such a collaborator is recorded. A pure function returns its result together with the calls it made, in order (`Traced`, `BidOutcome`, `SignOutcome`, `ApproveOutcome`). The `OrderFiller` class keeps the call history in `calls`, and each of its methods appends to it. Each method is proved to return, and to append, exactly what a pure specification function gives. The ordering properties are stated about those functions:

- the chain check comes first;
- approval comes before submission;
- a failure stops every later call;
- `send-tx` receives exactly the `{request, inverted}` that `approve` produced.

The fill action is an explicit state machine (`FillOrder.FillState`, `FillOrder.Step`):

- `Start(request)` runs the guarded "approve" stage and moves to `Approved(carry)`, or halts in that stage;
- `Approved(carry)` runs "send-tx" and moves to `Done(tx)`, or halts there.

`fill`, `buy` and `acceptBid` all run this same action.

Modules, one per source file: `OrderTypes` (types.ts), `ChainCheck` (check-chain-id.ts), `Approval` (approve.ts), `FillOrder` (fill-order/index.ts), `Bid` (bid.ts), `SignNft` (sign-nft.ts). The helper modules are `Wrappers` (Option), `Errors` (the error kinds and `Result`), `Provider` (wallet, transaction, `getRequiredWallet`) and `Decimal` (the decimal rendering used for a transaction's value).

Some behaviours of the code are worth spelling out, because the model follows them exactly:

- The chain check runs once, in front of the "approve" stage, and not again before "send-tx".
- With no wallet connected, the fill action fails inside the chain check (`getRequiredWallet`, error `WalletRequired`). So the "approve" stage's own "Wallet undefined" test is reached only when that stage runs alone (`FillOrder.ApproveRun`).
- Unsupported tags fail with two different errors: "Unsupported order" (`UnsupportedOrder`) and, in `getTransactionRequestData`, "Unsupported request" (`UnsupportedRequest`).
- `approve` routes only ERC1155 and ERC1155_LAZY assets to an operator. Every other asset class, ERC20 included, needs no approval there.
- Nothing in the code checks that a fill or bid amount is positive, so the model does not require it.

## Model

| member | source | states |
|---|---|---|
| `OrderTypes.AsUpsert` | packages/sdk/src/order/types.ts:21-23 | an order is upsertable exactly when it is a legacy or Rarible V2 order, and it is then returned unchanged; OpenSea and CryptoPunk orders are refused |
| `OrderTypes.UpsertIsSimple` | packages/sdk/src/order/types.ts:15-23 | every upsertable order is a simple order of the legacy or Rarible V2 variant |
| `OrderTypes.ExactlyOneVariant` | packages/sdk/src/order/types.ts:15-19 | every simple order belongs to exactly one of the four variants |
| `OrderTypes.TagInjective` | packages/sdk/src/order/types.ts:3-13 | the four protocol tags are distinct strings, so the tag identifies the variant |
| `ChainCheck.CheckChainId` | packages/sdk/src/order/check-chain-id.ts:11-17 | succeeds with `true` exactly when the wallet's chain id equals the configured one and never yields `false`; a mismatch fails with both ids; a missing wallet fails before the comparison |
| `Approval.Approve` | packages/sdk/src/order/approve.ts:14-35 | the switch on the asset class: ERC1155 is approved on its own contract for operator `nft`, ERC1155_LAZY for operator `erc1155Lazy`; the owner is forwarded unchanged; at most one call is made; a class other than those two makes no call and returns no transaction |
| `Approval.ApproveMatchesOperatorTable` | packages/sdk/src/order/approve.ts:22-34 | a call is made exactly when the asset class has an operator, and the call names that operator |
| `Approval.ApproveIgnoresInfinite` | packages/sdk/src/order/approve.ts:20-34 | the `infinite` flag changes neither the call nor the result |
| `FillOrder.InvertOrder` | packages/sdk/src/order/fill-order/index.ts:111-118 | routes on the tag of `request.order`: for RARIBLE_V2 it makes one call to the handler's `invert` and returns its result; any other tag fails with "Unsupported order" and makes no call |
| `FillOrder.ApproveOrder` | packages/sdk/src/order/fill-order/index.ts:120-127 | routes on the tag of the inverted order: it delegates to the handler's `approve` with one call, or fails with no call |
| `FillOrder.SendTransaction` | packages/sdk/src/order/fill-order/index.ts:129-136 | routes on the tag of the inverted order and submits the request's order with the inverted one, or fails with no call |
| `FillOrder.GetTransactionRequestData` | packages/sdk/src/order/fill-order/index.ts:138-150 | routes on the tag of `request.order`: it delegates to the handler's `getTransactionData`, or fails with "Unsupported request" and no call |
| `FillOrder.GetOrderFee` | packages/sdk/src/order/fill-order/index.ts:169-176 | delegates to the handler's `getOrderFee` exactly for RARIBLE_V2 orders, otherwise fails with no call |
| `FillOrder.GetBaseOrderFillFee` | packages/sdk/src/order/fill-order/index.ts:178-185 | delegates to the handler's base fee exactly for RARIBLE_V2 orders, otherwise fails with no call |
| `FillOrder.UnregisteredTagsNeverReachHandler` | packages/sdk/src/order/fill-order/index.ts:111-185 | only RARIBLE_V2 is registered; for any other tag, none of the six dispatch operations calls a handler |
| `FillOrder.ApproveRun` | packages/sdk/src/order/fill-order/index.ts:60-68 | with no wallet it fails "Wallet undefined" before any call; otherwise its calls are exactly the address query, the inversion for that address (only for a Rarible V2 order) and the approval with `Boolean(infinite)` (only for a successfully inverted Rarible V2 order), cut at the first failure, and a failure carries the error of that first failing step; it succeeds exactly when every step succeeds, even when no approval transaction is needed; on success it carries the request itself and the handler's inverted order |
| `FillOrder.GuardedApprove` | packages/sdk/src/order/fill-order/index.ts:56-80 | the `before` guard runs the chain check ahead of the stage; a missing wallet or a chain mismatch ends the stage with no call other than the chain query |
| `FillOrder.SendTxRun` | packages/sdk/src/order/fill-order/index.ts:70-75 | "send-tx" makes at most the one call submitting the carried request order and inverted order; a Rarible V2 inverted order is always submitted and the handler's answer returned; any other is refused with "Unsupported order" before the call |
| `FillOrder.Step` | packages/sdk/src/order/fill-order/index.ts:56-81 | each stage makes progress; "approve" makes the guarded stage's calls and moves to `Approved` with its carried state (the request itself) exactly when that stage succeeds, and otherwise halts in "approve" with its error; "send-tx" makes exactly the calls of `SendTxRun` (the one submission of the carried `{request, inverted}` for a Rarible V2 inverted order) and is `Done` with the handler's transaction exactly when that submission succeeds, and otherwise halts in "send-tx" with the error |
| `FillOrder.FillPipeline` | packages/sdk/src/order/fill-order/index.ts:56-81 | the fill ends in a final state; without a wallet, or on another chain, it stops before any wallet or handler call other than the chain query; on the configured chain its calls are exactly chain query, address query, inversion, approval, submission, cut at the first failure, and it halts with the error of the first step that failed, in the stage where it failed; it completes exactly when the wallet is on the configured chain, both orders are Rarible V2 and inversion, approval and submission all succeed, and then it returns the submitted transaction |
| `FillOrder.SubmissionFollowsApproval` | packages/sdk/src/order/fill-order/index.ts:56-81 | in every fill the chain query comes first; a submission is the last call and comes right after the approval of the same inverted order; a fill halted in "approve" submits nothing |
| `FillOrder.BuyTxValue` | packages/sdk/src/order/fill-order/index.ts:102 | the value is the canonical decimal rendering of the options' value, as `toString()` gives it: digits only, no leading zero except for "0" itself, reading back as the value; it is "0" exactly when the value is absent or zero |
| `FillOrder.BuyTx` | packages/sdk/src/order/fill-order/index.ts:98-109 | makes no wallet call at all (no chain check, no address query); a non-Rarible-V2 order fails "Unsupported order" with no call; a failed inversion stops after it, with its error; a failed call construction stops after inversion and call construction, with its error; it succeeds exactly when the order is Rarible V2 and both steps succeed, and then its calls are inversion, call construction, call-info query, and it returns the given `from`, the call's data, the call's contract as `to` and the decimal rendering of the options' value |
| `FillOrder.TransactionDataOf` | packages/sdk/src/order/fill-order/index.ts:152-167 | with no wallet it fails "Wallet undefined" before any call; the chain query comes first and a mismatch ends it there; on the configured chain, after the chain and address queries, a non-Rarible-V2 order fails "Unsupported order" with no handler call, a failed inversion stops after it and a failed call construction stops after it, each with its own error; it succeeds exactly when the wallet is on the configured chain, the order is Rarible V2 and both steps succeed; then it made chain query, address query, inversion, call construction, in that order, and returns the handler's call data and options unmodified |
| `FillOrder.TransactionDataAgreesWithBuyTx` | packages/sdk/src/order/fill-order/index.ts:98-167 | on the configured chain, `getTransactionData` and `getBuyTx` for the wallet's own address succeed or fail together, with the same data and value and the same handler calls, which `getBuyTx` makes without the two wallet queries |
| `FillOrder.OrderFiller.constructor` | packages/sdk/src/order/fill-order/index.ts:42-54 | the filler keeps its wallet and configuration, builds its V2 handler from them, and has made no call yet |
| `FillOrder.OrderFiller.RunApprove` | packages/sdk/src/order/fill-order/index.ts:60-68 | returns and appends to the call history exactly what `ApproveRun` gives |
| `FillOrder.OrderFiller.RunGuardedApprove` | packages/sdk/src/order/fill-order/index.ts:76-80 | returns and appends exactly what `GuardedApprove` gives |
| `FillOrder.OrderFiller.RunSendTx` | packages/sdk/src/order/fill-order/index.ts:72-74 | returns and appends exactly what `SendTxRun` gives |
| `FillOrder.OrderFiller.RunStage` | packages/sdk/src/order/fill-order/index.ts:56-81 | moves to the state `Step` gives and appends its calls |
| `FillOrder.OrderFiller.RunFillAction` | packages/sdk/src/order/fill-order/index.ts:56-81 | runs the stages in turn; returns the outcome of `FillPipeline` and appends its calls |
| `FillOrder.OrderFiller.Fill` | packages/sdk/src/order/fill-order/index.ts:86 | the fill action of `getFillAction()` |
| `FillOrder.OrderFiller.Buy` | packages/sdk/src/order/fill-order/index.ts:91 | the same fill action of `getFillAction()` |
| `FillOrder.OrderFiller.AcceptBid` | packages/sdk/src/order/fill-order/index.ts:96 | the same fill action of `getFillAction()` |
| `FillOrder.OrderFiller.GetBuyTx` | packages/sdk/src/order/fill-order/index.ts:98-109 | returns and appends exactly what `BuyTx` gives |
| `FillOrder.OrderFiller.GetTransactionData` | packages/sdk/src/order/fill-order/index.ts:152-167 | returns and appends exactly what `TransactionDataOf` gives |
| `Decimal.DecimalString` | packages/sdk/src/order/fill-order/index.ts:102 | `toString()` of an amount is never empty, consists of digits, and starts with `0` only for zero |
| `Decimal.ParseDecimalString` | packages/sdk/src/order/fill-order/index.ts:102 | reading the rendering back gives the amount |
| `Decimal.DecimalStringInjective` | packages/sdk/src/order/fill-order/index.ts:102 | distinct amounts have distinct renderings |
| `Bid.PlaceBid` | packages/protocol-ethereum-sdk/src/order/bid.ts:25-50 | the take asset type is resolved first and its failure stops the bid before any upsert; otherwise one upsert with second argument `false`, whose result is returned, of a form with the request's maker, the request's currency for price × amount, the resolved asset for the amount, tag RARIBLE_V2, RARIBLE_V2_DATA_V1 data copied from the request, and the given salt |
| `Bid.BidUpsertsAtMostOnce` | packages/protocol-ethereum-sdk/src/order/bid.ts:49 | whatever the collaborators answer, at most one order is upserted, never with `true` as second argument |
| `SignNft.CreateEIP712NftDomain` | src/nft/sign-nft.ts:36-42 | keeps the template's name and version and sets `chainId` and `verifyingContract` to its arguments |
| `SignNft.SignNftTypedData` | src/nft/sign-nft.ts:13-33 | an ERC721 lazy NFT is signed once, by its first creator, over the NFT types and primary type, the domain of its own contract on the given chain, and the NFT with `tokenURI` equal to its `uri`; the signer's answer is returned; with no creators it fails before signing; an ERC1155 lazy NFT gets the empty binary and no signing call |

## Left out

- The internals of `RaribleV2OrderHandler` (`invert`, `approve`, `getTransactionData`, `getOrderFee`, `getBaseOrderFee`, `sendTransaction`): fill-order/rarible-v2 is not part of this model. They are arbitrary functions, any of which may fail.
- `RaribleV1OrderHandler`, `OpenSeaOrderHandler`, `CryptoPunksOrderHandler`, `checkAssetType`, `checkLazyAssetType` and `FEE_CONFIG_URL` are imported by index.ts but never used. Likewise `approveErc20`, `approveErc721` and `approveCryptoPunk` in approve.ts. None of them is modelled.
- The `@rarible/action` library is not modelled, only the stage sequence it runs: `before` wraps the first stage, and the stages run in order.
- Promises and `async`: every operation runs to completion before the next starts.
- The wallet's `getFrom` and `getChainId` always answer, and they give the same answer every time they are asked. `toAddress` is taken as the identity.
- `getCallInfo` always answers, with a contract that is fixed for the encoded call.
- The `send` function and the `ethereum` and `send` arguments of `approve` are only passed on to collaborators. They are folded into the collaborator functions.
- `sdkConfig`: the constructor stores it but never reads it or passes it on, so it has no counterpart.
- The `api` parameter of `bid` is never used, so it has no counterpart.
- `FillOrderRequest` keeps only the order, the amount and the `infinite` flag. The per-protocol request variants and their extra fields (`payouts`, `originFees` and the like) are read only inside the order handlers, which are not part of this model.
- The method rebinding with `.bind(this)` in the constructor has no counterpart: the model has no unbound receivers.
- Error messages, with their `JSON.stringify` snapshots, and `console.debug`: only the kind of error is kept, together with the offending tag or the two chain ids.
- `getRequiredWallet` (common/get-required-wallet) is not part of this model, so its error is a kind of its own, `WalletRequired`.
- `randomWord()`: the bid's salt is a parameter, a natural number, standing for the decimal rendering of the random word.
- bignumber.js and `toBn`: price, amount and asset values are integers. PlaceBid: a fractional price (a `BN.Value` such as "0.5") is not modelled.
- BuyTxValue: renders every amount in plain decimal, without the exponential notation JavaScript numbers switch to at 1e21.
- The API-client records are not part of this model. For legacy, OpenSea and CryptoPunk orders the `data` payload is kept only by its `dataType`. Only the asset-type fields this code reads are spelled out. An order's `salt` is a natural number.
- check-asset-type, upsert-order and eip712 are not part of this model:
  - an asset-type request is either a complete asset type or a contract and token id;
  - the second argument of `upsertOrder` is taken to be its approval flag;
  - the domain template, the NFT struct types and the primary type are parameters.
- SignNftTypedData: indexing an empty `creators` array throws a TypeError in JavaScript. Here that is the error `NoCreator`, raised before any signing call.
