/**
 * The order-fill dispatcher and its staged pipeline
 * (packages/sdk/src/order/fill-order/index.ts).
 *
 * The Rarible V2 order handler is an external collaborator: its operations
 * are the function fields of `V2Handler`. Every call the filler makes into
 * the wallet or the handler is recorded as a `Call`, so the model can state
 * in which order the calls happen and that a failure stops all later ones.
 */
module FillOrder {
  import opened Wrappers
  import opened OrderTypes
  import opened Errors
  import opened Provider
  import opened ChainCheck
  import opened Approval
  import opened Decimal

  /** A fill request: the order to fill, the amount to fill, and the optional `infinite` approval flag. */
  datatype FillOrderRequest = FillOrderRequest(order: SimpleOrder, amount: int, infinite: Option<bool>)

  /** The argument of `getBuyTx`: a fill request and the address that will send the transaction. */
  datatype GetOrderBuyTxRequest = GetOrderBuyTxRequest(request: FillOrderRequest, from: Address)

  /** What `getCallInfo()` reveals about an encoded call: the contract it is sent to. */
  datatype CallInfo = CallInfo(contract: Address)

  /** An encoded contract call: its call data and its call information. */
  datatype FunctionCall = FunctionCall(data: Binary, callInfo: CallInfo)

  /** The call options; `value` is the native currency attached to the call, if any. */
  datatype SendOptions = SendOptions(value: Option<nat>)

  /** What the handler's `getTransactionData` returns. */
  datatype OrderFillSendData = OrderFillSendData(functionCall: FunctionCall, options: SendOptions)

  /** What the filler's `getTransactionData` returns. */
  datatype OrderFillTransactionData = OrderFillTransactionData(data: Binary, options: SendOptions)

  /** What `getBuyTx` returns: a transaction ready to be sent by someone else. */
  datatype TransactionData = TransactionData(from: Address, value: string, data: Binary, to: Address)

  /** The state carried from the "approve" stage to the "send-tx" stage: `{request, inverted}`. */
  datatype Carry = Carry(request: FillOrderRequest, inverted: SimpleOrder)

  /** The operations of `RaribleV2OrderHandler`, each of which may fail. */
  datatype V2Handler = V2Handler(
    invert: (FillOrderRequest, Address) -> Result<SimpleOrder>,
    approve: (SimpleOrder, bool) -> Result<Option<Transaction>>,
    sendTransaction: (SimpleOrder, SimpleOrder) -> Result<Transaction>,
    getTransactionData: (SimpleOrder, SimpleOrder) -> Result<OrderFillSendData>,
    getOrderFee: SimpleOrder -> Result<int>,
    getBaseOrderFee: Result<int>)

  /** The filler's configuration: the chain id to enforce and the contract addresses. */
  datatype FillerConfig = FillerConfig(chainId: int, exchangeV2: Address, transferProxies: TransferProxies)

  /** Everything an operation of the filler reads: the optional wallet, the configuration, the V2 handler. */
  datatype FillerContext = FillerContext(ethereum: Option<Wallet>, config: FillerConfig, v2Handler: V2Handler)

  /** One call into the wallet or the V2 handler, with its arguments. */
  datatype Call =
    | WalletGetChainId
    | WalletGetFrom
    | HandlerInvert(request: FillOrderRequest, from: Address)
    | HandlerApprove(inverted: SimpleOrder, infinite: bool)
    | HandlerSendTransaction(order: SimpleOrder, inverted: SimpleOrder)
    | HandlerGetTransactionData(order: SimpleOrder, inverted: SimpleOrder)
    | HandlerGetOrderFee(order: SimpleOrder)
    | HandlerGetBaseOrderFee
    | GetCallInfo(functionCall: FunctionCall)

  /** The result of an effectful step together with the calls it made, oldest first. */
  datatype Traced<T> = Traced(result: Result<T>, calls: seq<Call>)

  /** `Boolean(request.infinite)`: an absent flag means a non-infinite approval. */
  function IsInfinite(request: FillOrderRequest): bool
  {
    request.infinite == Some(true)
  }

  // ---------------------------------------------------------------------------
  // Dispatch
  // ---------------------------------------------------------------------------

  /** The protocol tags that have a handler: the filler holds only the Rarible V2 handler. */
  const Registered: set<OrderType> := {RaribleV2}

  /**
   * The contract every dispatch operation keeps: for a registered tag it
   * makes exactly one call, into the handler, and returns what the handler
   * returns; for any other tag it fails with `unsupported` and calls nothing.
   */
  ghost predicate Dispatches<T>(tag: OrderType, r: Traced<T>, call: Call, delegated: Result<T>, unsupported: Error)
  {
    if tag in Registered then r == Traced(delegated, [call])
    else r == Traced(Err(unsupported), [])
  }

  /** `invertOrder`: routes on the tag of the request's order. */
  function InvertOrder(h: V2Handler, request: FillOrderRequest, from: Address): (r: Traced<SimpleOrder>)
    ensures Dispatches(request.order.orderType, r, HandlerInvert(request, from), h.invert(request, from),
                       UnsupportedOrder(request.order.orderType))
  {
    match request.order.orderType
    case RaribleV2 => Traced(h.invert(request, from), [HandlerInvert(request, from)])
    case _ => Traced(Err(UnsupportedOrder(request.order.orderType)), [])
  }

  /** `approveOrder`: routes on the tag of the inverted order. */
  function ApproveOrder(h: V2Handler, inverted: SimpleOrder, isInfinite: bool): (r: Traced<Option<Transaction>>)
    ensures Dispatches(inverted.orderType, r, HandlerApprove(inverted, isInfinite), h.approve(inverted, isInfinite),
                       UnsupportedOrder(inverted.orderType))
  {
    match inverted.orderType
    case RaribleV2 => Traced(h.approve(inverted, isInfinite), [HandlerApprove(inverted, isInfinite)])
    case _ => Traced(Err(UnsupportedOrder(inverted.orderType)), [])
  }

  /** `sendTransaction`: routes on the tag of the inverted order and passes the request's order on. */
  function SendTransaction(h: V2Handler, request: FillOrderRequest, inverted: SimpleOrder): (r: Traced<Transaction>)
    ensures Dispatches(inverted.orderType, r, HandlerSendTransaction(request.order, inverted),
                       h.sendTransaction(request.order, inverted), UnsupportedOrder(inverted.orderType))
  {
    match inverted.orderType
    case RaribleV2 =>
      Traced(h.sendTransaction(request.order, inverted), [HandlerSendTransaction(request.order, inverted)])
    case _ => Traced(Err(UnsupportedOrder(inverted.orderType)), [])
  }

  /** `getTransactionRequestData`: routes on the tag of the request's order. */
  function GetTransactionRequestData(h: V2Handler, request: FillOrderRequest, inverted: SimpleOrder)
    : (r: Traced<OrderFillSendData>)
    ensures Dispatches(request.order.orderType, r, HandlerGetTransactionData(request.order, inverted),
                       h.getTransactionData(request.order, inverted), UnsupportedRequest(request.order.orderType))
  {
    match request.order.orderType
    case RaribleV2 =>
      Traced(h.getTransactionData(request.order, inverted), [HandlerGetTransactionData(request.order, inverted)])
    case _ => Traced(Err(UnsupportedRequest(request.order.orderType)), [])
  }

  /** `getOrderFee`: routes on the order's tag. */
  function GetOrderFee(h: V2Handler, order: SimpleOrder): (r: Traced<int>)
    ensures Dispatches(order.orderType, r, HandlerGetOrderFee(order), h.getOrderFee(order),
                       UnsupportedOrder(order.orderType))
  {
    match order.orderType
    case RaribleV2 => Traced(h.getOrderFee(order), [HandlerGetOrderFee(order)])
    case _ => Traced(Err(UnsupportedOrder(order.orderType)), [])
  }

  /** `getBaseOrderFillFee`: routes on the order's tag; the handler's base fee does not depend on the order. */
  function GetBaseOrderFillFee(h: V2Handler, order: SimpleOrder): (r: Traced<int>)
    ensures Dispatches(order.orderType, r, HandlerGetBaseOrderFee, h.getBaseOrderFee,
                       UnsupportedOrder(order.orderType))
  {
    match order.orderType
    case RaribleV2 => Traced(h.getBaseOrderFee, [HandlerGetBaseOrderFee])
    case _ => Traced(Err(UnsupportedOrder(order.orderType)), [])
  }

  /**
   * Only RARIBLE_V2 is registered: for any other tag, none of the six
   * dispatch operations reaches a handler.
   */
  lemma UnregisteredTagsNeverReachHandler(h: V2Handler, request: FillOrderRequest, inverted: SimpleOrder,
                                          from: Address, isInfinite: bool)
    ensures request.order.orderType != RaribleV2 ==>
              InvertOrder(h, request, from).calls == [] &&
              GetTransactionRequestData(h, request, inverted).calls == [] &&
              GetOrderFee(h, request.order).calls == [] &&
              GetBaseOrderFillFee(h, request.order).calls == []
    ensures inverted.orderType != RaribleV2 ==>
              ApproveOrder(h, inverted, isInfinite).calls == [] &&
              SendTransaction(h, request, inverted).calls == []
    ensures forall t :: t in Registered <==> t == RaribleV2
  {
  }

  // ---------------------------------------------------------------------------
  // The staged pipeline: the guard, "approve", "send-tx"
  // ---------------------------------------------------------------------------

  /** `checkChainId(this.ethereum, this.config)`: the chain query is made only when a wallet is present. */
  function ChainGuard(ctx: FillerContext): Traced<bool>
  {
    Traced(CheckChainId(ctx.ethereum, ctx.config.chainId), if ctx.ethereum.Some? then [WalletGetChainId] else [])
  }

  /**
   * The calls of an "approve" stage for the filler address `from`, cut at the
   * first failure: the address query; the inversion, only for a Rarible V2
   * order; the approval, only for a successfully inverted Rarible V2 order.
   */
  function ApproveSchedule(h: V2Handler, request: FillOrderRequest, from: Address): seq<Call>
  {
    var inverted := h.invert(request, from);
    [WalletGetFrom] +
    (if request.order.orderType != RaribleV2 then []
     else [HandlerInvert(request, from)] +
          (if inverted.Ok? && inverted.value.orderType == RaribleV2
           then [HandlerApprove(inverted.value, IsInfinite(request))] else []))
  }

  /**
   * The error of the first step of "approve" that fails for the filler
   * address `from`: the tag of the order, the inversion, the tag of the
   * inverted order, the approval; `None` when none fails.
   */
  ghost function ApproveFailure(h: V2Handler, request: FillOrderRequest, from: Address): Option<Error>
  {
    var inverted := h.invert(request, from);
    if request.order.orderType != RaribleV2 then Some(UnsupportedOrder(request.order.orderType))
    else if inverted.Err? then Some(inverted.error)
    else if inverted.value.orderType != RaribleV2 then Some(UnsupportedOrder(inverted.value.orderType))
    else
      var approval := h.approve(inverted.value, IsInfinite(request));
      if approval.Err? then Some(approval.error) else None
  }

  /**
   * The run of the "approve" stage: without a wallet it fails before any
   * call; otherwise it asks the wallet for the filler's address, inverts the
   * order for that address, and asks for approval with `Boolean(infinite)`.
   * Its calls never leave that order and stop at the first failure; on
   * success the carried state is the request itself and the handler's
   * inverted order, both of the Rarible V2 protocol.
   */
  function ApproveRun(ctx: FillerContext, request: FillOrderRequest): (r: Traced<Carry>)
    ensures ctx.ethereum.None? ==> r == Traced(Err(WalletUndefined), [])
    ensures ctx.ethereum.Some? && request.order.orderType != RaribleV2 ==>
              r == Traced(Err(UnsupportedOrder(request.order.orderType)), [WalletGetFrom])
    ensures ctx.ethereum.Some? ==> r.calls == ApproveSchedule(ctx.v2Handler, request, ctx.ethereum.value.account)
    ensures ctx.ethereum.Some? && r.result.Err? ==>
              ApproveFailure(ctx.v2Handler, request, ctx.ethereum.value.account) == Some(r.result.error)
    ensures r.result.Ok? <==>
              ctx.ethereum.Some? && request.order.orderType == RaribleV2 &&
              var inverted := ctx.v2Handler.invert(request, ctx.ethereum.value.account);
              inverted.Ok? && inverted.value.orderType == RaribleV2 &&
              ctx.v2Handler.approve(inverted.value, IsInfinite(request)).Ok?
    ensures r.result.Ok? ==>
              ctx.ethereum.Some? &&
              r.calls == ApproveSchedule(ctx.v2Handler, request, ctx.ethereum.value.account) &&
              r.result.value.request == request &&
              ctx.v2Handler.invert(request, ctx.ethereum.value.account) == Ok(r.result.value.inverted) &&
              request.order.orderType == RaribleV2 && r.result.value.inverted.orderType == RaribleV2
  {
    if ctx.ethereum.None? then Traced(Err(WalletUndefined), [])
    else
      var from := ctx.ethereum.value.account;
      var inverted := InvertOrder(ctx.v2Handler, request, from);
      if inverted.result.Err? then Traced(Err(inverted.result.error), [WalletGetFrom] + inverted.calls)
      else
        var approval := ApproveOrder(ctx.v2Handler, inverted.result.value, IsInfinite(request));
        var calls := [WalletGetFrom] + inverted.calls + approval.calls;
        if approval.result.Err? then Traced(Err(approval.result.error), calls)
        else Traced(Ok(Carry(request, inverted.result.value)), calls)
  }

  /**
   * The "approve" stage as the pipeline runs it, with the `before` guard in
   * front: a failed chain check ends it after the chain query alone.
   */
  function GuardedApprove(ctx: FillerContext, request: FillOrderRequest): (r: Traced<Carry>)
    ensures ctx.ethereum.None? ==> r == Traced(Err(WalletRequired), [])
    ensures ctx.ethereum.Some? && ctx.ethereum.value.chainId != ctx.config.chainId ==>
              r == Traced(Err(ChainMismatch(ctx.config.chainId, ctx.ethereum.value.chainId)), [WalletGetChainId])
    ensures ctx.ethereum.Some? && ctx.ethereum.value.chainId == ctx.config.chainId ==>
              r == Traced(ApproveRun(ctx, request).result, [WalletGetChainId] + ApproveRun(ctx, request).calls)
  {
    var guard := ChainGuard(ctx);
    if guard.result.Err? then Traced(Err(guard.result.error), guard.calls)
    else
      var approved := ApproveRun(ctx, request);
      Traced(approved.result, guard.calls + approved.calls)
  }

  /**
   * The run of the "send-tx" stage: it submits exactly the carried
   * `{request, inverted}`, making at most that one handler call. A Rarible V2
   * inverted order is always submitted and the handler's answer returned;
   * any other is refused before the call.
   */
  function SendTxRun(ctx: FillerContext, carry: Carry): (r: Traced<Transaction>)
    ensures r.calls <= [HandlerSendTransaction(carry.request.order, carry.inverted)]
    ensures carry.inverted.orderType == RaribleV2 ==>
              r == Traced(ctx.v2Handler.sendTransaction(carry.request.order, carry.inverted),
                          [HandlerSendTransaction(carry.request.order, carry.inverted)])
    ensures carry.inverted.orderType != RaribleV2 ==>
              r == Traced(Err(UnsupportedOrder(carry.inverted.orderType)), [])
    ensures r.result.Ok? ==>
              r.calls == [HandlerSendTransaction(carry.request.order, carry.inverted)] &&
              ctx.v2Handler.sendTransaction(carry.request.order, carry.inverted) == r.result
  {
    SendTransaction(ctx.v2Handler, carry.request, carry.inverted)
  }

  /** The two stages of the fill action, in order: "approve" then "send-tx". */
  datatype StageId = ApproveStage | SendTxStage

  /** The state of one fill: before "approve", between the stages, done, or halted in a stage. */
  datatype FillState =
    | Start(request: FillOrderRequest)
    | Approved(carry: Carry)
    | Done(tx: Transaction)
    | Halted(stage: StageId, error: Error)
  {
    /** How many stages have been left behind; a step always increases it. */
    function Progress(): nat
    {
      match this
      case Start(_) => 0
      case Approved(_) => 1
      case Halted(_, _) => 2
      case Done(_) => 2
    }

    /** No stage is left to run. */
    predicate IsFinal()
    {
      Done? || Halted?
    }
  }

  /** A state together with the calls made to reach it. */
  datatype Run = Run(state: FillState, calls: seq<Call>)

  /**
   * One stage of the fill action. From `Start` it runs the guarded "approve"
   * stage and moves to `Approved` with the stage's carried state exactly when
   * that stage succeeds, or halts in that stage with its error; from
   * `Approved` it runs "send-tx" on exactly the carried state and moves to
   * `Done` with the handler's transaction exactly when the submission
   * succeeds, or halts there with its error. A step always makes progress.
   */
  function Step(ctx: FillerContext, s: FillState): (r: Run)
    requires !s.IsFinal()
    ensures r.state.Progress() > s.Progress()
    ensures s.Start? ==>
              var approved := GuardedApprove(ctx, s.request);
              r.calls == approved.calls &&
              (r.state.Approved? <==> approved.result.Ok?) &&
              (r.state.Approved? ==> r.state.carry == approved.result.value && r.state.carry.request == s.request) &&
              (!r.state.Approved? ==> r.state == Halted(ApproveStage, approved.result.error))
    ensures s.Approved? ==>
              var sent := ctx.v2Handler.sendTransaction(s.carry.request.order, s.carry.inverted);
              r.calls == SendTxRun(ctx, s.carry).calls &&
              (s.carry.inverted.orderType == RaribleV2 ==>
                 r.calls == [HandlerSendTransaction(s.carry.request.order, s.carry.inverted)]) &&
              (r.state.Done? <==> s.carry.inverted.orderType == RaribleV2 && sent.Ok?) &&
              (r.state.Done? ==> Ok(r.state.tx) == sent) &&
              (s.carry.inverted.orderType != RaribleV2 ==>
                 r == Run(Halted(SendTxStage, UnsupportedOrder(s.carry.inverted.orderType)), [])) &&
              (s.carry.inverted.orderType == RaribleV2 && sent.Err? ==> r.state == Halted(SendTxStage, sent.error))
  {
    match s
    case Start(request) =>
      var approved := GuardedApprove(ctx, request);
      var next := if approved.result.Ok? then Approved(approved.result.value) else Halted(ApproveStage, approved.result.error);
      Run(next, approved.calls)
    case Approved(carry) =>
      var sent := SendTxRun(ctx, carry);
      var next := if sent.result.Ok? then Done(sent.result.value) else Halted(SendTxStage, sent.result.error);
      Run(next, sent.calls)
  }

  /**
   * The calls of a fill on the configured chain, cut at the first failure:
   * the chain query, the calls of the "approve" stage, and the submission,
   * only when "approve" did not fail.
   */
  function FillSchedule(h: V2Handler, request: FillOrderRequest, from: Address): seq<Call>
  {
    var inverted := h.invert(request, from);
    [WalletGetChainId] + ApproveSchedule(h, request, from) +
    (if request.order.orderType == RaribleV2 && inverted.Ok? && inverted.value.orderType == RaribleV2 &&
        h.approve(inverted.value, IsInfinite(request)).Ok?
     then [HandlerSendTransaction(request.order, inverted.value)] else [])
  }

  /**
   * On the configured chain, the final state of a fill halts with the error
   * of the first step that failed: the tag of the order, the inversion, the
   * tag of the inverted order, the approval (all in "approve"), then the
   * submission (in "send-tx"); if none failed, it is `Done` with the
   * submitted transaction.
   */
  ghost predicate FirstFailure(h: V2Handler, request: FillOrderRequest, from: Address, s: FillState)
  {
    match ApproveFailure(h, request, from)
    case Some(e) => s == Halted(ApproveStage, e)
    case None =>
      var sent := h.sendTransaction(request.order, h.invert(request, from).value);
      if sent.Err? then s == Halted(SendTxStage, sent.error) else s == Done(sent.value)
  }

  /**
   * The whole fill action: steps from `Start` until a final state. The chain
   * check comes first; without a wallet, or on another chain, the fill stops
   * before any other call. Otherwise the calls follow `FillSchedule` and stop
   * at the first failure, and a fill that is `Done` made every scheduled call
   * and returns what the handler's submission returned.
   */
  function FillPipeline(ctx: FillerContext, request: FillOrderRequest): (r: Run)
    ensures r.state.IsFinal()
    ensures ctx.ethereum.None? ==> r == Run(Halted(ApproveStage, WalletRequired), [])
    ensures ctx.ethereum.Some? && ctx.ethereum.value.chainId != ctx.config.chainId ==>
              r == Run(Halted(ApproveStage, ChainMismatch(ctx.config.chainId, ctx.ethereum.value.chainId)), [WalletGetChainId])
    ensures ctx.ethereum.Some? ==> r.calls <= FillSchedule(ctx.v2Handler, request, ctx.ethereum.value.account)
    ensures r.state.Done? ==>
              ctx.ethereum.Some? &&
              r.calls == FillSchedule(ctx.v2Handler, request, ctx.ethereum.value.account) &&
              var inverted := ctx.v2Handler.invert(request, ctx.ethereum.value.account);
              inverted.Ok? && Ok(r.state.tx) == ctx.v2Handler.sendTransaction(request.order, inverted.value)
    ensures r.state.Done? <==>
              ctx.ethereum.Some? && ctx.ethereum.value.chainId == ctx.config.chainId &&
              request.order.orderType == RaribleV2 &&
              var inverted := ctx.v2Handler.invert(request, ctx.ethereum.value.account);
              inverted.Ok? && inverted.value.orderType == RaribleV2 &&
              ctx.v2Handler.approve(inverted.value, IsInfinite(request)).Ok? &&
              ctx.v2Handler.sendTransaction(request.order, inverted.value).Ok?
    ensures ctx.ethereum.Some? && ctx.ethereum.value.chainId == ctx.config.chainId ==>
              r.calls == FillSchedule(ctx.v2Handler, request, ctx.ethereum.value.account) &&
              FirstFailure(ctx.v2Handler, request, ctx.ethereum.value.account, r.state)
  {
    var first := Step(ctx, Start(request));
    if first.state.IsFinal() then first
    else
      var second := Step(ctx, first.state);
      Run(second.state, first.calls + second.calls)
  }

  /**
   * Call ordering in every fill, whatever the wallet and the handler answer:
   * the chain query comes first; a submission is the last call, made right
   * after the approval of the very order it submits; and a fill halted in
   * "approve" submits nothing.
   */
  lemma SubmissionFollowsApproval(ctx: FillerContext, request: FillOrderRequest)
    ensures var r := FillPipeline(ctx, request);
            (|r.calls| > 0 ==> r.calls[0] == WalletGetChainId) &&
            (forall j :: 0 <= j < |r.calls| && r.calls[j].HandlerSendTransaction? ==>
               j == |r.calls| - 1 && j >= 1 &&
               r.calls[j] == HandlerSendTransaction(request.order, r.calls[j].inverted) &&
               r.calls[j - 1] == HandlerApprove(r.calls[j].inverted, IsInfinite(request))) &&
            (r.state.Halted? && r.state.stage == ApproveStage ==>
               forall c :: c in r.calls ==> !c.HandlerSendTransaction?)
  {
  }

  /** What a caller of the fill action receives: the submitted transaction or the error. */
  function Outcome(s: FillState): Result<Transaction>
    requires s.IsFinal()
  {
    if s.Done? then Ok(s.tx) else Err(s.error)
  }

  // ---------------------------------------------------------------------------
  // The non-submitting paths
  // ---------------------------------------------------------------------------

  /** The value attached to a buy transaction: `options.value?.toString() || "0"`. */
  function BuyTxValue(value: Option<nat>): (s: string)
    ensures ParseDecimal(s) == value.GetOr(0)
    ensures s == "0" <==> value.None? || value == Some(0)
    ensures |s| >= 1 && forall i :: 0 <= i < |s| ==> '0' <= s[i] <= '9'
    ensures s[0] == '0' ==> s == "0"
    ensures value.Some? ==> s == DecimalString(value.value)
  {
    match value
    case None => "0"
    case Some(v) =>
      // `toString()` is never empty, so the `|| "0"` fallback applies only to an absent value.
      ParseDecimalString(v);
      DecimalString(v)
  }

  /**
   * `getBuyTx`: inverts the order for the given sender and asks the handler
   * for the call, without touching the wallet (no chain check, no address
   * query). On success the transaction is sent from the given address to the
   * call's contract, with the call's data and the options' value rendered in
   * decimal ("0" when absent).
   */
  function BuyTx(h: V2Handler, buy: GetOrderBuyTxRequest): (r: Traced<TransactionData>)
    ensures forall c :: c in r.calls ==> !c.WalletGetChainId? && !c.WalletGetFrom?
    ensures r.result.Ok? <==>
              buy.request.order.orderType == RaribleV2 &&
              var inverted := h.invert(buy.request, buy.from);
              inverted.Ok? && h.getTransactionData(buy.request.order, inverted.value).Ok?
    ensures buy.request.order.orderType != RaribleV2 ==>
              r == Traced(Err(UnsupportedOrder(buy.request.order.orderType)), [])
    ensures buy.request.order.orderType == RaribleV2 ==>
              var inverted := h.invert(buy.request, buy.from);
              (inverted.Err? ==> r == Traced(Err(inverted.error), [HandlerInvert(buy.request, buy.from)])) &&
              (inverted.Ok? ==>
                 var sendData := h.getTransactionData(buy.request.order, inverted.value);
                 sendData.Err? ==>
                   r == Traced(Err(sendData.error), [HandlerInvert(buy.request, buy.from),
                                                     HandlerGetTransactionData(buy.request.order, inverted.value)]))
    ensures r.result.Ok? ==>
              var inverted := h.invert(buy.request, buy.from);
              inverted.Ok? &&
              var sendData := h.getTransactionData(buy.request.order, inverted.value);
              sendData.Ok? &&
              var call := sendData.value.functionCall;
              r.calls == [HandlerInvert(buy.request, buy.from),
                          HandlerGetTransactionData(buy.request.order, inverted.value),
                          GetCallInfo(call)] &&
              r.result.value.from == buy.from &&
              r.result.value.data == call.data &&
              r.result.value.to == call.callInfo.contract &&
              r.result.value.value == BuyTxValue(sendData.value.options.value)
  {
    var inverted := InvertOrder(h, buy.request, buy.from);
    if inverted.result.Err? then Traced(Err(inverted.result.error), inverted.calls)
    else
      var sendData := GetTransactionRequestData(h, buy.request, inverted.result.value);
      if sendData.result.Err? then Traced(Err(sendData.result.error), inverted.calls + sendData.calls)
      else
        var call := sendData.result.value.functionCall;
        var callInfo := call.callInfo;
        var value := BuyTxValue(sendData.result.value.options.value);
        Traced(Ok(TransactionData(buy.from, value, call.data, callInfo.contract)),
               inverted.calls + sendData.calls + [GetCallInfo(call)])
  }

  /**
   * `getTransactionData`: without a wallet it fails before any call; then the
   * chain check runs before the address query and the inversion, and a
   * mismatch stops it there. On success it returns the handler's call data
   * and options unmodified.
   */
  function TransactionDataOf(ctx: FillerContext, request: FillOrderRequest): (r: Traced<OrderFillTransactionData>)
    ensures ctx.ethereum.None? ==> r == Traced(Err(WalletUndefined), [])
    ensures r.result.Ok? <==>
              ctx.ethereum.Some? && ctx.ethereum.value.chainId == ctx.config.chainId &&
              request.order.orderType == RaribleV2 &&
              var inverted := ctx.v2Handler.invert(request, ctx.ethereum.value.account);
              inverted.Ok? && ctx.v2Handler.getTransactionData(request.order, inverted.value).Ok?
    ensures ctx.ethereum.Some? && ctx.ethereum.value.chainId == ctx.config.chainId ==>
              var from := ctx.ethereum.value.account;
              var inverted := ctx.v2Handler.invert(request, from);
              (request.order.orderType != RaribleV2 ==>
                 r == Traced(Err(UnsupportedOrder(request.order.orderType)), [WalletGetChainId, WalletGetFrom])) &&
              (request.order.orderType == RaribleV2 && inverted.Err? ==>
                 r == Traced(Err(inverted.error), [WalletGetChainId, WalletGetFrom, HandlerInvert(request, from)])) &&
              (request.order.orderType == RaribleV2 && inverted.Ok? ==>
                 var sendData := ctx.v2Handler.getTransactionData(request.order, inverted.value);
                 sendData.Err? ==>
                   r == Traced(Err(sendData.error), [WalletGetChainId, WalletGetFrom, HandlerInvert(request, from),
                                                     HandlerGetTransactionData(request.order, inverted.value)]))
    ensures ctx.ethereum.Some? ==> |r.calls| >= 1 && r.calls[0] == WalletGetChainId
    ensures ctx.ethereum.Some? && ctx.ethereum.value.chainId != ctx.config.chainId ==>
              r == Traced(Err(ChainMismatch(ctx.config.chainId, ctx.ethereum.value.chainId)), [WalletGetChainId])
    ensures r.result.Ok? ==>
              ctx.ethereum.Some? &&
              var from := ctx.ethereum.value.account;
              var inverted := ctx.v2Handler.invert(request, from);
              inverted.Ok? &&
              var sendData := ctx.v2Handler.getTransactionData(request.order, inverted.value);
              sendData.Ok? &&
              r.calls == [WalletGetChainId, WalletGetFrom, HandlerInvert(request, from),
                          HandlerGetTransactionData(request.order, inverted.value)] &&
              r.result.value == OrderFillTransactionData(sendData.value.functionCall.data, sendData.value.options)
  {
    if ctx.ethereum.None? then Traced(Err(WalletUndefined), [])
    else
      var guard := ChainGuard(ctx);
      if guard.result.Err? then Traced(Err(guard.result.error), guard.calls)
      else
        var from := ctx.ethereum.value.account;
        var inverted := InvertOrder(ctx.v2Handler, request, from);
        var calls := guard.calls + [WalletGetFrom] + inverted.calls;
        if inverted.result.Err? then Traced(Err(inverted.result.error), calls)
        else
          var sendData := GetTransactionRequestData(ctx.v2Handler, request, inverted.result.value);
          if sendData.result.Err? then Traced(Err(sendData.result.error), calls + sendData.calls)
          else
            Traced(Ok(OrderFillTransactionData(sendData.result.value.functionCall.data, sendData.result.value.options)),
                   calls + sendData.calls)
  }

  /**
   * On the configured chain, `getTransactionData` and `getBuyTx` for the
   * wallet's own address agree: both succeed or both fail, with the same call
   * data and the same attached value, and `getBuyTx` makes the same handler
   * calls without the two wallet queries, then asks for the call information.
   */
  lemma {:induction false} TransactionDataAgreesWithBuyTx(ctx: FillerContext, request: FillOrderRequest)
    requires ctx.ethereum.Some? && ctx.ethereum.value.chainId == ctx.config.chainId
    ensures var t := TransactionDataOf(ctx, request);
            var b := BuyTx(ctx.v2Handler, GetOrderBuyTxRequest(request, ctx.ethereum.value.account));
            (t.result.Ok? <==> b.result.Ok?) &&
            (t.result.Err? ==> b.result == Err(t.result.error) && t.calls == [WalletGetChainId, WalletGetFrom] + b.calls) &&
            (t.result.Ok? ==>
               b.result.value.data == t.result.value.data &&
               b.result.value.value == BuyTxValue(t.result.value.options.value) &&
               b.result.value.from == ctx.ethereum.value.account &&
               t.calls + [b.calls[|b.calls| - 1]] == [WalletGetChainId, WalletGetFrom] + b.calls)
  {
  }

  // ---------------------------------------------------------------------------
  // The filler object
  // ---------------------------------------------------------------------------

  /**
   * `OrderFiller`: its configuration and handler are fixed at construction;
   * `calls` is the history of calls its operations have made, oldest first.
   */
  class OrderFiller {
    const ethereum: Option<Wallet>
    const config: FillerConfig
    const v2Handler: V2Handler
    var calls: seq<Call>

    /**
     * Builds the filler and its V2 handler (`new RaribleV2OrderHandler(...)`)
     * from the same wallet and configuration.
     */
    constructor (ethereum: Option<Wallet>, config: FillerConfig,
                 newV2Handler: (Option<Wallet>, FillerConfig) -> V2Handler)
      ensures this.ethereum == ethereum && this.config == config
      ensures v2Handler == newV2Handler(ethereum, config)
      ensures calls == []
    {
      this.ethereum := ethereum;
      this.config := config;
      this.v2Handler := newV2Handler(ethereum, config);
      calls := [];
    }

    /** The immutable context the operations read. */
    function Context(): FillerContext
    {
      FillerContext(ethereum, config, v2Handler)
    }

    /** Awaits one effectful step: its calls are made now, and its result is handed back. */
    method Await<T>(step: Traced<T>) returns (r: Result<T>)
      modifies this
      ensures calls == old(calls) + step.calls
      ensures r == step.result
    {
      calls := calls + step.calls;
      r := step.result;
    }

    /** The run of the "approve" stage (the `run` of the stage with id "approve"). */
    method RunApprove(request: FillOrderRequest) returns (r: Result<Carry>)
      modifies this
      ensures calls == old(calls) + ApproveRun(Context(), request).calls
      ensures r == ApproveRun(Context(), request).result
      ensures ethereum.None? ==> r == Err(WalletUndefined) && calls == old(calls)
    {
      if ethereum.None? {
        return Err(WalletUndefined);
      }
      calls := calls + [WalletGetFrom];
      var from := ethereum.value.account;
      var inverted := Await(InvertOrder(v2Handler, request, from));
      if inverted.Err? {
        return Err(inverted.error);
      }
      var approval := Await(ApproveOrder(v2Handler, inverted.value, IsInfinite(request)));
      if approval.Err? {
        return Err(approval.error);
      }
      return Ok(Carry(request, inverted.value));
    }

    /** The "approve" stage behind the `before` guard, which runs `checkChainId` first. */
    method RunGuardedApprove(request: FillOrderRequest) returns (r: Result<Carry>)
      modifies this
      ensures calls == old(calls) + GuardedApprove(Context(), request).calls
      ensures r == GuardedApprove(Context(), request).result
    {
      var checked := Await(ChainGuard(Context()));
      if checked.Err? {
        return Err(checked.error);
      }
      r := RunApprove(request);
    }

    /** The run of the "send-tx" stage on the carried `{request, inverted}`. */
    method RunSendTx(carry: Carry) returns (r: Result<Transaction>)
      modifies this
      ensures calls == old(calls) + SendTxRun(Context(), carry).calls
      ensures r == SendTxRun(Context(), carry).result
    {
      r := Await(SendTransaction(v2Handler, carry.request, carry.inverted));
    }

    /** Runs the next stage of a fill, so that a caller can stop between "approve" and "send-tx". */
    method RunStage(s: FillState) returns (next: FillState)
      requires !s.IsFinal()
      modifies this
      ensures next == Step(Context(), s).state
      ensures calls == old(calls) + Step(Context(), s).calls
    {
      match s {
        case Start(request) =>
          var approved := RunGuardedApprove(request);
          next := if approved.Ok? then Approved(approved.value) else Halted(ApproveStage, approved.error);
        case Approved(carry) =>
          var sent := RunSendTx(carry);
          next := if sent.Ok? then Done(sent.value) else Halted(SendTxStage, sent.error);
      }
    }

    /** The action `getFillAction()` builds: every stage in turn, from the request to a final state. */
    method RunFillAction(request: FillOrderRequest) returns (r: Result<Transaction>)
      modifies this
      ensures r == Outcome(FillPipeline(Context(), request).state)
      ensures calls == old(calls) + FillPipeline(Context(), request).calls
    {
      var s := RunStage(Start(request));
      if !s.IsFinal() {
        s := RunStage(s);
      }
      r := Outcome(s);
    }

    /** `fill` (deprecated): the fill action. */
    method Fill(request: FillOrderRequest) returns (r: Result<Transaction>)
      modifies this
      ensures r == Outcome(FillPipeline(Context(), request).state)
      ensures calls == old(calls) + FillPipeline(Context(), request).calls
    {
      r := RunFillAction(request);
    }

    /** `buy`: the same fill action. */
    method Buy(request: FillOrderRequest) returns (r: Result<Transaction>)
      modifies this
      ensures r == Outcome(FillPipeline(Context(), request).state)
      ensures calls == old(calls) + FillPipeline(Context(), request).calls
    {
      r := RunFillAction(request);
    }

    /** `acceptBid`: the same fill action. */
    method AcceptBid(request: FillOrderRequest) returns (r: Result<Transaction>)
      modifies this
      ensures r == Outcome(FillPipeline(Context(), request).state)
      ensures calls == old(calls) + FillPipeline(Context(), request).calls
    {
      r := RunFillAction(request);
    }

    /** `getBuyTx`: inversion and call construction for a given sender, without the wallet. */
    method GetBuyTx(buy: GetOrderBuyTxRequest) returns (r: Result<TransactionData>)
      modifies this
      ensures calls == old(calls) + BuyTx(v2Handler, buy).calls
      ensures r == BuyTx(v2Handler, buy).result
    {
      var inverted := Await(InvertOrder(v2Handler, buy.request, buy.from));
      if inverted.Err? {
        return Err(inverted.error);
      }
      var sendData := Await(GetTransactionRequestData(v2Handler, buy.request, inverted.value));
      if sendData.Err? {
        return Err(sendData.error);
      }
      var call := sendData.value.functionCall;
      calls := calls + [GetCallInfo(call)];
      var callInfo := call.callInfo;
      var value := BuyTxValue(sendData.value.options.value);
      return Ok(TransactionData(buy.from, value, call.data, callInfo.contract));
    }

    /** `getTransactionData`: the guarded inversion and call construction, without submission. */
    method GetTransactionData(request: FillOrderRequest) returns (r: Result<OrderFillTransactionData>)
      modifies this
      ensures calls == old(calls) + TransactionDataOf(Context(), request).calls
      ensures r == TransactionDataOf(Context(), request).result
    {
      if ethereum.None? {
        return Err(WalletUndefined);
      }
      var checked := Await(ChainGuard(Context()));
      if checked.Err? {
        return Err(checked.error);
      }
      calls := calls + [WalletGetFrom];
      var from := ethereum.value.account;
      var inverted := Await(InvertOrder(v2Handler, request, from));
      if inverted.Err? {
        return Err(inverted.error);
      }
      var sendData := Await(GetTransactionRequestData(v2Handler, request, inverted.value));
      if sendData.Err? {
        return Err(sendData.error);
      }
      return Ok(OrderFillTransactionData(sendData.value.functionCall.data, sendData.value.options));
    }
  }
}
