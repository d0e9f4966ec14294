/** The swap screen's view-model derivation and its transaction dispatch
    guards.  Every hook input (the active account, currency lookup, balance
    queries, the trade quote) and every SDK routine is a parameter: their
    own behaviour is not part of this model. */
module SwapHooks {
  import opened Wrappers
  import opened Currencies

  /** `CurrencyField`: the two sides of the swap form. */
  datatype CurrencyField = Input | Output {
    function Opposite(): CurrencyField {
      if Input? then Output else Input
    }
  }

  /** A value per side, read with `Get(field)` (the `[CurrencyField.X]` keys). */
  datatype Sides<T> = Sides(input: T, output: T) {
    function Get(f: CurrencyField): T {
      if f.Input? then input else output
    }
  }

  datatype TradeType = ExactInput | ExactOutput

  /** `WrapType`. */
  datatype WrapType = NotApplicable | Wrap | Unwrap

  /** An SDK `Percent`, as a fraction. */
  datatype Percent = Percent(numerator: nat, denominator: nat)

  /** `new Percent(DEFAULT_SLIPPAGE_TOLERANCE, 100)`.  The tolerance is
      imported from `src/constants/misc`, which is not part of this model,
      so it is a parameter of the members that use it. */
  function SlippagePercent(defaultSlippageTolerance: nat): Percent {
    Percent(defaultSlippageTolerance, 100)
  }

  /** Router calldata and value of a quote. */
  datatype MethodParameters = MethodParameters(calldata: string, value: string)

  /** The `quote` of a trade: the raw amount to send and the router call. */
  datatype Quote = Quote(amount: Option<string>, methodParameters: Option<MethodParameters>)

  /** A routed `Trade`. */
  datatype Trade = Trade(inputAmount: CurrencyAmount, outputAmount: CurrencyAmount,
                         tradeType: TradeType, quote: Option<Quote>)

  /** The result of `useTrade`, reduced to the resolved trade. */
  datatype TradeResult = TradeResult(trade: Option<Trade>)

  /** The SDK routines the hooks call.  They are uninterpreted: any functions
      of these types. */
  datatype Sdk = Sdk(
    tryParseAmount: (string, Option<Currency>) -> Option<CurrencyAmount>,
    toExact: CurrencyAmount -> string,
    quotientString: CurrencyAmount -> string,  // amount.quotient.toString()
    minimumAmountOut: (Trade, Percent) -> CurrencyAmount,
    maximumAmountIn: (Trade, Percent) -> CurrencyAmount,
    getWrapType: (Option<Currency>, Option<Currency>) -> WrapType,
    isWrapAction: WrapType -> bool)

  datatype Account = Account(address: Address)

  /** The hooks `useDerivedSwapInfo` reads, as the values and lookups they
      provide on this render. */
  datatype Sources = Sources(
    activeAccount: Option<Account>,
    useCurrency: Option<CurrencyId> -> Option<Currency>,
    useTokenBalance: (Option<Currency>, Option<Address>) -> Option<CurrencyAmount>,
    useNativeCurrencyBalance: (ChainId, Option<Address>) -> Option<CurrencyAmount>,
    useTrade: (Option<CurrencyAmount>, Option<Currency>, TradeType) -> TradeResult)

  /** A currency selected on one side of the form. */
  datatype TradeableAsset = TradeableAsset(currencyId: CurrencyId, chainId: ChainId)

  /** `SwapFormState`. */
  datatype SwapFormState = SwapFormState(
    input: Option<TradeableAsset>,
    output: Option<TradeableAsset>,
    exactAmount: string,
    exactCurrencyField: CurrencyField,
    recipient: Option<Address>)

  /** `DerivedSwapInfo`. */
  datatype DerivedSwapInfo = DerivedSwapInfo(
    currencies: Sides<Option<Currency>>,
    currencyAmounts: Sides<Option<CurrencyAmount>>,
    currencyBalances: Sides<Option<CurrencyAmount>>,
    exactAmount: string,
    exactCurrencyField: CurrencyField,
    formattedAmounts: Sides<string>,
    recipient: Option<Address>,
    trade: TradeResult,
    wrapType: WrapType)

  function AccountAddress(account: Option<Account>): Option<Address> {
    if account.Some? then Some(account.value.address) else None
  }

  /** `amountSpecified`: the exact amount text parsed against the exact
      side's currency. */
  function AmountSpecified(sdk: Sdk, currencies: Sides<Option<Currency>>, exactAmount: string,
                           exactField: CurrencyField): (r: Option<CurrencyAmount>)
    ensures r == sdk.tryParseAmount(exactAmount, currencies.Get(exactField))
  {
    var isExactIn := exactField == Input;
    sdk.tryParseAmount(exactAmount, if isExactIn then currencies.input else currencies.output)
  }

  /** The three arguments of `useTrade`. */
  datatype TradeRequest = TradeRequest(amountSpecified: Option<CurrencyAmount>, otherCurrency: Option<Currency>,
                                       tradeType: TradeType)

  /** What `useDerivedSwapInfo` asks `useTrade` for: no amount at all for a
      wrap or unwrap, the other side's currency, and the trade direction
      named after the exact side. */
  function TradeRequestOf(sdk: Sdk, currencies: Sides<Option<Currency>>, wrapType: WrapType,
                          amountSpecified: Option<CurrencyAmount>, exactField: CurrencyField): (r: TradeRequest)
    ensures r.otherCurrency == currencies.Get(exactField.Opposite())
    ensures r.tradeType == ExactInput <==> exactField == Input
    ensures sdk.isWrapAction(wrapType) ==> r.amountSpecified.None?
    ensures !sdk.isWrapAction(wrapType) ==> r.amountSpecified == amountSpecified
  {
    var isExactIn := exactField == Input;
    var shouldGetQuote := !sdk.isWrapAction(wrapType);
    TradeRequest(if shouldGetQuote then amountSpecified else None,
                 if isExactIn then currencies.output else currencies.input,
                 if isExactIn then ExactInput else ExactOutput)
  }

  /** The amount a trade has on one side. */
  function TradeAmount(t: Trade, f: CurrencyField): CurrencyAmount {
    if f.Input? then t.inputAmount else t.outputAmount
  }

  /** `currencyAmounts`: with a quote the exact side is the parsed amount and
      the other side comes from the trade (absent without one); for a wrap
      both sides are the parsed amount. */
  function CurrencyAmountsOf(shouldGetQuote: bool, exactField: CurrencyField, amountSpecified: Option<CurrencyAmount>,
                             trade: Option<Trade>): (r: Sides<Option<CurrencyAmount>>)
    ensures !shouldGetQuote ==> r.input == amountSpecified && r.output == amountSpecified
    ensures shouldGetQuote ==> r.Get(exactField) == amountSpecified
    ensures shouldGetQuote && trade.None? ==> r.Get(exactField.Opposite()).None?
    ensures shouldGetQuote && trade.Some? ==>
      r.Get(exactField.Opposite()) == Some(TradeAmount(trade.value, exactField.Opposite()))
  {
    if shouldGetQuote then
      Sides(if exactField == Input then amountSpecified else if trade.Some? then Some(trade.value.inputAmount) else None,
            if exactField == Output then amountSpecified else if trade.Some? then Some(trade.value.outputAmount) else None)
    else
      Sides(amountSpecified, amountSpecified)
  }

  /** `amount?.toExact() ?? ''`. */
  function ExactOrEmpty(toExact: CurrencyAmount -> string, amount: Option<CurrencyAmount>): string {
    if amount.Some? then toExact(amount.value) else ""
  }

  /** `formattedAmounts`: the exact side echoes the typed text verbatim, the
      other side is its derived amount's `toExact()` or the empty string. */
  function FormattedAmountsOf(toExact: CurrencyAmount -> string, exactAmount: string, exactField: CurrencyField,
                              amounts: Sides<Option<CurrencyAmount>>): (r: Sides<string>)
    ensures r.Get(exactField) == exactAmount
    ensures r.Get(exactField.Opposite()) == ExactOrEmpty(toExact, amounts.Get(exactField.Opposite()))
    ensures forall f: CurrencyField :: f != exactField ==> r.Get(f) == ExactOrEmpty(toExact, amounts.Get(f))
  {
    var isExactIn := exactField == Input;
    Sides(if isExactIn then exactAmount else ExactOrEmpty(toExact, amounts.input),
          if isExactIn then ExactOrEmpty(toExact, amounts.output) else exactAmount)
  }

  /** `currencyIn?.isToken ? currencyIn : undefined`: a token balance is
      only ever requested for a token. */
  function TokenBalanceCurrency(c: Option<Currency>): (r: Option<Currency>)
    ensures r.Some? <==> c.Some? && c.value.IsToken()
    ensures r.Some? ==> r == c
  {
    if c.Some? && c.value.IsToken() then c else None
  }

  /** `currencyIn?.chainId ?? ChainId.Mainnet`. */
  function NativeBalanceChain(c: Option<Currency>): (r: ChainId)
    ensures c.Some? ==> r == c.value.chainId
    ensures c.None? ==> r == MAINNET
  {
    if c.Some? then c.value.chainId else MAINNET
  }

  /** One side's `currencyBalances` entry: the native balance of the
      currency's chain when the currency is native, otherwise the token
      balance (which was requested for that token, or for nothing). */
  function SideBalance(src: Sources, c: Option<Currency>): (r: Option<CurrencyAmount>)
    ensures c.Some? && c.value.IsNative() ==>
      r == src.useNativeCurrencyBalance(c.value.chainId, AccountAddress(src.activeAccount))
    ensures !(c.Some? && c.value.IsNative()) ==>
      r == src.useTokenBalance(if c.Some? && c.value.IsToken() then c else None, AccountAddress(src.activeAccount))
  {
    var address := AccountAddress(src.activeAccount);
    var tokenBalance := src.useTokenBalance(TokenBalanceCurrency(c), address);
    var nativeBalance := src.useNativeCurrencyBalance(NativeBalanceChain(c), address);
    if c.Some? && c.value.IsNative() then nativeBalance else tokenBalance
  }

  function AssetId(a: Option<TradeableAsset>): Option<CurrencyId> {
    if a.Some? then Some(a.value.currencyId) else None
  }

  /** `useDerivedSwapInfo(state)`. */
  function DeriveSwapInfo(state: SwapFormState, sdk: Sdk, src: Sources): (r: DerivedSwapInfo)
    ensures r.currencies == Sides(src.useCurrency(AssetId(state.input)), src.useCurrency(AssetId(state.output)))
    ensures r.exactAmount == state.exactAmount && r.exactCurrencyField == state.exactCurrencyField
    ensures r.recipient == state.recipient
    ensures r.wrapType == sdk.getWrapType(r.currencies.input, r.currencies.output)
    ensures r.formattedAmounts.Get(state.exactCurrencyField) == state.exactAmount
    ensures sdk.isWrapAction(r.wrapType) ==>
      r.currencyAmounts.input == r.currencyAmounts.output
      && r.currencyAmounts.input == sdk.tryParseAmount(state.exactAmount, r.currencies.Get(state.exactCurrencyField))
    ensures !sdk.isWrapAction(r.wrapType) ==>
      r.currencyAmounts.Get(state.exactCurrencyField)
        == sdk.tryParseAmount(state.exactAmount, r.currencies.Get(state.exactCurrencyField))
    ensures r.trade == src.useTrade(
      if sdk.isWrapAction(r.wrapType) then None
      else sdk.tryParseAmount(state.exactAmount, r.currencies.Get(state.exactCurrencyField)),
      r.currencies.Get(state.exactCurrencyField.Opposite()),
      if state.exactCurrencyField == Input then ExactInput else ExactOutput)
    ensures r.currencyBalances == Sides(SideBalance(src, r.currencies.input), SideBalance(src, r.currencies.output))
  {
    var currencyIn := src.useCurrency(AssetId(state.input));
    var currencyOut := src.useCurrency(AssetId(state.output));
    var currencies := Sides(currencyIn, currencyOut);
    var wrapType := sdk.getWrapType(currencyIn, currencyOut);
    var amountSpecified := AmountSpecified(sdk, currencies, state.exactAmount, state.exactCurrencyField);
    var shouldGetQuote := !sdk.isWrapAction(wrapType);
    var request := TradeRequestOf(sdk, currencies, wrapType, amountSpecified, state.exactCurrencyField);
    var trade := src.useTrade(request.amountSpecified, request.otherCurrency, request.tradeType);
    var currencyAmounts := CurrencyAmountsOf(shouldGetQuote, state.exactCurrencyField, amountSpecified, trade.trade);
    DerivedSwapInfo(
      currencies,
      currencyAmounts,
      Sides(SideBalance(src, currencyIn), SideBalance(src, currencyOut)),
      state.exactAmount,
      state.exactCurrencyField,
      FormattedAmountsOf(sdk.toExact, state.exactAmount, state.exactCurrencyField, currencyAmounts),
      state.recipient,
      trade,
      wrapType)
  }

  /** With a quote and no resolved trade, the derived side is empty both as
      an amount and as text, while the exact side keeps the typed text. */
  lemma NoTradeLeavesDerivedSideEmpty(state: SwapFormState, sdk: Sdk, src: Sources)
    requires var r := DeriveSwapInfo(state, sdk, src); !sdk.isWrapAction(r.wrapType) && r.trade.trade.None?
    ensures var r := DeriveSwapInfo(state, sdk, src);
      var other := state.exactCurrencyField.Opposite();
      r.currencyAmounts.Get(other).None? && r.formattedAmounts.Get(other) == ""
      && r.formattedAmounts.Get(state.exactCurrencyField) == state.exactAmount
  {
  }

  /** With a quote and a resolved trade, the derived side holds the trade's
      amount on that side, shown as its exact text. */
  lemma TradeFillsDerivedSide(state: SwapFormState, sdk: Sdk, src: Sources)
    requires var r := DeriveSwapInfo(state, sdk, src); !sdk.isWrapAction(r.wrapType) && r.trade.trade.Some?
    ensures var r := DeriveSwapInfo(state, sdk, src);
      var other := state.exactCurrencyField.Opposite();
      r.currencyAmounts.Get(other) == Some(TradeAmount(r.trade.trade.value, other))
      && r.formattedAmounts.Get(other) == sdk.toExact(TradeAmount(r.trade.trade.value, other))
  {
  }

  // ---------------------------------------------------------------------
  // Form actions

  /** The `swapFormActions` the handlers dispatch. */
  datatype SwapFormAction =
    | SelectCurrency(field: CurrencyField, currencyId: CurrencyId, chainId: ChainId)
    | SwitchCurrencySides
    | EnterExactAmount(field: CurrencyField, exactAmount: string)
    | SelectRecipient(recipient: Address)

  /** `currencyId(NativeCurrency.onChain(chainId))`: the identifier of the
      chain's canonical native currency. */
  function NativeCurrencyIdOn(chainId: ChainId): CurrencyId {
    NativeId(chainId)
  }

  /** `onSelectCurrency(field, currency)`: a token is selected by its own
      identifier, a native currency by the canonical native identifier of
      its chain; either way the identifier names the selected currency and
      the chain is the currency's. */
  function OnSelectCurrency(field: CurrencyField, currency: Currency): (r: SwapFormAction)
    ensures r.SelectCurrency? && r.field == field && r.chainId == currency.chainId
    ensures r.currencyId == CurrencyIdOf(currency)
    ensures r.currencyId.chain == currency.chainId
  {
    SelectCurrency(field,
                   if currency.IsToken() then CurrencyIdOf(currency) else NativeCurrencyIdOn(currency.chainId),
                   currency.chainId)
  }

  // ---------------------------------------------------------------------
  // Transaction records

  datatype TransactionType = Swap

  /** `ExactInputSwapTransactionInfo | ExactOutputSwapTransactionInfo`. */
  datatype TransactionInfo =
    | ExactInputSwapInfo(transactionType: TransactionType, inputCurrencyId: CurrencyId, outputCurrencyId: CurrencyId,
                         inputCurrencyAmountRaw: string, expectedOutputCurrencyAmountRaw: string,
                         minimumOutputCurrencyAmountRaw: string)
    | ExactOutputSwapInfo(transactionType: TransactionType, inputCurrencyId: CurrencyId, outputCurrencyId: CurrencyId,
                          outputCurrencyAmountRaw: string, expectedInputCurrencyAmountRaw: string,
                          maximumInputCurrencyAmountRaw: string)
  {
    /** The `tradeType` tag of the record. */
    function TradeTypeOf(): TradeType {
      if ExactInputSwapInfo? then ExactInput else ExactOutput
    }
  }

  /** `tradeToTransactionInfo(trade)`: a swap record tagged with the trade's
      own direction.  An exact-input record holds the input raw, the expected
      output raw and the minimum output at the default tolerance; an
      exact-output record holds the output raw, the expected input raw and
      the maximum input at the default tolerance. */
  function TradeToTransactionInfo(sdk: Sdk, defaultSlippageTolerance: nat, trade: Trade): (r: TransactionInfo)
    ensures r.TradeTypeOf() == trade.tradeType
    ensures r.transactionType == Swap
    ensures r.inputCurrencyId == CurrencyIdOf(trade.inputAmount.currency)
    ensures r.outputCurrencyId == CurrencyIdOf(trade.outputAmount.currency)
    ensures r.ExactInputSwapInfo? ==>
      && r.inputCurrencyAmountRaw == sdk.quotientString(trade.inputAmount)
      && r.expectedOutputCurrencyAmountRaw == sdk.quotientString(trade.outputAmount)
      && r.minimumOutputCurrencyAmountRaw
           == sdk.quotientString(sdk.minimumAmountOut(trade, SlippagePercent(defaultSlippageTolerance)))
    ensures r.ExactOutputSwapInfo? ==>
      && r.outputCurrencyAmountRaw == sdk.quotientString(trade.outputAmount)
      && r.expectedInputCurrencyAmountRaw == sdk.quotientString(trade.inputAmount)
      && r.maximumInputCurrencyAmountRaw
           == sdk.quotientString(sdk.maximumAmountIn(trade, SlippagePercent(defaultSlippageTolerance)))
  {
    var inputId := CurrencyIdOf(trade.inputAmount.currency);
    var outputId := CurrencyIdOf(trade.outputAmount.currency);
    match trade.tradeType
    case ExactInput =>
      ExactInputSwapInfo(Swap, inputId, outputId,
                         sdk.quotientString(trade.inputAmount),
                         sdk.quotientString(trade.outputAmount),
                         sdk.quotientString(sdk.minimumAmountOut(trade, SlippagePercent(defaultSlippageTolerance))))
    case ExactOutput =>
      ExactOutputSwapInfo(Swap, inputId, outputId,
                          sdk.quotientString(trade.outputAmount),
                          sdk.quotientString(trade.inputAmount),
                          sdk.quotientString(sdk.maximumAmountIn(trade, SlippagePercent(defaultSlippageTolerance))))
  }

  // ---------------------------------------------------------------------
  // Dispatch guards

  /** Payload of `transferTokenActions.trigger`. */
  datatype TransferParams = TransferParams(account: Account, toAddress: Address, amountInWei: string,
                                           tokenAddress: Address, chainId: ChainId)

  /** An opaque contract handle returned by `useTokenContract`. */
  type Contract = string

  /** Payload of `swapActions.trigger`. */
  datatype SwapParams = SwapParams(account: Account, chainId: ChainId, contract: Option<Contract>,
                                   methodParameters: MethodParameters, swapRouterAddress: Option<Address>,
                                   typeInfo: TransactionInfo, txAmount: string)

  /** The trigger actions sent to the background jobs. */
  datatype Action =
    | TransferTokenTrigger(transfer: TransferParams)
    | SwapTrigger(swap: SwapParams)
    | TokenWrapTrigger(account: Account, inputCurrencyAmount: CurrencyAmount)

  /** What invoking a returned callback does: one diagnostic log call, or
      exactly one dispatched trigger. */
  datatype Command =
    | Log(component: string, functionName: string, message: string)
    | Dispatch(action: Action)

  /** Truthiness of an optional string: present and non-empty. */
  predicate Truthy(s: Option<string>) {
    s.Some? && s.value != ""
  }

  /** Truthiness of an optional chain id: present and non-zero. */
  predicate TruthyChain(c: Option<ChainId>) {
    c.Some? && c.value != 0
  }

  const MISSING_SEND_PARAMS := "Missing sendCallback params. Is the provider enabled?"

  /** `sendCallback` of `useSendCallback`: it logs when any of the five
      parameters is missing and otherwise dispatches one transfer trigger
      carrying exactly those five values. */
  function SendCallback(account: Option<Account>, tokenAddress: Option<Address>, chainId: Option<ChainId>,
                        amountInWei: Option<string>, toAddress: Option<Address>): (r: Command)
    ensures r.Dispatch? <==>
      account.Some? && Truthy(tokenAddress) && TruthyChain(chainId) && Truthy(amountInWei) && Truthy(toAddress)
    ensures r.Log? ==> r == Log("hooks", "useSendCallback", MISSING_SEND_PARAMS)
    ensures r.Dispatch? ==>
      r.action == TransferTokenTrigger(TransferParams(account.value, toAddress.value, amountInWei.value,
                                                      tokenAddress.value, chainId.value))
  {
    if account.None? || !Truthy(tokenAddress) || !TruthyChain(chainId) || !Truthy(amountInWei) || !Truthy(toAddress) then
      Log("hooks", "useSendCallback", MISSING_SEND_PARAMS)
    else
      Dispatch(TransferTokenTrigger(TransferParams(account.value, toAddress.value, amountInWei.value,
                                                   tokenAddress.value, chainId.value)))
  }

  datatype SagaStatus = Idle | Started | Success | Failed

  /** The status `useSagaStatus` reports for a job. */
  datatype SagaState = SagaState(status: SagaStatus, error: Option<string>)

  /** What `useSwapCallback` returns. */
  datatype SwapCallbackResult = SwapCallbackResult(swapCallback: Command, swapState: Option<SagaState>)

  const MISSING_SWAP_PARAMS := "Missing swapCallback parameters. Is the provider enabled?"

  /** `trade?.quote?.amount`. */
  function QuoteAmount(trade: Option<Trade>): Option<string> {
    if trade.Some? && trade.value.quote.Some? then trade.value.quote.value.amount else None
  }

  /** `trade?.quote?.methodParameters`. */
  function QuoteMethodParameters(trade: Option<Trade>): Option<MethodParameters> {
    if trade.Some? && trade.value.quote.Some? then trade.value.quote.value.methodParameters else None
  }

  /** `trade?.inputAmount.currency.chainId`. */
  function TradeChainId(trade: Option<Trade>): Option<ChainId> {
    if trade.Some? then Some(trade.value.inputAmount.currency.chainId) else None
  }

  /** The two arguments of `useTokenContract`: the trade's chain (or
      mainnet) and the input token's address (none for a native input). */
  function TokenContractArgs(trade: Option<Trade>): (r: (ChainId, Option<Address>))
    ensures trade.Some? ==> r.0 == trade.value.inputAmount.currency.chainId
    ensures trade.None? ==> r.0 == MAINNET
    ensures r.1.Some? <==> trade.Some? && trade.value.inputAmount.currency.IsToken()
    ensures r.1.Some? ==> r.1.value == trade.value.inputAmount.currency.address
  {
    (TradeChainId(trade).GetOr(MAINNET),
     if trade.Some? && trade.value.inputAmount.currency.IsToken()
     then Some(trade.value.inputAmount.currency.address) else None)
  }

  /** `useSwapCallback(trade)`: when the account, the quote amount, the chain
      or the router call is missing, the state is null and the callback only
      logs; otherwise the callback dispatches one swap trigger built from the
      trade and the input token's contract, and the job's state is passed
      through.  `useTokenContract` is the contract lookup and
      `swapRouterAddresses` the router address table. */
  function SwapCallback(sdk: Sdk, defaultSlippageTolerance: nat, account: Option<Account>, trade: Option<Trade>,
                        useTokenContract: (ChainId, Option<Address>) -> Option<Contract>,
                        swapState: SagaState, swapRouterAddresses: map<ChainId, Address>): (r: SwapCallbackResult)
    ensures r.swapState.None? <==> r.swapCallback.Log?
    ensures r.swapCallback.Dispatch? <==>
      account.Some? && Truthy(QuoteAmount(trade)) && TruthyChain(TradeChainId(trade))
      && QuoteMethodParameters(trade).Some?
    ensures r.swapCallback.Log? ==> r.swapCallback == Log("hooks", "useSwapCallback", MISSING_SWAP_PARAMS)
    ensures r.swapState.Some? ==> r.swapState.value == swapState
    ensures r.swapCallback.Dispatch? ==> trade.Some?
    ensures r.swapCallback.Dispatch? ==>
      var chainId := trade.value.inputAmount.currency.chainId;
      var args := TokenContractArgs(trade);
      r.swapCallback.action == SwapTrigger(SwapParams(
        account.value, chainId, useTokenContract(args.0, args.1), trade.value.quote.value.methodParameters.value,
        if chainId in swapRouterAddresses then Some(swapRouterAddresses[chainId]) else None,
        TradeToTransactionInfo(sdk, defaultSlippageTolerance, trade.value), trade.value.quote.value.amount.value))
  {
    var amount := QuoteAmount(trade);
    var methodParameters := QuoteMethodParameters(trade);
    var chainId := TradeChainId(trade);
    var contractArgs := TokenContractArgs(trade);
    var tokenContract := useTokenContract(contractArgs.0, contractArgs.1);
    if account.None? || !Truthy(amount) || !TruthyChain(chainId) || methodParameters.None? then
      SwapCallbackResult(Log("hooks", "useSwapCallback", MISSING_SWAP_PARAMS), None)
    else
      var router := if chainId.value in swapRouterAddresses then Some(swapRouterAddresses[chainId.value]) else None;
      SwapCallbackResult(
        Dispatch(SwapTrigger(SwapParams(account.value, chainId.value, tokenContract, methodParameters.value,
                                        router, TradeToTransactionInfo(sdk, defaultSlippageTolerance, trade.value), amount.value))),
        Some(swapState))
  }

  const NON_WRAP_ACTION := "Wrap callback invoked for non-wrap actions"
  const MISSING_WRAP_PARAMS := "Wrap callback invoked without active account, input currency or weth contract"

  /** `wrapCallback` of `useWrapCallback`: a type that is not a wrap action
      logs whatever the account and amount; a wrap action without an
      account or an amount logs too; otherwise one wrap trigger is
      dispatched with the account and the input amount. */
  function WrapCallback(sdk: Sdk, account: Option<Account>, inputCurrencyAmount: Option<CurrencyAmount>,
                        wrapType: WrapType): (r: Command)
    ensures !sdk.isWrapAction(wrapType) ==> r == Log("hooks", "useWrapCallback", NON_WRAP_ACTION)
    ensures sdk.isWrapAction(wrapType) && (account.None? || inputCurrencyAmount.None?) ==>
      r == Log("hooks", "useWrapCallback", MISSING_WRAP_PARAMS)
    ensures r.Dispatch? <==> sdk.isWrapAction(wrapType) && account.Some? && inputCurrencyAmount.Some?
    ensures r.Dispatch? ==> r.action == TokenWrapTrigger(account.value, inputCurrencyAmount.value)
  {
    if !sdk.isWrapAction(wrapType) then
      Log("hooks", "useWrapCallback", NON_WRAP_ACTION)
    else if account.None? || inputCurrencyAmount.None? then
      Log("hooks", "useWrapCallback", MISSING_WRAP_PARAMS)
    else
      Dispatch(TokenWrapTrigger(account.value, inputCurrencyAmount.value))
  }
}
