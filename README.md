# Wallet swap, balance and cancellation logic in Dafny

This project models the decision logic of a cryptocurrency wallet front-end
and proves properties of it. It covers four parts of the code.

- **Swap view model and dispatch guards** (`src/features/swap/hooks.ts`).
  `useDerivedSwapInfo` turns the swap form into a `DerivedSwapInfo`. The
  model covers which side is exact, what `useTrade` is asked for, which
  amount fills each side, where each side's balance comes from, and the
  display strings. The send, swap and wrap callbacks only log when a
  parameter is missing; otherwise they dispatch exactly one trigger.
  `tradeToTransactionInfo` builds the swap record.
- **Balance tables** (`src/features/dataApi/balances.ts`). This part builds
  the currency-id → balance table from API records. It skips incomplete
  records, keeps only known currencies or synthesises unknown tokens, fills
  every requested chain (testnets get constant balances), ORs the loading
  flags, and sorts and truncates the flat list.
- **Limit-order cancellation dialog**
  (`apps/web/src/components/AccountDrawer/MiniPortfolio/Activity/CancelLimitsDialog.tsx`).
  For each `CancellationState` the model gives the title and icon, whether
  a modal, a dialog or nothing is shown, and whether the explorer link
  appears. It also builds the cancel-transaction parameters from the orders.
- **Identicon colour** (`src/components/accounts/Identicon.tsx`). One hex
  digit near the end of the address picks one of five palette entries. An
  invalid address throws before any colour is computed.

Files: `wrappers.dfy` (Option, Result), `currencies.dfy` (chains,
currencies, currency ids and amounts, shared by the modules),
`swap_hooks.dfy`, `balances.dfy`, `cancel_limits_dialog.dfy`,
`identicon.dfy`.

Modelling choices:

- Hooks and SDK routines are parameters, and their own behaviour is not
  modelled. Most are bundled as fields of `SwapHooks.Sdk`,
  `SwapHooks.Sources` and the `Balances` environments: the active account,
  currency lookup, balance and quote queries, `tryParseAmount`, `toExact`,
  `quotient`, `minimumAmountOut`, `maximumAmountIn`, `getWrapType`,
  `isWrapAction`, `fromGraphQLChain`, `percentDifference` and `isTestnet`.
  The others are plain parameters of one member: `isValidAddress` of
  `Identicon.IdenticonColor`, `flattenObjectOfObjects` of
  `Balances.AllBalancesList`, and `useTokenContract` and
  `swapRouterAddresses` of `SwapHooks.SwapCallback`.
- A returned callback is modelled as the `Command` that calling it
  performs: `Log(component, function, message)` or `Dispatch(action)`.
- JavaScript truthiness is written out. An empty string, a chain id of 0
  and a number 0 are all falsy. So a balance record with quantity 0,
  USD value 0 or decimals 0 is skipped like a missing one
  (`Balances.IsComplete`). An empty token-balance list is truthy and
  yields an empty table, not `undefined`.
- Currency ids are the structured values `NativeId(chain)` and
  `TokenId(chain, address)`. The source's `currencyId` and
  `buildCurrencyId` are not part of this model. `Currencies.CurrencyIdOf`
  and `Currencies.BuildCurrencyId` replace them with these structured ids,
  not with the text form. Under them, `BuildCurrencyId(chain, a)` never
  equals a native currency's id, a guarantee the text form need not give.
  The id of a native
  currency depends on its chain alone, so the canonical native currency of
  a chain has the same id as any native currency on it. This is why
  `OnSelectCurrency` can state that the id it dispatches is the selected
  currency's own id.
- JavaScript numbers in the balance code are exact `real`s.
  `quantity * 10 ** decimals` is the exact product. In JavaScript this
  floating-point product can be non-integral (`1.1 * 10 ** 6` is
  `1100000.0000000002`). It is passed to `CurrencyAmount.fromRawAmount`
  without rounding; such raw amounts, and what the SDK does with them, are
  not modelled.
- When `orders` is empty and a submitted cancel has a hash,
  `orders[0].chainId` throws. `CancelLimitsDialog.RenderDialog` returns
  `Failure(NoFirstOrder)` for that case.
- `useTransactionGasFee` is called in every state
  (`CancelLimitsDialog.tsx:92-93`), and only the review dialog renders the
  estimate (`:147`). The model follows the code: the estimate is an input
  to `RenderDialog`, and only the dialog view uses it.
- No effect guards against firing the completion callback more than once.
  The effects of `useSendCallback` and `useWrapCallback` have no dependency
  list, so they run after every render while the job is `Started`
  (`hooks.ts:183-187`, `289-293`). The effect of `useSwapCallback` runs
  whenever `onSubmit` or `swapState` changes (`hooks.ts:240-244`). No
  "exactly once" contract is stated.
- `DEFAULT_SLIPPAGE_TOLERANCE` is imported from `src/constants/misc`
  (`hooks.ts:7`), which is not part of this model. It is the parameter
  `defaultSlippageTolerance` of `TradeToTransactionInfo` and `SwapCallback`.

## Model

| member | source | states |
|---|---|---|
| `SwapHooks.AmountSpecified` | src/features/swap/hooks.ts:93-100 | the exact text is parsed against the currency of the exact side |
| `SwapHooks.TradeRequestOf` | src/features/swap/hooks.ts:101-108 | the quote request uses the opposite side's currency; its trade type is EXACT_INPUT iff the exact field is INPUT; its amount is null for a wrap action and the parsed amount otherwise |
| `SwapHooks.CurrencyAmountsOf` | src/features/swap/hooks.ts:110-120 | for a wrap, both sides are the parsed amount; with a quote, the exact side is the parsed amount and the other side is the trade's amount on that side, or absent without a trade |
| `SwapHooks.FormattedAmountsOf` | src/features/swap/hooks.ts:131-138 | the exact side shows the typed text verbatim; every other side shows `toExact()` of its amount, or "" when it has none |
| `SwapHooks.TokenBalanceCurrency` | src/features/swap/hooks.ts:76-83 | a token balance is requested exactly when the currency is a token, and then for that currency |
| `SwapHooks.NativeBalanceChain` | src/features/swap/hooks.ts:84-91 | the native balance is requested on the currency's chain, or on mainnet when there is no currency |
| `SwapHooks.SideBalance` | src/features/swap/hooks.ts:125-128 | a side's balance is the native balance of its chain iff its currency is native, otherwise the token balance |
| `SwapHooks.DeriveSwapInfo` | src/features/swap/hooks.ts:60-143 | currencies come from the form's ids; the exact text is echoed on the exact side; for a wrap, both amounts are the parsed amount and the trade is asked for no amount; otherwise the exact side is the parsed amount; the trade is requested for the other currency in the exact side's direction; balances are chosen per side |
| `SwapHooks.NoTradeLeavesDerivedSideEmpty` | src/features/swap/hooks.ts:110-138 | with a quote and no trade, the derived side has no amount and shows "", while the exact side keeps the typed text |
| `SwapHooks.TradeFillsDerivedSide` | src/features/swap/hooks.ts:110-138 | with a quote and a trade, the derived side holds the trade's amount on that side and shows its exact text |
| `SwapHooks.OnSelectCurrency` | src/features/swap/hooks.ts:147-156 | the select action carries the field and the currency's chain; its id names the selected currency (a native one by its chain's canonical native id) |
| `SwapHooks.TradeToTransactionInfo` | src/features/swap/hooks.ts:327-353 | the record is tagged with the trade's own type and has the currency ids of both sides; EXACT_INPUT records input raw, expected output raw and the minimum output at the default tolerance; EXACT_OUTPUT records output raw, expected input raw and the maximum input |
| `SwapHooks.SendCallback` | src/features/swap/hooks.ts:189-215 | dispatches iff account, token address, chain id, amount and recipient are all present; the one transfer trigger carries exactly those five values; otherwise it makes the diagnostic log call |
| `SwapHooks.TokenContractArgs` | src/features/swap/hooks.ts:230-236 | the contract is looked up on the trade's chain (mainnet without a trade), and for the input token's address exactly when the input is a token |
| `SwapHooks.SwapCallback` | src/features/swap/hooks.ts:229-276 | the state is null iff the callback only logs, which happens iff the account, quote amount, chain id or method parameters is missing; otherwise one swap trigger goes out with the trade's record, router address, input-token contract and amount, and the job state is passed through |
| `SwapHooks.WrapCallback` | src/features/swap/hooks.ts:295-325 | a non-wrap type logs whatever the account and amount; a wrap without an account or amount logs its own message; it dispatches iff wrap, account and amount are all present, with the account and the amount |
| `Balances.BuildTableKeys` | src/features/dataApi/balances.ts:97-139 | a key is in the table iff some record produced an entry with that key |
| `Balances.BuildTableLastWins` | src/features/dataApi/balances.ts:138 | the value stored under a key is that of the last record producing that key (later writes overwrite) |
| `Balances.BuildTableValueOrigin` | src/features/dataApi/balances.ts:259-278 | every stored pair is an entry some record produced |
| `Balances.PortfolioEntry` | src/features/dataApi/balances.ts:99-138 | a record failing the truthiness guard `Balances.IsComplete` (balances.ts:102-111) writes nothing; a complete one is dropped iff only known currencies are wanted and its id is unknown; otherwise it is stored under `buildCurrencyId(chain, address)` with the known currency or a token built from the record's chain, address, decimals, symbol and name; its raw amount is quantity·10^decimals, its USD value is the record's, and its 24h change defaults to 0 |
| `Balances.UsePortfolioBalances` | src/features/dataApi/balances.ts:89-142 | undefined iff the query has no token-balance list; otherwise the table that writing each record in order produces |
| `Balances.PortfolioTableOnlyKnown` | src/features/dataApi/balances.ts:115-117 | with `onlyKnownCurrencies`, every id in the table is a known currency of its chain and its balance is in that currency |
| `Balances.PortfolioTableEntriesFromCompleteRecords` | src/features/dataApi/balances.ts:99-114 | every id in the table is `buildCurrencyId` of a complete record, whose entry is the stored balance |
| `Balances.PortfolioTableKeepsCompleteRecords` | src/features/dataApi/balances.ts:114-138 | without `onlyKnownCurrencies`, every complete record's id is in the table, holding the last such record's balance |
| `Balances.SerializedEntry` | src/features/dataApi/balances.ts:261-274 | an item is dropped iff the quality filter is on and its id is unknown; an unknown id with the filter off gets a token with 0 decimals and the item's symbol; the amount, USD value and 24h change come from the item |
| `Balances.FormatSerializedBalanceItems` | src/features/dataApi/balances.ts:250-279 | the reduce builds the serialized table; with the filter on, every key is known; with it off, the keys are exactly the items' ids |
| `Balances.SerializedTableKeys` | src/features/dataApi/balances.ts:259-278 | the key set of the serialized table with and without the quality filter |
| `Balances.QueryArgs` | src/features/dataApi/balances.ts:45-50 | the query is skipped iff the address is missing or empty; otherwise it is asked for the chain, address and small-balance setting |
| `Balances.UseChainBalances` | src/features/dataApi/balances.ts:32-62 | the table is empty while there is no data, otherwise it is the serialized table; loading is the query's flag; without an address, the result is an empty table that is not loading |
| `Balances.TestnetBalances` | src/features/dataApi/balances.ts:164-181 | a testnet table has exactly the chain's known ids, each with a constant synthetic balance in that currency |
| `Balances.UseAllBalancesByChainId` | src/features/dataApi/balances.ts:145-195 | every requested chain, and only those, gets an entry: its constant table on a testnet, its queried table otherwise; loading is the OR of the non-testnet chains' flags (so empty chains give `{}` and false) |
| `Balances.SingleBalance` | src/features/dataApi/balances.ts:218-228 | a balance exists iff both the currency and the cached item exist; it is built from the item in that currency |
| `Balances.InsertByUsd` | src/features/dataApi/balances.ts:242 | the insertion step of the sort adds exactly one element |
| `Balances.InsertByUsdSorted` | src/features/dataApi/balances.ts:242 | inserting into a list sorted by USD keeps it sorted |
| `Balances.SortByUsdDesc` | src/features/dataApi/balances.ts:242 | the sort is a permutation, ordered non-increasing by `balanceUSD` |
| `Balances.SliceEnd` | src/features/dataApi/balances.ts:242 | `slice(0, count)` keeps everything when `count` is undefined, min(count, length) for count >= 0, and length + count (at least 0) for a negative count |
| `Balances.SortedPrefixDominates` | src/features/dataApi/balances.ts:242 | cutting a sorted list leaves a kept prefix worth at least every element cut off |
| `Balances.AllBalancesList` | src/features/dataApi/balances.ts:232-248 | the list is sorted non-increasing by USD value; it is drawn from the flattened balances; it holds all of them when `count` is undefined, min(count, total) for count >= 0, and total + count (at least 0) for a negative count; no dropped balance is worth more than a kept one; `totalCount` is the length before truncation |
| `CancelLimitsDialog.DialogContent` | apps/web/src/components/AccountDrawer/MiniPortfolio/Activity/CancelLimitsDialog.tsx:38-72 | each state has its own content kind (the state can be read back from it); only NOT_STARTED has no title; the slash icon is used exactly for NOT_STARTED and review; review is titled by the order count; signature shows the loader, confirmation the submitted icon, cancelled the confirmed icon |
| `CancelLimitsDialog.DialogContentInjective` | apps/web/src/components/AccountDrawer/MiniPortfolio/Activity/CancelLimitsDialog.tsx:43-71 | two states with the same content are the same state, whatever the orders |
| `CancelLimitsDialog.TitleText` | apps/web/src/components/AccountDrawer/MiniPortfolio/Activity/CancelLimitsDialog.tsx:47 | the review title is "Cancel limit" iff there is exactly one order, and "Cancel N limits" with the decimal count N otherwise |
| `CancelLimitsDialog.NatToString` | apps/web/src/components/AccountDrawer/MiniPortfolio/Activity/CancelLimitsDialog.tsx:47 | the `${orders.length}` text is a non-empty string of decimal digits with no leading zero |
| `CancelLimitsDialog.NatToStringRoundTrip` | apps/web/src/components/AccountDrawer/MiniPortfolio/Activity/CancelLimitsDialog.tsx:47 | reading the count's text back as a decimal number gives the count |
| `CancelLimitsDialog.EncodedOrders` | apps/web/src/components/AccountDrawer/MiniPortfolio/Activity/CancelLimitsDialog.tsx:87 | the encoded orders have the same length as the orders, element by element in order |
| `CancelLimitsDialog.CancelTransactionParamsOf` | apps/web/src/components/AccountDrawer/MiniPortfolio/Activity/CancelLimitsDialog.tsx:85-91 | the parameters hold the orders' encodings in order, and the first order's chain, absent iff there are no orders |
| `CancelLimitsDialog.RenderDialog` | apps/web/src/components/AccountDrawer/MiniPortfolio/Activity/CancelLimitsDialog.tsx:97-185 | signature, confirmation and cancelled give the modal, review gives the dialog, NOT_STARTED gives nothing; the explorer link appears iff `CancelLimitsDialog.CancelSubmitted` holds, that is the state is cancelled or confirming with a non-empty hash (CancelLimitsDialog.tsx:102-104), and it is built from the first order's chain and the hash (that render throws when there are no orders); otherwise "Proceed in your wallet" appears; in the dialog, "Proceed" is enabled and the network cost appears iff the gas value is truthy, the guard `CancelLimitsDialog.HasGasEstimate` (CancelLimitsDialog.tsx:147) |
| `Identicon.HexValue` | src/components/accounts/Identicon.tsx:33 | `parseInt(ch, 16)` is a number exactly for 0-9, a-f and A-F; it is below 16 and is the position of the digit |
| `Identicon.HexValueOfDigit` | src/components/accounts/Identicon.tsx:33 | every hex digit parses back to its own value |
| `Identicon.CharAt` | src/components/accounts/Identicon.tsx:33 | `at` gives a character iff -length <= index < length, counting negative indexes from the end |
| `Identicon.ColorSeed` | src/components/accounts/Identicon.tsx:31-33 | for `offset >= 1` the seed is the hex value of the character `offset` places from the end; for `offset <= 0` it is the hex value of the character at index `-offset` from the front, as `at(-0)` reads the first character; it is NaN when that position is outside the address; it is always below 16 |
| `Identicon.Bucket` | src/components/accounts/Identicon.tsx:34-38 | 0–2 orange, 3–5 green, 6–8 pink, 9–11 blue, 12 and up or NaN red |
| `Identicon.AddressColor` | src/components/accounts/Identicon.tsx:31-39 | the colour is always one of the five entries of the dark palette when `isDarkMode`, and of the light one otherwise |
| `Identicon.AddressColorDependsOnlyOnSeed` | src/components/accounts/Identicon.tsx:32-38 | addresses with equal seeds get the same colour in the same mode |
| `Identicon.NonHexLastCharacterIsRed` | src/components/accounts/Identicon.tsx:33-38 | a last character that is not a hex digit gives red |
| `Identicon.IdenticonColor` | src/components/accounts/Identicon.tsx:16-19 | an invalid address fails before any colour is computed; a valid one is coloured by its last character |

## Left out

- React and Redux plumbing is not modelled: `useMemo`, `useEffect`, `useAppDispatch`, `useSagaStatus`, and the effects that call `onSubmit`/`onSuccess` while a job is `Started`. The job state is an input to `SwapCallback`.
- `Balances.UseChainBalances`: a skipped query (`useBalancesQuery(skipToken)`) is fixed by `Balances.RunQuery` to give no `currentData` and `isLoading` false. That is the query library's behaviour, not code in `balances.ts`; the no-address case of `UseChainBalances` (an empty table that is not loading) depends on it.
- `SwapHooks.TokenContractArgs`: the source passes `inputAmount.currency.wrapped.address`. The model passes the token's own `address`, on the assumption that the SDK's `Token.wrapped` is the token itself.
- The SDK and the hooks are otherwise parameters with no behaviour of their own. This covers amount parsing, `toExact`, `quotient`, the slippage bounds, the wrap classifier, the currency lookup, the token-contract lookup, the balance and quote queries, the chain-name converter and `isValidAddress`. Because of that, quote debouncing and stale-result handling are not modelled either.
- `onSwitchCurrencies`, `onEnterExactAmount` and `onSelectRecipient` are one-action wrappers. They appear only as `SwapHooks.SwapFormAction` constructors.
- Floating point is not modelled. Numbers are exact reals, with no NaN and no rounding, so a non-integral raw amount and its big-integer conversion are not modelled. `formatEther` and `formatNumber` are not modelled, so the network cost is kept as its raw value.
- Object key order is not modelled. `Object.values(data)` is the given item sequence, and `flattenObjectOfObjects` is a parameter.
- `Balances.SortByUsdDesc`: its contract does not state that the sort is stable. The definition inserts stably, as `Array.prototype.sort` does.
- `Identicon.CharAt`: JavaScript `at` indexes UTF-16 code units, but a Dafny string is a sequence of Unicode scalar values. A string with a character outside the Basic Multilingual Plane is read differently. `IdenticonColor` only colours addresses that passed `isValidAddress`, which are ASCII.
- `Balances.SliceEnd`: a fractional `count` is not modelled; `count` is an integer.
- `Balances.SingleBalance`: the cache lookup `data?.[currencyId(currency)]` is not modelled; the looked-up item is an input.
- `CancellationState` has no transitions here, because the component defines none. The gas request made from `CancelTransactionParamsOf` is an input to `RenderDialog`.
- JSX rendering, styling, themes and i18n are not modelled. Titles are message kinds, and only the English plural rule is given text (`TitleText`).
- `SwapHooks.TradeResult` keeps only the `trade` that `useTrade` resolves. The other fields of that result are not read by this code.
