/** Portfolio balance tables built from balance API records: filtering of
    incomplete and unknown records, synthesis of unknown tokens, per-chain
    tables with constant balances on testnets, and the flat list sorted by
    USD value.  The queries themselves, feature flags, testnet constants and
    the `percentDifference` statistic are parameters. */
module Balances {
  import opened Wrappers
  import opened Currencies

  /** `PortfolioBalance`.  JavaScript numbers are exact reals here. */
  datatype PortfolioBalance = PortfolioBalance(amount: CurrencyAmount, balanceUSD: real, relativeChange24: real)

  /** A table from currency id to balance (`Record<CurrencyId, PortfolioBalance>`). */
  type BalanceTable = map<CurrencyId, PortfolioBalance>

  /** Known currencies by chain (`useAllCurrencies()`). */
  type CurrenciesByChain = map<ChainId, map<CurrencyId, Currency>>

  // ---------------------------------------------------------------------
  // Building a table from a sequence of optional entries; a later entry
  // with the same key overwrites an earlier one, as `table[id] = ...` does.

  /** The key of an optional entry. */
  function KeyOf<K, V>(e: Option<(K, V)>): Option<K> {
    if e.Some? then Some(e.value.0) else None
  }

  /** The table that writing each present entry of `xs`, in order, into an
      empty table produces. */
  function BuildTable<T, K, V>(xs: seq<T>, entry: T -> Option<(K, V)>): map<K, V>
  {
    if |xs| == 0 then map[]
    else
      var m := BuildTable(xs[..|xs| - 1], entry);
      var e := entry(xs[|xs| - 1]);
      if e.Some? then m[e.value.0 := e.value.1] else m
  }

  /** A key is in the table exactly when some element produced an entry with it. */
  lemma {:induction false} BuildTableKeys<T, K, V>(xs: seq<T>, entry: T -> Option<(K, V)>, k: K)
    ensures k in BuildTable(xs, entry) <==> exists j :: 0 <= j < |xs| && KeyOf(entry(xs[j])) == Some(k)
  {
    if |xs| > 0 {
      var init := xs[..|xs| - 1];
      BuildTableKeys(init, entry, k);
      if exists j :: 0 <= j < |init| && KeyOf(entry(init[j])) == Some(k) {
        var j :| 0 <= j < |init| && KeyOf(entry(init[j])) == Some(k);
        assert xs[j] == init[j];
      }
      if exists j :: 0 <= j < |xs| && KeyOf(entry(xs[j])) == Some(k) {
        var j :| 0 <= j < |xs| && KeyOf(entry(xs[j])) == Some(k);
        if j < |init| { assert init[j] == xs[j]; }
      }
    }
  }

  /** The value at a key comes from the LAST element that produced an
      entry with that key. */
  lemma {:induction false} BuildTableLastWins<T, K, V>(xs: seq<T>, entry: T -> Option<(K, V)>, j: nat)
    requires j < |xs| && entry(xs[j]).Some?
    requires forall i :: j < i < |xs| ==> KeyOf(entry(xs[i])) != Some(entry(xs[j]).value.0)
    ensures entry(xs[j]).value.0 in BuildTable(xs, entry)
    ensures BuildTable(xs, entry)[entry(xs[j]).value.0] == entry(xs[j]).value.1
  {
    var init := xs[..|xs| - 1];
    if j < |xs| - 1 {
      assert init[j] == xs[j];
      forall i | j < i < |init| ensures KeyOf(entry(init[i])) != Some(entry(init[j]).value.0) {
        assert init[i] == xs[i];
      }
      BuildTableLastWins(init, entry, j);
    }
  }

  /** Every pair in the table is an entry that some element produced. */
  lemma {:induction false} BuildTableValueOrigin<T, K, V>(xs: seq<T>, entry: T -> Option<(K, V)>, k: K)
    requires k in BuildTable(xs, entry)
    ensures exists j :: 0 <= j < |xs| && entry(xs[j]) == Some((k, BuildTable(xs, entry)[k]))
  {
    var init := xs[..|xs| - 1];
    var e := entry(xs[|xs| - 1]);
    if e.Some? && e.value.0 == k {
      assert entry(xs[|xs| - 1]) == Some((k, BuildTable(xs, entry)[k]));
    } else {
      BuildTableValueOrigin(init, entry, k);
      var j :| 0 <= j < |init| && entry(init[j]) == Some((k, BuildTable(init, entry)[k]));
      assert xs[j] == init[j];
    }
  }

  /** The table of a one-element extension: the step the loops take. */
  lemma BuildTableSnoc<T, K, V>(xs: seq<T>, x: T, entry: T -> Option<(K, V)>)
    ensures BuildTable(xs + [x], entry)
         == (var e := entry(x); if e.Some? then BuildTable(xs, entry)[e.value.0 := e.value.1] else BuildTable(xs, entry))
  {
    assert (xs + [x])[..|xs + [x]| - 1] == xs;
  }

  // ---------------------------------------------------------------------
  // usePortfolioBalances

  /** `denominatedValue`. */
  datatype DenominatedValue = DenominatedValue(currency: Option<string>, value: Option<real>)

  /** The `token` of a balance record. */
  datatype TokenRecord = TokenRecord(chain: Option<string>, address: Option<string>, name: Option<string>,
                                     symbol: Option<string>, decimals: Option<nat>)

  /** One element of `tokenBalances`; `relativeChange24` stands for
      `tokenProjectMarket?.relativeChange24?.value`, absent at any level. */
  datatype TokenBalanceRecord = TokenBalanceRecord(quantity: Option<real>, denominatedValue: Option<DenominatedValue>,
                                                   token: Option<TokenRecord>, relativeChange24: Option<real>)

  datatype Portfolio = Portfolio(tokenBalances: Option<seq<Option<TokenBalanceRecord>>>)

  /** The result of the portfolio query. */
  datatype BalancesQueryData = BalancesQueryData(portfolios: Option<seq<Option<Portfolio>>>)

  /** `balancesData?.portfolios?.[0]?.tokenBalances`. */
  function BalancesForAddress(data: Option<BalancesQueryData>): Option<seq<Option<TokenBalanceRecord>>> {
    if data.None? || data.value.portfolios.None? || |data.value.portfolios.value| == 0 then None
    else
      var p := data.value.portfolios.value[0];
      if p.None? then None else p.value.tokenBalances
  }

  /** What the builder reads besides the records: the `onlyKnownCurrencies`
      flag, the known currencies and the chain-name converter. */
  datatype PortfolioEnv = PortfolioEnv(onlyKnownCurrencies: bool, tokensByChainId: CurrenciesByChain,
                                       fromGraphQLChain: Option<string> -> Option<ChainId>)

  /** `fromGraphQLChain(balance?.token?.chain)`. */
  function RecordChainId(env: PortfolioEnv, b: Option<TokenBalanceRecord>): Option<ChainId> {
    env.fromGraphQLChain(if b.Some? && b.value.token.Some? then b.value.token.value.chain else None)
  }

  /** The completeness guard: every one of these is truthy, so a zero
      chain id, quantity, USD value or decimals and an empty address all
      skip the record as a missing one does. */
  predicate IsComplete(chainId: Option<ChainId>, b: Option<TokenBalanceRecord>) {
    && chainId.Some? && chainId.value != 0
    && b.Some?
    && b.value.quantity.Some? && b.value.quantity.value != 0.0
    && b.value.denominatedValue.Some?
    && b.value.denominatedValue.value.value.Some? && b.value.denominatedValue.value.value.value != 0.0
    && b.value.token.Some?
    && b.value.token.value.address.Some? && b.value.token.value.address.value != ""
    && b.value.token.value.decimals.Some? && b.value.token.value.decimals.value != 0
  }

  /** `tokensByChainId[chainId]?.[id]`. */
  function KnownCurrency(known: CurrenciesByChain, chainId: ChainId, id: CurrencyId): Option<Currency> {
    if chainId in known && id in known[chainId] then Some(known[chainId][id]) else None
  }

  /** What one `forEach` step writes: nothing for a skipped record, otherwise
      its id and its balance.  The currency is the known one, or else a token
      synthesised from the record's own chain, address, decimals, symbol and
      name; the raw amount is quantity * 10 ** decimals and the 24h change
      defaults to 0. */
  function PortfolioEntry(env: PortfolioEnv, b: Option<TokenBalanceRecord>): (r: Option<(CurrencyId, PortfolioBalance)>)
    ensures !IsComplete(RecordChainId(env, b), b) ==> r.None?
    ensures IsComplete(RecordChainId(env, b), b) ==>
      var chainId := RecordChainId(env, b).value;
      var t := b.value.token.value;
      var id := BuildCurrencyId(chainId, t.address.value);
      var known := KnownCurrency(env.tokensByChainId, chainId, id);
      && (r.None? <==> env.onlyKnownCurrencies && known.None?)
      && (r.Some? ==>
            && r.value.0 == id
            && r.value.1.amount.currency
                 == (if known.Some? then known.value
                     else Token(chainId, t.address.value, t.decimals.value, t.symbol, t.name))
            && r.value.1.amount.raw == b.value.quantity.value * Pow10(t.decimals.value)
            && r.value.1.balanceUSD == b.value.denominatedValue.value.value.value
            && r.value.1.relativeChange24 == b.value.relativeChange24.GetOr(0.0))
  {
    var chainId := RecordChainId(env, b);
    if !IsComplete(chainId, b) then None
    else
      var balance := b.value;
      var token := balance.token.value;
      var id := BuildCurrencyId(chainId.value, token.address.value);
      var knownCurrency := KnownCurrency(env.tokensByChainId, chainId.value, id);
      if env.onlyKnownCurrencies && knownCurrency.None? then None
      else
        var currency :=
          if knownCurrency.Some? then knownCurrency.value
          else Token(chainId.value, token.address.value, token.decimals.value, token.symbol, token.name);
        Some((id, PortfolioBalance(
          CurrencyAmount(currency, balance.quantity.value * Pow10(token.decimals.value)),
          balance.denominatedValue.value.value.value,
          balance.relativeChange24.GetOr(0.0))))
  }

  function PortfolioEntryOf(env: PortfolioEnv): Option<TokenBalanceRecord> -> Option<(CurrencyId, PortfolioBalance)> {
    b => PortfolioEntry(env, b)
  }

  /** The table `usePortfolioBalances` builds from a list of records. */
  function PortfolioTable(records: seq<Option<TokenBalanceRecord>>, env: PortfolioEnv): BalanceTable {
    BuildTable(records, PortfolioEntryOf(env))
  }

  /** `usePortfolioBalances(address, onlyKnownCurrencies)`: undefined when
      the query has no token balance list (an empty list gives an empty
      table), otherwise the table of its records. */
  method UsePortfolioBalances(data: Option<BalancesQueryData>, env: PortfolioEnv) returns (r: Option<BalanceTable>)
    ensures r.None? <==> BalancesForAddress(data).None?
    ensures r.Some? ==> r.value == PortfolioTable(BalancesForAddress(data).value, env)
  {
    var balancesForAddress := BalancesForAddress(data);
    if balancesForAddress.None? {
      return None;
    }
    var records := balancesForAddress.value;
    var byId: BalanceTable := map[];
    var i := 0;
    while i < |records|
      invariant 0 <= i <= |records|
      invariant byId == PortfolioTable(records[..i], env)
    {
      var e := PortfolioEntry(env, records[i]);
      BuildTableSnoc(records[..i], records[i], PortfolioEntryOf(env));
      assert records[..i + 1] == records[..i] + [records[i]];
      if e.Some? {
        byId := byId[e.value.0 := e.value.1];
      }
      i := i + 1;
    }
    assert records[..i] == records;
    return Some(byId);
  }

  /** With `onlyKnownCurrencies`, every id in the table is a known currency
      of its own chain, and its balance is in that known currency. */
  lemma PortfolioTableOnlyKnown(records: seq<Option<TokenBalanceRecord>>, env: PortfolioEnv, id: CurrencyId)
    requires env.onlyKnownCurrencies && id in PortfolioTable(records, env)
    ensures id.chain in env.tokensByChainId && id in env.tokensByChainId[id.chain]
    ensures PortfolioTable(records, env)[id].amount.currency == env.tokensByChainId[id.chain][id]
  {
    BuildTableValueOrigin(records, PortfolioEntryOf(env), id);
  }

  /** Every id in the table is `buildCurrencyId(chainId, address)` of a
      complete record whose balance is the one stored. */
  lemma PortfolioTableEntriesFromCompleteRecords(records: seq<Option<TokenBalanceRecord>>, env: PortfolioEnv,
                                                 id: CurrencyId)
    requires id in PortfolioTable(records, env)
    ensures exists j :: (0 <= j < |records| && IsComplete(RecordChainId(env, records[j]), records[j])
      && id == BuildCurrencyId(RecordChainId(env, records[j]).value, records[j].value.token.value.address.value)
      && PortfolioEntry(env, records[j]) == Some((id, PortfolioTable(records, env)[id])))
  {
    BuildTableValueOrigin(records, PortfolioEntryOf(env), id);
  }

  /** Without `onlyKnownCurrencies`, every complete record has its id in
      the table, and the balance there is that of the last complete record
      with the same id. */
  lemma PortfolioTableKeepsCompleteRecords(records: seq<Option<TokenBalanceRecord>>, env: PortfolioEnv, j: nat)
    requires !env.onlyKnownCurrencies && j < |records| && IsComplete(RecordChainId(env, records[j]), records[j])
    requires forall i :: j < i < |records| ==>
      KeyOf(PortfolioEntry(env, records[i])) != KeyOf(PortfolioEntry(env, records[j]))
    ensures PortfolioEntry(env, records[j]).Some?
    ensures PortfolioEntry(env, records[j]).value.0 in PortfolioTable(records, env)
    ensures PortfolioTable(records, env)[PortfolioEntry(env, records[j]).value.0] == PortfolioEntry(env, records[j]).value.1
  {
    BuildTableLastWins(records, PortfolioEntryOf(env), j);
  }

  // ---------------------------------------------------------------------
  // formatSerializedBalanceItems

  /** `SerializablePortfolioBalance`, as cached by the REST balances query. */
  datatype SerializablePortfolioBalance = SerializablePortfolioBalance(
    contractAddress: Address, contractTickerSymbol: Option<string>, balance: real, balanceUSD: real,
    quoteRate: real, quoteRate24h: real)

  /** What `formatSerializedBalanceItems` reads besides the items: the
      token-quality feature flag and the `percentDifference` statistic. */
  datatype FormatEnv = FormatEnv(qualityFilterEnabled: bool, percentDifference: (real, real) -> real)

  /** What one `reduce` step writes: with the quality filter on, only
      known currencies are kept; with it off, an unknown id gets a token
      with 0 decimals and the item's ticker symbol. */
  function SerializedEntry(fenv: FormatEnv, chainId: ChainId, known: map<CurrencyId, Currency>,
                           item: SerializablePortfolioBalance): (r: Option<(CurrencyId, PortfolioBalance)>)
    ensures var id := BuildCurrencyId(chainId, item.contractAddress);
      && (r.None? <==> fenv.qualityFilterEnabled && id !in known)
      && (r.Some? ==>
            && r.value.0 == id
            && r.value.1.amount == CurrencyAmount(
                 if id in known then known[id] else Token(chainId, item.contractAddress, 0, item.contractTickerSymbol, None),
                 item.balance)
            && r.value.1.balanceUSD == item.balanceUSD
            && r.value.1.relativeChange24 == fenv.percentDifference(item.quoteRate, item.quoteRate24h))
  {
    var id := BuildCurrencyId(chainId, item.contractAddress);
    var currency: Option<Currency> := if id in known then Some(known[id]) else None;
    var currency' :=
      if !fenv.qualityFilterEnabled && currency.None?
      then Some(Token(chainId, item.contractAddress, 0, item.contractTickerSymbol, None))
      else currency;
    if currency'.Some? then
      Some((id, PortfolioBalance(CurrencyAmount(currency'.value, item.balance), item.balanceUSD,
                                 fenv.percentDifference(item.quoteRate, item.quoteRate24h))))
    else None
  }

  function SerializedEntryOf(fenv: FormatEnv, chainId: ChainId, known: map<CurrencyId, Currency>)
    : SerializablePortfolioBalance -> Option<(CurrencyId, PortfolioBalance)>
  {
    item => SerializedEntry(fenv, chainId, known, item)
  }

  /** The table `formatSerializedBalanceItems` builds from the cached items. */
  function SerializedTable(items: seq<SerializablePortfolioBalance>, chainId: ChainId,
                           known: map<CurrencyId, Currency>, fenv: FormatEnv): BalanceTable {
    BuildTable(items, SerializedEntryOf(fenv, chainId, known))
  }

  /** `formatSerializedBalanceItems(data, chainId, knownCurrencies)`, over
      `Object.values(data)` in enumeration order.  With the quality filter
      on only known ids appear; with it off, every item's id appears. */
  method FormatSerializedBalanceItems(items: seq<SerializablePortfolioBalance>, chainId: ChainId,
                                      known: map<CurrencyId, Currency>, fenv: FormatEnv) returns (r: BalanceTable)
    ensures r == SerializedTable(items, chainId, known, fenv)
    ensures fenv.qualityFilterEnabled ==> r.Keys <= known.Keys
    ensures !fenv.qualityFilterEnabled ==>
      r.Keys == set i | 0 <= i < |items| :: BuildCurrencyId(chainId, items[i].contractAddress)
  {
    var portfolioBalances: BalanceTable := map[];
    var i := 0;
    while i < |items|
      invariant 0 <= i <= |items|
      invariant portfolioBalances == SerializedTable(items[..i], chainId, known, fenv)
    {
      var e := SerializedEntry(fenv, chainId, known, items[i]);
      BuildTableSnoc(items[..i], items[i], SerializedEntryOf(fenv, chainId, known));
      assert items[..i + 1] == items[..i] + [items[i]];
      if e.Some? {
        portfolioBalances := portfolioBalances[e.value.0 := e.value.1];
      }
      i := i + 1;
    }
    assert items[..i] == items;
    r := portfolioBalances;
    SerializedTableKeys(items, chainId, known, fenv);
  }

  /** The key set of a serialized table, with and without the quality filter. */
  lemma SerializedTableKeys(items: seq<SerializablePortfolioBalance>, chainId: ChainId,
                            known: map<CurrencyId, Currency>, fenv: FormatEnv)
    ensures fenv.qualityFilterEnabled ==> SerializedTable(items, chainId, known, fenv).Keys <= known.Keys
    ensures !fenv.qualityFilterEnabled ==>
      SerializedTable(items, chainId, known, fenv).Keys
        == set i | 0 <= i < |items| :: BuildCurrencyId(chainId, items[i].contractAddress)
  {
    var entry := SerializedEntryOf(fenv, chainId, known);
    var t := SerializedTable(items, chainId, known, fenv);
    forall k | k in t ensures fenv.qualityFilterEnabled ==> k in known
      ensures exists i :: 0 <= i < |items| && k == BuildCurrencyId(chainId, items[i].contractAddress)
    {
      BuildTableValueOrigin(items, entry, k);
    }
    if !fenv.qualityFilterEnabled {
      forall i | 0 <= i < |items| ensures BuildCurrencyId(chainId, items[i].contractAddress) in t {
        BuildTableKeys(items, entry, BuildCurrencyId(chainId, items[i].contractAddress));
      }
    }
  }

  // ---------------------------------------------------------------------
  // useChainBalances

  /** The arguments of `useBalancesQuery`. */
  datatype BalancesQueryArgs = BalancesQueryArgs(chainId: ChainId, address: Address, ignoreSmallBalances: bool)

  /** What `useBalancesQuery` reports: `currentData` as the values of the
      cached dictionary in enumeration order, and `isLoading`. */
  datatype BalancesQueryResult = BalancesQueryResult(currentData: Option<seq<SerializablePortfolioBalance>>,
                                                     isLoading: bool)

  /** The shared inputs of the per-chain queries: the hide-small-balances
      setting, the formatting inputs and the query as a function of its
      arguments. */
  datatype ChainEnv = ChainEnv(ignoreSmallBalances: bool, format: FormatEnv,
                               balancesQuery: BalancesQueryArgs -> BalancesQueryResult)

  /** `address ? {chainId, address, ignoreSmallBalances} : skipToken`; None is `skipToken`. */
  function QueryArgs(chainId: ChainId, address: Option<Address>, ignoreSmallBalances: bool): (r: Option<BalancesQueryArgs>)
    ensures r.None? <==> address.None? || address.value == ""
    ensures r.Some? ==> r.value == BalancesQueryArgs(chainId, address.value, ignoreSmallBalances)
  {
    if address.Some? && address.value != "" then Some(BalancesQueryArgs(chainId, address.value, ignoreSmallBalances))
    else None
  }

  /** The query's result; a skipped query has no data and is not loading. */
  function RunQuery(cenv: ChainEnv, args: Option<BalancesQueryArgs>): BalancesQueryResult {
    if args.Some? then cenv.balancesQuery(args.value) else BalancesQueryResult(None, false)
  }

  datatype ChainBalances = ChainBalances(balances: BalanceTable, loading: bool)

  /** `useChainBalances(chainId, address, knownCurrencies)`: an empty table
      while there is no data, otherwise the formatted table; no query runs
      without an address. */
  function UseChainBalances(chainId: ChainId, address: Option<Address>, known: map<CurrencyId, Currency>,
                            cenv: ChainEnv): (r: ChainBalances)
    ensures (address.None? || address.value == "") ==> r == ChainBalances(map[], false)
    ensures var q := RunQuery(cenv, QueryArgs(chainId, address, cenv.ignoreSmallBalances));
      && r.loading == q.isLoading
      && r.balances == (if q.currentData.None? then map[] else SerializedTable(q.currentData.value, chainId, known, cenv.format))
  {
    var q := RunQuery(cenv, QueryArgs(chainId, address, cenv.ignoreSmallBalances));
    ChainBalances(if q.currentData.None? then map[] else SerializedTable(q.currentData.value, chainId, known, cenv.format),
                  q.isLoading)
  }

  // ---------------------------------------------------------------------
  // useAllBalancesByChainId

  /** `TESTNET_BALANCE_AMOUNT`, `TESTNET_BALANCE_USD`, `TESTNET_RELATIVE_CHANGE_24`. */
  datatype TestnetConstants = TestnetConstants(amount: real, balanceUSD: real, relativeChange24: real)

  /** `tokensByChainId[chainId] ?? {}`. */
  function KnownOn(known: CurrenciesByChain, chainId: ChainId): map<CurrencyId, Currency> {
    if chainId in known then known[chainId] else map[]
  }

  /** A testnet's table: one constant synthetic balance per known currency
      of the chain.  Each key is written once, so the order of the source's
      `reduce` over the keys does not matter. */
  function TestnetBalances(known: map<CurrencyId, Currency>, consts: TestnetConstants): (r: BalanceTable)
    ensures r.Keys == known.Keys
    ensures forall id :: id in r ==>
      && r[id].amount.currency == known[id]
      && r[id].amount.raw == consts.amount * Pow10(known[id].decimals)
      && r[id].balanceUSD == consts.balanceUSD
      && r[id].relativeChange24 == consts.relativeChange24
  {
    map id | id in known :: PortfolioBalance(CurrencyAmount(known[id], consts.amount * Pow10(known[id].decimals)),
                                             consts.balanceUSD, consts.relativeChange24)
  }

  /** The inputs of `useAllBalancesByChainId` besides the address and chains. */
  datatype AllBalancesEnv = AllBalancesEnv(tokensByChainId: CurrenciesByChain, isTestnet: ChainId -> bool,
                                           testnet: TestnetConstants, chain: ChainEnv)

  datatype AllBalances = AllBalances(balances: map<ChainId, BalanceTable>, loading: bool)

  /** The table a chain gets. */
  function ChainTable(address: Option<Address>, aenv: AllBalancesEnv, chainId: ChainId): BalanceTable {
    if aenv.isTestnet(chainId) then TestnetBalances(KnownOn(aenv.tokensByChainId, chainId), aenv.testnet)
    else UseChainBalances(chainId, address, KnownOn(aenv.tokensByChainId, chainId), aenv.chain).balances
  }

  /** Whether a chain's query holds `loading` up: never for a testnet. */
  predicate ChainLoading(address: Option<Address>, aenv: AllBalancesEnv, chainId: ChainId) {
    !aenv.isTestnet(chainId) && UseChainBalances(chainId, address, KnownOn(aenv.tokensByChainId, chainId), aenv.chain).loading
  }

  /** `useAllBalancesByChainId(address, chainIds)`: every requested chain
      gets its table (testnets the constant one), and `loading` is the OR of
      the loading flags of the chains that are not testnets. */
  method UseAllBalancesByChainId(address: Option<Address>, chainIds: seq<ChainId>, aenv: AllBalancesEnv)
    returns (r: AllBalances)
    ensures r.balances.Keys == set c | c in chainIds
    ensures forall c :: c in chainIds ==> r.balances[c] == ChainTable(address, aenv, c)
    ensures r.loading <==> exists c :: c in chainIds && ChainLoading(address, aenv, c)
  {
    var balancesByChainId: Option<map<ChainId, BalanceTable>> := None;
    var loading := false;
    for i := 0 to |chainIds|
      invariant balancesByChainId.None? <==> i == 0
      invariant balancesByChainId.Some? ==> balancesByChainId.value.Keys == set c | c in chainIds[..i]
      invariant balancesByChainId.Some? ==>
        forall c :: c in chainIds[..i] ==> balancesByChainId.value[c] == ChainTable(address, aenv, c)
      invariant loading <==> exists c :: c in chainIds[..i] && ChainLoading(address, aenv, c)
    {
      var chainId := chainIds[i];
      var table := balancesByChainId.GetOr(map[]);
      var known := KnownOn(aenv.tokensByChainId, chainId);
      var balances := UseChainBalances(chainId, address, known, aenv.chain);
      assert chainIds[..i + 1] == chainIds[..i] + [chainId];
      assert chainId in chainIds[..i + 1];
      assert forall c :: c in chainIds[..i + 1] <==> c in chainIds[..i] || c == chainId;
      if aenv.isTestnet(chainId) {
        assert !ChainLoading(address, aenv, chainId);
        balancesByChainId := Some(table[chainId := TestnetBalances(known, aenv.testnet)]);
        continue;
      }
      assert ChainLoading(address, aenv, chainId) == balances.loading;
      balancesByChainId := Some(table[chainId := balances.balances]);
      loading := loading || balances.loading;
    }
    assert chainIds[..|chainIds|] == chainIds;
    r := AllBalances(balancesByChainId.GetOr(map[]), loading);
  }

  // ---------------------------------------------------------------------
  // useSingleBalance

  /** The cached REST item of one currency. */
  function SingleBalance(currency: Option<Currency>, item: Option<SerializablePortfolioBalance>, fenv: FormatEnv)
    : (r: Option<PortfolioBalance>)
    ensures r.Some? <==> currency.Some? && item.Some?
    ensures r.Some? ==> r.value == PortfolioBalance(CurrencyAmount(currency.value, item.value.balance),
                                                    item.value.balanceUSD,
                                                    fenv.percentDifference(item.value.quoteRate, item.value.quoteRate24h))
  {
    if item.Some? && currency.Some? then
      Some(PortfolioBalance(CurrencyAmount(currency.value, item.value.balance), item.value.balanceUSD,
                            fenv.percentDifference(item.value.quoteRate, item.value.quoteRate24h)))
    else None
  }

  // ---------------------------------------------------------------------
  // useAllBalancesList

  /** Non-increasing in `balanceUSD`. */
  predicate SortedByUsdDesc(s: seq<PortfolioBalance>) {
    forall i, j :: 0 <= i < j < |s| ==> s[i].balanceUSD >= s[j].balanceUSD
  }

  /** Insert `x` into a list after the leading elements worth at least as
      much: the insertion step of a stable sort. */
  function InsertByUsd(s: seq<PortfolioBalance>, x: PortfolioBalance): (r: seq<PortfolioBalance>)
    ensures multiset(r) == multiset(s) + multiset{x}
    ensures |r| == |s| + 1
  {
    if |s| == 0 then [x]
    else if s[0].balanceUSD >= x.balanceUSD then
      assert s == [s[0]] + s[1..];
      [s[0]] + InsertByUsd(s[1..], x)
    else
      [x] + s
  }

  /** A sorted list stays sorted under a head worth at least all of it. */
  lemma SortedCons(a: PortfolioBalance, t: seq<PortfolioBalance>)
    requires SortedByUsdDesc(t)
    requires forall y :: y in t ==> y.balanceUSD <= a.balanceUSD
    ensures SortedByUsdDesc([a] + t)
  {
    var r := [a] + t;
    forall i, j | 0 <= i < j < |r| ensures r[i].balanceUSD >= r[j].balanceUSD {
      assert r[j] == t[j - 1];
      if i > 0 { assert r[i] == t[i - 1]; } else { assert t[j - 1] in t; }
    }
  }

  /** Inserting into a sorted list keeps it sorted. */
  lemma {:induction false} InsertByUsdSorted(s: seq<PortfolioBalance>, x: PortfolioBalance)
    requires SortedByUsdDesc(s)
    ensures SortedByUsdDesc(InsertByUsd(s, x))
  {
    if |s| == 0 {
    } else if s[0].balanceUSD >= x.balanceUSD {
      var tail := s[1..];
      var rest := InsertByUsd(tail, x);
      InsertByUsdSorted(tail, x);
      forall y | y in rest ensures y.balanceUSD <= s[0].balanceUSD {
        assert y in multiset(rest);
        if y != x {
          assert y in multiset(tail);
          var k :| 0 <= k < |tail| && tail[k] == y;
          assert s[k + 1] == y;
        }
      }
      SortedCons(s[0], rest);
    } else {
      forall y | y in s ensures y.balanceUSD <= x.balanceUSD {
        var k :| 0 <= k < |s| && s[k] == y;
        assert s[0].balanceUSD >= s[k].balanceUSD || k == 0;
      }
      SortedCons(x, s);
    }
  }

  /** `allBalances.sort((b1, b2) => b2.balanceUSD - b1.balanceUSD)`: a
      stable sort, largest USD value first. */
  function SortByUsdDesc(s: seq<PortfolioBalance>): (r: seq<PortfolioBalance>)
    ensures SortedByUsdDesc(r)
    ensures multiset(r) == multiset(s)
    ensures |r| == |s|
  {
    if |s| == 0 then []
    else
      assert s == s[..|s| - 1] + [s[|s| - 1]];
      var sortedInit := SortByUsdDesc(s[..|s| - 1]);
      InsertByUsdSorted(sortedInit, s[|s| - 1]);
      InsertByUsd(sortedInit, s[|s| - 1])
  }

  /** The end index of `.slice(0, count)`: all when `count` is undefined, a
      negative count counting from the end. */
  function SliceEnd(count: Option<int>, len: nat): (e: nat)
    ensures e <= len
    ensures count.None? ==> e == len
    ensures count.Some? && count.value >= 0 ==> e == if count.value < len then count.value else len
    ensures count.Some? && count.value < 0 ==> e == if len + count.value >= 0 then len + count.value else 0
  {
    if count.None? then len
    else if count.value >= 0 then (if count.value < len then count.value else len)
    else if len + count.value >= 0 then len + count.value
    else 0
  }

  datatype BalancesList = BalancesList(balances: seq<PortfolioBalance>, balancesByChain: map<ChainId, BalanceTable>,
                                       totalCount: nat, loading: bool)

  /** `useAllBalancesList(address, chainIds, count)` given the chains'
      tables, with `flattenObjectOfObjects` (not part of this model) as a
      parameter: the highest-valued balances first, at most `count` of them
      (all when `count` is undefined), no balance left out worth more than
      one kept, and `totalCount` the length before truncation. */
  function AllBalancesList(byChain: AllBalances, flatten: map<ChainId, BalanceTable> -> seq<PortfolioBalance>,
                           count: Option<int>): (r: BalancesList)
    ensures var all := flatten(byChain.balances);
      && r.totalCount == |all|
      && SortedByUsdDesc(r.balances)
      && |r.balances| == SliceEnd(count, |all|)
      && multiset(r.balances) <= multiset(all)
      && (count.None? ==> multiset(r.balances) == multiset(all))
      && (forall x, y :: x in r.balances && y in multiset(all) - multiset(r.balances) ==> y.balanceUSD <= x.balanceUSD)
    ensures r.balancesByChain == byChain.balances && r.loading == byChain.loading
  {
    var all := flatten(byChain.balances);
    var sorted := SortByUsdDesc(all);
    var n := SliceEnd(count, |all|);
    SortedPrefixDominates(sorted, n);
    BalancesList(sorted[..n], byChain.balances, |all|, byChain.loading)
  }

  /** Cutting a sorted list keeps a prefix worth at least everything cut off. */
  lemma SortedPrefixDominates(s: seq<PortfolioBalance>, n: nat)
    requires SortedByUsdDesc(s) && n <= |s|
    ensures multiset(s[..n]) + multiset(s[n..]) == multiset(s)
    ensures multiset(s) - multiset(s[..n]) == multiset(s[n..])
    ensures forall x, y :: x in s[..n] && y in multiset(s[n..]) ==> y.balanceUSD <= x.balanceUSD
  {
    assert s == s[..n] + s[n..];
    forall x, y | x in s[..n] && y in multiset(s[n..]) ensures y.balanceUSD <= x.balanceUSD {
      var i :| 0 <= i < n && s[..n][i] == x;
      var j :| 0 <= j < |s| - n && s[n..][j] == y;
      assert s[i] == x && s[n + j] == y;
    }
  }
}
