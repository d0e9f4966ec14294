/** The part of the token SDK that the modelled hooks and builders read:
    chains, currencies, currency identifiers and amounts.  The SDK itself is
    not part of this model; these datatypes keep only the fields the core
    code inspects. */
module Currencies {
  import opened Wrappers

  /** A numeric chain identifier (the `ChainId` enum).  A value of 0 is falsy
      in the source's `!chainId` guards. */
  type ChainId = nat

  /** A hex address as text. */
  type Address = string

  /** `ChainId.Mainnet`, the fallback chain of the native-balance lookups. */
  const MAINNET: ChainId := 1

  /** An SDK `Currency`: either the chain's native currency or an ERC-20
      token.  `isNative` and `isToken` are the two constructors. */
  datatype Currency =
    | Native(chainId: ChainId, decimals: nat)
    | Token(chainId: ChainId, address: Address, decimals: nat,
            symbol: Option<string>, name: Option<string>)
  {
    predicate IsNative() { Native? }
    predicate IsToken() { Token? }
  }

  /** A currency identifier.  The source builds it as text from the chain and
      the address (or the native marker); the model keeps the two parts, so
      two identifiers are equal exactly when both parts are. */
  datatype CurrencyId =
    | NativeId(chain: ChainId)
    | TokenId(chain: ChainId, address: Address)

  /** `buildCurrencyId(chainId, address)`. */
  function BuildCurrencyId(chainId: ChainId, address: Address): CurrencyId {
    TokenId(chainId, address)
  }

  /** `currencyId(currency)`. */
  function CurrencyIdOf(c: Currency): CurrencyId {
    match c
    case Native(chainId, _) => NativeId(chainId)
    case Token(chainId, address, _, _, _) => BuildCurrencyId(chainId, address)
  }

  /** An SDK `CurrencyAmount`: a currency and a raw amount in its smallest
      unit.  The raw amount is an exact real here.  A raw amount that is not
      an integer, such as a floating-point product `quantity * 10 ** decimals`,
      and what the SDK's big-integer conversion does with it, are not part of
      this model. */
  datatype CurrencyAmount = CurrencyAmount(currency: Currency, raw: real)

  /** 10 ** n as an exact real. */
  function Pow10(n: nat): (r: real)
    ensures r >= 1.0
  {
    if n == 0 then 1.0 else 10.0 * Pow10(n - 1)
  }
}
