/** The solid-colour identicon: an address is coloured by one hex digit near
    its end, bucketed into one of five palette entries. */
module Identicon {
  import opened Wrappers

  /** The five palette entries an address can be coloured with. */
  datatype PaletteColor = Orange | Green | Pink | Blue | Red

  /** One theme's colour table (`colorsLight` or `colorsDark`), restricted to
      the entries the identicon uses. */
  datatype Palette = Palette(orange: string, green: string, pink: string, blue: string, red: string)

  /** `palette.orange`, `palette.green`, ... */
  function Entry(p: Palette, c: PaletteColor): string {
    match c
    case Orange => p.orange
    case Green => p.green
    case Pink => p.pink
    case Blue => p.blue
    case Red => p.red
  }

  const HEX_DIGITS: string := "0123456789abcdef"

  /** `parseInt(ch, 16)` on a one-character string: the digit's value, or
      None for NaN (any character that is not a hex digit, whitespace and
      signs included). */
  function HexValue(ch: char): (r: Option<nat>)
    ensures r.Some? <==> ('0' <= ch <= '9' || 'a' <= ch <= 'f' || 'A' <= ch <= 'F')
    ensures r.Some? ==> r.value < 16 && HEX_DIGITS[r.value] == LowerHex(ch)
  {
    if '0' <= ch <= '9' then Some(ch as nat - '0' as nat)
    else if 'a' <= ch <= 'f' then Some(ch as nat - 'a' as nat + 10)
    else if 'A' <= ch <= 'F' then Some(ch as nat - 'A' as nat + 10)
    else None
  }

  /** Lower-cases the letters A-F and leaves every other character alone. */
  function LowerHex(ch: char): char {
    if 'A' <= ch <= 'F' then (ch as int - 'A' as int + 'a' as int) as char else ch
  }

  /** Every hex digit parses back to its own value. */
  lemma HexValueOfDigit(n: nat)
    requires n < 16
    ensures HexValue(HEX_DIGITS[n]) == Some(n)
  {
  }

  /** `s.at(-offset)`: `at` counts a negative index from the end and yields
      `undefined` (None) outside the string. */
  function CharAt(s: string, index: int): (r: Option<char>)
    ensures r.Some? <==> -|s| <= index < |s|
    ensures r.Some? && index < 0 ==> r.value == s[|s| + index]
    ensures r.Some? && index >= 0 ==> r.value == s[index]
  {
    var k := if index < 0 then |s| + index else index;
    if 0 <= k < |s| then Some(s[k]) else None
  }

  /** `parseInt(address.at(-offset)!, 16)`; `parseInt(undefined, 16)` is NaN
      as well, since "undefined" does not start with a hex digit. */
  function ColorSeed(address: string, offset: int): (r: Option<nat>)
    ensures r.Some? ==> r.value < 16
    ensures 1 <= offset <= |address| ==> r == HexValue(address[|address| - offset])
    ensures offset > |address| ==> r.None?
    ensures -|address| < offset <= 0 ==> r == HexValue(address[-offset])
    ensures offset <= -|address| ==> r.None?
  {
    match CharAt(address, -offset)
    case None => None
    case Some(ch) => HexValue(ch)
  }

  /** The if-chain of thresholds on the seed.  NaN fails every `<` test and
      falls through to red. */
  function Bucket(seed: Option<nat>): (r: PaletteColor)
    ensures r == Orange <==> seed.Some? && seed.value <= 2
    ensures r == Green <==> seed.Some? && 3 <= seed.value <= 5
    ensures r == Pink <==> seed.Some? && 6 <= seed.value <= 8
    ensures r == Blue <==> seed.Some? && 9 <= seed.value <= 11
    ensures r == Red <==> seed.None? || seed.value >= 12
  {
    match seed
    case None => Red
    case Some(v) =>
      if v < 3 then Orange
      else if v < 6 then Green
      else if v < 9 then Pink
      else if v < 12 then Blue
      else Red
  }

  /** `useAddressColor(address, isDarkMode, offset)`: always exactly one of
      the five entries of the palette that `isDarkMode` selects. */
  function AddressColor(address: string, isDarkMode: bool, offset: int, dark: Palette, light: Palette): (r: string)
    ensures var p := if isDarkMode then dark else light;
      r in {p.orange, p.green, p.pink, p.blue, p.red}
  {
    var palette := if isDarkMode then dark else light;
    Entry(palette, Bucket(ColorSeed(address, offset)))
  }

  /** The default offset of `useAddressColor`: the last character. */
  const DEFAULT_OFFSET: int := 1

  /** Only the seed character and the mode matter: two addresses whose seeds
      agree get the same colour in the same mode. */
  lemma AddressColorDependsOnlyOnSeed(a1: string, o1: int, a2: string, o2: int, isDarkMode: bool, dark: Palette, light: Palette)
    requires ColorSeed(a1, o1) == ColorSeed(a2, o2)
    ensures AddressColor(a1, isDarkMode, o1, dark, light) == AddressColor(a2, isDarkMode, o2, dark, light)
  {
  }

  /** A last character that is not a hex digit colours the address red. */
  lemma NonHexLastCharacterIsRed(address: string, isDarkMode: bool, dark: Palette, light: Palette)
    requires |address| > 0 && HexValue(address[|address| - 1]).None?
    ensures AddressColor(address, isDarkMode, DEFAULT_OFFSET, dark, light) == (if isDarkMode then dark else light).red
  {
  }

  /** The error thrown for an address that fails validation. */
  datatype IdenticonError = InvalidAddress(address: string)

  /** `Identicon`: the background colour it renders with, or the error it
      throws before computing any colour.  `isValidAddress` is the address
      validator, which is not part of this model. */
  function IdenticonColor(address: string, isValidAddress: string -> bool, isDarkMode: bool, dark: Palette, light: Palette)
    : (r: Result<string, IdenticonError>)
    ensures r.Failure? <==> !isValidAddress(address)
    ensures r.Failure? ==> r.error == InvalidAddress(address)
    ensures r.Success? ==> r.value == AddressColor(address, isDarkMode, DEFAULT_OFFSET, dark, light)
  {
    if !isValidAddress(address) then Failure(InvalidAddress(address))
    else Success(AddressColor(address, isDarkMode, DEFAULT_OFFSET, dark, light))
  }
}
