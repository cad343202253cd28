/** Currency helpers: the per-code configuration with its INR fallback, the
    symbol lookup, the compact-suffix choice and the list of supported
    currencies. The digits themselves (`Intl.NumberFormat`, `toFixed`) are
    left to the formatting library. */
module Currency {

  datatype Config = Config(locale: string, symbol: string)

  const RupeeSign := "\U{20B9}"

  const CurrencyConfig: map<string, Config> := map[
    "INR" := Config("en-IN", RupeeSign),
    "USD" := Config("en-US", "$"),
    "EUR" := Config("de-DE", "\U{20AC}"),
    "GBP" := Config("en-GB", "\U{00A3}"),
    "JPY" := Config("ja-JP", "\U{00A5}")
  ]

  /** `currencyConfig[currency] || currencyConfig.INR`. */
  function ConfigFor(code: string): (c: Config)
    ensures code in CurrencyConfig ==> c == CurrencyConfig[code]
    ensures code !in CurrencyConfig ==> c == CurrencyConfig["INR"]
  {
    if code in CurrencyConfig then CurrencyConfig[code] else CurrencyConfig["INR"]
  }

  /** `getCurrencySymbol`: the configured symbol, or the rupee sign for an
      unknown code. */
  function CurrencySymbol(code: string): (s: string)
    ensures code in CurrencyConfig ==> s == CurrencyConfig[code].symbol
    ensures code !in CurrencyConfig ==> s == RupeeSign
  {
    if code in CurrencyConfig && CurrencyConfig[code].symbol != "" then CurrencyConfig[code].symbol else RupeeSign
  }

  /** The formatting function picks the same symbol as the symbol lookup. */
  lemma SymbolAgreesWithConfig(code: string)
    ensures ConfigFor(code).symbol == CurrencySymbol(code)
  {
  }

  /** What `formatCompactCurrency` produces: the symbol, the amount scaled
      down and a suffix (shown with one decimal), or the full format. */
  datatype Compact =
    | Scaled(symbol: string, scaled: real, suffix: string)
    | Full(amount: real, code: string)

  const Crore: real := 10000000.0
  const Lakh: real := 100000.0
  const Thousand: real := 1000.0

  /** `formatCompactCurrency`: the first threshold the amount reaches wins. */
  function CompactCurrency(amount: real, code: string): (r: Compact)
    ensures amount >= Crore ==> r == Scaled(ConfigFor(code).symbol, amount / Crore, "Cr")
    ensures Lakh <= amount < Crore ==> r == Scaled(ConfigFor(code).symbol, amount / Lakh, "L")
    ensures Thousand <= amount < Lakh ==> r == Scaled(ConfigFor(code).symbol, amount / Thousand, "K")
    ensures amount < Thousand ==> r == Full(amount, code)
  {
    var config := ConfigFor(code);
    if amount >= Crore then Scaled(config.symbol, amount / Crore, "Cr")
    else if amount >= Lakh then Scaled(config.symbol, amount / Lakh, "L")
    else if amount >= Thousand then Scaled(config.symbol, amount / Thousand, "K")
    else Full(amount, code)
  }

  /** The number shown before a suffix is at least 1, and below 100 for "L"
      and "K": no amount is shown as "0.5L" or "150K". */
  lemma CompactScaleBounds(amount: real, code: string)
    ensures CompactCurrency(amount, code).Scaled? ==> CompactCurrency(amount, code).scaled >= 1.0
    ensures CompactCurrency(amount, code).Scaled? && CompactCurrency(amount, code).suffix != "Cr" ==>
              CompactCurrency(amount, code).scaled < 100.0
  {
  }

  datatype CurrencyInfo = CurrencyInfo(code: string, name: string, symbol: string)

  const SupportedCurrencies: seq<CurrencyInfo> := [
    CurrencyInfo("INR", "Indian Rupee", RupeeSign),
    CurrencyInfo("USD", "US Dollar", "$"),
    CurrencyInfo("EUR", "Euro", "\U{20AC}"),
    CurrencyInfo("GBP", "British Pound", "\U{00A3}"),
    CurrencyInfo("JPY", "Japanese Yen", "\U{00A5}")
  ]

  /** The supported list offers exactly the configured codes, each once and
      with the configured symbol. */
  lemma SupportedMatchesConfig()
    ensures forall i :: 0 <= i < |SupportedCurrencies| ==>
              SupportedCurrencies[i].code in CurrencyConfig
              && CurrencyConfig[SupportedCurrencies[i].code].symbol == SupportedCurrencies[i].symbol
    ensures forall code :: code in CurrencyConfig ==>
              exists i :: 0 <= i < |SupportedCurrencies| && SupportedCurrencies[i].code == code
    ensures forall i, j :: 0 <= i < j < |SupportedCurrencies| ==> SupportedCurrencies[i].code != SupportedCurrencies[j].code
  {
    forall code | code in CurrencyConfig
      ensures exists i :: 0 <= i < |SupportedCurrencies| && SupportedCurrencies[i].code == code
    {
      if code == "INR" { assert SupportedCurrencies[0].code == code; }
      else if code == "USD" { assert SupportedCurrencies[1].code == code; }
      else if code == "EUR" { assert SupportedCurrencies[2].code == code; }
      else if code == "GBP" { assert SupportedCurrencies[3].code == code; }
      else { assert SupportedCurrencies[4].code == code; }
    }
  }
}
