/**
 * The tax rule that src/components/Receipt.jsx and
 * src/components/XenditPayment.jsx both spell out: the configured percentage,
 * 11 when it is missing or falsy, applied without rounding.
 */
module Tax {
  import opened Model

  const DefaultRate: real := 11.0

  /**
   * JavaScript truthiness of a stored percentage: a number is falsy only when
   * it is 0, a string only when it is empty, so a saved "0" is truthy.
   */
  predicate Truthy(p: TaxSetting) {
    match p
    case Number(x) => x != 0.0
    case Input(text, _) => text != ""
  }

  /** `settings?.taxPercentage || 11`, as the number the arithmetic then uses. */
  function TaxRate(settings: Option<Settings>): (rate: real)
    ensures settings.Some? && settings.value.taxPercentage.Some? && Truthy(settings.value.taxPercentage.value)
      ==> rate == settings.value.taxPercentage.value.x
    ensures settings.None? || settings.value.taxPercentage.None? || !Truthy(settings.value.taxPercentage.value)
      ==> rate == DefaultRate
  {
    match settings
    case None => DefaultRate
    case Some(s) =>
      match s.taxPercentage
      case None => DefaultRate
      case Some(p) => if Truthy(p) then p.x else DefaultRate
  }

  /**
   * The rate is 0 exactly when the settings form saved a non-empty text of
   * the number 0: a numeric 0 falls back to 11, the text "0" does not.
   */
  lemma ZeroRateOnlyFromSavedText(settings: Option<Settings>)
    ensures TaxRate(settings) == 0.0 <==>
      settings.Some? && settings.value.taxPercentage.Some? &&
      settings.value.taxPercentage.value.Input? &&
      settings.value.taxPercentage.value.text != "" && settings.value.taxPercentage.value.x == 0.0
  {
  }

  /** `(subtotal * taxRate) / 100`, unrounded: 0 exactly when the subtotal or the rate is 0. */
  function TaxAmount(subtotal: real, rate: real): (tax: real)
    ensures tax == 0.0 <==> subtotal == 0.0 || rate == 0.0
    ensures subtotal >= 0.0 && rate >= 0.0 ==> tax >= 0.0
  {
    (subtotal * rate) / 100.0
  }

  /** `subtotal + taxAmount`: never below a non-negative subtotal at a non-negative rate. */
  function Total(subtotal: real, rate: real): (total: real)
    ensures subtotal >= 0.0 && rate >= 0.0 ==> total >= subtotal
  {
    subtotal + TaxAmount(subtotal, rate)
  }

  /** The total is the subtotal scaled by (1 + rate/100). */
  lemma TotalScalesSubtotal(subtotal: real, rate: real)
    ensures Total(subtotal, rate) == subtotal * (1.0 + rate / 100.0)
  {
  }

  /** The total equals the subtotal exactly when the subtotal or the rate is 0. */
  lemma TotalIsSubtotalIff(subtotal: real, rate: real)
    ensures Total(subtotal, rate) == subtotal <==> subtotal == 0.0 || rate == 0.0
  {
  }

  /** 25000 x 2 + 18000 x 1 at the default 11%: tax 7480, total 75480. */
  lemma DefaultRateScenario(settings: Option<Settings>)
    requires settings.None? || settings.value.taxPercentage.None?
    ensures TaxAmount(68000.0, TaxRate(settings)) == 7480.0
    ensures Total(68000.0, TaxRate(settings)) == 75480.0
  {
  }

  /** The tax is not rounded to a whole amount: 11% of 18001 is 1980.11. */
  lemma TaxIsNotRounded()
    ensures TaxAmount(18001.0, DefaultRate) == 1980.11
  {
  }
}
