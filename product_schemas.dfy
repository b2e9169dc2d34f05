/**
 * The catalog service's request schemas (zod). JSON numbers are `real`s;
 * `None` is a missing key; `Parse…` plays `safeParse` and applies the
 * schema's defaults.
 */
module ProductSchemas {
  import opened Wrappers

  datatype Currency = USD | INR

  datatype Price = Price(amount: real, currency: Currency)

  datatype RawPrice = RawPrice(amount: Option<real>, currency: Option<string>)

  datatype RawProduct = RawProduct(
    title: Option<string>, description: Option<string>, price: Option<RawPrice>, stock: Option<real>)

  datatype ProductInput = ProductInput(title: string, description: Option<string>, price: Price, stock: nat)

  datatype PricePatch = PricePatch(amount: Option<real>, currency: Option<Currency>)

  datatype ProductPatch = ProductPatch(
    title: Option<string>, description: Option<string>, price: Option<PricePatch>, stock: Option<nat>)

  /** `z.enum(["USD", "INR"])`. */
  function ParseCurrency(raw: string): (r: Option<Currency>)
    ensures r == Some(USD) <==> raw == "USD"
    ensures r == Some(INR) <==> raw == "INR"
  {
    if raw == "USD" then Some(USD) else if raw == "INR" then Some(INR) else None
  }

  /** `priceSchema`: a non-negative amount; the currency is "INR" unless given. */
  function ParsePrice(raw: RawPrice): (r: Option<Price>)
    ensures r.Some? <==> raw.amount.Some? && raw.amount.value >= 0.0 &&
                         (raw.currency.None? || raw.currency.value == "USD" || raw.currency.value == "INR")
    ensures r.Some? ==> r.value.amount == raw.amount.value
    ensures r.Some? && raw.currency.None? ==> r.value.currency == INR
    ensures r.Some? && raw.currency.Some? ==> r.value.currency == ParseCurrency(raw.currency.value).value
  {
    var currency := if raw.currency.None? then Some(INR) else ParseCurrency(raw.currency.value);
    if raw.amount.Some? && raw.amount.value >= 0.0 && currency.Some?
    then Some(Price(raw.amount.value, currency.value))
    else None
  }

  /** `z.number().int().nonnegative()`. */
  predicate WholeCount(x: real) {
    x >= 0.0 && x == x.Floor as real
  }

  /** `createProductSchema`: a non-empty title, an optional description, a price, and a stock that defaults to 0. */
  function ParseProduct(raw: RawProduct): (r: Option<ProductInput>)
    ensures r.Some? <==>
      raw.title.Some? && raw.title.value != "" &&
      raw.price.Some? && ParsePrice(raw.price.value).Some? &&
      (raw.stock.Some? ==> WholeCount(raw.stock.value))
    ensures r.Some? ==>
      && r.value.title == raw.title.value
      && r.value.description == raw.description
      && r.value.price == ParsePrice(raw.price.value).value
      && (raw.stock.None? ==> r.value.stock == 0)
      && (raw.stock.Some? ==> r.value.stock as real == raw.stock.value)
  {
    var price := if raw.price.Some? then ParsePrice(raw.price.value) else None;
    var stockOk := raw.stock.None? || WholeCount(raw.stock.value);
    if raw.title.Some? && |raw.title.value| >= 1 && price.Some? && stockOk
    then Some(ProductInput(raw.title.value, raw.description, price.value,
                           if raw.stock.None? then 0 else raw.stock.value.Floor))
    else None
  }

  /** `priceSchema.partial()`: both keys optional, and no currency default once partial. */
  function ParsePricePatch(raw: RawPrice): (r: Option<PricePatch>)
    ensures r.Some? <==> (raw.amount.Some? ==> raw.amount.value >= 0.0) &&
                         (raw.currency.Some? ==> raw.currency.value == "USD" || raw.currency.value == "INR")
    ensures r.Some? ==> r.value.amount == raw.amount
    ensures r.Some? ==> (r.value.currency.None? <==> raw.currency.None?)
    ensures r.Some? && raw.currency.Some? ==> r.value.currency == ParseCurrency(raw.currency.value)
  {
    var currency := if raw.currency.None? then None else ParseCurrency(raw.currency.value);
    if (raw.amount.None? || raw.amount.value >= 0.0) && (raw.currency.None? || currency.Some?)
    then Some(PricePatch(raw.amount, currency))
    else None
  }

  /** `updateProductSchema`: every key optional; a stock that is given is a non-negative integer. */
  function ParseProductPatch(raw: RawProduct): (r: Option<ProductPatch>)
    ensures r.Some? <==>
      (raw.price.Some? ==> ParsePricePatch(raw.price.value).Some?) &&
      (raw.stock.Some? ==> WholeCount(raw.stock.value))
    ensures r.Some? ==>
      && r.value.title == raw.title
      && r.value.description == raw.description
      && (r.value.price.Some? <==> raw.price.Some?)
      && (raw.price.Some? ==> r.value.price == ParsePricePatch(raw.price.value))
      && (r.value.stock.Some? <==> raw.stock.Some?)
      && (raw.stock.Some? ==> r.value.stock.value as real == raw.stock.value)
  {
    var price := if raw.price.None? then Some(None) else
      match ParsePricePatch(raw.price.value)
      case None => None
      case Some(p) => Some(Some(p));
    var stockOk := raw.stock.None? || WholeCount(raw.stock.value);
    if price.Some? && stockOk
    then Some(ProductPatch(raw.title, raw.description, price.value,
                           if raw.stock.None? then None else Some(raw.stock.value.Floor as nat)))
    else None
  }

  /** Every body the create schema accepts, the update schema accepts too, with each key set. */
  lemma CreateBodyIsValidPatch(raw: RawProduct)
    requires ParseProduct(raw).Some?
    ensures ParseProductPatch(raw).Some?
    ensures ParseProductPatch(raw).value.price.value.amount == Some(ParseProduct(raw).value.price.amount)
  {
  }
}
