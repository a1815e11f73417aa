/** The product catalogue offered for checkout and its two lookups. */
module StripeConfig {
  import opened Wrappers

  datatype Mode = Payment | Subscription

  /** A purchasable product; `price` is in the currency's minor unit. */
  datatype StripeProduct = StripeProduct(
    id: string,
    priceId: string,
    name: string,
    description: string,
    mode: Mode,
    price: Option<int>,
    currency: Option<string>)

  const StripeProducts: seq<StripeProduct> := [
    StripeProduct(
      "prod_SGTL2wI8TSPe4d",
      "price_1RLwPHF5yHKhCNjMquJFabff",
      "Dozz Software",
      "Logotipo empresarial",
      Payment,
      Some(100),
      Some("brl"))
  ]

  /** `Array.prototype.find`: the position of the first product that
      matches, or None when none does. */
  function FindIndex(products: seq<StripeProduct>, matches: StripeProduct -> bool): (r: Option<nat>)
    ensures r.Some? ==> r.value < |products| && matches(products[r.value])
    ensures r.Some? ==> forall j :: 0 <= j < r.value ==> !matches(products[j])
    ensures r.None? <==> forall j :: 0 <= j < |products| ==> !matches(products[j])
  {
    if products == [] then None
    else if matches(products[0]) then Some(0)
    else
      match FindIndex(products[1..], matches)
      case None => None
      case Some(i) => Some(i + 1)
  }

  /** The first catalogue product whose `id` is `id` (first in the sense of
      FindIndex). */
  function GetProductById(id: string): (r: Option<StripeProduct>)
    ensures r.Some? ==> r.value.id == id
    ensures r.Some? ==> r.value in StripeProducts
    ensures r.None? <==> forall p :: p in StripeProducts ==> p.id != id
  {
    match FindIndex(StripeProducts, (p: StripeProduct) => p.id == id)
    case None => None
    case Some(i) => Some(StripeProducts[i])
  }

  /** The first catalogue product whose `priceId` is `priceId` (first in the
      sense of FindIndex). */
  function GetProductByPriceId(priceId: string): (r: Option<StripeProduct>)
    ensures r.Some? ==> r.value.priceId == priceId
    ensures r.Some? ==> r.value in StripeProducts
    ensures r.None? <==> forall p :: p in StripeProducts ==> p.priceId != priceId
  {
    match FindIndex(StripeProducts, (p: StripeProduct) => p.priceId == priceId)
    case None => None
    case Some(i) => Some(StripeProducts[i])
  }

  /** The one catalogue entry: a one-off payment of 100 centavos. */
  lemma CatalogueEntry()
    ensures GetProductById("prod_SGTL2wI8TSPe4d").Some?
    ensures var p := GetProductById("prod_SGTL2wI8TSPe4d").value;
      p.price == Some(100) && p.currency == Some("brl") && p.mode == Payment
    ensures GetProductByPriceId("price_1RLwPHF5yHKhCNjMquJFabff") == GetProductById("prod_SGTL2wI8TSPe4d")
  {
  }
}
