/**
 * The billing provider's product catalogue as the website reads it: products,
 * each with a list of prices, and the lookup of a price's amount by id
 * (`getPriceAmount` in `website/src/lib/subscription-validation.ts`).
 */
module Catalogue {
  import opened Wrappers

  /**
   * A catalogue price. `priceAmount` is present only on price kinds that
   * carry one (the `"priceAmount" in price` test); amounts are in cents.
   */
  datatype Price = Price(
    id: string,
    amountType: string,
    priceType: string,
    priceAmount: Option<int>,
    recurringInterval: Option<string>)

  datatype Product = Product(id: string, prices: seq<Price>)

  /** The amount a price carries, or 0 when it has none. */
  function AmountOf(p: Price): (a: int)
    ensures p.priceAmount.Some? ==> a == p.priceAmount.value
    ensures p.priceAmount.None? ==> a == 0
  {
    p.priceAmount.GetOr(0)
  }

  /** Some price of some product has this id. */
  predicate Listed(products: seq<Product>, priceId: string) {
    exists i, j | 0 <= i < |products| && 0 <= j < |products[i].prices| :: products[i].prices[j].id == priceId
  }

  /** The first price with this id, products in order and each product's prices in order. */
  function FindPrice(products: seq<Product>, priceId: string): (r: Option<Price>)
    ensures r.Some? ==> r.value.id == priceId
    ensures r.Some? <==> Listed(products, priceId)
  {
    if |products| == 0 then None
    else
      match FindIn(products[0].prices, priceId)
      case Some(p) => Some(p)
      case None =>
        var rest := FindPrice(products[1..], priceId);
        assert Listed(products, priceId) <==> Listed(products[1..], priceId) by {
          if Listed(products, priceId) {
            var i, j :| 0 <= i < |products| && 0 <= j < |products[i].prices| && products[i].prices[j].id == priceId;
            assert i != 0;
            assert products[1..][i - 1] == products[i];
          }
          if Listed(products[1..], priceId) {
            var i, j :| 0 <= i < |products[1..]| && 0 <= j < |products[1..][i].prices| && products[1..][i].prices[j].id == priceId;
            assert products[i + 1] == products[1..][i];
          }
        }
        rest
  }

  /** The first price of the list whose id is `priceId`, as `Array.prototype.find` returns it. */
  function FindIn(prices: seq<Price>, priceId: string): (r: Option<Price>)
    ensures r.Some? <==> exists j | 0 <= j < |prices| :: prices[j].id == priceId
    ensures r.Some? ==> exists j | 0 <= j < |prices| ::
      (prices[j] == r.value && r.value.id == priceId && forall k | 0 <= k < j :: prices[k].id != priceId)
  {
    if |prices| == 0 then None
    else if prices[0].id == priceId then Some(prices[0])
    else
      var r := FindIn(prices[1..], priceId);
      assert forall j | 0 <= j < |prices[1..]| :: prices[1..][j] == prices[j + 1];
      r
  }

  /**
   * The server-side `getPriceAmount`: `listing` is the catalogue the
   * provider returned, or nothing when the call failed. Absent prices,
   * prices without an amount and failed lookups all count as 0.
   */
  function PriceAmount(listing: Option<seq<Product>>, priceId: string): (a: int)
    ensures listing.None? ==> a == 0
    ensures listing.Some? && !Listed(listing.value, priceId) ==> a == 0
    ensures listing.Some? && Listed(listing.value, priceId) ==> a == AmountOf(FindPrice(listing.value, priceId).value)
  {
    match listing
    case None => 0
    case Some(products) =>
      match FindPrice(products, priceId)
      case Some(p) => AmountOf(p)
      case None => 0
  }

  /** Price ids are unique across the catalogue. */
  ghost predicate UniquePriceIds(products: seq<Product>) {
    forall i, j, k, l |
      0 <= i < |products| && 0 <= j < |products[i].prices| && 0 <= k < |products| && 0 <= l < |products[k].prices|
      && products[i].prices[j].id == products[k].prices[l].id
      :: products[i].prices[j] == products[k].prices[l]
  }

  /** With unique ids, looking a listed price up by its id finds that very price. */
  lemma {:induction false} FindListedPrice(products: seq<Product>, i: nat, j: nat)
    requires UniquePriceIds(products)
    requires i < |products| && j < |products[i].prices|
    ensures FindPrice(products, products[i].prices[j].id) == Some(products[i].prices[j])
  {
    var p := products[i].prices[j];
    var r := FindPrice(products, p.id);
    assert Listed(products, p.id);
    var r0 := r.value;
    FindPriceLocated(products, p.id);
    var k, l :| 0 <= k < |products| && 0 <= l < |products[k].prices| && products[k].prices[l] == r0;
    assert products[k].prices[l].id == p.id;
  }

  /** A found price is one of the catalogue's prices. */
  lemma {:induction false} FindPriceLocated(products: seq<Product>, priceId: string)
    requires FindPrice(products, priceId).Some?
    ensures exists k, l | 0 <= k < |products| && 0 <= l < |products[k].prices| ::
      products[k].prices[l] == FindPrice(products, priceId).value
  {
    var r := FindIn(products[0].prices, priceId);
    if r.Some? {
      var l :| 0 <= l < |products[0].prices| && products[0].prices[l] == r.value && r.value.id == priceId
        && forall m | 0 <= m < l :: products[0].prices[m].id != priceId;
      assert products[0].prices[l] == FindPrice(products, priceId).value;
    } else {
      FindPriceLocated(products[1..], priceId);
      var k, l :| 0 <= k < |products[1..]| && 0 <= l < |products[1..][k].prices|
        && products[1..][k].prices[l] == FindPrice(products[1..], priceId).value;
      assert products[k + 1] == products[1..][k];
    }
  }
}
