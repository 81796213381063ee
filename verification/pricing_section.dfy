/**
 * The pricing page (`website/src/components/magic/PricingSection.tsx`): the
 * price label of a plan, the upgrade and downgrade flags against the
 * visitor's current plan, the order of the plans, the featured plan and the
 * choice of button.
 *
 * Dollar formatting (`(amount / 100).toFixed(0)`, a floating-point
 * rounding) is the parameter `dollars`.
 */
module PricingSection {
  import opened Wrappers
  import opened Text
  import Sorting
  import Catalogue
  import SubscriptionValidation
  import SubscriptionActions

  /** `formatPrice`: the label of a plan, read from its first price. */
  function FormatPrice(product: Catalogue.Product, dollars: int -> string): (shown: string)
    ensures |product.prices| == 0 ==> shown == "Contact us"
    ensures |product.prices| > 0 ==>
      var p := product.prices[0];
      && (p.amountType == "free" ==> shown == "Free")
      && (p.amountType == "fixed" && p.priceAmount.Some? ==>
            var amount := "$" + dollars(p.priceAmount.value);
            if p.priceType == "recurring" && p.recurringInterval.Some? && p.recurringInterval.value != "" then
              shown == amount + "/" + (if p.recurringInterval.value == "month" then "month" else "year")
            else shown == amount)
      && (p.amountType == "custom" ==> shown == "Custom pricing")
      && (p.amountType !in {"free", "fixed", "custom"} ==> shown == "Contact us")
      && (p.amountType == "fixed" && p.priceAmount.None? ==> shown == "Contact us")
  {
    if |product.prices| == 0 then "Contact us"
    else
      var p := product.prices[0];
      if p.amountType == "free" then "Free"
      else if p.amountType == "fixed" && p.priceAmount.Some? then
        var amount := "$" + dollars(p.priceAmount.value);
        if p.priceType == "recurring" && p.recurringInterval.Some? && p.recurringInterval.value != "" then
          amount + "/" + (if p.recurringInterval.value == "month" then "month" else "year")
        else amount
      else if p.amountType == "custom" then "Custom pricing"
      else "Contact us"
  }

  /** A plan's label names a recurring interval only for a fixed, recurring first price, and only month or year. */
  lemma RecurringLabelShape(product: Catalogue.Product, dollars: int -> string)
    requires |product.prices| > 0 && product.prices[0].amountType == "fixed" && product.prices[0].priceAmount.Some?
    ensures var shown := FormatPrice(product, dollars);
      var amount := "$" + dollars(product.prices[0].priceAmount.value);
      shown == amount || shown == amount + "/month" || shown == amount + "/year"
  {
  }

  /** `getPriceAmount` of the plan's first price: 0 without one or without an amount. */
  function PlanAmount(product: Catalogue.Product): (a: int)
    ensures |product.prices| == 0 ==> a == 0
    ensures |product.prices| > 0 ==> a == Catalogue.AmountOf(product.prices[0])
  {
    if |product.prices| == 0 then 0 else Catalogue.AmountOf(product.prices[0])
  }

  predicate IsUpgrade(currentAmount: int, planAmount: int) {
    currentAmount > 0 && planAmount > currentAmount
  }

  predicate IsDowngrade(currentAmount: int, planAmount: int) {
    currentAmount > 0 && planAmount < currentAmount && planAmount > 0
  }

  /** A plan is never both an upgrade and a downgrade, and without a paid current plan it is neither. */
  lemma FlagsExclusive(currentAmount: int, planAmount: int)
    ensures !(IsUpgrade(currentAmount, planAmount) && IsDowngrade(currentAmount, planAmount))
    ensures currentAmount <= 0 ==> !IsUpgrade(currentAmount, planAmount) && !IsDowngrade(currentAmount, planAmount)
  {
  }

  /** The page's downgrade flag is exactly the checkout's downgrade rejection rule. */
  lemma DowngradeMatchesServer(currentAmount: int, planAmount: int)
    ensures IsDowngrade(currentAmount, planAmount) <==> SubscriptionValidation.IsDowngrade(currentAmount, planAmount)
  {
  }

  /** The plan's button. */
  datatype Button =
    | CurrentPlanButton
    | DowngradeNotAllowed
    | CheckoutLink(href: string, text: string)

  const CheckoutPrefix := "/checkout?price="

  function CheckoutHref(priceId: Option<string>, productId: string): (href: string)
    ensures priceId.Some? && priceId.value != "" && productId != "" ==>
      href == CheckoutPrefix + priceId.value + "&product=" + productId
    ensures !(priceId.Some? && priceId.value != "" && productId != "") ==> href == "#"
  {
    if priceId.Some? && priceId.value != "" && productId != "" then
      CheckoutPrefix + priceId.value + "&product=" + productId
    else "#"
  }

  /**
   * Ids free of '&' can be read back from the checkout link's query by
   * splitting it on '&': the raw price id, then `product=` and the raw
   * product id. Percent- and '+'-decoding are not part of this reading.
   */
  lemma {:induction false} CheckoutHrefRoundTrip(priceId: string, productId: string)
    requires priceId != "" && productId != ""
    requires '&' !in priceId && '&' !in productId
    ensures var href := CheckoutHref(Some(priceId), productId);
      && StartsWith(href, CheckoutPrefix)
      && Split(href[|CheckoutPrefix|..], '&') == [priceId, "product=" + productId]
  {
    var href := CheckoutHref(Some(priceId), productId);
    assert href[..|CheckoutPrefix|] == CheckoutPrefix;
    assert href[|CheckoutPrefix|..] == priceId + ['&'] + ("product=" + productId);
    SplitPrefix(priceId, "product=" + productId, '&');
    assert '&' !in "product=" + productId by {
      assert forall i | 0 <= i < 8 :: ("product=" + productId)[i] == "product="[i];
      assert forall i | 8 <= i < |"product=" + productId| :: ("product=" + productId)[i] == productId[i - 8];
    }
    SplitNoSep("product=" + productId, '&');
  }

  /** The button of `PolarPricingCard`: current plan first, then downgrade, then a checkout link. */
  function ChooseButton(product: Catalogue.Product, isCurrentPlan: bool, currentAmount: int, dollars: int -> string)
    : (b: Button)
    ensures isCurrentPlan <==> b == CurrentPlanButton
    ensures b == DowngradeNotAllowed <==> !isCurrentPlan && IsDowngrade(currentAmount, PlanAmount(product))
    ensures b.CheckoutLink? ==>
      && b.href == CheckoutHref(if |product.prices| > 0 then Some(product.prices[0].id) else None, product.id)
      && (IsUpgrade(currentAmount, PlanAmount(product)) ==> b.text == "Upgrade Now")
      && (!IsUpgrade(currentAmount, PlanAmount(product)) && FormatPrice(product, dollars) == "Free" ==>
            b.text == "Get Started")
      && (!IsUpgrade(currentAmount, PlanAmount(product)) && FormatPrice(product, dollars) != "Free" ==>
            b.text == "Subscribe Now")
  {
    if isCurrentPlan then CurrentPlanButton
    else if IsDowngrade(currentAmount, PlanAmount(product)) then DowngradeNotAllowed
    else
      var priceId := if |product.prices| > 0 then Some(product.prices[0].id) else None;
      var text := if IsUpgrade(currentAmount, PlanAmount(product)) then "Upgrade Now"
                  else if FormatPrice(product, dollars) == "Free" then "Get Started"
                  else "Subscribe Now";
      CheckoutLink(CheckoutHref(priceId, product.id), text)
  }

  /**
   * The amount of the visitor's current plan: the first listed price with
   * the subscription's price id, when it has one.
   */
  function CurrentPlanAmount(products: seq<Catalogue.Product>, subscription: Option<SubscriptionActions.SubscriptionView>)
    : (a: int)
    ensures !(subscription.Some? && subscription.value.priceId.Some? && subscription.value.priceId.value != "") ==> a == 0
    ensures subscription.Some? && subscription.value.priceId.Some? && subscription.value.priceId.value != "" ==>
      a == Catalogue.PriceAmount(Some(products), subscription.value.priceId.value)
  {
    if subscription.Some? && subscription.value.priceId.Some? && subscription.value.priceId.value != "" then
      FirstMatchIsServerLookup(products, subscription.value.priceId.value);
      FirstMatchAmount(products, subscription.value.priceId.value)
    else 0
  }

  /** The loop over the products with `prices.find`, stopping at the first product that has the price. */
  function FirstMatchAmount(products: seq<Catalogue.Product>, priceId: string): int {
    if |products| == 0 then 0
    else
      match Catalogue.FindIn(products[0].prices, priceId)
      case Some(p) => Catalogue.AmountOf(p)
      case None => FirstMatchAmount(products[1..], priceId)
  }

  /** The page finds the current plan's amount the same way the checkout's price lookup does. */
  lemma {:induction false} FirstMatchIsServerLookup(products: seq<Catalogue.Product>, priceId: string)
    ensures FirstMatchAmount(products, priceId) == Catalogue.PriceAmount(Some(products), priceId)
  {
    if |products| > 0 && Catalogue.FindIn(products[0].prices, priceId).None? {
      FirstMatchIsServerLookup(products[1..], priceId);
    }
  }

  /** One rendered plan. */
  datatype Card = Card(product: Catalogue.Product, featured: bool, isCurrentPlan: bool, button: Button)

  /** The plans ordered by first-price amount, equal amounts keeping the catalogue's order. */
  function SortPlans(products: seq<Catalogue.Product>): (r: seq<Catalogue.Product>)
    ensures Sorting.SortedBy(r, PlanAmount)
    ensures multiset(r) == multiset(products)
  {
    Sorting.SortBy(products, PlanAmount)
  }

  /** The page body: the cards, or nothing when the catalogue could not be listed. */
  function Page(listing: Option<seq<Catalogue.Product>>, status: SubscriptionActions.SubscriptionStatus,
                dollars: int -> string): (cards: Option<seq<Card>>)
    ensures listing.None? <==> cards.None?
    ensures cards.Some? ==> |cards.value| == |listing.value|
    ensures cards.Some? ==> multiset(seq(|cards.value|, i requires 0 <= i < |cards.value| => cards.value[i].product))
                            == multiset(listing.value)
    ensures cards.Some? ==> forall i | 0 <= i < |cards.value| ::
      && (cards.value[i].isCurrentPlan <==>
            status.subscription.Some? && cards.value[i].product.id == status.subscription.value.productId)
      && (cards.value[i].featured <==> i == |cards.value| / 2 && !cards.value[i].isCurrentPlan)
      && cards.value[i].button == ChooseButton(cards.value[i].product, cards.value[i].isCurrentPlan,
                                               CurrentPlanAmount(listing.value, status.subscription), dollars)
    ensures cards.Some? ==> forall i, j | 0 <= i < j < |cards.value| ::
      PlanAmount(cards.value[i].product) <= PlanAmount(cards.value[j].product)
  {
    match listing
    case None => None
    case Some(products) =>
      var current := CurrentPlanAmount(products, status.subscription);
      var sorted := SortPlans(products);
      var n := |sorted|;
      assert |sorted| == |products| by {
        assert |multiset(sorted)| == |multiset(products)|;
      }
      var cards := seq(n, i requires 0 <= i < n =>
        var isCurrent := status.subscription.Some? && sorted[i].id == status.subscription.value.productId;
        Card(sorted[i], i == n / 2 && !isCurrent, isCurrent, ChooseButton(sorted[i], isCurrent, current, dollars)));
      assert seq(n, i requires 0 <= i < n => cards[i].product) == sorted;
      Some(cards)
  }

  /** A non-empty page has exactly one featured slot, and it is never the visitor's current plan. */
  lemma FeaturedIsInRange(listing: seq<Catalogue.Product>, status: SubscriptionActions.SubscriptionStatus,
                          dollars: int -> string)
    requires |listing| > 0
    ensures var cards := Page(Some(listing), status, dollars).value;
      && |listing| / 2 < |cards|
      && (forall i | 0 <= i < |cards| && cards[i].featured :: i == |listing| / 2 && !cards[i].isCurrentPlan)
  {
  }
}
