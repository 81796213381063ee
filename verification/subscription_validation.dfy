/**
 * The checkout admission rule (`website/src/lib/subscription-validation.ts`):
 * whether the signed-in user may start a checkout for a product and price,
 * given the newest live subscription and the catalogue's price amounts.
 *
 * `db` is nothing when the database query throws; `listing` is the
 * catalogue the provider returned, nothing when that call failed (the price
 * lookup swallows its own failure and reads 0). `productId` is whatever the
 * checkout request carried, nothing when it had none.
 */
module SubscriptionValidation {
  import opened Wrappers
  import opened BillingStore
  import Catalogue

  const NotLoggedIn := "You must be logged in to subscribe"
  const AlreadySubscribed := "You are already subscribed to this plan"
  const NoDowngrades := "Downgrades are not allowed. Please cancel your current subscription first."
  const ValidationFailed := "An error occurred while validating your subscription"

  /** The current subscription as reported back to the caller (`polarPriceId || ""`). */
  datatype CurrentSubscription = CurrentSubscription(
    productId: string,
    priceId: string,
    priceAmount: int,
    status: string,
    currentPeriodEnd: int)

  datatype Verdict = Verdict(canSubscribe: bool, reason: Option<string>, currentSubscription: Option<CurrentSubscription>)

  /** The server's downgrade rule: a cheaper, non-free price than the current one. */
  predicate IsDowngrade(currentAmount: int, newAmount: int) {
    newAmount < currentAmount && newAmount > 0
  }

  function Report(x: Subscription, amount: int): (c: CurrentSubscription)
    ensures c.productId == x.polarProductId && c.priceAmount == amount && c.status == x.status
    ensures x.polarPriceId.Some? ==> c.priceId == x.polarPriceId.value
    ensures x.polarPriceId.None? ==> c.priceId == ""
  {
    CurrentSubscription(x.polarProductId, x.polarPriceId.GetOr(""), amount, x.status, x.currentPeriodEnd)
  }

  /** The amount of the current subscription's price: 0 when it has no price id. */
  function CurrentAmount(listing: Option<seq<Catalogue.Product>>, x: Subscription): (a: int)
    ensures !Truthy(x.polarPriceId) ==> a == 0
    ensures Truthy(x.polarPriceId) ==> a == Catalogue.PriceAmount(listing, x.polarPriceId.value)
  {
    if Truthy(x.polarPriceId) then Catalogue.PriceAmount(listing, x.polarPriceId.value) else 0
  }

  /** The subscription the rule compares against: the user's newest live one, if the user has a row. */
  function CurrentOf(auth: AuthUser, s: Store): Option<Subscription> {
    if auth.id !in s.users then None else Current(s, auth.id)
  }

  /** `validateSubscription`. */
  function ValidateSubscription(auth: Option<AuthUser>, db: Option<Store>, listing: Option<seq<Catalogue.Product>>,
                                productId: Option<string>, priceId: string): (v: Verdict)
    ensures auth.None? ==> v == Verdict(false, Some(NotLoggedIn), None)
    ensures auth.Some? && db.None? ==> v == Verdict(false, Some(ValidationFailed), None)
    ensures auth.Some? && db.Some? && CurrentOf(auth.value, db.value).None? ==> v == Verdict(true, None, None)
    ensures auth.Some? && db.Some? && CurrentOf(auth.value, db.value).Some? ==>
      var x := CurrentOf(auth.value, db.value).value;
      var current := CurrentAmount(listing, x);
      var asked := Catalogue.PriceAmount(listing, priceId);
      && v.currentSubscription.Some?
      && (Some(x.polarProductId) == productId && x.polarPriceId == Some(priceId) ==>
            v == Verdict(false, Some(AlreadySubscribed), Some(Report(x, 0))))
      && (!(Some(x.polarProductId) == productId && x.polarPriceId == Some(priceId)) ==>
            && (v.canSubscribe <==> !IsDowngrade(current, asked))
            && v.currentSubscription == Some(Report(x, current))
            && (v.canSubscribe ==> v.reason.None?)
            && (!v.canSubscribe ==> v.reason == Some(NoDowngrades)))
  {
    if auth.None? then Verdict(false, Some(NotLoggedIn), None)
    else if db.None? then Verdict(false, Some(ValidationFailed), None)
    else
      match CurrentOf(auth.value, db.value)
      case None => Verdict(true, None, None)
      case Some(x) =>
        if Some(x.polarProductId) == productId && x.polarPriceId == Some(priceId) then
          Verdict(false, Some(AlreadySubscribed), Some(Report(x, 0)))
        else
          var current := CurrentAmount(listing, x);
          var asked := Catalogue.PriceAmount(listing, priceId);
          if IsDowngrade(current, asked) then Verdict(false, Some(NoDowngrades), Some(Report(x, current)))
          else Verdict(true, None, Some(Report(x, current)))
  }

  /** A rejection always names its reason, and an admission never does. */
  lemma VerdictHasReasonIffRejected(auth: Option<AuthUser>, db: Option<Store>, listing: Option<seq<Catalogue.Product>>,
                                    productId: Option<string>, priceId: string)
    ensures var v := ValidateSubscription(auth, db, listing, productId, priceId);
      v.reason.Some? <==> !v.canSubscribe
  {
  }

  /** A current subscription without a price id never blocks a checkout as a downgrade. */
  lemma NoPriceIdNeverDowngrade(auth: AuthUser, s: Store, listing: Option<seq<Catalogue.Product>>,
                                productId: Option<string>, priceId: string)
    requires CurrentOf(auth, s).Some? && !Truthy(CurrentOf(auth, s).value.polarPriceId)
    ensures ValidateSubscription(Some(auth), Some(s), listing, productId, priceId).reason != Some(NoDowngrades)
  {
  }

  /**
   * A target price that is free, has no amount, is not in the catalogue, or
   * whose catalogue could not be read, is never refused as a downgrade.
   */
  lemma FreeTargetNeverDowngrade(auth: Option<AuthUser>, db: Option<Store>, listing: Option<seq<Catalogue.Product>>,
                                 productId: Option<string>, priceId: string)
    requires Catalogue.PriceAmount(listing, priceId) <= 0
    ensures ValidateSubscription(auth, db, listing, productId, priceId).reason != Some(NoDowngrades)
  {
  }

  /** In particular, a checkout for a price the catalogue does not list is admitted unless it is already held. */
  lemma UnlistedTargetAdmitted(auth: AuthUser, s: Store, products: seq<Catalogue.Product>,
                               productId: Option<string>, priceId: string)
    requires !Catalogue.Listed(products, priceId)
    requires !(CurrentOf(auth, s).Some? && Some(CurrentOf(auth, s).value.polarProductId) == productId
               && CurrentOf(auth, s).value.polarPriceId == Some(priceId))
    ensures ValidateSubscription(Some(auth), Some(s), Some(products), productId, priceId).canSubscribe
  {
  }

  /**
   * The rule compares against the subscription the subscription actions call
   * current: with a user row, a rejection other than "not logged in" or an
   * error happens only when that subscription exists.
   */
  lemma RejectionNeedsCurrentSubscription(auth: AuthUser, s: Store, listing: Option<seq<Catalogue.Product>>,
                                          productId: Option<string>, priceId: string)
    requires !ValidateSubscription(Some(auth), Some(s), listing, productId, priceId).canSubscribe
    ensures auth.id in s.users && Current(s, auth.id).Some?
  {
  }

  /** `hasActiveSubscription`: some live subscription of the user's row exists. */
  function HasActiveSubscription(auth: Option<AuthUser>, db: Option<Store>): (b: bool)
    ensures b <==> (auth.Some? && db.Some? && auth.value.id in db.value.users
      && exists i | 0 <= i < |db.value.subscriptions| ::
           (db.value.subscriptions[i].userId == auth.value.id && Live(db.value.subscriptions[i].status)))
  {
    auth.Some? && db.Some? && auth.value.id in db.value.users && Current(db.value, auth.value.id).Some?
  }

  /** Having an active subscription is exactly having a current subscription to compare against. */
  lemma ActiveIffCurrent(auth: AuthUser, s: Store)
    ensures HasActiveSubscription(Some(auth), Some(s)) <==> CurrentOf(auth, s).Some?
  {
  }
}
