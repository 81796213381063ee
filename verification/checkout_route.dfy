/**
 * The checkout endpoint (`website/src/app/api/checkout/create/route.ts`,
 * `POST`): sign-in check, request body, admission rule, customer, then the
 * provider's checkout session, each failure answering before the next step.
 */
module CheckoutRoute {
  import opened Wrappers
  import opened BillingStore
  import Catalogue
  import SubscriptionValidation
  import opened PolarCustomer

  /** The request body: unparseable JSON, or the two fields it may carry. */
  datatype RequestBody = Unparseable | Body(priceId: Option<string>, productId: Option<string>)

  /** The provider's answer to the checkout creation. */
  datatype CheckoutReply = CheckoutThrew | NoResult | Created(url: string, id: string)

  datatype ResponseBody =
    | ErrorBody(error: string)
    | Rejected(reason: Option<string>, currentSubscription: Option<SubscriptionValidation.CurrentSubscription>)
    | CheckoutSession(checkoutUrl: string, checkoutId: string)

  datatype Response = Response(status: int, body: ResponseBody)

  datatype Outcome = Outcome(response: Response, db: Option<Store>, calls: seq<PolarCall>)

  const Unauthorized := Response(401, ErrorBody("Unauthorized - Please log in first"))
  const PriceRequired := Response(400, ErrorBody("Price ID is required"))
  const CustomerError := Response(500, ErrorBody("Failed to create customer"))
  const SessionError := Response(500, ErrorBody("Failed to create checkout session"))
  const InternalError := Response(500, ErrorBody("An error occurred while creating checkout session"))

  /** A signed-in request with a price id that the admission rule lets through. */
  predicate Admitted(auth: Option<AuthUser>, body: RequestBody, db: Option<Store>, listing: Option<seq<Catalogue.Product>>) {
    && auth.Some? && body.Body? && Truthy(body.priceId)
    && SubscriptionValidation.ValidateSubscription(auth, db, listing, body.productId, body.priceId.value).canSubscribe
  }

  /** `POST` for one request. */
  function Post(auth: Option<AuthUser>, body: RequestBody, db: Option<Store>,
                listing: Option<seq<Catalogue.Product>>, created: Option<string>, reply: CheckoutReply)
    : (o: Outcome)
    ensures auth.None? ==> o == Outcome(Unauthorized, db, [])
    ensures auth.Some? && body.Unparseable? ==> o == Outcome(InternalError, db, [])
    ensures auth.Some? && body.Body? && !Truthy(body.priceId) ==> o == Outcome(PriceRequired, db, [])
    ensures auth.Some? && body.Body? && Truthy(body.priceId) ==>
      var v := SubscriptionValidation.ValidateSubscription(auth, db, listing, body.productId, body.priceId.value);
      !v.canSubscribe ==> o == Outcome(Response(400, Rejected(v.reason, v.currentSubscription)), db, [])
    ensures Admitted(auth, body, db, listing) ==>
      var f := GetOrCreatePolarCustomer(auth, db, created);
      (f.result.CustomerFailed? || f.result.customerId == "") ==> o == Outcome(CustomerError, f.db, f.calls)
    ensures Admitted(auth, body, db, listing) ==>
      var f := GetOrCreatePolarCustomer(auth, db, created);
      (f.result.CustomerOk? && f.result.customerId != "") ==>
        && o.db == f.db
        && o.calls == f.calls + [CreateCheckout([body.productId], f.result.customerId, auth.value.id, auth.value.email.GetOr(""))]
        && o.response == match reply
             case Created(u, i) => Response(200, CheckoutSession(u, i))
             case NoResult => SessionError
             case CheckoutThrew => InternalError
    ensures o.response.status == 200 <==> o.response.body.CheckoutSession?
    ensures o.response.status == 200 ==> reply == Created(o.response.body.checkoutUrl, o.response.body.checkoutId)
    ensures o.response.status == 200 ==>
      && auth.Some? && body.Body? && Truthy(body.priceId)
      && SubscriptionValidation.ValidateSubscription(auth, db, listing, body.productId, body.priceId.value).canSubscribe
      && var f := GetOrCreatePolarCustomer(auth, db, created);
         && f.result.CustomerOk? && f.result.customerId != ""
         && o.db == f.db
         && o.calls == f.calls + [CreateCheckout([body.productId], f.result.customerId, auth.value.id, auth.value.email.GetOr(""))]
  {
    if auth.None? then Outcome(Unauthorized, db, [])
    else if body.Unparseable? then Outcome(InternalError, db, [])
    else if !Truthy(body.priceId) then Outcome(PriceRequired, db, [])
    else
      var v := SubscriptionValidation.ValidateSubscription(auth, db, listing, body.productId, body.priceId.value);
      if !v.canSubscribe then Outcome(Response(400, Rejected(v.reason, v.currentSubscription)), db, [])
      else
        var f := GetOrCreatePolarCustomer(auth, db, created);
        if f.result.CustomerFailed? || f.result.customerId == "" then Outcome(CustomerError, f.db, f.calls)
        else
          var u := auth.value;
          var calls := f.calls + [CreateCheckout([body.productId], f.result.customerId, u.id, u.email.GetOr(""))];
          match reply
          case CheckoutThrew => Outcome(InternalError, f.db, calls)
          case NoResult => Outcome(SessionError, f.db, calls)
          case Created(url, id) => Outcome(Response(200, CheckoutSession(url, id)), f.db, calls)
  }

  /** Every checkout session the provider is asked for carries the signed-in user's id, and only the requested product. */
  lemma CheckoutCallCarriesUser(auth: Option<AuthUser>, body: RequestBody, db: Option<Store>,
                                listing: Option<seq<Catalogue.Product>>, created: Option<string>, reply: CheckoutReply)
    ensures var o := Post(auth, body, db, listing, created, reply);
      forall c | c in o.calls && c.CreateCheckout? ::
        auth.Some? && c.supabaseId == auth.value.id && body.Body? && c.products == [body.productId]
  {
    if Admitted(auth, body, db, listing) {
      var f := GetOrCreatePolarCustomer(auth, db, created);
      assert forall c | c in f.calls :: c.CreateCustomer?;
    }
  }

  /** A request the admission rule rejects changes nothing and reaches no provider. */
  lemma RejectedRequestHasNoEffect(auth: AuthUser, priceId: string, productId: Option<string>, db: Option<Store>,
                                   listing: Option<seq<Catalogue.Product>>, created: Option<string>, reply: CheckoutReply)
    requires priceId != ""
    requires !SubscriptionValidation.ValidateSubscription(Some(auth), db, listing, productId, priceId).canSubscribe
    ensures var o := Post(Some(auth), Body(Some(priceId), productId), db, listing, created, reply);
      o.response.status == 400 && o.db == db && o.calls == []
  {
  }

  /** A user already on the newest live subscription to this exact product and price is turned away with 400. */
  lemma AlreadySubscribedIsRejected(auth: AuthUser, s: Store, listing: Option<seq<Catalogue.Product>>,
                                    created: Option<string>, reply: CheckoutReply)
    requires SubscriptionValidation.CurrentOf(auth, s).Some?
    requires Truthy(SubscriptionValidation.CurrentOf(auth, s).value.polarPriceId)
    ensures var x := SubscriptionValidation.CurrentOf(auth, s).value;
      var o := Post(Some(auth), Body(x.polarPriceId, Some(x.polarProductId)), Some(s), listing, created, reply);
      o.response == Response(400, Rejected(Some(SubscriptionValidation.AlreadySubscribed),
                                           Some(SubscriptionValidation.Report(x, 0))))
  {
  }
}
