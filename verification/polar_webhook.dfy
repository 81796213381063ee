/**
 * The billing provider's webhook (`website/src/app/api/webhooks/polar/route.ts`)
 * as a transformer of the billing store: the signature gate, then one of four
 * handlers chosen by the event type.
 *
 * The HMAC-SHA256 hex digest of the payload under the secret is the
 * parameter `hmacHex`; the parsed JSON is the parameter `event` (nothing
 * when the payload is not JSON); `now` is the clock. The database writes of
 * one handler are not in a transaction: a handler that fails part-way keeps
 * the writes it already made, and the request answers 500.
 */
module PolarWebhook {
  import opened Wrappers
  import opened BillingStore

  /**
   * The event's attributes. Every handler reads the same object through its
   * own type, so all the fields any handler reads are here. Times are
   * already parsed; `canceledAt` is nothing when the event's value is null
   * or empty.
   */
  datatype Attributes = Attributes(
    id: string,
    status: string,
    currentPeriodStart: int,
    currentPeriodEnd: int,
    cancelAtPeriodEnd: bool,
    canceledAt: Option<int>,
    customerId: string,
    productId: string,
    priceId: Option<string>,
    amount: int,
    currency: string,
    metadata: Option<Metadata>)

  datatype Event = Event(kind: string, attributes: Attributes)

  /** What a handler leaves behind: the store after its writes, and whether it threw. */
  datatype Handled = Applied(store: Store) | Failed(store: Store)

  datatype ResponseBody = ErrorBody(error: string) | Received

  datatype Response = Response(status: int, body: ResponseBody)

  const MissingSignature := Response(401, ErrorBody("Missing signature"))
  const NoSecret := Response(500, ErrorBody("Webhook secret not configured"))
  const InvalidSignature := Response(401, ErrorBody("Invalid signature"))
  const HandlerFailed := Response(500, ErrorBody("Webhook handler failed"))
  const Ok200 := Response(200, Received)

  /** A metadata entry that is present and non-empty. */
  function Entry(metadata: Option<Metadata>, key: string): (v: Option<string>)
    ensures v.Some? <==> metadata.Some? && key in metadata.value && metadata.value[key] != ""
    ensures v.Some? ==> v.value == metadata.value[key]
  {
    if metadata.Some? && key in metadata.value && metadata.value[key] != "" then Some(metadata.value[key]) else None
  }

  // ---------------------------------------------------------------------------
  // Signature check
  // ---------------------------------------------------------------------------

  /** `timingSafeEqual` on the header and the digest: it throws when their lengths differ. */
  datatype SignatureCheck = Matches | DiffersSameLength | LengthMismatch

  function CheckSignature(signature: string, digest: string): (c: SignatureCheck)
    ensures c == LengthMismatch <==> |signature| != |digest|
    ensures c == Matches <==> signature == digest
  {
    if |signature| != |digest| then LengthMismatch
    else if signature == digest then Matches
    else DiffersSameLength
  }

  // ---------------------------------------------------------------------------
  // Handlers
  // ---------------------------------------------------------------------------

  /** The new subscription row for `subscription.created`. */
  function NewSubscriptionRow(supabaseId: string, a: Attributes): Subscription {
    Subscription(supabaseId, a.id, a.customerId, a.productId, a.priceId, a.status,
                 a.currentPeriodStart, a.currentPeriodEnd, a.cancelAtPeriodEnd, a.canceledAt, a.metadata)
  }

  /**
   * The user half of `subscription.created`: an unknown user is created
   * carrying the event's customer id; a known user without a customer id
   * gets it; a known user with one keeps it.
   */
  function AttachCustomer(s: Store, supabaseId: string, a: Attributes): (r: Store)
    ensures supabaseId in r.users
    ensures r.subscriptions == s.subscriptions && r.orders == s.orders
    ensures supabaseId !in s.users ==>
      r.users == s.users[supabaseId := User(supabaseId, Entry(a.metadata, "email").GetOr(""), None, Some(a.customerId))]
    ensures supabaseId in s.users && !Truthy(s.users[supabaseId].polarCustomerId) ==>
      r.users == s.users[supabaseId := s.users[supabaseId].(polarCustomerId := Some(a.customerId))]
    ensures supabaseId in s.users && Truthy(s.users[supabaseId].polarCustomerId) ==> r == s
  {
    if supabaseId !in s.users then
      CreateUser(s, User(supabaseId, Entry(a.metadata, "email").GetOr(""), None, Some(a.customerId))).value
    else if !Truthy(s.users[supabaseId].polarCustomerId) then SetCustomerId(s, supabaseId, a.customerId).value
    else s
  }

  /** `handleSubscriptionCreated`. */
  function SubscriptionCreated(s: Store, a: Attributes): (h: Handled)
    ensures Entry(a.metadata, "supabase_id").None? ==> h == Applied(s)
    ensures Entry(a.metadata, "supabase_id").Some? ==>
      var id := Entry(a.metadata, "supabase_id").value;
      var withUser := AttachCustomer(s, id, a);
      && (h.Applied? <==> FindSubscription(s.subscriptions, a.id).None?)
      && (h.Applied? ==> h.store == withUser.(subscriptions := s.subscriptions + [NewSubscriptionRow(id, a)]))
      && (h.Failed? ==> h.store == withUser)
  {
    match Entry(a.metadata, "supabase_id")
    case None => Applied(s)
    case Some(id) =>
      var withUser := AttachCustomer(s, id, a);
      match CreateSubscription(withUser, NewSubscriptionRow(id, a))
      case Ok(r) => Applied(r)
      case Err(_) => Failed(withUser)
  }

  /** The fields `subscription.updated` overwrites; metadata left out of the event is left unchanged. */
  function UpdateFields(a: Attributes): Subscription -> Subscription {
    (x: Subscription) => x.(status := a.status, currentPeriodStart := a.currentPeriodStart,
                            currentPeriodEnd := a.currentPeriodEnd, cancelAtPeriodEnd := a.cancelAtPeriodEnd,
                            canceledAt := a.canceledAt,
                            metadata := if a.metadata.Some? then a.metadata else x.metadata)
  }

  /** `handleSubscriptionUpdated`. */
  function SubscriptionUpdated(s: Store, a: Attributes): (h: Handled)
    ensures h.Failed? <==> FindSubscription(s.subscriptions, a.id).None?
    ensures h.Failed? ==> h.store == s
    ensures h.Applied? ==> h.store == UpdateSubscription(s, a.id, UpdateFields(a)).value
  {
    match UpdateSubscription(s, a.id, UpdateFields(a))
    case Ok(r) => Applied(r)
    case Err(_) => Failed(s)
  }

  function CancelFields(now: int): Subscription -> Subscription {
    (x: Subscription) => x.(status := "canceled", canceledAt := Some(now), cancelAtPeriodEnd := true)
  }

  /** `handleSubscriptionCanceled`, for both `subscription.canceled` and `subscription.revoked`. */
  function SubscriptionCanceled(s: Store, a: Attributes, now: int): (h: Handled)
    ensures h.Failed? <==> FindSubscription(s.subscriptions, a.id).None?
    ensures h.Failed? ==> h.store == s
    ensures h.Applied? ==> h.store == UpdateSubscription(s, a.id, CancelFields(now)).value
  {
    match UpdateSubscription(s, a.id, CancelFields(now))
    case Ok(r) => Applied(r)
    case Err(_) => Failed(s)
  }

  /** The owner of an order: the event's `supabase_id`, when a user with that id exists. */
  function OrderOwner(s: Store, a: Attributes): (owner: Option<string>)
    ensures owner.Some? <==> Entry(a.metadata, "supabase_id").Some? && Entry(a.metadata, "supabase_id").value in s.users
    ensures owner.Some? ==> owner.value in s.users
  {
    match Entry(a.metadata, "supabase_id")
    case None => None
    case Some(id) => if id in s.users then Some(id) else None
  }

  /** `handleOrderCreated`: one succeeded order, owned when the owner resolves. */
  function OrderCreated(s: Store, a: Attributes): (h: Handled)
    ensures h.Failed? <==> FindOrder(s.orders, a.id)
    ensures h.Failed? ==> h.store == s
    ensures h.Applied? ==> h.store == s.(orders := s.orders + [
      Order(OrderOwner(s, a), a.id, a.customerId, a.amount, a.currency, "succeeded", a.productId, a.metadata)])
  {
    var o := Order(OrderOwner(s, a), a.id, a.customerId, a.amount, a.currency, "succeeded", a.productId, a.metadata);
    match CreateOrder(s, o)
    case Ok(r) => Applied(r)
    case Err(_) => Failed(s)
  }

  /** The event types the endpoint handles. */
  predicate HandledKind(kind: string) {
    || kind == "subscription.created" || kind == "subscription.updated"
    || kind == "subscription.canceled" || kind == "subscription.revoked"
    || kind == "order.created"
  }

  /** The `switch` on the event type; other types are logged and change nothing. */
  function Dispatch(s: Store, e: Event, now: int): (h: Handled)
    ensures !HandledKind(e.kind) ==> h == Applied(s)
    ensures e.kind == "subscription.created" ==> h == SubscriptionCreated(s, e.attributes)
    ensures e.kind == "subscription.updated" ==> h == SubscriptionUpdated(s, e.attributes)
    ensures e.kind == "subscription.canceled" || e.kind == "subscription.revoked" ==>
      h == SubscriptionCanceled(s, e.attributes, now)
    ensures e.kind == "order.created" ==> h == OrderCreated(s, e.attributes)
  {
    if e.kind == "subscription.created" then SubscriptionCreated(s, e.attributes)
    else if e.kind == "subscription.updated" then SubscriptionUpdated(s, e.attributes)
    else if e.kind == "subscription.canceled" || e.kind == "subscription.revoked" then
      SubscriptionCanceled(s, e.attributes, now)
    else if e.kind == "order.created" then OrderCreated(s, e.attributes)
    else Applied(s)
  }

  // ---------------------------------------------------------------------------
  // The endpoint
  // ---------------------------------------------------------------------------

  /** The handling after the signature has been accepted. */
  function Handle(s: Store, event: Option<Event>, now: int): (r: (Response, Store))
    ensures event.None? ==> r == (HandlerFailed, s)
    ensures event.Some? && Dispatch(s, event.value, now).Applied? ==> r == (Ok200, Dispatch(s, event.value, now).store)
    ensures event.Some? && Dispatch(s, event.value, now).Failed? ==> r == (HandlerFailed, Dispatch(s, event.value, now).store)
  {
    match event
    case None => (HandlerFailed, s)
    case Some(e) =>
      match Dispatch(s, e, now)
      case Applied(r) => (Ok200, r)
      case Failed(r) => (HandlerFailed, r)
  }

  /**
   * `POST` as written: a missing or empty signature is refused, then a
   * missing secret, then a signature that does not match the digest. A
   * signature of the wrong length makes the comparison throw, which the
   * outer handler answers with 500.
   */
  function Post(signature: Option<string>, secret: Option<string>, payload: string,
                hmacHex: (string, string) -> string, event: Option<Event>, now: int, s: Store)
    : (r: (Response, Store))
    ensures !Truthy(signature) ==> r == (MissingSignature, s)
    ensures Truthy(signature) && !Truthy(secret) ==> r == (NoSecret, s)
    ensures Truthy(signature) && Truthy(secret) ==>
      var c := CheckSignature(signature.value, hmacHex(secret.value, payload));
      && (c == LengthMismatch ==> r == (HandlerFailed, s))
      && (c == DiffersSameLength ==> r == (InvalidSignature, s))
      && (c == Matches ==> r == Handle(s, event, now))
  {
    if !Truthy(signature) then (MissingSignature, s)
    else if !Truthy(secret) then (NoSecret, s)
    else
      match CheckSignature(signature.value, hmacHex(secret.value, payload))
      case LengthMismatch => (HandlerFailed, s)
      case DiffersSameLength => (InvalidSignature, s)
      case Matches => Handle(s, event, now)
  }

  /**
   * `POST` as evidently intended: every signature that is not the digest is
   * refused with 401, whatever its length.
   */
  function PostChecked(signature: Option<string>, secret: Option<string>, payload: string,
                       hmacHex: (string, string) -> string, event: Option<Event>, now: int, s: Store)
    : (r: (Response, Store))
    ensures !Truthy(signature) ==> r == (MissingSignature, s)
    ensures Truthy(signature) && !Truthy(secret) ==> r == (NoSecret, s)
    ensures Truthy(signature) && Truthy(secret) ==>
      (signature.value != hmacHex(secret.value, payload) <==> r == (InvalidSignature, s))
    ensures Truthy(signature) && Truthy(secret) && signature.value == hmacHex(secret.value, payload) ==>
      r == Handle(s, event, now)
  {
    if !Truthy(signature) then (MissingSignature, s)
    else if !Truthy(secret) then (NoSecret, s)
    else if signature.value != hmacHex(secret.value, payload) then (InvalidSignature, s)
    else Handle(s, event, now)
  }

  /** The two agree on every request except a non-matching signature of the wrong length. */
  lemma PostCheckedDiffersOnlyOnLength(signature: Option<string>, secret: Option<string>, payload: string,
                                       hmacHex: (string, string) -> string, event: Option<Event>, now: int, s: Store)
    ensures Post(signature, secret, payload, hmacHex, event, now, s)
         != PostChecked(signature, secret, payload, hmacHex, event, now, s)
        <==> Truthy(signature) && Truthy(secret) && |signature.value| != |hmacHex(secret.value, payload)|
  {
  }

  /** A one-character signature against a 64-character digest answers 500, not 401. */
  lemma ShortSignatureAnswers500(payload: string, event: Option<Event>, now: int, s: Store)
    ensures var digest := (k: string, p: string) => seq(64, _ => 'a');
      && Post(Some("x"), Some("secret"), payload, digest, event, now, s) == (HandlerFailed, s)
      && PostChecked(Some("x"), Some("secret"), payload, digest, event, now, s) == (InvalidSignature, s)
  {
  }

  // ---------------------------------------------------------------------------
  // Properties
  // ---------------------------------------------------------------------------

  /** A refused request changes nothing and its answer does not depend on the event. */
  lemma GateBeforeMutation(signature: Option<string>, secret: Option<string>, payload: string,
                           hmacHex: (string, string) -> string, e1: Option<Event>, e2: Option<Event>,
                           now: int, s: Store)
    requires !Truthy(signature) || !Truthy(secret) || signature.value != hmacHex(secret.value, payload)
    ensures Post(signature, secret, payload, hmacHex, e1, now, s).1 == s
    ensures Post(signature, secret, payload, hmacHex, e1, now, s) == Post(signature, secret, payload, hmacHex, e2, now, s)
  {
  }

  /** An unhandled event type is acknowledged and changes nothing. */
  lemma UnknownEventIsNoOp(s: Store, e: Event, now: int)
    requires !HandledKind(e.kind)
    ensures Handle(s, Some(e), now) == (Ok200, s)
  {
  }

  /** A created subscription without an owner in its metadata changes nothing and is still acknowledged. */
  lemma CreatedWithoutOwnerIsNoOp(s: Store, a: Attributes, now: int)
    requires Entry(a.metadata, "supabase_id").None?
    ensures Handle(s, Some(Event("subscription.created", a)), now) == (Ok200, s)
  {
  }

  /** A created subscription adds exactly one row, owned by the metadata's user, who then exists. */
  lemma CreatedAddsOneRow(s: Store, a: Attributes)
    requires Entry(a.metadata, "supabase_id").Some?
    requires SubscriptionCreated(s, a).Applied?
    ensures var r := SubscriptionCreated(s, a).store;
      var id := Entry(a.metadata, "supabase_id").value;
      && |r.subscriptions| == |s.subscriptions| + 1
      && r.subscriptions[..|s.subscriptions|] == s.subscriptions
      && r.subscriptions[|s.subscriptions|] == NewSubscriptionRow(id, a)
      && id in r.users && r.orders == s.orders
  {
  }

  /** A duplicate subscription id fails the request but keeps the user written before it. */
  lemma CreatedIsNotTransactional(s: Store, a: Attributes)
    requires Entry(a.metadata, "supabase_id").Some? && Entry(a.metadata, "supabase_id").value !in s.users
    requires FindSubscription(s.subscriptions, a.id).Some?
    ensures SubscriptionCreated(s, a).Failed?
    ensures Entry(a.metadata, "supabase_id").value in SubscriptionCreated(s, a).store.users
  {
  }

  /** Replacing a row by one with the same external id does not move the lookup. */
  lemma {:induction false} FindSubscriptionStable(subs: seq<Subscription>, i: nat, x: Subscription, id: string)
    requires i < |subs| && x.polarSubscriptionId == subs[i].polarSubscriptionId
    ensures FindSubscription(subs[i := x], id) == FindSubscription(subs, id)
    decreases |subs|
  {
    var n := |subs| - 1;
    if i < n {
      assert subs[i := x][..n] == subs[..n][i := x];
      assert subs[i := x][n] == subs[n];
      FindSubscriptionStable(subs[..n], i, x, id);
    } else {
      assert subs[i := x][..n] == subs[..n];
    }
  }

  /** An update touches only the matching row, and only the fields the event carries. */
  lemma UpdatedFrame(s: Store, a: Attributes)
    requires SubscriptionUpdated(s, a).Applied?
    ensures var r := SubscriptionUpdated(s, a).store;
      var i := FindSubscription(s.subscriptions, a.id).value;
      && r.users == s.users && r.orders == s.orders && |r.subscriptions| == |s.subscriptions|
      && (forall j | 0 <= j < |s.subscriptions| && j != i :: r.subscriptions[j] == s.subscriptions[j])
      && r.subscriptions[i].userId == s.subscriptions[i].userId
      && r.subscriptions[i].polarSubscriptionId == a.id
      && r.subscriptions[i].polarProductId == s.subscriptions[i].polarProductId
      && r.subscriptions[i].polarPriceId == s.subscriptions[i].polarPriceId
      && r.subscriptions[i].status == a.status
      && r.subscriptions[i].canceledAt == a.canceledAt
      && (a.metadata.None? ==> r.subscriptions[i].metadata == s.subscriptions[i].metadata)
  {
  }

  /** Cancelling marks the matching row canceled at `now`, set to end with the period, and touches nothing else. */
  lemma CanceledFrame(s: Store, a: Attributes, now: int)
    requires SubscriptionCanceled(s, a, now).Applied?
    ensures var r := SubscriptionCanceled(s, a, now).store;
      var i := FindSubscription(s.subscriptions, a.id).value;
      && r.users == s.users && r.orders == s.orders
      && r.subscriptions == s.subscriptions[i := s.subscriptions[i].(status := "canceled", canceledAt := Some(now),
                                                                     cancelAtPeriodEnd := true)]
  {
  }

  /** Applying a cancellation again changes only the cancellation time. */
  lemma {:induction false} CancelAgainMovesOnlyTime(s: Store, a: Attributes, now1: int, now2: int)
    requires SubscriptionCanceled(s, a, now1).Applied?
    ensures var s1 := SubscriptionCanceled(s, a, now1).store;
      var i := FindSubscription(s.subscriptions, a.id).value;
      && SubscriptionCanceled(s1, a, now2).Applied?
      && SubscriptionCanceled(s1, a, now2).store
         == s1.(subscriptions := s1.subscriptions[i := s1.subscriptions[i].(canceledAt := Some(now2))])
  {
    var i := FindSubscription(s.subscriptions, a.id).value;
    var s1 := SubscriptionCanceled(s, a, now1).store;
    CanceledFrame(s, a, now1);
    FindSubscriptionStable(s.subscriptions, i, s1.subscriptions[i], a.id);
    assert s1.subscriptions == s.subscriptions[i := s1.subscriptions[i]];
    assert FindSubscription(s1.subscriptions, a.id) == Some(i);
  }

  /** An order is owned exactly when its `supabase_id` names an existing user. */
  lemma OrderOwnership(s: Store, a: Attributes)
    requires OrderCreated(s, a).Applied?
    ensures var r := OrderCreated(s, a).store;
      && r.orders[|r.orders| - 1].status == "succeeded"
      && (r.orders[|r.orders| - 1].userId.Some? <==>
            Entry(a.metadata, "supabase_id").Some? && Entry(a.metadata, "supabase_id").value in s.users)
      && r.users == s.users && r.subscriptions == s.subscriptions
  {
  }

  /** Every request keeps the database constraints, whatever it answers. */
  lemma {:induction false} PostKeepsValid(signature: Option<string>, secret: Option<string>, payload: string,
                                          hmacHex: (string, string) -> string, event: Option<Event>, now: int, s: Store)
    requires Valid(s)
    ensures Valid(Post(signature, secret, payload, hmacHex, event, now, s).1)
  {
    if event.Some? && Truthy(signature) && Truthy(secret) {
      var e := event.value;
      var a := e.attributes;
      if e.kind == "subscription.created" {
        match Entry(a.metadata, "supabase_id")
        case None =>
        case Some(id) =>
          var withUser := AttachCustomer(s, id, a);
          if id !in s.users {
            CreateUserKeepsValid(s, User(id, Entry(a.metadata, "email").GetOr(""), None, Some(a.customerId)));
          } else if !Truthy(s.users[id].polarCustomerId) {
            SetCustomerIdKeepsValid(s, id, a.customerId);
          }
          if CreateSubscription(withUser, NewSubscriptionRow(id, a)).Ok? {
            CreateSubscriptionKeepsValid(withUser, NewSubscriptionRow(id, a));
          }
      } else if e.kind == "subscription.updated" {
        if UpdateSubscription(s, a.id, UpdateFields(a)).Ok? {
          UpdateSubscriptionKeepsValid(s, a.id, UpdateFields(a));
        }
      } else if e.kind == "subscription.canceled" || e.kind == "subscription.revoked" {
        if UpdateSubscription(s, a.id, CancelFields(now)).Ok? {
          UpdateSubscriptionKeepsValid(s, a.id, CancelFields(now));
        }
      } else if e.kind == "order.created" {
        var o := Order(OrderOwner(s, a), a.id, a.customerId, a.amount, a.currency, "succeeded", a.productId, a.metadata);
        if CreateOrder(s, o).Ok? {
          CreateOrderKeepsValid(s, o);
        }
      }
    }
  }
}
