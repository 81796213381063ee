/**
 * The website's billing database (Users, Subscriptions, Orders) as a value.
 *
 * Users are keyed by `supabaseId`, which is unique; a user's generated row
 * id is in one-to-one correspondence with it, so subscriptions and orders
 * refer to their owner by `supabaseId`. Subscriptions and orders are kept in
 * creation order, so "ordered by `createdAt` descending" is the reverse of
 * that order. `polarSubscriptionId` and `polarOrderId` are unique; an insert
 * that would break uniqueness, or an update of a row that does not exist,
 * fails the way the database client throws.
 */
module BillingStore {
  import opened Wrappers
  import opened Sequences

  type Metadata = map<string, string>

  datatype User = User(
    supabaseId: string,
    email: string,
    fullName: Option<string>,
    polarCustomerId: Option<string>)

  datatype Subscription = Subscription(
    userId: string,
    polarSubscriptionId: string,
    polarCustomerId: string,
    polarProductId: string,
    polarPriceId: Option<string>,
    status: string,
    currentPeriodStart: int,
    currentPeriodEnd: int,
    cancelAtPeriodEnd: bool,
    canceledAt: Option<int>,
    metadata: Option<Metadata>)

  datatype Order = Order(
    userId: Option<string>,
    polarOrderId: string,
    polarCustomerId: string,
    amount: int,
    currency: string,
    status: string,
    productId: string,
    metadata: Option<Metadata>)

  datatype Store = Store(users: map<string, User>, subscriptions: seq<Subscription>, orders: seq<Order>)

  datatype DbError = UniqueViolation | RecordNotFound | ForeignKeyViolation

  /** The database constraints. */
  ghost predicate Valid(s: Store) {
    && (forall k | k in s.users :: s.users[k].supabaseId == k)
    && (forall i | 0 <= i < |s.subscriptions| :: s.subscriptions[i].userId in s.users)
    && (forall i, j | 0 <= i < j < |s.subscriptions| ::
          s.subscriptions[i].polarSubscriptionId != s.subscriptions[j].polarSubscriptionId)
    && (forall i | 0 <= i < |s.orders| :: s.orders[i].userId.Some? ==> s.orders[i].userId.value in s.users)
    && (forall i, j | 0 <= i < j < |s.orders| :: s.orders[i].polarOrderId != s.orders[j].polarOrderId)
  }

  /** A JavaScript-truthy optional string: present and non-empty. */
  predicate Truthy(v: Option<string>) { v.Some? && v.value != "" }

  /**
   * The signed-in user as the auth provider reports it: id, email, and the
   * `fullName` / `full_name` entries of its metadata.
   */
  datatype AuthUser = AuthUser(id: string, email: Option<string>, fullNameMeta: Option<string>, full_nameMeta: Option<string>)

  /** `user_metadata?.fullName || user_metadata?.full_name || null`. */
  function DisplayName(u: AuthUser): (n: Option<string>)
    ensures n.Some? ==> n.value != ""
    ensures n.None? <==> !Truthy(u.fullNameMeta) && !Truthy(u.full_nameMeta)
    ensures Truthy(u.fullNameMeta) ==> n == u.fullNameMeta
  {
    if Truthy(u.fullNameMeta) then u.fullNameMeta
    else if Truthy(u.full_nameMeta) then u.full_nameMeta
    else None
  }

  /** The row created for a signed-in user who has none yet (email `|| ""`). */
  function NewUserRow(u: AuthUser): (row: User)
    ensures row.supabaseId == u.id && row.polarCustomerId.None?
    ensures u.email.Some? ==> row.email == u.email.value
    ensures u.email.None? ==> row.email == ""
  {
    User(u.id, u.email.GetOr(""), DisplayName(u), None)
  }

  /** The statuses the current-subscription queries keep (`in: ["active", "trialing"]`). */
  predicate Live(status: string) { status == "active" || status == "trialing" }

  // ---------------------------------------------------------------------------
  // Queries
  // ---------------------------------------------------------------------------

  /**
   * The elements of `xs` that `keep` selects, last-created first: the
   * creation-order selection read backwards.
   */
  function NewestFirst<T(!new)>(xs: seq<T>, keep: T -> bool): (r: seq<T>)
    ensures forall x :: x in r <==> x in xs && keep(x)
    ensures |r| > 0 ==> exists i | 0 <= i < |xs| ::
      (r[0] == xs[i] && keep(xs[i]) && forall j | i < j < |xs| :: !keep(xs[j]))
    ensures |r| <= |xs|
  {
    if |xs| == 0 then []
    else
      var last := xs[|xs| - 1];
      var front := xs[..|xs| - 1];
      var rest := NewestFirst(front, keep);
      assert xs == front + [last];
      if keep(last) then [last] + rest
      else
        assert forall j | 0 <= j < |front| :: front[j] == xs[j];
        rest
  }

  /** `NewestFirst` of a sequence with a known last element. */
  lemma NewestFirstSnoc<T(!new)>(front: seq<T>, last: T, keep: T -> bool)
    ensures NewestFirst(front + [last], keep) == (if keep(last) then [last] else []) + NewestFirst(front, keep)
  {
    var xs := front + [last];
    assert xs[..|xs| - 1] == front && xs[|xs| - 1] == last;
  }

  /** Reversed filter of a sequence with a known last element. */
  lemma ReversedFilterSnoc<T>(front: seq<T>, last: T, keep: T -> bool)
    ensures Reverse(Filter(front + [last], keep)) == (if keep(last) then [last] else []) + Reverse(Filter(front, keep))
  {
    var kept: seq<T> := if keep(last) then [last] else [];
    FilterAppend(front, [last], keep);
    assert Filter([last], keep) == kept by {
      assert [last][1..] == [];
    }
    ReverseAppend(Filter(front, keep), kept);
    assert Reverse(kept) == kept by {
      if keep(last) { assert kept[1..] == []; }
    }
  }

  /** The whole order: `NewestFirst` is the creation-order selection read backwards. */
  lemma {:induction false} NewestFirstIsReversedFilter<T(!new)>(xs: seq<T>, keep: T -> bool)
    ensures NewestFirst(xs, keep) == Reverse(Filter(xs, keep))
  {
    if |xs| > 0 {
      var front, last := xs[..|xs| - 1], xs[|xs| - 1];
      assert xs == front + [last];
      NewestFirstIsReversedFilter(front, keep);
      NewestFirstSnoc(front, last, keep);
      ReversedFilterSnoc(front, last, keep);
    }
  }

  function SubscriptionsOf(s: Store, supabaseId: string): seq<Subscription> {
    NewestFirst(s.subscriptions, (x: Subscription) => x.userId == supabaseId)
  }

  function LiveSubscriptionsOf(s: Store, supabaseId: string): seq<Subscription> {
    NewestFirst(s.subscriptions, (x: Subscription) => x.userId == supabaseId && Live(x.status))
  }

  /**
   * "The" current subscription of a user: the most recently created one
   * whose status is active or trialing.
   */
  function Current(s: Store, supabaseId: string): (r: Option<Subscription>)
    ensures r.None? <==> forall i | 0 <= i < |s.subscriptions| ::
      !(s.subscriptions[i].userId == supabaseId && Live(s.subscriptions[i].status))
    ensures r.Some? ==> exists i | 0 <= i < |s.subscriptions| ::
      && r.value == s.subscriptions[i]
      && r.value.userId == supabaseId && Live(r.value.status)
      && forall j | i < j < |s.subscriptions| ::
           !(s.subscriptions[j].userId == supabaseId && Live(s.subscriptions[j].status))
  {
    var live := LiveSubscriptionsOf(s, supabaseId);
    if |live| == 0 then
      assert forall i | 0 <= i < |s.subscriptions| :: s.subscriptions[i] in s.subscriptions;
      None
    else Some(live[0])
  }

  /** Index of the row with this `polarSubscriptionId`, if any. */
  function FindSubscription(subs: seq<Subscription>, polarSubscriptionId: string): (r: Option<nat>)
    ensures r.Some? ==> r.value < |subs| && subs[r.value].polarSubscriptionId == polarSubscriptionId
    ensures r.None? ==> forall i | 0 <= i < |subs| :: subs[i].polarSubscriptionId != polarSubscriptionId
  {
    if |subs| == 0 then None
    else if subs[|subs| - 1].polarSubscriptionId == polarSubscriptionId then Some(|subs| - 1)
    else FindSubscription(subs[..|subs| - 1], polarSubscriptionId)
  }

  // ---------------------------------------------------------------------------
  // Writes
  // ---------------------------------------------------------------------------

  function CreateUser(s: Store, u: User): (r: Result<Store, DbError>)
    ensures r.Err? <==> u.supabaseId in s.users
    ensures r.Ok? ==> r.value == s.(users := s.users[u.supabaseId := u])
  {
    if u.supabaseId in s.users then Err(UniqueViolation) else Ok(s.(users := s.users[u.supabaseId := u]))
  }

  /** `user.update({where: {id}, data: {polarCustomerId}})`. */
  function SetCustomerId(s: Store, supabaseId: string, customerId: string): (r: Result<Store, DbError>)
    ensures r.Err? <==> supabaseId !in s.users
    ensures r.Ok? ==> r.value.subscriptions == s.subscriptions && r.value.orders == s.orders
    ensures r.Ok? ==>
      && r.value.users.Keys == s.users.Keys
      && r.value.users[supabaseId] == s.users[supabaseId].(polarCustomerId := Some(customerId))
      && (forall k | k in s.users && k != supabaseId :: r.value.users[k] == s.users[k])
  {
    if supabaseId !in s.users then Err(RecordNotFound)
    else Ok(s.(users := s.users[supabaseId := s.users[supabaseId].(polarCustomerId := Some(customerId))]))
  }

  function CreateSubscription(s: Store, sub: Subscription): (r: Result<Store, DbError>)
    ensures r.Err? <==> sub.userId !in s.users || FindSubscription(s.subscriptions, sub.polarSubscriptionId).Some?
    ensures r.Ok? ==> r.value == s.(subscriptions := s.subscriptions + [sub])
  {
    if sub.userId !in s.users then Err(ForeignKeyViolation)
    else if FindSubscription(s.subscriptions, sub.polarSubscriptionId).Some? then Err(UniqueViolation)
    else Ok(s.(subscriptions := s.subscriptions + [sub]))
  }

  /**
   * `subscription.update({where: {polarSubscriptionId}, data})`: `change`
   * rewrites the one matching row; no match fails.
   */
  function UpdateSubscription(s: Store, polarSubscriptionId: string, change: Subscription -> Subscription)
    : (r: Result<Store, DbError>)
    ensures r.Err? <==> FindSubscription(s.subscriptions, polarSubscriptionId).None?
    ensures r.Ok? ==>
      var i := FindSubscription(s.subscriptions, polarSubscriptionId).value;
      && r.value.users == s.users && r.value.orders == s.orders
      && |r.value.subscriptions| == |s.subscriptions|
      && r.value.subscriptions[i] == change(s.subscriptions[i])
      && forall j | 0 <= j < |s.subscriptions| && j != i :: r.value.subscriptions[j] == s.subscriptions[j]
  {
    match FindSubscription(s.subscriptions, polarSubscriptionId)
    case None => Err(RecordNotFound)
    case Some(i) => Ok(s.(subscriptions := s.subscriptions[i := change(s.subscriptions[i])]))
  }

  function FindOrder(orders: seq<Order>, polarOrderId: string): (r: bool)
    ensures r <==> exists i | 0 <= i < |orders| :: orders[i].polarOrderId == polarOrderId
  {
    if |orders| == 0 then false
    else
      assert forall i | 0 <= i < |orders[1..]| :: orders[1..][i] == orders[i + 1];
      orders[0].polarOrderId == polarOrderId || FindOrder(orders[1..], polarOrderId)
  }

  function CreateOrder(s: Store, o: Order): (r: Result<Store, DbError>)
    ensures r.Err? <==> (o.userId.Some? && o.userId.value !in s.users) || FindOrder(s.orders, o.polarOrderId)
    ensures r.Ok? ==> r.value == s.(orders := s.orders + [o])
  {
    if o.userId.Some? && o.userId.value !in s.users then Err(ForeignKeyViolation)
    else if FindOrder(s.orders, o.polarOrderId) then Err(UniqueViolation)
    else Ok(s.(orders := s.orders + [o]))
  }

  // ---------------------------------------------------------------------------
  // Constraints are kept
  // ---------------------------------------------------------------------------

  lemma CreateUserKeepsValid(s: Store, u: User)
    requires Valid(s) && CreateUser(s, u).Ok?
    ensures Valid(CreateUser(s, u).value)
  {
  }

  lemma SetCustomerIdKeepsValid(s: Store, supabaseId: string, customerId: string)
    requires Valid(s) && SetCustomerId(s, supabaseId, customerId).Ok?
    ensures Valid(SetCustomerId(s, supabaseId, customerId).value)
  {
  }

  lemma CreateSubscriptionKeepsValid(s: Store, sub: Subscription)
    requires Valid(s) && CreateSubscription(s, sub).Ok?
    ensures Valid(CreateSubscription(s, sub).value)
  {
  }

  /** Updates that keep the owner and the external id keep the constraints. */
  lemma UpdateSubscriptionKeepsValid(s: Store, polarSubscriptionId: string, change: Subscription -> Subscription)
    requires Valid(s) && UpdateSubscription(s, polarSubscriptionId, change).Ok?
    requires forall x: Subscription ::
      change(x).userId == x.userId && change(x).polarSubscriptionId == x.polarSubscriptionId
    ensures Valid(UpdateSubscription(s, polarSubscriptionId, change).value)
  {
  }

  lemma CreateOrderKeepsValid(s: Store, o: Order)
    requires Valid(s) && CreateOrder(s, o).Ok?
    ensures Valid(CreateOrder(s, o).value)
  {
  }
}
