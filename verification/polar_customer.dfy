/**
 * Linking a signed-in user to a billing-provider customer
 * (`website/src/lib/polar-customer.ts`): make sure the user has a row, reuse
 * the customer id it already holds, or create a customer at the provider and
 * store its id.
 *
 * The provider is seen only through its calls, recorded in order, and the
 * reply to a customer creation (`created`: the new id, or nothing when the
 * call throws). `db` is nothing when a database call throws.
 */
module PolarCustomer {
  import opened Wrappers
  import opened BillingStore

  /** A call to the billing provider. `email` is the auth user's email as given (it may be missing). */
  datatype PolarCall =
    | CreateCustomer(email: Option<string>, name: Option<string>, supabaseId: string)
    | UpdateCustomer(id: string, email: Option<string>, name: Option<string>, supabaseId: string)
    | CreateCheckout(products: seq<Option<string>>, customerId: string, supabaseId: string, contactEmail: string)

  datatype CustomerResult = CustomerOk(customerId: string) | CustomerFailed(error: string)

  datatype Flow = Flow(result: CustomerResult, db: Option<Store>, calls: seq<PolarCall>)

  /** The row of the signed-in user, created from the auth user when missing. */
  function EnsureUser(s: Store, u: AuthUser): (r: Store)
    ensures u.id in r.users
    ensures u.id in s.users ==> r == s
    ensures u.id !in s.users ==> r == s.(users := s.users[u.id := NewUserRow(u)])
  {
    if u.id in s.users then s else CreateUser(s, NewUserRow(u)).value
  }

  /** `getOrCreatePolarCustomer`. */
  function GetOrCreatePolarCustomer(auth: Option<AuthUser>, db: Option<Store>, created: Option<string>): (f: Flow)
    ensures auth.None? ==> f == Flow(CustomerFailed("Not authenticated"), db, [])
    ensures auth.Some? && db.None? ==> f == Flow(CustomerFailed("Internal error"), db, [])
    ensures auth.Some? && db.Some? ==>
      var u := auth.value;
      var row := EnsureUser(db.value, u);
      if Truthy(row.users[u.id].polarCustomerId) then
        f == Flow(CustomerOk(row.users[u.id].polarCustomerId.value), Some(row), [])
      else
        && f.calls == [CreateCustomer(u.email, DisplayName(u), u.id)]
        && (created.None? ==> f.result == CustomerFailed("Failed to create customer") && f.db == Some(row))
        && (created.Some? ==>
              f.result == CustomerOk(created.value) && f.db == Some(SetCustomerId(row, u.id, created.value).value))
  {
    if auth.None? then Flow(CustomerFailed("Not authenticated"), db, [])
    else if db.None? then Flow(CustomerFailed("Internal error"), db, [])
    else
      var u := auth.value;
      var row := EnsureUser(db.value, u);
      var existing := row.users[u.id].polarCustomerId;
      if Truthy(existing) then Flow(CustomerOk(existing.value), Some(row), [])
      else
        var call := CreateCustomer(u.email, DisplayName(u), u.id);
        match created
        case None => Flow(CustomerFailed("Failed to create customer"), Some(row), [call])
        case Some(id) => Flow(CustomerOk(id), Some(SetCustomerId(row, u.id, id).value), [call])
  }

  /** On every path that reaches the database, the user ends up with a row, even when the provider fails. */
  lemma UserRowExistsAfterwards(auth: AuthUser, s: Store, created: Option<string>)
    ensures var f := GetOrCreatePolarCustomer(Some(auth), Some(s), created);
      f.db.Some? && auth.id in f.db.value.users
  {
  }

  /** A success stores the returned id on the user's row; a failure leaves the row's customer id as it was. */
  lemma ResultMatchesStoredId(auth: AuthUser, s: Store, created: Option<string>)
    ensures var f := GetOrCreatePolarCustomer(Some(auth), Some(s), created);
      && (f.result.CustomerOk? ==> f.db.value.users[auth.id].polarCustomerId == Some(f.result.customerId))
      && (f.result.CustomerFailed? ==>
            f.db.value.users[auth.id].polarCustomerId == EnsureUser(s, auth).users[auth.id].polarCustomerId)
  {
  }

  /**
   * Once a non-empty customer id is stored, later calls return it with no
   * provider call and no change, whatever the provider would answer.
   */
  lemma {:induction false} GetOrCreateIdempotent(auth: AuthUser, s: Store, created: Option<string>, created2: Option<string>)
    requires GetOrCreatePolarCustomer(Some(auth), Some(s), created).result.CustomerOk?
    requires GetOrCreatePolarCustomer(Some(auth), Some(s), created).result.customerId != ""
    ensures var f := GetOrCreatePolarCustomer(Some(auth), Some(s), created);
      GetOrCreatePolarCustomer(Some(auth), f.db, created2) == Flow(f.result, f.db, [])
  {
    var f := GetOrCreatePolarCustomer(Some(auth), Some(s), created);
    ResultMatchesStoredId(auth, s, created);
    assert EnsureUser(f.db.value, auth) == f.db.value;
  }

  /** `syncPolarCustomer`: one customer update carrying the user's details, or nothing without a user. */
  function SyncPolarCustomer(auth: Option<AuthUser>, customerId: string): (calls: seq<PolarCall>)
    ensures auth.None? ==> calls == []
    ensures auth.Some? ==>
      calls == [UpdateCustomer(customerId, auth.value.email, DisplayName(auth.value), auth.value.id)]
  {
    if auth.None? then [] else [UpdateCustomer(customerId, auth.value.email, DisplayName(auth.value), auth.value.id)]
  }
}
