/**
 * The subscription server actions (`website/src/app/actions/subscription/action.ts`):
 * the signed-in user's current subscription and tier, the feature check the
 * pages use, the lazy creation of the user's row, and the subscription list.
 *
 * `auth` is the user `getUser` returned, nothing when it erred or found no
 * user. `db` is the billing store, nothing when the database query throws.
 */
module SubscriptionActions {
  import opened Wrappers
  import opened BillingStore
  import opened Sequences
  import SubscriptionUtils

  /** The fields of the current subscription an action hands out. */
  datatype SubscriptionView = SubscriptionView(
    id: string,
    status: string,
    productId: string,
    priceId: Option<string>,
    currentPeriodEnd: int,
    cancelAtPeriodEnd: bool)

  datatype SubscriptionStatus = SubscriptionStatus(
    hasActiveSubscription: bool,
    subscription: Option<SubscriptionView>,
    tier: SubscriptionUtils.Tier)

  const FreeStatus: SubscriptionStatus := SubscriptionStatus(false, None, SubscriptionUtils.Free)

  /** The row's id is represented by its unique `polarSubscriptionId`. */
  function View(x: Subscription): SubscriptionView {
    SubscriptionView(x.polarSubscriptionId, x.status, x.polarProductId, x.polarPriceId, x.currentPeriodEnd, x.cancelAtPeriodEnd)
  }

  /** The current subscription as `getUserSubscription` finds it. */
  function CurrentFor(auth: Option<AuthUser>, db: Option<Store>): Option<Subscription> {
    if auth.None? || db.None? || auth.value.id !in db.value.users then None
    else Current(db.value, auth.value.id)
  }

  /**
   * `getUserSubscription`: free without a user, a database row or a live
   * subscription; otherwise the newest live subscription, on the pro tier
   * when it names a product. The team tier is never produced.
   */
  function GetUserSubscription(auth: Option<AuthUser>, db: Option<Store>): (r: SubscriptionStatus)
    ensures CurrentFor(auth, db).None? ==> r == FreeStatus
    ensures r.hasActiveSubscription <==> r.subscription.Some?
    ensures r.subscription.Some? ==> r.subscription.value == View(CurrentFor(auth, db).value)
    ensures r.tier == SubscriptionUtils.Pro <==> CurrentFor(auth, db).Some? && CurrentFor(auth, db).value.polarProductId != ""
    ensures r.tier != SubscriptionUtils.Team
  {
    match CurrentFor(auth, db)
    case None => FreeStatus
    case Some(x) =>
      var tier := if x.polarProductId != "" then SubscriptionUtils.Pro else SubscriptionUtils.Free;
      SubscriptionStatus(true, Some(View(x)), tier)
  }

  /** The matrix `hasFeatureAccess` declares inline. */
  function ActionFeatureAccess(t: SubscriptionUtils.Tier): seq<string> {
    match t
    case Free => ["basic_scenarios", "progress_tracking"]
    case Pro => ["basic_scenarios", "progress_tracking", "advanced_labs", "priority_support", "certificates"]
    case Team => ["basic_scenarios", "progress_tracking", "advanced_labs", "priority_support", "certificates",
                  "team_management", "custom_scenarios", "analytics"]
  }

  /** `hasFeatureAccess`: the feature is in the row of the user's current tier. */
  function HasFeatureAccess(auth: Option<AuthUser>, db: Option<Store>, feature: string): (b: bool)
    ensures b <==> feature in ActionFeatureAccess(GetUserSubscription(auth, db).tier)
    ensures CurrentFor(auth, db).None? ==> (b <==> feature in ["basic_scenarios", "progress_tracking"])
  {
    feature in ActionFeatureAccess(GetUserSubscription(auth, db).tier)
  }

  /** `canAccessPremiumContent`: exactly when there is a live subscription. */
  function CanAccessPremiumContent(auth: Option<AuthUser>, db: Option<Store>): (b: bool)
    ensures b <==> CurrentFor(auth, db).Some?
  {
    GetUserSubscription(auth, db).hasActiveSubscription
  }

  /** This matrix and `FEATURE_ACCESS` disagree on both the free and the team row. */
  lemma MatricesDiffer()
    ensures "community_support" in SubscriptionUtils.FeatureAccess(SubscriptionUtils.Free)
    ensures "community_support" !in ActionFeatureAccess(SubscriptionUtils.Free)
    ensures "analytics" in ActionFeatureAccess(SubscriptionUtils.Team)
    ensures "analytics" !in SubscriptionUtils.FeatureAccess(SubscriptionUtils.Team)
    ensures "analytics_dashboard" !in ActionFeatureAccess(SubscriptionUtils.Team)
  {
    var team := SubscriptionUtils.FeatureAccess(SubscriptionUtils.Team);
    assert forall i | 0 <= i < |team| :: team[i] != "analytics";
  }

  datatype SyncResult = Synced | SyncFailed(error: string)

  /**
   * `syncUserWithDatabase`: create the user's row when there is none. A
   * failing database (`db` is nothing) reports the sync failure and stays down.
   */
  function SyncUserWithDatabase(auth: Option<AuthUser>, db: Option<Store>): (r: (SyncResult, Option<Store>))
    ensures auth.None? ==> r == (SyncFailed("Not authenticated"), db)
    ensures auth.Some? && db.None? ==> r == (SyncFailed("Failed to sync user"), db)
    ensures auth.Some? && db.Some? ==> r.0 == Synced && r.1.Some? && auth.value.id in r.1.value.users
    ensures auth.Some? && db.Some? && auth.value.id in db.value.users ==> r.1 == db
    ensures auth.Some? && db.Some? && auth.value.id !in db.value.users ==>
      r.1 == Some(db.value.(users := db.value.users[auth.value.id := NewUserRow(auth.value)]))
  {
    if auth.None? then (SyncFailed("Not authenticated"), db)
    else if db.None? then (SyncFailed("Failed to sync user"), db)
    else if auth.value.id in db.value.users then (Synced, db)
    else (Synced, Some(CreateUser(db.value, NewUserRow(auth.value)).value))
  }

  /** Syncing twice leaves the store as syncing once, and the second sync reports the same. */
  lemma SyncIdempotent(auth: Option<AuthUser>, db: Option<Store>)
    ensures SyncUserWithDatabase(auth, SyncUserWithDatabase(auth, db).1) == SyncUserWithDatabase(auth, db)
  {
  }

  /** A synced user with no live subscription is on the free tier, like a user with no row. */
  lemma SyncKeepsFreeStatus(auth: Option<AuthUser>, db: Option<Store>)
    requires db.Some? && db.value.subscriptions == []
    ensures GetUserSubscription(auth, SyncUserWithDatabase(auth, db).1) == FreeStatus
  {
  }

  /** `getUserSubscriptions`: every row of the user, newest first; nothing without a user or on error. */
  function GetUserSubscriptions(auth: Option<AuthUser>, db: Option<Store>): (r: seq<Subscription>)
    ensures auth.None? || db.None? ==> r == []
    ensures auth.Some? && db.Some? && auth.value.id !in db.value.users ==> r == []
    ensures auth.Some? && db.Some? && auth.value.id in db.value.users ==>
      forall x :: x in r <==> x in db.value.subscriptions && x.userId == auth.value.id
    ensures auth.Some? && db.Some? && auth.value.id in db.value.users ==>
      r == Reverse(Filter(db.value.subscriptions, (x: Subscription) => x.userId == auth.value.id))
    ensures auth.Some? && db.Some? && |r| > 0 ==>
      exists i | 0 <= i < |db.value.subscriptions| ::
        (r[0] == db.value.subscriptions[i]
         && forall j | i < j < |db.value.subscriptions| :: db.value.subscriptions[j].userId != auth.value.id)
  {
    if auth.None? || db.None? then []
    else if auth.value.id !in db.value.users then []
    else
      NewestFirstIsReversedFilter(db.value.subscriptions, (x: Subscription) => x.userId == auth.value.id);
      SubscriptionsOf(db.value, auth.value.id)
  }
}
