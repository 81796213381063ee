/**
 * The two server-side guards of `website/src/components/premium-guard.tsx`:
 * `PremiumGuard` on having any live subscription, `FeatureGuard` on the
 * current tier's feature row. Only the choice of what is rendered is
 * modelled; `fallback` is given or not (`hasFallback`), and `redirectTo` is
 * an optional path that counts only when non-empty.
 */
module PremiumGuard {
  import opened Wrappers
  import SubscriptionUtils
  import SubscriptionActions
  import BillingStore

  datatype Outcome =
    | RenderChildren
    | RedirectTo(path: string)
    | RenderFallback
    | RenderLockedCard
    | RenderNothing

  /** `PremiumGuard`: children when subscribed; otherwise redirect, fallback, then the locked card. */
  function Premium(status: SubscriptionActions.SubscriptionStatus, redirectTo: Option<string>, hasFallback: bool)
    : (o: Outcome)
    ensures o == RenderChildren <==> status.hasActiveSubscription
    ensures o.RedirectTo? <==> !status.hasActiveSubscription && redirectTo.Some? && redirectTo.value != ""
    ensures o.RedirectTo? ==> o.path == redirectTo.value
    ensures o == RenderFallback <==>
      !status.hasActiveSubscription && !(redirectTo.Some? && redirectTo.value != "") && hasFallback
    ensures o == RenderLockedCard <==>
      !status.hasActiveSubscription && !(redirectTo.Some? && redirectTo.value != "") && !hasFallback
    ensures o != RenderNothing
  {
    if !status.hasActiveSubscription then
      if redirectTo.Some? && redirectTo.value != "" then RedirectTo(redirectTo.value)
      else if hasFallback then RenderFallback
      else RenderLockedCard
    else RenderChildren
  }

  /** The matrix `FeatureGuard` declares inline. */
  function GuardFeatureAccess(t: SubscriptionUtils.Tier): seq<string> {
    match t
    case Free => ["basic_scenarios", "progress_tracking"]
    case Pro => ["basic_scenarios", "progress_tracking", "advanced_labs", "priority_support", "certificates"]
    case Team => ["basic_scenarios", "progress_tracking", "advanced_labs", "priority_support", "certificates",
                  "team_management", "custom_scenarios", "analytics"]
  }

  /** `FeatureGuard`: children iff the feature is in the tier's row, else the fallback or nothing. */
  function Feature(status: SubscriptionActions.SubscriptionStatus, feature: string, hasFallback: bool): (o: Outcome)
    ensures o == RenderChildren <==> feature in GuardFeatureAccess(status.tier)
    ensures o == RenderFallback <==> feature !in GuardFeatureAccess(status.tier) && hasFallback
    ensures o == RenderNothing <==> feature !in GuardFeatureAccess(status.tier) && !hasFallback
  {
    if feature !in GuardFeatureAccess(status.tier) then
      if hasFallback then RenderFallback else RenderNothing
    else RenderChildren
  }

  /** The guard's matrix is the one of the subscription actions, so the guard and `hasFeatureAccess` agree. */
  lemma GuardAgreesWithActions(auth: Option<BillingStore.AuthUser>, db: Option<BillingStore.Store>,
                               feature: string, hasFallback: bool)
    ensures forall t :: GuardFeatureAccess(t) == SubscriptionActions.ActionFeatureAccess(t)
    ensures Feature(SubscriptionActions.GetUserSubscription(auth, db), feature, hasFallback) == RenderChildren
        <==> SubscriptionActions.HasFeatureAccess(auth, db, feature)
  {
  }

  /** Each row extends the one below it, so access only grows with the tier. */
  lemma GuardRowsNested(a: SubscriptionUtils.Tier, b: SubscriptionUtils.Tier, feature: string)
    requires SubscriptionUtils.Rank(a) <= SubscriptionUtils.Rank(b)
    requires feature in GuardFeatureAccess(a)
    ensures feature in GuardFeatureAccess(b)
  {
    assert GuardFeatureAccess(SubscriptionUtils.Free) == GuardFeatureAccess(SubscriptionUtils.Pro)[..2];
    assert GuardFeatureAccess(SubscriptionUtils.Pro) == GuardFeatureAccess(SubscriptionUtils.Team)[..5];
    if a == SubscriptionUtils.Free && b == SubscriptionUtils.Team {
      assert feature in GuardFeatureAccess(SubscriptionUtils.Pro)[..2];
    }
  }

  /** Whatever the fallback, a visitor without a live subscription never sees the premium children. */
  lemma PremiumNeedsLiveSubscription(auth: Option<BillingStore.AuthUser>, db: Option<BillingStore.Store>,
                                     redirectTo: Option<string>, hasFallback: bool)
    ensures Premium(SubscriptionActions.GetUserSubscription(auth, db), redirectTo, hasFallback) == RenderChildren
        <==> SubscriptionActions.CurrentFor(auth, db).Some?
  {
  }
}
