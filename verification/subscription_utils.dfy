/**
 * Subscription helpers of the website (`website/src/lib/subscription-utils.ts`):
 * tiers, the product-to-tier map, the feature matrix, tier comparison and
 * status labels.
 */
module SubscriptionUtils {
  import BillingStore

  datatype Tier = Free | Pro | Team

  /** `PRODUCT_TIER_MAP` as shipped: empty. */
  const ProductTierMap: map<string, Tier> := map[]

  /**
   * `getTierFromProductId` over a product-to-tier map (the shipped one is
   * `ProductTierMap`): the mapped tier, or free for any id the map lacks.
   */
  function TierFromProductId(tierMap: map<string, Tier>, productId: string): (t: Tier)
    ensures productId in tierMap ==> t == tierMap[productId]
    ensures productId !in tierMap ==> t == Free
  {
    if productId in tierMap then tierMap[productId] else Free
  }

  /** With the shipped map every product is on the free tier. */
  lemma EveryProductIsFree(productId: string)
    ensures TierFromProductId(ProductTierMap, productId) == Free
  {
  }

  /** `FEATURE_ACCESS`. */
  function FeatureAccess(t: Tier): seq<string> {
    match t
    case Free => ["basic_scenarios", "progress_tracking", "community_support"]
    case Pro => ["basic_scenarios", "progress_tracking", "community_support",
                 "advanced_labs", "priority_support", "certificates", "skill_assessments"]
    case Team => ["basic_scenarios", "progress_tracking", "community_support",
                  "advanced_labs", "priority_support", "certificates", "skill_assessments",
                  "team_management", "custom_scenarios", "analytics_dashboard", "dedicated_support"]
  }

  /** The tier's position: free 0, pro 1, team 2. */
  function Rank(t: Tier): nat {
    match t
    case Free => 0
    case Pro => 1
    case Team => 2
  }

  /** `hasFeature`. */
  predicate HasFeature(t: Tier, feature: string) {
    feature in FeatureAccess(t)
  }

  /** `getFeaturesForTier`: exactly the features the tier has. */
  function FeaturesForTier(t: Tier): (fs: seq<string>)
    ensures forall f :: f in fs <==> HasFeature(t, f)
  {
    FeatureAccess(t)
  }

  /** Each tier's features extend the previous tier's list. */
  lemma FeaturesNested()
    ensures FeatureAccess(Free) == FeatureAccess(Pro)[..3]
    ensures FeatureAccess(Pro) == FeatureAccess(Team)[..7]
  {
  }

  /** A feature of a tier is a feature of every tier at least as high. */
  lemma HasFeatureMonotone(a: Tier, b: Tier, feature: string)
    requires Rank(a) <= Rank(b)
    requires HasFeature(a, feature)
    ensures HasFeature(b, feature)
  {
    FeaturesNested();
    if a == Free && b == Team {
      assert feature in FeatureAccess(Pro)[..3];
    }
  }

  /** `compareTiers`: negative, zero or positive as `a` is below, equal to or above `b`. */
  function CompareTiers(a: Tier, b: Tier): (d: int)
    ensures d == 0 <==> a == b
    ensures d < 0 <==> (a == Free && b != Free) || (a == Pro && b == Team)
    ensures -2 <= d <= 2
  {
    Rank(a) - Rank(b)
  }

  lemma CompareTiersAntisymmetric(a: Tier, b: Tier)
    ensures CompareTiers(a, b) == -CompareTiers(b, a)
  {
  }

  lemma CompareTiersTransitive(a: Tier, b: Tier, c: Tier)
    requires CompareTiers(a, b) < 0 && CompareTiers(b, c) < 0
    ensures CompareTiers(a, c) < 0
  {
  }

  predicate KnownStatus(status: string) {
    status in ["active", "trialing", "canceled", "past_due", "unpaid", "incomplete", "incomplete_expired"]
  }

  /** `formatSubscriptionStatus`: a label for the seven known statuses, anything else unchanged. */
  function FormatSubscriptionStatus(status: string): (shown: string)
    ensures status == "active" ==> shown == "Active"
    ensures status == "trialing" ==> shown == "Trial"
    ensures status == "canceled" ==> shown == "Canceled"
    ensures status == "past_due" ==> shown == "Past Due"
    ensures status == "unpaid" ==> shown == "Unpaid"
    ensures status == "incomplete" ==> shown == "Incomplete"
    ensures status == "incomplete_expired" ==> shown == "Expired"
    ensures !KnownStatus(status) ==> shown == status
  {
    if status == "active" then "Active"
    else if status == "trialing" then "Trial"
    else if status == "canceled" then "Canceled"
    else if status == "past_due" then "Past Due"
    else if status == "unpaid" then "Unpaid"
    else if status == "incomplete" then "Incomplete"
    else if status == "incomplete_expired" then "Expired"
    else status
  }

  /** `isSubscriptionActive`: the same two statuses the database queries keep. */
  function IsSubscriptionActive(status: string): (b: bool)
    ensures b <==> BillingStore.Live(status)
  {
    status in ["active", "trialing"]
  }
}
