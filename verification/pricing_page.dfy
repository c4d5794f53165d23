/** The pricing page: the three tier cards, their buttons and the upgrade click. */
module PricingPage {
  import opened Wrappers
  import opened Domain

  /** The fields of a tier card the decisions read. */
  datatype PricingTier = PricingTier(name: string, price: string, buttonText: string, planId: string)

  const CurrentPlanLabel: string := "Current Plan"

  const StarterCard: PricingTier := PricingTier("Starter", "$0", CurrentPlanLabel, StarterName)
  const ProCard: PricingTier := PricingTier("Pro", "$25", "Upgrade to Pro", ProName)
  const EnterpriseCard: PricingTier := PricingTier("Enterprise", "Custom", "Contact Sales", EnterpriseName)

  /** The cards, in display order. */
  const Tiers: seq<PricingTier> := [StarterCard, ProCard, EnterpriseCard]

  /** `session.user.plan || contextPlan`, as the string the buttons compare with. */
  function CurrentPlan(sessionPlan: Option<string>, contextPlan: Plan): (name: string)
    ensures Truthy(sessionPlan) ==> name == sessionPlan.value
    ensures !Truthy(sessionPlan) ==> name == PlanName(contextPlan)
  {
    PlanName(EffectivePlan(sessionPlan, contextPlan))
  }

  /** What a click on a tier's button does. */
  datatype Click = ContactSales | AlreadyOnPlan | OpenCheckout(tier: PricingTier)

  /** `handleUpgradeClick`. */
  function HandleUpgradeClick(tier: PricingTier, userPlan: string): (r: Click)
    ensures r.ContactSales? <==> tier.planId == EnterpriseName
    ensures r.AlreadyOnPlan? <==> tier.planId != EnterpriseName && tier.planId == userPlan
    ensures r.OpenCheckout? <==> tier.planId != EnterpriseName && tier.planId != userPlan
    ensures r.OpenCheckout? ==> r.tier == tier
  {
    if tier.planId == EnterpriseName then ContactSales
    else if tier.planId == userPlan then AlreadyOnPlan
    else OpenCheckout(tier)
  }

  /** The page's own state: the tier picked for checkout and whether the checkout dialog is open. */
  datatype PricingState = PricingState(selected: Option<PricingTier>, checkoutOpen: bool)

  /** A click applied to the page's state: only an opened checkout changes it. */
  function ApplyClick(s: PricingState, tier: PricingTier, userPlan: string): (r: PricingState)
    ensures HandleUpgradeClick(tier, userPlan).OpenCheckout? ==> r == PricingState(Some(tier), true)
    ensures !HandleUpgradeClick(tier, userPlan).OpenCheckout? ==> r == s
  {
    match HandleUpgradeClick(tier, userPlan)
    case OpenCheckout(t) => PricingState(Some(t), true)
    case _ => s
  }

  /** The button is disabled on the card of the current plan, unless that card is enterprise. */
  predicate ButtonDisabled(tier: PricingTier, userPlan: string) {
    userPlan == tier.planId && tier.planId != EnterpriseName
  }

  function ButtonLabel(tier: PricingTier, userPlan: string): (text: string)
    ensures ButtonDisabled(tier, userPlan) ==> text == CurrentPlanLabel
    ensures !ButtonDisabled(tier, userPlan) ==> text == tier.buttonText
  {
    if ButtonDisabled(tier, userPlan) then CurrentPlanLabel else tier.buttonText
  }

  /**
   * On the page's cards the label reads "Current Plan" exactly when the button is disabled or
   * the card is the starter card, whose own button text is "Current Plan".
   */
  lemma CurrentPlanLabelIff(i: nat, userPlan: string)
    requires i < |Tiers|
    ensures ButtonLabel(Tiers[i], userPlan) == CurrentPlanLabel
            <==> ButtonDisabled(Tiers[i], userPlan) || Tiers[i].planId == StarterName
  {
  }

  /** A disabled button is exactly one whose click would be a no-op. */
  lemma DisabledIffNoOp(tier: PricingTier, userPlan: string)
    ensures ButtonDisabled(tier, userPlan) <==> HandleUpgradeClick(tier, userPlan) == AlreadyOnPlan
  {
  }

  /** At most one card's button is disabled, whatever the plan. */
  lemma AtMostOneDisabled(userPlan: string, i: nat, j: nat)
    requires i < j < |Tiers|
    ensures !(ButtonDisabled(Tiers[i], userPlan) && ButtonDisabled(Tiers[j], userPlan))
  {
  }

  /** Checkout opens only for the starter and pro cards, and never for the plan already held. */
  lemma CheckoutTiers(userPlan: string, i: nat)
    requires i < |Tiers|
    ensures HandleUpgradeClick(Tiers[i], userPlan).OpenCheckout?
            <==> (i == 0 || i == 1) && Tiers[i].planId != userPlan
  {
  }
}
