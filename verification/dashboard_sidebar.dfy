/** The sidebar's plan card: which plan it shows and how many days a paid plan has left. */
module DashboardSidebar {
  import opened Wrappers
  import opened Domain

  /**
   * `getDaysLeft`: `Math.max(0, Math.ceil((expiry - now) / day))`, 0 without an expiry.
   * The result is the least number of whole days that covers the time remaining.
   */
  function DaysLeft(expiry: Option<int>, now: int): (r: nat)
    ensures expiry.None? ==> r == 0
    ensures expiry.Some? ==> r * MsPerDay >= expiry.value - now
    ensures expiry.Some? && r > 0 ==> (r - 1) * MsPerDay < expiry.value - now
  {
    match expiry
    case None => 0
    case Some(e) =>
      var diff := e - now;
      // Dafny's division by a positive divisor rounds down, so negating twice rounds up.
      var days := -((-diff) / MsPerDay);
      if days < 0 then 0 else days
  }

  /** An expiry that is not in the future leaves no days. */
  lemma DaysLeftPast(expiry: int, now: int)
    requires expiry <= now
    ensures DaysLeft(Some(expiry), now) == 0
  {
  }

  /** An expiry exactly `k` whole days ahead leaves `k` days. */
  lemma DaysLeftWholeDays(now: int, k: nat)
    ensures DaysLeft(Some(now + k * MsPerDay), now) == k
  {
  }

  /** The card under the navigation: an upgrade prompt, or the paid plan's days left. */
  datatype PlanCard = UpgradeCard | PlanStatusCard(daysLeft: nat)

  /**
   * The displayed plan is the session's, else the store's; the upgrade prompt appears exactly
   * when that plan is `starter`.
   */
  function SidebarCard(sessionPlan: Option<string>, contextPlan: Plan, expiry: Option<int>, now: int): (c: PlanCard)
    ensures c.UpgradeCard? <==> EffectivePlan(sessionPlan, contextPlan) == Starter
    ensures Truthy(sessionPlan) ==> (c.UpgradeCard? <==> sessionPlan.value == StarterName)
    ensures !Truthy(sessionPlan) ==> (c.UpgradeCard? <==> contextPlan == Starter)
    ensures c.PlanStatusCard? ==> c.daysLeft == DaysLeft(expiry, now)
  {
    if EffectivePlan(sessionPlan, contextPlan) == Starter then UpgradeCard
    else PlanStatusCard(DaysLeft(expiry, now))
  }
}
