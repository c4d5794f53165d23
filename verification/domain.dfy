/**
 * The values shared by the store, the pages and the API routes: subscription plans,
 * target languages, saved projects, and the rule that a session's plan wins over the
 * store's plan.
 */
module Domain {
  import opened Wrappers

  /**
   * A subscription tier. Plans travel as strings (through the session token and the
   * guest's local record), so a name that is none of the three tiers is kept as `Other`.
   */
  datatype Plan = Starter | Pro | Enterprise | Other(name: string)

  const StarterName: string := "starter"
  const ProName: string := "pro"
  const EnterpriseName: string := "enterprise"

  /** The plan's string form, as stored and compared by the source. */
  function PlanName(p: Plan): string {
    match p
    case Starter => StarterName
    case Pro => ProName
    case Enterprise => EnterpriseName
    case Other(n) => n
  }

  /** A plan some string can denote: an `Other` name is non-empty and not a tier name. */
  predicate ValidPlan(p: Plan) {
    p.Other? ==> p.name != "" && p.name != StarterName && p.name != ProName && p.name != EnterpriseName
  }

  /** Reads a plan string. */
  function PlanFromName(s: string): (p: Plan)
    ensures PlanName(p) == s
    ensures s != "" ==> ValidPlan(p)
  {
    if s == StarterName then Starter
    else if s == ProName then Pro
    else if s == EnterpriseName then Enterprise
    else Other(s)
  }

  /** Writing a plan as a string and reading it back gives the same plan. */
  lemma PlanNameRoundTrip(p: Plan)
    requires ValidPlan(p)
    ensures PlanFromName(PlanName(p)) == p
  {
  }

  /** The languages code can be generated in. */
  datatype Language = React | Vue | Html

  /** A saved generation; `createdAt` is the display text of its creation time. */
  datatype Project = Project(
    id: string,
    name: string,
    description: string,
    language: Language,
    code: string,
    createdAt: string)

  /** A JavaScript string value is truthy when it is present and non-empty. */
  predicate Truthy(s: Option<string>) {
    s.Some? && s.value != ""
  }

  /**
   * `session.user.plan || fallback`: the session's plan when it names one, otherwise
   * the fallback. The sidebar, the pricing page and the new-project page all use it with
   * the store's plan as fallback; the store's session sync uses it with `starter`.
   */
  function EffectivePlan(sessionPlan: Option<string>, fallback: Plan): (p: Plan)
    ensures Truthy(sessionPlan) ==> PlanName(p) == sessionPlan.value && ValidPlan(p)
    ensures !Truthy(sessionPlan) ==> p == fallback
  {
    if Truthy(sessionPlan) then PlanFromName(sessionPlan.value) else fallback
  }

  const MsPerSecond: int := 1000
  /** `1000 * 60 * 60 * 24`. */
  const MsPerDay: int := 1000 * 60 * 60 * 24
}
