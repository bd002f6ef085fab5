/** Client-side notions shared by the landing page, the checkout modal and the pricing
    table: the subscription details handed down by the server page, the outcome of the
    client session lookup, the plan tiers read from `NEXT_PUBLIC_*` environment variables,
    and the side effects a component triggers (toasts, navigation, checkout calls). */
module Account {
  import opened Wrappers
  import opened JsText

  datatype Subscription = Subscription(
    productId: string,
    status: string,
    recurringInterval: string,
    cancelAtPeriodEnd: bool,
    currentPeriodEnd: string)   // already formatted for display; `formatDate` is not modelled

  datatype SubscriptionDetails = SubscriptionDetails(hasSubscription: bool, subscription: Option<Subscription>)

  /** `hasSubscription && subscription?.status === "active"`: without the flag, or without
      subscription data, or with any other status, nobody counts as subscribed. */
  predicate HasActiveSubscription(d: SubscriptionDetails)
    ensures !d.hasSubscription || d.subscription.None? ==> !HasActiveSubscription(d)
    ensures d.subscription.Some? && d.subscription.value.status != "active" ==> !HasActiveSubscription(d)
  {
    d.hasSubscription && d.subscription.Some? && d.subscription.value.status == "active"
  }

  /** What `authClient.getSession()` yields inside `checkAuth`. */
  datatype SessionOutcome = SessionWithUser | SessionWithoutUser | SessionThrew

  /** `!!session.data?.user`, or `false` when the lookup throws. */
  function AuthenticatedFrom(o: SessionOutcome): (b: bool)
    ensures b <==> o == SessionWithUser
  {
    match o
    case SessionWithUser => true
    case SessionWithoutUser => false
    case SessionThrew => false
  }

  datatype Plan = Monthly | Yearly

  /** The six `NEXT_PUBLIC_*_TIER` / `_SLUG` variables; `None` is an unset variable. */
  datatype TierEnv = TierEnv(
    monthlyTier: Option<string>, monthlySlug: Option<string>,
    yearlyTier: Option<string>, yearlySlug: Option<string>,
    starterTier: Option<string>, starterSlug: Option<string>)

  function PlanTier(plan: Plan, env: TierEnv): Option<string>
  {
    match plan
    case Monthly => env.monthlyTier
    case Yearly => env.yearlyTier
  }

  function PlanSlug(plan: Plan, env: TierEnv): Option<string>
  {
    match plan
    case Monthly => env.monthlySlug
    case Yearly => env.yearlySlug
  }

  /** `<PLAN>_TIER || STARTER_TIER || ""`: the plan's own product id, else the starter's,
      else the empty string. */
  function ProductFor(plan: Plan, env: TierEnv): (id: string)
    ensures Truthy(PlanTier(plan, env)) ==> id == PlanTier(plan, env).value
    ensures !Truthy(PlanTier(plan, env)) && Truthy(env.starterTier) ==> id == env.starterTier.value
    ensures id == "" <==> !Truthy(PlanTier(plan, env)) && !Truthy(env.starterTier)
  {
    OrElseEmpty(PlanTier(plan, env), env.starterTier)
  }

  /** `<PLAN>_SLUG || STARTER_SLUG || ""`, resolved like the product id. */
  function SlugFor(plan: Plan, env: TierEnv): (slug: string)
    ensures Truthy(PlanSlug(plan, env)) ==> slug == PlanSlug(plan, env).value
    ensures !Truthy(PlanSlug(plan, env)) && Truthy(env.starterSlug) ==> slug == env.starterSlug.value
    ensures slug == "" <==> !Truthy(PlanSlug(plan, env)) && !Truthy(env.starterSlug)
  {
    OrElseEmpty(PlanSlug(plan, env), env.starterSlug)
  }

  /** Side effects a component triggers, recorded in order. */
  datatype Effect =
    | Toast(message: string)                       // `toast.error(message)`
    | Navigate(path: string)                       // `router.push(path)`
    | Checkout(productId: string, slug: string)      // `authClient.checkout({products: [productId], slug})`
    | OpenPortal                                   // `authClient.customer.portal()`
    | PostGenerate(userInput: string)              // `fetch("/api/generate-brands", {body: {userInput}})`

  const SignInPath := "/sign-in"
}
