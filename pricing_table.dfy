/** The pricing page's plan table (`PricingTable`). Which plan is current, whether any
    subscription is active, the badges and the footer of each card are pure choices over
    the subscription details and the tier environment; the sign-in state and the checkout
    handlers live in the class `Table`. */
module PricingTable {
  import opened Wrappers
  import opened JsText
  import opened Account

  const MsgCheckoutFailed := "Oops, something went wrong"
  const MsgPortalFailed := "Failed to open subscription management"

  /** `isCurrentPlan(tierProductId)`: an unset or empty id is never current; a current
      id is the product of an active subscription. */
  predicate IsCurrentPlan(d: SubscriptionDetails, tierProductId: Option<string>)
    ensures !Truthy(tierProductId) ==> !IsCurrentPlan(d, tierProductId)
    ensures IsCurrentPlan(d, tierProductId) ==>
              HasActiveSubscription(d) && tierProductId == Some(d.subscription.value.productId)
  {
    if !Truthy(tierProductId) then false
    else d.hasSubscription && d.subscription.Some? && d.subscription.value.productId == tierProductId.value
         && d.subscription.value.status == "active"
  }

  /** `hasAnyActiveSubscription`: the landing page's test, and it holds exactly when the
      subscription's own product id, when it has one, is a current plan. */
  predicate HasAnyActiveSubscription(d: SubscriptionDetails)
    ensures HasAnyActiveSubscription(d) == HasActiveSubscription(d)
    ensures d.subscription.Some? && d.subscription.value.productId != "" ==>
              (HasAnyActiveSubscription(d) <==> IsCurrentPlan(d, Some(d.subscription.value.productId)))
  {
    HasActiveSubscription(d)
  }

  /** At most one id is current, and a current id means some subscription is active. */
  lemma CurrentPlanFacts(d: SubscriptionDetails, a: Option<string>, b: Option<string>)
    ensures IsCurrentPlan(d, a) ==> HasAnyActiveSubscription(d)
    ensures IsCurrentPlan(d, a) && IsCurrentPlan(d, b) ==> a == b
  {
  }

  /** The monthly card's "Current Plan" badge: the monthly (else starter) tier is current
      and the subscription renews monthly. */
  predicate MonthlyBadgeShown(d: SubscriptionDetails, env: TierEnv)
    ensures MonthlyBadgeShown(d, env) ==>
              HasAnyActiveSubscription(d) && d.subscription.value.recurringInterval == "month"
  {
    IsCurrentPlan(d, Or(env.monthlyTier, env.starterTier))
    && d.subscription.Some? && d.subscription.value.recurringInterval == "month"
  }

  /** The yearly card's badge text. Unlike the monthly badge, it has no starter fallback. */
  function YearlyBadgeText(d: SubscriptionDetails, env: TierEnv): (text: string)
    ensures text == "Current Plan" <==> IsCurrentPlan(d, env.yearlyTier)
    ensures text != "Current Plan" ==> text == "Save 33%"
  {
    if IsCurrentPlan(d, env.yearlyTier) then "Current Plan" else "Save 33%"
  }

  /** The monthly badge, spelled out: with the monthly tier unset it follows the starter tier. */
  lemma MonthlyBadgeFallback(d: SubscriptionDetails, env: TierEnv)
    ensures MonthlyBadgeShown(d, env) <==>
              HasAnyActiveSubscription(d) && d.subscription.value.recurringInterval == "month"
              && (if Truthy(env.monthlyTier) then env.monthlyTier == Some(d.subscription.value.productId)
                  else env.starterTier == Some(d.subscription.value.productId) && Truthy(env.starterTier))
  {
  }

  /** A card's footer: a subscriber manages the subscription (with its renewal or expiry
      note); anyone else gets a checkout button for the card's plan. */
  datatype Footer =
    | ManageSubscription(note: Option<string>)
    | CheckoutButton(text: string, productId: string, slug: string)

  /** "Expires <date>" when the subscription is cancelled at period end, else "Renews <date>". */
  function RenewalNote(s: Subscription): (note: string)
    ensures s.cancelAtPeriodEnd ==> note == "Expires " + s.currentPeriodEnd
    ensures !s.cancelAtPeriodEnd ==> note == "Renews " + s.currentPeriodEnd
  {
    (if s.cancelAtPeriodEnd then "Expires " else "Renews ") + s.currentPeriodEnd
  }

  /** The checkout button's text: only a visitor known to be signed out is asked to sign in;
      a visitor whose sign-in state is still unknown sees "Get Started". */
  function CheckoutButtonText(isAuthenticated: Option<bool>): (text: string)
    ensures text == "Sign In to Subscribe" <==> isAuthenticated == Some(false)
    ensures text != "Sign In to Subscribe" ==> text == "Get Started"
  {
    if isAuthenticated == Some(false) then "Sign In to Subscribe" else "Get Started"
  }

  /** The footer of the card for `plan`. */
  function CardFooter(d: SubscriptionDetails, env: TierEnv, plan: Plan, isAuthenticated: Option<bool>): (f: Footer)
    ensures f.ManageSubscription? <==> HasAnyActiveSubscription(d)
    ensures f.ManageSubscription? ==> f.note == Some(RenewalNote(d.subscription.value))
    ensures f.CheckoutButton? ==> f.productId == ProductFor(plan, env) && f.slug == SlugFor(plan, env)
                                  && f.text == CheckoutButtonText(isAuthenticated)
  {
    if HasAnyActiveSubscription(d) then
      ManageSubscription(match d.subscription case Some(s) => Some(RenewalNote(s)) case None => None)
    else
      CheckoutButton(CheckoutButtonText(isAuthenticated), ProductFor(plan, env), SlugFor(plan, env))
  }

  /** Whenever a card shows "Current Plan", its footer manages the subscription rather
      than offering a checkout. */
  lemma CurrentPlanCardManages(d: SubscriptionDetails, env: TierEnv, isAuthenticated: Option<bool>)
    ensures MonthlyBadgeShown(d, env) ==> CardFooter(d, env, Monthly, isAuthenticated).ManageSubscription?
    ensures YearlyBadgeText(d, env) == "Current Plan" ==> CardFooter(d, env, Yearly, isAuthenticated).ManageSubscription?
  {
  }

  class Table {
    const details: SubscriptionDetails
    const env: TierEnv
    var isAuthenticated: Option<bool>
    var effects: seq<Effect>

    constructor (details: SubscriptionDetails, env: TierEnv)
      ensures this.details == details && this.env == env
      ensures isAuthenticated == None && effects == []
    {
      this.details, this.env := details, env;
      isAuthenticated, effects := None, [];
    }

    /** The `checkAuth` effect on mount. */
    method CheckAuth(o: SessionOutcome)
      modifies this`isAuthenticated
      ensures isAuthenticated == Some(AuthenticatedFrom(o))
    {
      isAuthenticated := Some(AuthenticatedFrom(o));
    }

    /** `handleCheckout(productId, slug)`: a visitor known to be signed out goes to /sign-in
        and no checkout is attempted; otherwise the checkout is called with exactly the given
        ids, empty or not, and a rejection toasts. */
    method HandleCheckout(productId: string, slug: string, threw: bool)
      modifies this`effects
      ensures isAuthenticated == Some(false) ==> effects == old(effects) + [Navigate(SignInPath)]
      ensures isAuthenticated != Some(false) ==>
                effects == old(effects) + [Checkout(productId, slug)] + (if threw then [Toast(MsgCheckoutFailed)] else [])
    {
      if isAuthenticated == Some(false) {
        effects := effects + [Navigate(SignInPath)];
        return;
      }
      effects := effects + [Checkout(productId, slug)];
      if threw {
        effects := effects + [Toast(MsgCheckoutFailed)];
      }
    }

    /** `handleManageSubscription`: open the customer portal; a rejection toasts. */
    method HandleManageSubscription(threw: bool)
      modifies this`effects
      ensures effects == old(effects) + [OpenPortal] + (if threw then [Toast(MsgPortalFailed)] else [])
    {
      effects := effects + [OpenPortal];
      if threw {
        effects := effects + [Toast(MsgPortalFailed)];
      }
    }

    /** Clicking the checkout button of a card's footer. */
    method ClickCheckout(plan: Plan, threw: bool)
      requires CardFooter(details, env, plan, isAuthenticated).CheckoutButton?
      modifies this`effects
      ensures isAuthenticated == Some(false) ==> effects == old(effects) + [Navigate(SignInPath)]
      ensures isAuthenticated != Some(false) ==>
                effects == old(effects) + [Checkout(ProductFor(plan, env), SlugFor(plan, env))]
                           + (if threw then [Toast(MsgCheckoutFailed)] else [])
    {
      var f := CardFooter(details, env, plan, isAuthenticated);
      HandleCheckout(f.productId, f.slug, threw);
    }
  }
}
