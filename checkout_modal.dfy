/** The checkout modal (`CheckoutModal`): the selected plan and the loading flag are
    component state; `handleCheckout` is split at its `await` into `StartCheckout` (the
    sign-in redirect, the plan resolution and the configuration guard) and `EndCheckout`
    (the `catch` and the `finally`). The props `isOpen` and `isAuthenticated` come from the
    landing page. */
module CheckoutModal {
  import opened Wrappers
  import opened JsText
  import opened Account

  const MsgConfigMissing := "Subscription configuration is missing. Please contact support."
  const MsgCheckoutFailed := "Something went wrong. Please try again."

  /** The checkout button's label: loading wins, then a known-signed-out visitor, then the plan. */
  function ButtonLabel(isLoading: bool, isAuthenticated: Option<bool>, plan: Plan): (text: string)
    ensures isLoading ==> text == "Processing..."
    ensures !isLoading && isAuthenticated == Some(false) ==> text == "Sign In to Subscribe"
    ensures !isLoading && isAuthenticated != Some(false) ==>
              text == if plan == Monthly then "Subscribe Monthly" else "Subscribe Yearly"
  {
    if isLoading then "Processing..."
    else if isAuthenticated == Some(false) then "Sign In to Subscribe"
    else "Subscribe " + (if plan == Monthly then "Monthly" else "Yearly")
  }

  /** The labels are pairwise distinct, so the label tells the state apart. */
  lemma ButtonLabelsDistinct(a1: Option<bool>, p1: Plan, a2: Option<bool>, p2: Plan)
    ensures ButtonLabel(true, a1, p1) != ButtonLabel(false, a2, p2)
    ensures a1 == Some(false) && a2 != Some(false) ==> ButtonLabel(false, a1, p1) != ButtonLabel(false, a2, p2)
    ensures a1 != Some(false) && a2 != Some(false) && p1 != p2 ==> ButtonLabel(false, a1, p1) != ButtonLabel(false, a2, p2)
  {
    var m, y := ButtonLabel(false, None, Monthly), ButtonLabel(false, None, Yearly);
    assert m[10] != y[10];
  }

  /** What the modal renders when it renders anything. */
  datatype View = View(buttonLabel: string, buttonDisabled: bool, selectedPlan: Plan)

  class Modal {
    var isOpen: bool
    var isAuthenticated: Option<bool>
    const env: TierEnv
    var selectedPlan: Plan
    var isLoading: bool
    var effects: seq<Effect>

    /** Mounting: the yearly plan is preselected and nothing is loading. */
    constructor (isOpen: bool, isAuthenticated: Option<bool>, env: TierEnv)
      ensures this.isOpen == isOpen && this.isAuthenticated == isAuthenticated && this.env == env
      ensures selectedPlan == Yearly && !isLoading && effects == []
    {
      this.isOpen, this.isAuthenticated, this.env := isOpen, isAuthenticated, env;
      selectedPlan, isLoading, effects := Yearly, false, [];
    }

    /** A re-render with new props; the state survives it. */
    method SetProps(isOpen: bool, isAuthenticated: Option<bool>)
      modifies this`isOpen, this`isAuthenticated
      ensures this.isOpen == isOpen && this.isAuthenticated == isAuthenticated
    {
      this.isOpen, this.isAuthenticated := isOpen, isAuthenticated;
    }

    /** Clicking a plan card. */
    method SelectPlan(plan: Plan)
      modifies this`selectedPlan
      ensures selectedPlan == plan
    {
      selectedPlan := plan;
    }

    /** `if (!isOpen) return null;` and otherwise the button. */
    function Render(): (v: Option<View>)
      reads this
      ensures v.None? <==> !isOpen
      ensures v.Some? ==> v.value.buttonLabel == ButtonLabel(isLoading, isAuthenticated, selectedPlan)
                          && v.value.buttonDisabled == isLoading && v.value.selectedPlan == selectedPlan
    {
      if !isOpen then None else Some(View(ButtonLabel(isLoading, isAuthenticated, selectedPlan), isLoading, selectedPlan))
    }

    /** `handleCheckout` up to the `await` (the button is disabled while loading). A visitor
        known to be signed out is sent to /sign-in and nothing else happens. Otherwise the
        selected plan is resolved with the starter fallback; an empty product id or slug
        toasts and ends with `isLoading` false again; else the checkout is called with the
        resolved ids and `isLoading` stays true until it settles. */
    method StartCheckout()
      requires !isLoading
      modifies this`isLoading, this`effects
      ensures isAuthenticated == Some(false) ==>
                !isLoading && effects == old(effects) + [Navigate(SignInPath)]
      ensures isAuthenticated != Some(false) ==>
                var productId, slug := ProductFor(selectedPlan, env), SlugFor(selectedPlan, env);
                if productId == "" || slug == "" then
                  !isLoading && effects == old(effects) + [Toast(MsgConfigMissing)]
                else
                  isLoading && effects == old(effects) + [Checkout(productId, slug)]
    {
      if isAuthenticated == Some(false) {
        effects := effects + [Navigate(SignInPath)];
        return;
      }
      isLoading := true;
      var productId, slug;
      if selectedPlan == Monthly {
        productId := OrElseEmpty(env.monthlyTier, env.starterTier);
        slug := OrElseEmpty(env.monthlySlug, env.starterSlug);
      } else {
        productId := OrElseEmpty(env.yearlyTier, env.starterTier);
        slug := OrElseEmpty(env.yearlySlug, env.starterSlug);
      }
      if productId == "" || slug == "" {
        effects := effects + [Toast(MsgConfigMissing)];
        isLoading := false;   // the `finally`
        return;
      }
      effects := effects + [Checkout(productId, slug)];
    }

    /** The checkout call settled: a rejection toasts; either way loading ends. */
    method EndCheckout(threw: bool)
      requires isLoading
      modifies this`isLoading, this`effects
      ensures !isLoading
      ensures effects == old(effects) + (if threw then [Toast(MsgCheckoutFailed)] else [])
    {
      if threw {
        effects := effects + [Toast(MsgCheckoutFailed)];
      }
      isLoading := false;
    }
  }
}
