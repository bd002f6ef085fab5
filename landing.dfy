/** The landing page's generate flow (`NameRadarLanding`): React state as the fields of a
    class, `handleGenerate` split at its `await` into `BeginGenerate` (the guards and the
    state reset up to sending the request) and `FinishGenerate` (the reply handling and the
    `finally`), and the loading-dots interval as `Tick`. */
module Landing {
  import opened Wrappers
  import opened JsText
  import opened Json
  import opened Account
  import GenerateBrands

  const MaxInputLength := 1000   // the textarea's `maxLength`
  const IdleLabel := "Generate"
  const MsgDescribeBrand := "Please describe your brand to generate names."
  const MsgSignInToContinue := "Please sign in to continue."
  const MsgSubscribeToGenerate := "Please subscribe to generate brand names."
  const MsgGenerateFailed := "Failed to generate brand names."
  const MsgSomethingWrong := "Something went wrong. Please try again."

  /** The button label while generating: "Generating" and `dots` periods. */
  function LoadingLabel(dots: nat): (r: string)
    ensures |r| == 10 + dots && r[..10] == "Generating"
    ensures forall k :: 10 <= k < |r| ==> r[k] == '.'
  {
    "Generating" + Repeat('.', dots)
  }

  /** Distinct dot counts give distinct labels, and none of them is the idle label. */
  lemma LoadingLabelsDistinct(d1: nat, d2: nat)
    ensures LoadingLabel(d1) == LoadingLabel(d2) ==> d1 == d2
    ensures LoadingLabel(d1) != IdleLabel
  {
    assert |IdleLabel| == 8;
  }

  /** The interval's counter after `n` ticks: each tick is `dots = (dots + 1) % 4`. */
  function DotsAfter(n: nat): nat
  {
    if n == 0 then 0 else (DotsAfter(n - 1) + 1) % 4
  }

  /** The dots cycle 0, 1, 2, 3, 0, ...: after `n` ticks the counter is `n % 4`. */
  lemma {:induction false} DotsCycle(n: nat)
    ensures DotsAfter(n) == n % 4
  {
    if n > 0 {
      DotsCycle(n - 1);
    }
  }

  /** What `fetch` + `response.json()` gives `handleGenerate`: a reply of the generation
      route, or an exception. */
  datatype GenerateOutcome = Delivered(response: GenerateBrands.Response) | FetchThrew

  /** `response.ok`: of the route's statuses, only 200 is ok. */
  predicate IsOk(r: GenerateBrands.Response)
    ensures IsOk(r) <==> r.Status() == 200
  {
    200 <= r.Status() < 300
  }

  /** A reply of the route is ok exactly when it is a success: no error kind maps to a 2xx
      status, so the page's `!response.ok` test separates the two shapes of reply. */
  lemma OkIffSuccess(r: GenerateBrands.Response)
    ensures IsOk(r) <==> r.Success?
  {
  }

  /** The toast for a non-ok reply other than 401/403: the reply's `error`, or the page's
      fallback when that is empty. The toast is never empty. */
  function ErrorText(error: string): (text: string)
    ensures text != ""
    ensures error != "" ==> text == error
    ensures error == "" ==> text == MsgGenerateFailed
  {
    if error != "" then error else MsgGenerateFailed
  }

  /** Every error of the route carries its own message, so the page shows the route's
      message and never its fallback. */
  lemma RouteErrorShown(kind: GenerateBrands.ErrorKind)
    ensures ErrorText(kind.Message()) == kind.Message() != MsgGenerateFailed
  {
    match kind
    case Unauthorized =>
    case SubscriptionRequired =>
    case NoDescription =>
    case ConfigError =>
    case ProviderFailed =>
    case InvalidAiResponse =>
    case NoBrandNames =>
    case TimedOut =>
    case Unexpected =>
  }

  /** An input with a non-white-space character passes the page's own check, and what the
      page sends is the trimmed text: at most 1000 characters, already trimmed, so the
      route's validation accepts it. */
  lemma {:induction false} SentInputAccepted(brandInput: string)
    requires |brandInput| <= MaxInputLength && !AllSpace(brandInput)
    ensures Trim(brandInput) != ""
    ensures |Trim(brandInput)| <= MaxInputLength
    ensures Trim(Trim(brandInput)) == Trim(brandInput)
    ensures GenerateBrands.ValidUserInput(GenerateBrands.StringInput(Trim(brandInput)))
  {
    TrimEmptyIffAllSpace(brandInput);
    TrimIdempotent(brandInput);
    TrimEmptyIffAllSpace(Trim(brandInput));
  }

  /** The component's state, as one value. */
  datatype State = State(
    brandInput: string,
    isGenerating: bool,
    brandNames: seq<Json>,
    showResults: bool,
    showCheckout: bool,
    isAuthenticated: Option<bool>,   // `boolean | null`
    loadingText: string,
    dots: nat,                       // the interval's local counter
    effects: seq<Effect>)

  class LandingPage {
    const subscriptionDetails: SubscriptionDetails
    var brandInput: string
    var isGenerating: bool
    var brandNames: seq<Json>
    var showResults: bool
    var showCheckout: bool
    var isAuthenticated: Option<bool>
    var loadingText: string
    var dots: nat
    var effects: seq<Effect>
    ghost var ticks: nat   // interval ticks since the current generation began

    ghost function Snapshot(): State
      reads this
    {
      State(brandInput, isGenerating, brandNames, showResults, showCheckout, isAuthenticated, loadingText, dots, effects)
    }

    /** The textarea never holds more than 1000 characters; the counter is the interval's
        count after `ticks` ticks;
        the label is idle or shows the current dots, and is idle whenever nothing is generating. */
    ghost predicate Valid()
      reads this
    {
      |brandInput| <= MaxInputLength
      && dots == DotsAfter(ticks)
      && (loadingText == IdleLabel || loadingText == LoadingLabel(dots))
      && (!isGenerating ==> loadingText == IdleLabel)
    }

    /** The initial `useState` values. */
    constructor (details: SubscriptionDetails)
      ensures Valid() && subscriptionDetails == details
      ensures Snapshot() == State("", false, [], false, false, None, IdleLabel, 0, [])
    {
      subscriptionDetails := details;
      brandInput, isGenerating, brandNames, showResults, showCheckout := "", false, [], false, false;
      isAuthenticated, loadingText, dots, effects := None, IdleLabel, 0, [];
      ticks := 0;
    }

    /** The `checkAuth` effect on mount. */
    method CheckAuth(o: SessionOutcome)
      requires Valid()
      modifies this
      ensures Valid() && ticks == old(ticks)
      ensures Snapshot() == old(Snapshot()).(isAuthenticated := Some(AuthenticatedFrom(o)))
    {
      isAuthenticated := Some(AuthenticatedFrom(o));
    }

    /** The textarea's `onChange`; the browser enforces `maxLength`. */
    method SetBrandInput(value: string)
      requires Valid() && |value| <= MaxInputLength
      modifies this
      ensures Valid() && ticks == old(ticks)
      ensures Snapshot() == old(Snapshot()).(brandInput := value)
    {
      brandInput := value;
    }

    /** The checkout modal's `onClose`. */
    method CloseCheckout()
      requires Valid()
      modifies this
      ensures Valid() && ticks == old(ticks)
      ensures Snapshot() == old(Snapshot()).(showCheckout := false)
    {
      showCheckout := false;
    }

    /** `handleGenerate` up to the `fetch` (the button is disabled while generating).
        An empty trimmed input only toasts; then a missing sign-in (`false` or still `null`)
        or a missing active subscription only opens checkout; otherwise the results are
        cleared, generation starts and the trimmed input is posted. */
    method BeginGenerate()
      requires Valid() && !isGenerating
      modifies this
      ensures Valid()
      ensures Trim(old(brandInput)) == "" ==>
                Snapshot() == old(Snapshot()).(effects := old(effects) + [Toast(MsgDescribeBrand)])
      ensures Trim(old(brandInput)) != "" && (old(isAuthenticated) != Some(true) || !Account.HasActiveSubscription(subscriptionDetails)) ==>
                Snapshot() == old(Snapshot()).(showCheckout := true)
      ensures Trim(old(brandInput)) != "" && old(isAuthenticated) == Some(true) && Account.HasActiveSubscription(subscriptionDetails) ==>
                ticks == 0
                && Snapshot() == old(Snapshot()).(isGenerating := true, brandNames := [], showResults := false, dots := 0,
                                                  effects := old(effects) + [PostGenerate(Trim(old(brandInput)))])
    {
      var userInput := Trim(brandInput);
      if userInput == "" {
        Notify(MsgDescribeBrand);
      } else if isAuthenticated != Some(true) || !Account.HasActiveSubscription(subscriptionDetails) {
        OpenCheckout();
      } else {
        StartGenerating(userInput);
      }
    }

    /** `toast.error(message)`. */
    method Notify(message: string)
      requires Valid()
      modifies this
      ensures Valid() && ticks == old(ticks)
      ensures Snapshot() == old(Snapshot()).(effects := old(effects) + [Toast(message)])
    {
      effects := effects + [Toast(message)];
    }

    /** `setShowCheckout(true)`. */
    method OpenCheckout()
      requires Valid()
      modifies this
      ensures Valid() && ticks == old(ticks)
      ensures Snapshot() == old(Snapshot()).(showCheckout := true)
    {
      showCheckout := true;
    }

    /** The state reset before the request, the start of the loading interval, and the post. */
    method StartGenerating(userInput: string)
      requires Valid() && !isGenerating
      modifies this
      ensures Valid() && ticks == 0
      ensures Snapshot() == old(Snapshot()).(isGenerating := true, brandNames := [], showResults := false, dots := 0,
                                             effects := old(effects) + [PostGenerate(userInput)])
    {
      isGenerating, brandNames, showResults := true, [], false;
      dots, ticks := 0, 0;   // the loading effect starts with a fresh counter
      effects := effects + [PostGenerate(userInput)];
    }

    /** One 500 ms tick of the loading interval, which runs only while generating. */
    method Tick()
      requires Valid() && isGenerating
      modifies this
      ensures Valid() && ticks == old(ticks) + 1
      ensures dots == (old(dots) + 1) % 4 && dots == ticks % 4 && loadingText == LoadingLabel(dots)
      ensures Snapshot() == old(Snapshot()).(dots := dots, loadingText := loadingText)
    {
      dots := (dots + 1) % 4;
      ticks := ticks + 1;
      loadingText := LoadingLabel(dots);
      DotsCycle(ticks);
    }

    /** `handleGenerate` after the `await`: 401 and 403 toast and open checkout; any other
        non-ok reply toasts its `error`, or the fallback when that is empty; a success shows
        its names; an exception toasts. In every case generation stops and the label is reset. */
    method FinishGenerate(o: GenerateOutcome)
      requires Valid() && isGenerating
      modifies this
      ensures Valid() && !isGenerating && loadingText == IdleLabel
      ensures var s := old(Snapshot()).(isGenerating := false, loadingText := IdleLabel);
              match o
              case FetchThrew =>
                Snapshot() == s.(effects := s.effects + [Toast(MsgSomethingWrong)])
              case Delivered(r) =>
                if r.Success? then
                  Snapshot() == s.(brandNames := r.brandNames, showResults := true)
                else if r.Status() == 401 then
                  Snapshot() == s.(showCheckout := true, effects := s.effects + [Toast(MsgSignInToContinue)])
                else if r.Status() == 403 then
                  Snapshot() == s.(showCheckout := true, effects := s.effects + [Toast(MsgSubscribeToGenerate)])
                else
                  Snapshot() == s.(effects := s.effects + [Toast(ErrorText(r.kind.Message()))])
    {
      match o {
        case FetchThrew =>
          effects := effects + [Toast(MsgSomethingWrong)];
        case Delivered(r) =>
          OkIffSuccess(r);
          if !IsOk(r) {
            if r.Status() == 401 {
              effects := effects + [Toast(MsgSignInToContinue)];
              showCheckout := true;
            } else if r.Status() == 403 {
              effects := effects + [Toast(MsgSubscribeToGenerate)];
              showCheckout := true;
            } else {
              effects := effects + [Toast(ErrorText(r.kind.Message()))];
            }
          } else {
            brandNames := r.brandNames;
            showResults := true;
          }
      }
      isGenerating := false;
      loadingText := IdleLabel;
    }
  }
}
