# NameRadar in Dafny

NameRadar is a Next.js web application that generates brand names with a hosted language
model. This project models the parts of it that decide what happens to a request:

- the server route `POST /api/generate-brands` (module `GenerateBrands`): the session and
  subscription gate, the validation of `userInput`, the API-key check, the prompt and the
  provider request, the two-stage extraction of a JSON array from the model's reply (a
  direct `JSON.parse`, then the greedy `/\[[\s\S]*\]/` match), and the mapping of every
  outcome to a status and an error message;
- the landing page (module `Landing`, class `LandingPage`): its React state as fields,
  `handleGenerate` split at its `await` into `BeginGenerate` and `FinishGenerate`, the
  client-side gating, the reply-to-toast mapping and the "Generating..." dots interval;
- the checkout modal (module `CheckoutModal`, class `Modal`): the plan choice (yearly by
  default), the plan-to-product resolution with the starter-tier fallback, the
  configuration guard, the loading flag and the button label;
- the pricing table (module `PricingTable`, class `Table`): which plan is current, the
  badges, each card's footer (manage the subscription, or a checkout button) and the
  checkout and portal handlers.

Shared pieces: `JsText` (JavaScript `trim()`, truthiness of `string | undefined`,
`a || b || ""`, `repeat`), `Json` (the values `JSON.parse` yields), `BracketScan` (the
greedy bracket match), `Account` (subscription details, the session lookup, the tier
environment variables, the side effects a component triggers) and `Wrappers` (`Option`).

The outside world enters as values: the session user id, the subscription answer, the
request body and the API key are fields of `GenerateBrands.Request`; the provider is a
function from the request it is sent to the outcome (`Completed`, `NotOk`, `Aborted`,
`Threw`); `JSON.parse` is a function `parse: string -> Option<Json>`, `None` meaning it
throws. On the client, the results of `getSession`, `fetch` and `checkout` are method
parameters, and toasts, navigation and calls are appended to an `effects` sequence.

Each run of the route records the steps it took (`Run.trace`); every trace is a prefix of
the fixed order session, subscription, body, key, provider, direct parse, bracket scan,
parse of the match, which is how "nothing past this check ran" is stated.

The model follows the route's code where a reader might expect otherwise:

- there is no server-side length limit on `userInput` (only the textarea's `maxLength`);
- the prompt embeds `userInput` as received, untrimmed;
- no element of the returned array is checked for `name` / `explanation`;
- the fallback match is greedy and does not balance brackets: it runs from the first `[`
  to the last `]` (`BracketScan.GreedyPastTheArray`);
- when the match does not parse, the exception reaches the outer `catch` and the reply is
  the generic 500 "An unexpected error occurred", not "Invalid response from AI";
- an unreadable body also ends in that generic 500, not in a 400.

## Model

| member | source | states |
|---|---|---|
| JsText.Trim | app/api/generate-brands/route.ts:33 | `trim()` returns a contiguous slice whose cut-off ends are all white space and whose own ends are not |
| JsText.TrimEmptyIffAllSpace | app/api/generate-brands/route.ts:33 | `trim()` gives the empty string exactly when every character is white space |
| JsText.TrimIdempotent | components/nameradar/nameradar-landing.tsx:75 | trimming twice is trimming once |
| JsText.OrElseEmpty | components/nameradar/checkout-modal.tsx:49-53 | `a \|\| b \|\| ""` is empty exactly when both are falsy, and is otherwise the first truthy one |
| BracketScan.MatchBounds | app/api/generate-brands/route.ts:116 | no bracketed span exists exactly when `None`; otherwise it returns a bracketed span that covers every other one (leftmost `[` to rightmost `]`) |
| BracketScan.WrappedArrayRecovered | app/api/generate-brands/route.ts:116-118 | an array surrounded by text without a `[` before it or a `]` after it is matched exactly |
| BracketScan.Match | app/api/generate-brands/route.ts:116-117 | `match(...)` yields a string opening with `[` and closing with `]`, and yields nothing exactly when no such substring exists |
| BracketScan.GreedyPastTheArray | app/api/generate-brands/route.ts:116 | for any text, when a later `]` follows a bracketed array, the match extends at least to that `]` and so is not the array |
| BracketScan.GreedyExample | app/api/generate-brands/route.ts:116 | an instance: the match of `[1] see [2]` is the whole text |
| GenerateBrands.ErrorKind.Status | app/api/generate-brands/route.ts:13-149 | every error status is 400, 401, 403, 500 or 504; 400, 401, 403 and 504 each belong to exactly one failure |
| GenerateBrands.ErrorKind.Message | app/api/generate-brands/route.ts:13-149 | every failure carries its own `error` message, from which the failure can be read back |
| GenerateBrands.MessagesDistinct | app/api/generate-brands/route.ts:13-149 | different failures have different messages, so the five that share status 500 are told apart by their text |
| GenerateBrands.ValidUserInputIsTrimTest | app/api/generate-brands/route.ts:33 | the validation accepts exactly a string whose `trim()` is not empty |
| GenerateBrands.Prompt | app/api/generate-brands/route.ts:51-61 | the prompt is the fixed lead, the untrimmed description, the fixed instructions; the description sits between double quotes |
| GenerateBrands.PromptInjective | app/api/generate-brands/route.ts:51-61 | different descriptions give different prompts |
| GenerateBrands.BuildCall | app/api/generate-brands/route.ts:64-94 | the provider request goes to the fixed endpoint with the fixed model id and system message, and carries the prompt, the bearer key, temperature 0.8, 3000 tokens, top_p 0.9 and the 60 s timeout |
| Json.IsNonEmptyArray | app/api/generate-brands/route.ts:128 | `null`, booleans, numbers, strings, objects and the empty array fail the test; an array with an element passes |
| GenerateBrands.Extract | app/api/generate-brands/route.ts:110-126 | the direct parse wins when it succeeds; the match is parsed only after it fails; no match and an unparsable match are told apart |
| GenerateBrands.Assemble | app/api/generate-brands/route.ts:117-135 | success exactly for a non-empty array, returned unchanged; no match is the 500 "Invalid response" and only that case; a parsed non-array or `[]`, direct or recovered, is "No brand names generated"; an unparsable match is the generic 500 |
| GenerateBrands.ProviderFailure | app/api/generate-brands/route.ts:98-105 | a non-ok provider reply is 500 "Failed to generate", an abort 504, any other exception 500 |
| GenerateBrands.Precheck | app/api/generate-brands/route.ts:9-48 | the checks stop the request exactly when one fails, after a prefix of at most four steps |
| GenerateBrands.Complete | app/api/generate-brands/route.ts:96-149 | after the call: 200, 500 or 504; 504 exactly on an abort; the scan only after a failed direct parse; success exactly for an extracted non-empty array |
| GenerateBrands.Handle | app/api/generate-brands/route.ts:6-151 | every run takes a prefix of the pipeline, ends in one of 200/400/401/403/500/504, reaches the provider exactly when every check passes, and never succeeds with an empty list |
| GenerateBrands.GateDecides | app/api/generate-brands/route.ts:9-27 | 401 exactly without a user id and then after one step; 403 exactly for a signed-in user without a subscription and after two steps |
| GenerateBrands.ValidationDecides | app/api/generate-brands/route.ts:30-48 | 400 exactly for an authorized request with a readable body and no usable description; the configuration error exactly for a valid request without a key; an unreadable body gives the generic 500 after three steps |
| GenerateBrands.ProviderStageDecides | app/api/generate-brands/route.ts:64-149 | 504 exactly when the provider call aborts; the scan runs only for a completion that does not parse; success exactly when a non-empty array is extracted |
| GenerateBrands.StepTaken | app/api/generate-brands/route.ts:6-151 | on any run, a step is taken exactly when its position lies within the run |
| GenerateBrands.UnauthenticatedIs401 | app/api/generate-brands/route.ts:13-18 | no user id: 401 "Unauthorized. Please sign in." and nothing else runs |
| GenerateBrands.UnsubscribedIs403 | app/api/generate-brands/route.ts:21-27 | no subscription: 403 with the subscription message; body, key and provider untouched |
| GenerateBrands.InvalidInputIs400 | app/api/generate-brands/route.ts:33-38 | a missing, non-string or trim-empty description: 400 and no provider call |
| GenerateBrands.MissingKeyIs500 | app/api/generate-brands/route.ts:41-48 | no API key: 500 configuration error after exactly the four checks |
| GenerateBrands.OneProviderCall | app/api/generate-brands/route.ts:67-94 | the reply depends on the provider only through its answer to the one request built from the key and the description |
| GenerateBrands.ProviderErrorNotForwarded | app/api/generate-brands/route.ts:98-105 | a provider error reply gives the route's own 500 message, whatever the provider said |
| GenerateBrands.AbortIs504 | app/api/generate-brands/route.ts:136-149 | an abort gives 504 "Request timed out."; another exception the generic 500 |
| GenerateBrands.DirectParseDecides | app/api/generate-brands/route.ts:112-113 | a completion that parses decides the reply without the scan: a non-empty array is returned, anything else is "No brand names generated" |
| GenerateBrands.RecoveredNonArrayIsNoBrandNames | app/api/generate-brands/route.ts:116-133 | a completion that does not parse but whose match parses to a non-array or `[]` gives "No brand names generated", as a direct parse would |
| GenerateBrands.NoSpanIsInvalidResponse | app/api/generate-brands/route.ts:119-125 | an unparsable completion without `[` gives 500 "Invalid response from AI" |
| GenerateBrands.UnparsableSpanIsUnexpected | app/api/generate-brands/route.ts:118 | a match that does not parse ends in the generic 500 |
| GenerateBrands.WrappedArrayReturned | app/api/generate-brands/route.ts:115-135 | an array wrapped in prose is recovered and returned as the brand names |
| Account.AuthenticatedFrom | components/nameradar/nameradar-landing.tsx:50-57 | signed in exactly when the session has a user; a throwing lookup counts as signed out |
| Account.HasActiveSubscription | components/nameradar/nameradar-landing.tsx:45-47 | no subscription flag, no subscription data or a status other than "active" means not subscribed |
| Account.ProductFor | components/nameradar/checkout-modal.tsx:48-54 | the plan's product id, else the starter's, else empty |
| Account.SlugFor | components/nameradar/checkout-modal.tsx:48-54 | the plan's slug, else the starter's, else empty |
| Landing.LoadingLabel | components/nameradar/nameradar-landing.tsx:68 | "Generating" followed by exactly `dots` periods |
| Landing.LoadingLabelsDistinct | components/nameradar/nameradar-landing.tsx:42-68 | distinct dot counts give distinct labels, none equal to "Generate" |
| Landing.DotsCycle | components/nameradar/nameradar-landing.tsx:65-69 | after n ticks the counter is n mod 4 |
| Landing.IsOk | components/nameradar/nameradar-landing.tsx:115 | of the route's statuses, only 200 is ok |
| Landing.OkIffSuccess | components/nameradar/nameradar-landing.tsx:115 | a reply of the route is ok exactly when it is a success |
| Landing.ErrorText | components/nameradar/nameradar-landing.tsx:123 | the reply's error, or the fallback when it is empty; never empty |
| Landing.RouteErrorShown | components/nameradar/nameradar-landing.tsx:123 | every route error shows its own message, never the fallback |
| Landing.SentInputAccepted | components/nameradar/nameradar-landing.tsx:75-110 | an input with a non-white-space character passes the page check; what the page posts is trimmed, at most 1000 characters and accepted by the route's validation |
| Landing.LandingPage.constructor | components/nameradar/nameradar-landing.tsx:35-42 | the initial state |
| Landing.LandingPage.CheckAuth | components/nameradar/nameradar-landing.tsx:49-59 | only the sign-in state changes, to the lookup's answer |
| Landing.LandingPage.SetBrandInput | components/nameradar/nameradar-landing.tsx:187-189 | only the input changes |
| Landing.LandingPage.CloseCheckout | components/nameradar/nameradar-landing.tsx:302 | only the modal closes |
| Landing.LandingPage.BeginGenerate | components/nameradar/nameradar-landing.tsx:74-111 | empty trimmed input only toasts; no sign-in (false or unknown) or no active subscription only opens checkout; otherwise results are cleared, generation starts and the trimmed input is posted |
| Landing.LandingPage.Tick | components/nameradar/nameradar-landing.tsx:62-72 | the counter steps modulo 4, equals the tick count modulo 4, and the label shows it; nothing else changes |
| Landing.LandingPage.FinishGenerate | components/nameradar/nameradar-landing.tsx:113-141 | 401 and 403 toast and open checkout; other errors toast the route's message; success shows the names; an exception toasts; generation always stops with the idle label |
| CheckoutModal.ButtonLabel | components/nameradar/checkout-modal.tsx:139-143 | "Processing..." while loading, then "Sign In to Subscribe" for a known-signed-out visitor, then "Subscribe Monthly"/"Subscribe Yearly" |
| CheckoutModal.ButtonLabelsDistinct | components/nameradar/checkout-modal.tsx:139-143 | the label tells loading, signed-out and the two plans apart |
| CheckoutModal.Modal.constructor | components/nameradar/checkout-modal.tsx:23-24 | the yearly plan is preselected and nothing is loading |
| CheckoutModal.Modal.SetProps | components/nameradar/checkout-modal.tsx:17-21 | new props replace `isOpen` and `isAuthenticated`; the plan and loading state survive |
| CheckoutModal.Modal.SelectPlan | components/nameradar/checkout-modal.tsx:94-115 | the clicked plan becomes the selection |
| CheckoutModal.Modal.Render | components/nameradar/checkout-modal.tsx:73-144 | nothing is rendered exactly when closed; otherwise the button shows the label and is disabled while loading |
| CheckoutModal.Modal.StartCheckout | components/nameradar/checkout-modal.tsx:36-64 | signed out: redirect only; an empty product id or slug: configuration toast and not loading; otherwise exactly one checkout effect with the resolved ids, still loading |
| CheckoutModal.Modal.EndCheckout | components/nameradar/checkout-modal.tsx:65-70 | a rejection toasts; loading always ends |
| PricingTable.IsCurrentPlan | app/pricing/_component/pricing-table.tsx:95-102 | an unset or empty id is never current; a current id is the product of an active subscription |
| PricingTable.HasAnyActiveSubscription | app/pricing/_component/pricing-table.tsx:112-114 | the same test as the landing page's; it holds exactly when the subscription's own (non-empty) product id is a current plan |
| PricingTable.CurrentPlanFacts | app/pricing/_component/pricing-table.tsx:95-114 | at most one id is current, and a current id means a subscription is active |
| PricingTable.MonthlyBadgeShown | app/pricing/_component/pricing-table.tsx:130-131 | the monthly badge shows only for an active subscription with a monthly interval |
| PricingTable.YearlyBadgeText | app/pricing/_component/pricing-table.tsx:208 | "Current Plan" exactly when the yearly tier is current, else "Save 33%" |
| PricingTable.MonthlyBadgeFallback | app/pricing/_component/pricing-table.tsx:130-131 | the monthly badge shows for an active monthly-interval subscription to the monthly tier, or to the starter tier when the monthly tier is unset |
| PricingTable.CheckoutButtonText | app/pricing/_component/pricing-table.tsx:196-198 | "Sign In to Subscribe" exactly for a visitor known to be signed out, else "Get Started" |
| PricingTable.RenewalNote | app/pricing/_component/pricing-table.tsx:179-181 | "Expires" for a subscription cancelled at period end, else "Renews", then the date |
| PricingTable.CardFooter | app/pricing/_component/pricing-table.tsx:167-200 | a subscriber manages the subscription with the renewal note; anyone else gets a checkout button for the plan's resolved ids |
| PricingTable.CurrentPlanCardManages | app/pricing/_component/pricing-table.tsx:130-208 | a card marked "Current Plan" never offers a checkout |
| PricingTable.Table.constructor | app/pricing/_component/pricing-table.tsx:43-47 | the table starts with the given subscription details and tier environment, the sign-in state unknown and no effects |
| PricingTable.Table.CheckAuth | app/pricing/_component/pricing-table.tsx:49-59 | the sign-in state becomes the lookup's answer |
| PricingTable.Table.HandleCheckout | app/pricing/_component/pricing-table.tsx:61-76 | signed out: redirect only; otherwise one checkout call with the given ids, empty or not, and a toast on rejection |
| PricingTable.Table.HandleManageSubscription | app/pricing/_component/pricing-table.tsx:78-85 | opens the portal; a rejection toasts |
| PricingTable.Table.ClickCheckout | app/pricing/_component/pricing-table.tsx:189-193 | a card's button checks out with that card's resolved product id and slug |

## Left out

- Network I/O, `fetch`, `AbortController` and the 60-second timer: the provider is a function parameter, and the timer only appears as the `Aborted` outcome.
- `JSON.parse`: an abstract function parameter; JSON text is not modelled.
- The auth and subscription services (`auth.api.getSession`, `isUserSubscribed`, `authClient`): their answers are inputs; an exception thrown by the server-side lookups is not modelled.
- The provider reply's payload shape: `data.choices[0].message.content` is taken to be a string; a payload without it is the `Threw` outcome.
- `console.error` logging and the provider's error text, which is only logged.
- Strings are sequences of characters; UTF-16 code units, surrogate pairs and locale are not modelled.
- `formatDate`: the subscription's period end is given already formatted.
- The step animation (`activeSteps` and its two timeouts), `scrollIntoView`, `getRandomAvailability` and the results board rendering: presentation only, with random or timed effects.
- React scheduling: state updates are applied at once, and the interleaving of interval ticks with the pending request is left to the caller of the methods.
- Landing.LandingPage.FinishGenerate: takes the reply as a `GenerateBrands.Response`, so it does not cover replies that do not come from the route.
- Landing.LandingPage.SetBrandInput: requires at most 1000 characters, the limit the textarea enforces.
- The Three.js background, the root layout and the two page components: outside the request flow.
- The JSX markup and CSS classes beyond the labels, badges and footers modelled above.
