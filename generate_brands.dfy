/** The `POST /api/generate-brands` route: a fixed cascade of checks, each of which can end
    the request with its own (status, message), then one call to the completion provider
    and a two-stage extraction of a JSON array from the completion text.

    The session, the subscription check, the request body, the environment and the
    provider are inputs. `JSON.parse` is the parameter `parse`, the provider call the
    parameter `provider`; the 60-second abort timer appears only as the `Aborted` outcome. */
module GenerateBrands {
  import opened Wrappers
  import opened JsText
  import opened Json
  import BracketScan

  // ---------------------------------------------------------------- inputs

  /** The `userInput` field of the parsed request body. */
  datatype RequestBody =
    | Unreadable                  // `request.json()` rejects, or the body is `null`
    | NoUserInput                 // the field is absent (`undefined`)
    | NonStringInput              // any non-string value: `null`, a number, an object, ...
    | StringInput(value: string)

  datatype Request = Request(
    sessionUserId: Option<string>, // `session?.user?.id`
    subscribed: bool,              // `await isUserSubscribed()`
    body: RequestBody,
    apiKey: Option<string>)        // `process.env.FIREWORKS_API_KEY`

  /** The one outbound request to the chat-completion endpoint. Numbers are exact reals. */
  datatype ProviderCall = ProviderCall(
    url: string,
    authorization: string,
    model: string,
    systemMessage: string,
    userMessage: string,
    temperature: real,
    maxTokens: nat,
    topP: real,
    timeoutMs: nat)

  /** What awaiting the provider yields. */
  datatype ProviderOutcome =
    | Completed(content: string)           // ok response; `data.choices[0].message.content`
    | NotOk(status: int, errorText: string) // `!response.ok`
    | Aborted                              // the abort timer fired: an `AbortError`
    | Threw                                // any other exception (network, malformed payload)

  // ---------------------------------------------------------------- outputs

  /** Why a request failed. Each kind has one status and one fixed message. */
  datatype ErrorKind =
    | Unauthorized | SubscriptionRequired | NoDescription | ConfigError | ProviderFailed
    | InvalidAiResponse | NoBrandNames | TimedOut | Unexpected
  {
    /** The status: 500 for every server-side failure; each other status names one kind. */
    function Status(): (code: int)
      ensures code in {400, 401, 403, 500, 504}
      ensures code == 401 <==> this == Unauthorized
      ensures code == 403 <==> this == SubscriptionRequired
      ensures code == 400 <==> this == NoDescription
      ensures code == 504 <==> this == TimedOut
    {
      match this
      case Unauthorized => 401
      case SubscriptionRequired => 403
      case NoDescription => 400
      case TimedOut => 504
      case _ => 500
    }

    /** The `error` string of the reply body; it names its kind (see `KindOfMessage`). */
    function Message(): (m: string)
      ensures KindOfMessage(m) == Some(this)
    {
      match this
      case Unauthorized => "Unauthorized. Please sign in."
      case SubscriptionRequired => "Subscription required. Please subscribe to generate brand names."
      case NoDescription => "Please provide a brand description."
      case ConfigError => "Service configuration error. Please contact support."
      case ProviderFailed => "Failed to generate brand names. Please try again."
      case InvalidAiResponse => "Invalid response from AI. Please try again."
      case NoBrandNames => "No brand names generated. Please try again."
      case TimedOut => "Request timed out. Please try again."
      case Unexpected => "An unexpected error occurred. Please try again."
    }
  }

  /** Used only to prove the nine messages distinct (`MessagesDistinct`); the route never
      inspects its own messages. The texts have different lengths, except the two of 43
      characters, which differ at index 23. */
  function KindOfMessage(m: string): Option<ErrorKind>
  {
    if |m| == 29 then Some(Unauthorized)
    else if |m| == 64 then Some(SubscriptionRequired)
    else if |m| == 35 then Some(NoDescription)
    else if |m| == 52 then Some(ConfigError)
    else if |m| == 49 then Some(ProviderFailed)
    else if |m| == 43 then (if m[23] == 'I' then Some(InvalidAiResponse) else Some(NoBrandNames))
    else if |m| == 36 then Some(TimedOut)
    else if |m| == 47 then Some(Unexpected)
    else None
  }

  /** The nine messages are pairwise different: the five failures that share status 500
      are told apart by their `error` text. */
  lemma MessagesDistinct(k1: ErrorKind, k2: ErrorKind)
    requires k1 != k2
    ensures k1.Message() != k2.Message()
  {
  }

  /** The JSON reply: `{ error }` with the kind's status, or `{ brandNames }` with status 200. */
  datatype Response =
    | Failure(kind: ErrorKind)
    | Success(brandNames: seq<Json>)
  {
    function Status(): int
    {
      match this
      case Failure(kind) => kind.Status()
      case Success(_) => 200
    }
  }

  /** The observable steps of one request, in the order the handler may take them. */
  datatype Step =
    | GetSession | CheckSubscription | ReadBody | ReadApiKey | CallProvider
    | ParseDirect | ScanBrackets | ParseMatch

  const PipelineOrder: seq<Step> :=
    [GetSession, CheckSubscription, ReadBody, ReadApiKey, CallProvider, ParseDirect, ScanBrackets, ParseMatch]

  datatype Run = Run(response: Response, trace: seq<Step>)

  // ---------------------------------------------------------------- constants

  const Endpoint := "https://api.fireworks.ai/inference/v1/chat/completions"
  const ModelId := "accounts/fireworks/models/llama-v3p1-70b-instruct"
  const SystemMessage := "You are a helpful assistant that returns only valid JSON responses."
  const TimeoutMs := 60000

  /** The prompt template around the description. */
  const PromptLead :=
    "You are a creative brand naming expert. Generate 10 unique, catchy brand names based on this description: \""
  const PromptTrail := "\"" + PromptInstructions
  const PromptInstructions :=
    ".\n\nFor each name, provide:\n1. The brand name\n2. A brief explanation of why it fits\n\n"
    + "Return ONLY valid JSON in this exact format, nothing else:\n[\n"
    + "  {\"name\": \"BrandName1\", \"explanation\": \"Why this name fits\"},\n"
    + "  {\"name\": \"BrandName2\", \"explanation\": \"Why this name fits\"}\n]"

  // ---------------------------------------------------------------- stages

  /** The access gate: a truthy session user id and an active subscription. */
  predicate Authorized(req: Request)
  {
    Truthy(req.sessionUserId) && req.subscribed
  }

  /** `userInput` is a string that is not empty after `trim()`; by
      JsText.TrimEmptyIffAllSpace that is a string with a non-white-space character. */
  predicate ValidUserInput(body: RequestBody)
  {
    body.StringInput? && !AllSpace(body.value)
  }

  /** The validation is the route's own test: a string whose `trim()` is not empty. */
  lemma {:induction false} ValidUserInputIsTrimTest(body: RequestBody)
    ensures ValidUserInput(body) <==> body.StringInput? && Trim(body.value) != ""
  {
    if body.StringInput? {
      TrimEmptyIffAllSpace(body.value);
    }
  }

  /** The request gets as far as the provider call. */
  predicate ReachesProvider(req: Request)
  {
    Authorized(req) && ValidUserInput(req.body) && Truthy(req.apiKey)
  }

  /** The user message: the description, untrimmed, between double quotes, inside a
      template that asks for 10 names as a JSON array of `{name, explanation}` objects. */
  function Prompt(userInput: string): (r: string)
    ensures |r| == |PromptLead| + |userInput| + |PromptTrail|
    ensures r[..|PromptLead|] == PromptLead && r[|PromptLead| + |userInput|..] == PromptTrail
    ensures r[|PromptLead| - 1..|PromptLead| + |userInput| + 1] == "\"" + userInput + "\""
  {
    var r := PromptLead + userInput + PromptTrail;
    assert r[|PromptLead| - 1..|PromptLead| + |userInput| + 1] == "\"" + userInput + "\"" by {
      assert PromptLead[|PromptLead| - 1] == '"' && PromptTrail[0] == '"';
    }
    r
  }

  /** Different descriptions give different prompts: the template loses nothing. */
  lemma PromptInjective(u: string, v: string)
    requires Prompt(u) == Prompt(v)
    ensures u == v
  {
    var p := |PromptLead|;
    assert |u| == |v|;
    assert u == Prompt(u)[p..p + |u|];
    assert v == Prompt(v)[p..p + |v|];
  }

  /** The request body sent to the provider: bearer key, fixed model and sampling
      parameters, the system instruction and the prompt. */
  function BuildCall(apiKey: string, userInput: string): (c: ProviderCall)
    ensures c.userMessage == Prompt(userInput) && c.authorization == "Bearer " + apiKey
    ensures c.url == Endpoint && c.model == ModelId && c.systemMessage == SystemMessage
    ensures c.temperature == 0.8 && c.maxTokens == 3000 && c.topP == 0.9 && c.timeoutMs == 60000
  {
    ProviderCall(Endpoint, "Bearer " + apiKey, ModelId, SystemMessage, Prompt(userInput), 0.8, 3000, 0.9, TimeoutMs)
  }

  /** The outcome of the two-stage extraction. */
  datatype Extraction =
    | Direct(value: Json)     // `JSON.parse(content)` succeeded
    | Recovered(value: Json)  // it threw, and `JSON.parse(jsonMatch[0])` succeeded
    | NoMatch                 // it threw, and the bracket scan found nothing
    | MatchUnparsable         // it threw, and so did parsing the match

  /** `JSON.parse(content)`, falling back to parsing `content.match(/\[[\s\S]*\]/)[0]`. */
  function Extract(content: string, parse: string -> Option<Json>): (e: Extraction)
    ensures parse(content).Some? <==> e.Direct?
    ensures e.Direct? ==> e.value == parse(content).value
    ensures e.NoMatch? <==> parse(content).None? && BracketScan.Match(content).None?
    ensures e.Recovered? <==> parse(content).None? && BracketScan.Match(content).Some?
                              && parse(BracketScan.Match(content).value).Some?
    ensures e.Recovered? ==> e.value == parse(BracketScan.Match(content).value).value
  {
    match parse(content)
    case Some(v) => Direct(v)
    case None =>
      match BracketScan.Match(content)
      case None => NoMatch
      case Some(m) =>
        match parse(m)
        case Some(v) => Recovered(v)
        case None => MatchUnparsable
  }

  /** How many extraction steps are taken: the scan only after the direct parse failed. */
  function ExtractionSteps(e: Extraction): nat
  {
    match e
    case Direct(_) => 1
    case NoMatch => 2
    case _ => 3
  }

  /** The reply for an extraction: a non-empty array is returned as it is. */
  function Assemble(e: Extraction): (r: Response)
    ensures r.Success? <==> (e.Direct? || e.Recovered?) && IsNonEmptyArray(e.value)
    ensures r.Success? ==> JArray(r.brandNames) == e.value
    ensures r.Failure? ==> r.Status() == 500
    ensures r == Failure(InvalidAiResponse) <==> e.NoMatch?
    ensures (e.Direct? || e.Recovered?) && !IsNonEmptyArray(e.value) ==> r == Failure(NoBrandNames)
    ensures e.MatchUnparsable? ==> r == Failure(Unexpected)
  {
    match e
    case NoMatch => Failure(InvalidAiResponse)
    case MatchUnparsable => Failure(Unexpected)
    case _ => if IsNonEmptyArray(e.value) then Success(e.value.elements) else Failure(NoBrandNames)
  }

  /** The reply for a provider outcome other than a completion. */
  function ProviderFailure(o: ProviderOutcome): (r: Response)
    requires !o.Completed?
    ensures r.Failure? && r.Status() == (if o.Aborted? then 504 else 500)
    ensures o.NotOk? ==> r.kind == ProviderFailed
  {
    match o
    case NotOk(_, _) => Failure(ProviderFailed)
    case Aborted => Failure(TimedOut)
    case Threw => Failure(Unexpected)
  }

  // ---------------------------------------------------------------- the handler

  /** The call the handler makes: built from the key and the untrimmed description. */
  function CallFor(req: Request): (c: ProviderCall)
    requires ReachesProvider(req)
    ensures c.userMessage == Prompt(req.body.value) && c.authorization == "Bearer " + req.apiKey.value
  {
    BuildCall(req.apiKey.value, req.body.value)
  }

  /** The checks before the provider call, in order: session, subscription, body, key.
      `None` means all passed. */
  function Precheck(req: Request): (r: Option<Run>)
    ensures r.None? <==> ReachesProvider(req)
    ensures r.Some? ==> 1 <= |r.value.trace| <= 4 && r.value.trace == PipelineOrder[..|r.value.trace|]
  {
    if !Truthy(req.sessionUserId) then
      Some(Run(Failure(Unauthorized), PipelineOrder[..1]))
    else if !req.subscribed then
      Some(Run(Failure(SubscriptionRequired), PipelineOrder[..2]))
    else if req.body.Unreadable? then
      Some(Run(Failure(Unexpected), PipelineOrder[..3]))
    else if !ValidUserInput(req.body) then
      Some(Run(Failure(NoDescription), PipelineOrder[..3]))
    else if !Truthy(req.apiKey) then
      Some(Run(Failure(ConfigError), PipelineOrder[..4]))
    else
      None
  }

  /** From the provider's outcome to the reply. */
  function Complete(o: ProviderOutcome, parse: string -> Option<Json>): (run: Run)
    ensures 5 <= |run.trace| <= |PipelineOrder| && run.trace == PipelineOrder[..|run.trace|]
    ensures run.response.Status() in {200, 500, 504}
    ensures run.response.Status() == 504 <==> o == Aborted
    ensures |run.trace| >= 7 ==> o.Completed? && parse(o.content).None?
    ensures run.response.Success? <==>
              o.Completed? && var e := Extract(o.content, parse); (e.Direct? || e.Recovered?) && IsNonEmptyArray(e.value)
    ensures run.response.Success? ==> |run.response.brandNames| > 0
    ensures run.response != Failure(ConfigError)
  {
    match o
    case Completed(content) =>
      var e := Extract(content, parse);
      Run(Assemble(e), PipelineOrder[..5 + ExtractionSteps(e)])
    case _ => Run(ProviderFailure(o), PipelineOrder[..5])
  }

  /** `POST(request)`. Every run takes a prefix of the pipeline order, ends with one of the
      six statuses the route uses, and reaches the provider exactly when every check passed.
      The lemmas below say which input leads to which reply. */
  function Handle(req: Request, provider: ProviderCall -> ProviderOutcome, parse: string -> Option<Json>): (run: Run)
    ensures 1 <= |run.trace| <= |PipelineOrder| && run.trace == PipelineOrder[..|run.trace|]
    ensures run.response.Status() in {200, 400, 401, 403, 500, 504}
    ensures |run.trace| >= 5 <==> ReachesProvider(req)
    ensures run.response.Success? ==> |run.response.brandNames| > 0
  {
    match Precheck(req)
    case Some(run) => run
    case None => Complete(provider(CallFor(req)), parse)
  }

  // ---------------------------------------------------------------- properties

  /** The gate: 401 exactly without a user id, and then nothing past the session check;
      403 exactly for a user without a subscription, and nothing past that check. */
  lemma GateDecides(req: Request, provider: ProviderCall -> ProviderOutcome, parse: string -> Option<Json>)
    ensures var run := Handle(req, provider, parse);
            (run.response.Status() == 401 <==> !Truthy(req.sessionUserId))
            && (run.response.Status() == 401 <==> |run.trace| == 1)
            && (run.response.Status() == 403 <==> Truthy(req.sessionUserId) && !req.subscribed)
            && (run.response.Status() == 403 <==> |run.trace| == 2)
            && (|run.trace| >= 3 <==> Authorized(req))
  {
  }

  /** Validation and configuration: 400 exactly for a readable body without a usable
      description, the configuration error exactly for a valid request without a key.
      An unreadable body throws into the catch-all: the generic 500 after three steps. */
  lemma ValidationDecides(req: Request, provider: ProviderCall -> ProviderOutcome, parse: string -> Option<Json>)
    ensures var run := Handle(req, provider, parse);
            (run.response.Status() == 400 <==> Authorized(req) && !req.body.Unreadable? && !ValidUserInput(req.body))
            && (Authorized(req) && req.body.Unreadable? ==> run.response == Failure(Unexpected) && |run.trace| == 3)
            && (run.response == Failure(ConfigError) <==> Authorized(req) && ValidUserInput(req.body) && !Truthy(req.apiKey))
  {
  }

  /** After the call: 504 exactly on an abort; the bracket scan only for a completion
      that does not parse as it is; success exactly when a non-empty array is extracted. */
  lemma ProviderStageDecides(req: Request, provider: ProviderCall -> ProviderOutcome, parse: string -> Option<Json>)
    ensures var run := Handle(req, provider, parse);
            (run.response.Status() == 504 <==> ReachesProvider(req) && provider(CallFor(req)) == Aborted)
            && (ScanBrackets in run.trace ==>
                  ReachesProvider(req) && var o := provider(CallFor(req)); o.Completed? && parse(o.content).None?)
            && (run.response.Success? <==>
                  ReachesProvider(req) && var o := provider(CallFor(req));
                  o.Completed? && var e := Extract(o.content, parse); (e.Direct? || e.Recovered?) && IsNonEmptyArray(e.value))
  {
    var run := Handle(req, provider, parse);
    StepTaken(run.trace, 6);
  }

  /** On a run, a step of the pipeline is taken exactly when its position is within the run. */
  lemma StepTaken(trace: seq<Step>, i: nat)
    requires |trace| <= |PipelineOrder| && trace == PipelineOrder[..|trace|] && i < |PipelineOrder|
    ensures PipelineOrder[i] in trace <==> i < |trace|
  {
    if PipelineOrder[i] in trace {
      var k :| 0 <= k < |trace| && trace[k] == PipelineOrder[i];
      assert PipelineOrder[k] == PipelineOrder[i];
    }
  }

  /** Without a user id the answer is 401 whatever the subscription, body, key or provider;
      the subscription is not checked and the body is never read. */
  lemma UnauthenticatedIs401(req: Request, provider: ProviderCall -> ProviderOutcome, parse: string -> Option<Json>)
    requires !Truthy(req.sessionUserId)
    ensures var run := Handle(req, provider, parse);
            run.response == Failure(Unauthorized) && run.trace == [GetSession]
  {
  }

  /** Signed in but not subscribed: 403, before the body, the key or the provider. */
  lemma UnsubscribedIs403(req: Request, provider: ProviderCall -> ProviderOutcome, parse: string -> Option<Json>)
    requires Truthy(req.sessionUserId) && !req.subscribed
    ensures var run := Handle(req, provider, parse);
            run.response == Failure(SubscriptionRequired) && ReadBody !in run.trace
            && ReadApiKey !in run.trace && CallProvider !in run.trace
  {
    var run := Handle(req, provider, parse);
    StepTaken(run.trace, 2);
    StepTaken(run.trace, 3);
    StepTaken(run.trace, 4);
  }

  /** A missing `userInput`, a non-string one, or a string that `trim()` empties: 400,
      and neither the key nor the provider is touched. */
  lemma InvalidInputIs400(req: Request, provider: ProviderCall -> ProviderOutcome, parse: string -> Option<Json>)
    requires Authorized(req)
    requires req.body.NoUserInput? || req.body.NonStringInput? || (req.body.StringInput? && Trim(req.body.value) == "")
    ensures var run := Handle(req, provider, parse);
            run.response == Failure(NoDescription) && CallProvider !in run.trace
  {
    if req.body.StringInput? {
      TrimEmptyIffAllSpace(req.body.value);
    }
    var run := Handle(req, provider, parse);
    StepTaken(run.trace, 4);
  }

  /** A valid request with no API key configured: 500 with the configuration message,
      decided before any provider call. */
  lemma MissingKeyIs500(req: Request, provider: ProviderCall -> ProviderOutcome, parse: string -> Option<Json>)
    requires Authorized(req) && ValidUserInput(req.body) && !Truthy(req.apiKey)
    ensures var run := Handle(req, provider, parse);
            run.response == Failure(ConfigError)
            && run.trace == [GetSession, CheckSubscription, ReadBody, ReadApiKey]
  {
    assert PipelineOrder[..4] == [GetSession, CheckSubscription, ReadBody, ReadApiKey];
  }

  /** The provider is consulted on one request only: the one built from the key and the
      UNTRIMMED description. Two providers that agree on it give the same run. */
  lemma OneProviderCall(req: Request, p1: ProviderCall -> ProviderOutcome, p2: ProviderCall -> ProviderOutcome,
                        parse: string -> Option<Json>)
    requires ReachesProvider(req)
    requires p1(CallFor(req)) == p2(CallFor(req))
    ensures Handle(req, p1, parse) == Handle(req, p2, parse)
    ensures CallFor(req).userMessage == Prompt(req.body.value)
  {
  }

  /** A non-ok provider response gives the generic 500; its status and text never reach the reply. */
  lemma ProviderErrorNotForwarded(req: Request, provider: ProviderCall -> ProviderOutcome, parse: string -> Option<Json>)
    requires ReachesProvider(req) && provider(CallFor(req)).NotOk?
    ensures Handle(req, provider, parse).response == Failure(ProviderFailed)
  {
  }

  /** The abort timer firing gives 504 "Request timed out."; any other exception the generic 500. */
  lemma AbortIs504(req: Request, provider: ProviderCall -> ProviderOutcome, parse: string -> Option<Json>)
    requires ReachesProvider(req)
    ensures provider(CallFor(req)) == Aborted ==>
              Handle(req, provider, parse).response == Failure(TimedOut)
    ensures provider(CallFor(req)) == Threw ==>
              Handle(req, provider, parse).response == Failure(Unexpected)
  {
  }

  /** A completion that parses as it is decides the reply on its own; the scan is not run.
      A non-empty array is returned unchanged, anything else is "No brand names generated". */
  lemma DirectParseDecides(req: Request, provider: ProviderCall -> ProviderOutcome, parse: string -> Option<Json>,
                           content: string, v: Json)
    requires ReachesProvider(req) && provider(CallFor(req)) == Completed(content)
    requires parse(content) == Some(v)
    ensures var run := Handle(req, provider, parse);
            ScanBrackets !in run.trace
            && run.response == if IsNonEmptyArray(v) then Success(v.elements) else Failure(NoBrandNames)
  {
    var run := Handle(req, provider, parse);
    StepTaken(run.trace, 6);
  }

  /** A completion that does not parse but whose match parses to a non-array or to `[]`:
      "No brand names generated", as for a direct parse. */
  lemma RecoveredNonArrayIsNoBrandNames(req: Request, provider: ProviderCall -> ProviderOutcome,
                                        parse: string -> Option<Json>, content: string, v: Json)
    requires ReachesProvider(req) && provider(CallFor(req)) == Completed(content)
    requires parse(content).None? && BracketScan.Match(content).Some?
    requires parse(BracketScan.Match(content).value) == Some(v) && !IsNonEmptyArray(v)
    ensures Handle(req, provider, parse).response == Failure(NoBrandNames)
  {
  }

  /** A completion that does not parse and has no bracketed span: "Invalid response from AI". */
  lemma NoSpanIsInvalidResponse(req: Request, provider: ProviderCall -> ProviderOutcome, parse: string -> Option<Json>,
                                content: string)
    requires ReachesProvider(req) && provider(CallFor(req)) == Completed(content)
    requires parse(content).None? && '[' !in content
    ensures Handle(req, provider, parse).response == Failure(InvalidAiResponse)
  {
    assert BracketScan.Match(content).None? by {
      forall i: nat, j: nat ensures !BracketScan.IsSpan(content, i, j) {
        if i < |content| { assert content[i] in content; }
      }
    }
  }

  /** A span that itself fails to parse escapes to the catch-all 500, not to the
      "Invalid response from AI" reply. */
  lemma UnparsableSpanIsUnexpected(req: Request, provider: ProviderCall -> ProviderOutcome, parse: string -> Option<Json>,
                                   content: string)
    requires ReachesProvider(req) && provider(CallFor(req)) == Completed(content)
    requires parse(content).None? && BracketScan.Match(content).Some? && parse(BracketScan.Match(content).value).None?
    ensures Handle(req, provider, parse).response == Failure(Unexpected)
  {
  }

  /** Prose before and a fence after a JSON array (no `[` before it, no `]` after it) do not
      stop the array from being returned, elements and order untouched. */
  lemma WrappedArrayReturned(req: Request, provider: ProviderCall -> ProviderOutcome, parse: string -> Option<Json>,
                             pre: string, arr: string, post: string, names: seq<Json>)
    requires ReachesProvider(req) && provider(CallFor(req)) == Completed(pre + arr + post)
    requires parse(pre + arr + post).None?
    requires '[' !in pre && ']' !in post && |arr| >= 2 && arr[0] == '[' && arr[|arr| - 1] == ']'
    requires parse(arr) == Some(JArray(names)) && |names| > 0
    ensures Handle(req, provider, parse).response == Success(names)
  {
    BracketScan.WrappedArrayRecovered(pre, arr, post);
  }
}
