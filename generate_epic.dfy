/** The generation hook (src/hooks/useGenerateEpic.ts): which generator a request
    uses, whether a failed request is tried again, and how long the hook waits
    before it does. */
module GenerateEpic {
  import opened Wrappers
  import opened Strings
  import opened Types
  import opened Generation
  import opened GeneratorFactory
  import OpenAIAdapter

  const DefaultProvider := OpenAIProvider
  const MockKey := "mock-key"
  const FallbackKey := "fallback-key"
  const KeyMarker := "API key"
  const UnauthorizedMarker := "401"
  const MaxFailures := 3
  const BaseDelay := 1000
  const MaxDelay := 30000

  /** The hook's options that decide the generator (the callbacks are not modelled). */
  datatype Options = Options(provider: Option<string>, apiKey: Option<string>, baseUrl: Option<string>)

  /** The destructuring default: an absent provider means OpenAI. */
  function ProviderOf(o: Options): (p: string)
    ensures o.provider.None? ==> p == DefaultProvider
    ensures o.provider.Some? ==> p == o.provider.value
  {
    match o.provider
    case None => DefaultProvider
    case Some(p) => p
  }

  /** An absent key, or one that is empty or only whitespace: what
      `!apiKey || apiKey.trim() === ""` tests. */
  predicate BlankKey(apiKey: Option<string>)
    ensures BlankKey(apiKey) <==> apiKey.None? || apiKey.value == [] || Trim(apiKey.value) == []
  {
    apiKey.None? || (TrimEmptyIff(apiKey.value); AllWhitespace(apiKey.value))
  }

  /** `createGenerator`: without a usable key the mock generator, without asking the
      factory; otherwise what the factory builds, or the mock generator in place of
      the factory's error. */
  function CreateGenerator(o: Options, adapterLoads: bool): (g: Generator)
    ensures BlankKey(o.apiKey) ==> g == MockGen(MockKey)
    ensures !BlankKey(o.apiKey) ==>
      (var made := Create(ProviderOf(o), o.apiKey.value, o.baseUrl, adapterLoads);
       (made.Ok? ==> g == made.value) && (made.Err? ==> g == MockGen(FallbackKey)))
  {
    if o.apiKey.None? then MockGen(MockKey)
    else
      var key := o.apiKey.value;
      TrimEmptyIff(key);
      if key == [] || Trim(key) == [] then MockGen(MockKey)
      else
        match Create(ProviderOf(o), key, o.baseUrl, adapterLoads)
        case Ok(made) => made
        case Err(_) => MockGen(FallbackKey)
  }

  /** The hook never hands out a generator for a key it was not given: either an
      adapter holding the caller's key, or the mock generator. */
  lemma GeneratorHoldsCallerKey(o: Options, adapterLoads: bool)
    ensures var g := CreateGenerator(o, adapterLoads);
      (g.OpenAIGen? ==> o.apiKey == Some(g.openai.apiKey) && !BlankKey(o.apiKey))
      && (g.StabilityGen? ==> o.apiKey == Some(g.stability.apiKey) && !BlankKey(o.apiKey))
  {
    if !BlankKey(o.apiKey) {
      var made := Create(ProviderOf(o), o.apiKey.value, o.baseUrl, adapterLoads);
      if made.Ok? && adapterLoads {
        CreatedAdapterKeepsKey(ProviderOf(o), o.apiKey.value, o.baseUrl);
      }
    }
  }

  /** `mutationFn`: build the generator, then run the request on it. */
  function Mutate(o: Options, adapterLoads: bool, payload: GenParams, env: Environment): (r: Result<GenResult>)
    requires 0.0 <= env.random < 1.0
    ensures BlankKey(o.apiKey) ==> r == Ok(MockGenerate(payload, env.random, env.now))
  {
    Run(CreateGenerator(o, adapterLoads), payload, env)
  }

  /** Whenever the mock generator stands in (no usable key, an unsupported provider,
      or an adapter that fails to load), the request cannot fail. */
  lemma MockStandInNeverFails(o: Options, adapterLoads: bool, payload: GenParams, env: Environment)
    requires 0.0 <= env.random < 1.0
    requires BlankKey(o.apiKey) || !adapterLoads
      || (ProviderOf(o) != OpenAIProvider && ProviderOf(o) != StabilityProvider)
    ensures Mutate(o, adapterLoads, payload, env).Ok?
  {
  }

  /** `useOpenAIGeneration`, `useStabilityGeneration` and `useMockGeneration`. */
  function OpenAIOptions(apiKey: string, baseUrl: Option<string>): Options {
    Options(Some(OpenAIProvider), Some(apiKey), baseUrl)
  }

  function StabilityOptions(apiKey: string, baseUrl: Option<string>): Options {
    Options(Some(StabilityProvider), Some(apiKey), baseUrl)
  }

  function MockOptions(baseUrl: Option<string>): Options {
    Options(Some(OpenAIProvider), None, baseUrl)
  }

  /** `useMockGeneration` always gets the mock generator, whatever would load. */
  lemma MockOptionsAlwaysMock(baseUrl: Option<string>, adapterLoads: bool)
    ensures CreateGenerator(MockOptions(baseUrl), adapterLoads) == MockGen(MockKey)
  {
  }

  /** With a usable key and a module that loads, each provider hook gets its adapter. */
  lemma ProviderHooksGetTheirAdapter(apiKey: string, baseUrl: Option<string>)
    requires !AllWhitespace(apiKey)
    ensures CreateGenerator(OpenAIOptions(apiKey, baseUrl), true) == OpenAIGen(OpenAIAdapter.NewAdapter(apiKey, baseUrl))
    ensures CreateGenerator(StabilityOptions(apiKey, baseUrl), true).StabilityGen?
  {
  }

  /** The `retry` option: never again for a message about the key or a 401, and
      otherwise while fewer than three failures have been counted. */
  function ShouldRetry(failureCount: nat, message: string): (again: bool)
    ensures Contains(message, KeyMarker) || Contains(message, UnauthorizedMarker) ==> !again
    ensures !Contains(message, KeyMarker) && !Contains(message, UnauthorizedMarker) ==> (again <==> failureCount < MaxFailures)
  {
    if Contains(message, KeyMarker) || Contains(message, UnauthorizedMarker) then false
    else failureCount < MaxFailures
  }

  /** The key messages of the generator core are final: an invalid key reported by
      `handleApiError` and a missing key reported by `validateApiKey` are never
      retried, at any failure count. */
  lemma KeyErrorsAreFinal(failureCount: nat)
    ensures !ShouldRetry(failureCount, InvalidKeyError)
    ensures !ShouldRetry(failureCount, MissingKeyError)
  {
    InvalidKeyMessageIsFriendly();
    ContainsPrefix(KeyMarker, " no configurada");
  }

  /** Any other failure is retried on the first three counts and not afterwards. */
  lemma OtherErrorsRetriedThreeTimes(message: string, failureCount: nat)
    requires !Contains(message, KeyMarker) && !Contains(message, UnauthorizedMarker)
    ensures ShouldRetry(0, message) && ShouldRetry(1, message) && ShouldRetry(2, message)
    ensures failureCount >= 3 ==> !ShouldRetry(failureCount, message)
  {
  }

  /** As written, an OpenAI 401 whose body carries the message "Unauthorized" reaches
      the hook as "Unauthorized" (its status is dropped on the way), so the hook
      tries the same invalid key three more times. */
  lemma UnauthorizedReplyIsRetried(payload: GenParams, textReply: HttpOutcome<Json<OpenAIAdapter.TextReply>>)
    ensures var r := OpenAIAdapter.Generate(OpenAIAdapter.NewAdapter("invalid-key", None), payload,
        HttpResponse(false, 401, "", Parsed(OpenAIAdapter.ImageReply(None, Some("Unauthorized")))), textReply, true);
      r.Err? && ShouldRetry(0, r.message) && ShouldRetry(2, r.message)
  {
    OpenAIAdapter.UnauthorizedSurfacesRawMessage(payload, textReply);
    UnauthorizedMessageRetried();
  }

  /** The bare text "Unauthorized" names neither the key nor the code. */
  lemma UnauthorizedMessageRetried()
    ensures ShouldRetry(0, "Unauthorized") && ShouldRetry(2, "Unauthorized")
  {
    NotContainsFirstChar("Unauthorized", KeyMarker);
    NotContainsFirstChar("Unauthorized", UnauthorizedMarker);
  }

  /** With the status kept, a 401 on whichever request settles the call first is
      reported as an invalid key and is not retried at all. */
  lemma ReportedUnauthorizedIsFinal(a: OpenAIAdapter.Adapter, payload: GenParams,
                                    imageReply: HttpOutcome<Json<OpenAIAdapter.ImageReply>>,
                                    textReply: HttpOutcome<Json<OpenAIAdapter.TextReply>>,
                                    imageSettlesFirst: bool, failureCount: nat)
    requires !AllWhitespace(a.apiKey)
    requires (OpenAIAdapter.RejectedWith(imageReply, 401)
              && (imageSettlesFirst || OpenAIAdapter.TextOutcome(OpenAIAdapter.FillsDefaults, textReply).Ok?))
          || (OpenAIAdapter.RejectedWith(textReply, 401)
              && (!imageSettlesFirst || OpenAIAdapter.ImageOutcome(OpenAIAdapter.FillsDefaults, imageReply).Ok?))
    ensures var r := OpenAIAdapter.GenerateReportingStatus(a, payload, imageReply, textReply, imageSettlesFirst);
      r == Err(InvalidKeyError) && !ShouldRetry(failureCount, r.message)
  {
    KeyErrorsAreFinal(failureCount);
  }

  /** `2 ** i` for a whole exponent. */
  function Pow2(i: nat): (p: nat)
    ensures p >= 1
  {
    if i == 0 then 1 else 2 * Pow2(i - 1)
  }

  lemma {:induction false} Pow2Monotone(i: nat, j: nat)
    requires i <= j
    ensures Pow2(i) <= Pow2(j)
  {
    if i < j {
      Pow2Monotone(i, j - 1);
    }
  }

  /** `retryDelay`: `Math.min(1000 * 2 ** attemptIndex, 30000)`. */
  function RetryDelay(attemptIndex: nat): (d: nat)
    ensures d <= MaxDelay && d <= BaseDelay * Pow2(attemptIndex)
    ensures d == MaxDelay || d == BaseDelay * Pow2(attemptIndex)
  {
    var grown := BaseDelay * Pow2(attemptIndex);
    if grown < MaxDelay then grown else MaxDelay
  }

  /** Later attempts never wait less. */
  lemma RetryDelayMonotone(i: nat, j: nat)
    requires i <= j
    ensures RetryDelay(i) <= RetryDelay(j)
  {
    Pow2Monotone(i, j);
  }

  /** The first five delays double from one second; from the sixth on, the cap holds. */
  lemma RetryDelaySchedule(i: nat)
    ensures RetryDelay(0) == 1000 && RetryDelay(1) == 2000 && RetryDelay(2) == 4000
    ensures RetryDelay(3) == 8000 && RetryDelay(4) == 16000
    ensures i <= 4 ==> RetryDelay(i) == BaseDelay * Pow2(i)
    ensures i >= 5 ==> RetryDelay(i) == MaxDelay
  {
    assert Pow2(4) == 16;
    if i <= 4 {
      Pow2Monotone(i, 4);
    } else {
      Pow2Monotone(5, i);
    }
  }
}
