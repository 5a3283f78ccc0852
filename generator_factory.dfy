/** `GeneratorFactory.create` (src/lib/generation.ts) and what each kind of
    generator it hands out does with a request. A generator is a value: its
    fields are fixed when it is built and only read afterwards. */
module GeneratorFactory {
  import opened Wrappers
  import opened Strings
  import opened Types
  import opened Generation
  import OpenAIAdapter
  import StabilityAdapter

  const OpenAIProvider := "openai"
  const StabilityProvider := "stability"
  const UnsupportedProviderPrefix := "Proveedor no soportado: "

  /** The generators the core can hand out: one of the two adapters, or the
      mock generator (which keeps the key it was built with but never looks at it). */
  datatype Generator =
    | OpenAIGen(openai: OpenAIAdapter.Adapter)
    | StabilityGen(stability: StabilityAdapter.Adapter)
    | MockGen(apiKey: string)

  /** `create(provider, apiKey, baseUrl)`. `adapterLoads` is the outcome of the
      dynamic `import()` of the adapter's module: when it fails, the mock generator
      takes the adapter's place. Any other provider id is refused. */
  function Create(provider: string, apiKey: string, baseUrl: Option<string>, adapterLoads: bool): (r: Result<Generator>)
    ensures r.Err? <==> provider != OpenAIProvider && provider != StabilityProvider
    ensures r.Err? ==> r.message == UnsupportedProviderPrefix + provider
    ensures r.Ok? && !adapterLoads ==> r.value == MockGen(apiKey)
    ensures r.Ok? && adapterLoads ==> (r.value.OpenAIGen? <==> provider == OpenAIProvider)
    ensures r.Ok? && adapterLoads ==> (r.value.StabilityGen? <==> provider == StabilityProvider)
  {
    if provider == OpenAIProvider then
      if adapterLoads then Ok(OpenAIGen(OpenAIAdapter.NewAdapter(apiKey, baseUrl))) else Ok(MockGen(apiKey))
    else if provider == StabilityProvider then
      if adapterLoads then Ok(StabilityGen(StabilityAdapter.NewAdapter(apiKey, baseUrl))) else Ok(MockGen(apiKey))
    else
      Err(UnsupportedProviderPrefix + provider)
  }

  /** A refused provider id is named in the error message. */
  lemma UnsupportedProviderNamed(provider: string, apiKey: string, baseUrl: Option<string>, adapterLoads: bool)
    requires provider != OpenAIProvider && provider != StabilityProvider
    ensures Create(provider, apiKey, baseUrl, adapterLoads).Err?
    ensures Contains(Create(provider, apiKey, baseUrl, adapterLoads).message, provider)
  {
    ContainsInfix(UnsupportedProviderPrefix, provider, []);
    assert UnsupportedProviderPrefix + provider + [] == UnsupportedProviderPrefix + provider;
  }

  /** A loaded adapter is built from exactly the key and base URL it was given. */
  lemma CreatedAdapterKeepsKey(provider: string, apiKey: string, baseUrl: Option<string>)
    requires provider == OpenAIProvider || provider == StabilityProvider
    ensures var g := Create(provider, apiKey, baseUrl, true).value;
      (g.OpenAIGen? ==> g.openai.apiKey == apiKey && g.openai.baseUrl == baseUrl)
      && (g.StabilityGen? ==> g.stability.apiKey == apiKey && g.stability.baseUrl == baseUrl)
  {
  }

  /** Everything a request's outcome depends on besides the generator and the
      payload: the settled `fetch` calls of whichever adapter runs, the
      `Math.random()` draw, the clock, and which rejection settles first. */
  datatype Environment = Environment(
    openaiImage: HttpOutcome<Json<OpenAIAdapter.ImageReply>>,
    openaiText: HttpOutcome<Json<OpenAIAdapter.TextReply>>,
    imageToImage: HttpOutcome<Json<StabilityAdapter.ArtifactsReply>>,
    textToImage: HttpOutcome<Json<StabilityAdapter.ArtifactsReply>>,
    random: real,
    now: nat,
    imageSettlesFirst: bool)

  /** `generator.generate(payload)` for each kind of generator. */
  function Run(g: Generator, payload: GenParams, env: Environment): (r: Result<GenResult>)
    requires 0.0 <= env.random < 1.0
    ensures g.MockGen? ==> r.Ok? && r.value == MockGenerate(payload, env.random, env.now)
    ensures g.OpenAIGen? ==> r == OpenAIAdapter.Generate(g.openai, payload, env.openaiImage, env.openaiText, env.imageSettlesFirst)
    ensures g.StabilityGen? ==> r == StabilityAdapter.Generate(g.stability, payload, env.imageToImage, env.textToImage,
                                                              env.random, env.imageSettlesFirst)
  {
    match g
    case OpenAIGen(a) => OpenAIAdapter.Generate(a, payload, env.openaiImage, env.openaiText, env.imageSettlesFirst)
    case StabilityGen(a) => StabilityAdapter.Generate(a, payload, env.imageToImage, env.textToImage,
                                                      env.random, env.imageSettlesFirst)
    case MockGen(_) => Ok(MockGenerate(payload, env.random, env.now))
  }

  /** The mock generator succeeds whatever key it holds, even a blank one, with a
      description naming the person and the profession; an adapter holding a blank
      key fails before any request with the missing-key message. */
  lemma BlankKeyOnlyStopsAdapters(g: Generator, payload: GenParams, env: Environment)
    requires 0.0 <= env.random < 1.0
    ensures g.MockGen? ==> (Run(g, payload, env).Ok?
      && Contains(Run(g, payload, env).value.description, payload.name)
      && Contains(Run(g, payload, env).value.description, payload.profession))
    ensures g.OpenAIGen? && AllWhitespace(g.openai.apiKey) ==> Run(g, payload, env) == Err(MissingKeyError)
    ensures g.StabilityGen? && AllWhitespace(g.stability.apiKey) ==> Run(g, payload, env) == Err(MissingKeyError)
  {
  }
}
