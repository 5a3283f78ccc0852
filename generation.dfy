/** The shared behaviour of every generator (src/lib/generation.ts): the mapping
    of a caught error to the message the user sees, the API-key check, and the
    demo generator. The factory that chooses a generator lives in module
    GeneratorFactory, after the adapters it builds. */
module Generation {
  import opened Wrappers
  import opened Strings
  import opened Types

  /** What `handleApiError` looks at in a caught value: `error.response?.status`,
      `error.message` and `error.code`, each possibly undefined. */
  datatype CaughtError = CaughtError(status: Option<int>, message: Option<string>, code: Option<string>)

  /** The value a plain `new Error(message)` presents: no response and no code. */
  function PlainError(message: string): (e: CaughtError)
    ensures e.message == Some(message) && e.status.None? && e.code.None?
  {
    CaughtError(None, Some(message), None)
  }

  const InvalidKeyError := "API key" + " inválida o expirada"
  const RateLimitError := "Límite de rate alcanzado. Intenta de nuevo en unos minutos"
  const ServerError := "Error del servidor. Intenta de nuevo más tarde"
  const ConnectionError := "Error de conexión. Verifica tu internet"
  const UnknownGenerationError := "Error desconocido en la generación"
  const MissingKeyError := "API key" + " no configurada"

  /** The caught value points at a transport failure: its message mentions
      "network" (case-sensitive) or its code is NETWORK_ERROR. */
  predicate LooksLikeNetworkFailure(e: CaughtError)
    ensures e.code == Some("NETWORK_ERROR") ==> LooksLikeNetworkFailure(e)
    ensures LooksLikeNetworkFailure(e) && e.code != Some("NETWORK_ERROR") ==>
      e.message.Some? && |e.message.value| >= |"network"|
  {
    (e.message.Some? && Contains(e.message.value, "network")) || e.code == Some("NETWORK_ERROR")
  }

  /** The hint is case-sensitive: "network error" is recognised, "Network error" is
      not and is rethrown as it is. */
  lemma NetworkHintIsCaseSensitive()
    ensures LooksLikeNetworkFailure(PlainError("network error"))
    ensures !LooksLikeNetworkFailure(PlainError("Network error"))
    ensures HandleApiError(PlainError("network error")) == ConnectionError
    ensures HandleApiError(PlainError("Network error")) == "Network error"
  {
    ContainsPrefix("network", " error");
    assert "network" + " error" == "network error";
    NotContainsFirstChar("Network error", "network");
  }

  /** The caught value has a response whose status one of the status rules maps. */
  predicate StatusRuleApplies(e: CaughtError) {
    e.status.Some? && (e.status.value == 401 || e.status.value == 429 || e.status.value >= 500)
  }

  /** `handleApiError`: the message of the error it rethrows. The rules are tried
      in order: status 401, status 429, status 500 or above, a network failure,
      and otherwise the caught message itself, the generic one when it is
      absent or empty. The message is never empty. */
  function HandleApiError(e: CaughtError): (thrown: string)
    ensures e.status == Some(401) ==> thrown == InvalidKeyError
    ensures e.status == Some(429) ==> thrown == RateLimitError
    ensures e.status.Some? && e.status.value >= 500 ==> thrown == ServerError
    ensures !StatusRuleApplies(e) && LooksLikeNetworkFailure(e) ==> thrown == ConnectionError
    ensures !StatusRuleApplies(e) && !LooksLikeNetworkFailure(e) ==> thrown == OrElse(e.message, UnknownGenerationError)
    ensures thrown != []
  {
    if e.status == Some(401) then InvalidKeyError
    else if e.status == Some(429) then RateLimitError
    else if e.status.Some? && e.status.value >= 500 then ServerError
    else if LooksLikeNetworkFailure(e) then ConnectionError
    else OrElse(e.message, UnknownGenerationError)
  }

  /** The message for an expired key names the key and not the status code. */
  lemma InvalidKeyMessageIsFriendly()
    ensures Contains(InvalidKeyError, "API key")
    ensures !Contains(InvalidKeyError, "401")
  {
    ContainsPrefix("API key", " inválida o expirada");
    NotContainsFirstChar(InvalidKeyError, "401");
  }

  /** A plain `Error` (what every adapter throws) carries no status, so the status
      rules never fire for it: its message comes back unchanged unless it mentions
      "network", and an empty one becomes the generic message. */
  lemma PlainErrorPassesThrough(message: string)
    ensures HandleApiError(PlainError(message)) ==
      if Contains(message, "network") then ConnectionError
      else if message == [] then UnknownGenerationError
      else message
    ensures HandleApiError(PlainError(message)) != InvalidKeyError || message == InvalidKeyError
  {
    if message == [] {
      NotContainsFirstChar(message, "network");
    }
  }

  /** `validateApiKey`: a key that is empty or only whitespace is refused. */
  function ValidateApiKey(apiKey: string): (r: Validation)
    ensures r == Valid <==> !AllWhitespace(apiKey)
    ensures r != Valid ==> r == Invalid(MissingKeyError)
  {
    TrimEmptyIff(apiKey);
    if apiKey == [] || Trim(apiKey) == [] then Invalid(MissingKeyError) else Valid
  }

  /** The `try` around `Promise.all([image, text])` in every adapter's `generate`:
      both parts succeed and are paired, or the first part to fail (by settling
      order when both fail) is caught and rethrown through `handleApiError`. */
  function SettleBoth(image: Result<string>, text: Result<string>, imageSettlesFirst: bool): (r: Result<GenResult>)
    ensures r.Ok? <==> image.Ok? && text.Ok?
    ensures r.Ok? ==> r.value == GenResult(image.value, text.value)
    ensures image.Err? && (text.Ok? || imageSettlesFirst) ==> r == Err(HandleApiError(PlainError(image.message)))
    ensures text.Err? && (image.Ok? || !imageSettlesFirst) ==> r == Err(HandleApiError(PlainError(text.message)))
  {
    if image.Ok? && text.Ok? then Ok(GenResult(image.value, text.value))
    else if image.Err? && (text.Ok? || imageSettlesFirst) then Err(HandleApiError(PlainError(image.message)))
    else Err(HandleApiError(PlainError(text.message)))
  }

  /** An adapter's `generate`: the key is checked before anything is requested, and
      that refusal is not passed through `handleApiError`. */
  function GuardedGenerate(apiKey: string, image: Result<string>, text: Result<string>, imageSettlesFirst: bool): (r: Result<GenResult>)
    ensures AllWhitespace(apiKey) ==> r == Err(MissingKeyError)
    ensures !AllWhitespace(apiKey) ==> r == SettleBoth(image, text, imageSettlesFirst)
  {
    match ValidateApiKey(apiKey)
    case Invalid(m) => Err(m)
    case Valid => SettleBoth(image, text, imageSettlesFirst)
  }

  /** `Math.floor(random * n)` for a `Math.random()` value: an index into a list of `n`. */
  function RandomIndex(random: real, n: nat): (i: nat)
    requires 0.0 <= random < 1.0 && n > 0
    ensures i < n
    ensures i as real <= random * n as real < i as real + 1.0
  {
    var x := random * n as real;
    assert x < n as real;
    x.Floor
  }

  /** Every index can come out: `k / n` picks entry `k`. */
  lemma RandomIndexReaches(k: nat, n: nat)
    requires k < n
    ensures 0.0 <= k as real / n as real < 1.0
    ensures RandomIndex(k as real / n as real, n) == k
  {
    var r := k as real / n as real;
    assert r * n as real == k as real;
  }

  /** The fixed wording of the canned descriptions. */
  const MockTail0 := " excepcional que transforma cada desafío en una oportunidad brillante. Su dedicación y pasión inspiran a todo el equipo hacia la excelencia."
  const MockTail1 := ", su trabajo marca la diferencia y eleva los estándares de calidad en cada proyecto."
  const MockTail2 := " es una profesión que vale oro. Su compromiso y expertise son fundamentales para el éxito de nuestra empresa."
  const MockLink1 := " encontramos la perfecta combinación de talento y determinación. Como "
  const MockLink2 := " demuestra día a día por qué "

  /** The three canned descriptions of the demo generator. */
  function MockDescriptions(name: string, profession: string): (ds: seq<string>)
    ensures |ds| == 3
  {
    [ Concat([name, " es un/a ", profession, MockTail0]),
      Concat(["En ", name, MockLink1, profession, MockTail1]),
      Concat([name, MockLink2, profession, MockTail2]) ]
  }

  /** Each canned description names the person and the profession. */
  lemma MockDescriptionsMention(name: string, profession: string, k: nat)
    requires k < 3
    ensures Contains(MockDescriptions(name, profession)[k], name)
    ensures Contains(MockDescriptions(name, profession)[k], profession)
  {
    var parts0 := [name, " es un/a ", profession, MockTail0];
    var parts1 := ["En ", name, MockLink1, profession, MockTail1];
    var parts2 := [name, MockLink2, profession, MockTail2];
    if k == 0 {
      ContainsPart(parts0, 0);
      ContainsPart(parts0, 2);
    } else if k == 1 {
      ContainsPart(parts1, 1);
      ContainsPart(parts1, 3);
    } else {
      ContainsPart(parts2, 0);
      ContainsPart(parts2, 2);
    }
  }

  const MockImagePrefix := "https://picsum.photos/1024/1024?random="

  /** `MockGenerator.generate`, given the `Math.random()` draw and `Date.now()`:
      one of the canned descriptions, which names the person and the profession,
      and a placeholder image address made unique by the timestamp. No key is
      looked at. */
  function MockGenerate(payload: GenParams, random: real, now: nat): (r: GenResult)
    requires 0.0 <= random < 1.0
    ensures r.description in MockDescriptions(payload.name, payload.profession)
    ensures Contains(r.description, payload.name) && Contains(r.description, payload.profession)
    ensures r.imageUrl == MockImagePrefix + NatToString(now)
  {
    var k := RandomIndex(random, 3);
    MockDescriptionsMention(payload.name, payload.profession, k);
    GenResult(MockImagePrefix + NatToString(now), MockDescriptions(payload.name, payload.profession)[k])
  }

  /** Two calls at different instants give different image addresses. */
  lemma MockImageUrlsDiffer(payload: GenParams, r1: real, r2: real, t1: nat, t2: nat)
    requires 0.0 <= r1 < 1.0 && 0.0 <= r2 < 1.0 && t1 != t2
    ensures MockGenerate(payload, r1, t1).imageUrl != MockGenerate(payload, r2, t2).imageUrl
  {
    var u1 := MockGenerate(payload, r1, t1).imageUrl;
    var u2 := MockGenerate(payload, r2, t2).imageUrl;
    if u1 == u2 {
      assert NatToString(t1) == u1[|MockImagePrefix|..];
      assert NatToString(t2) == u2[|MockImagePrefix|..];
      NatToStringInjective(t1, t2);
    }
  }

  /** The draw decides the description: index `k` gives the `k`-th canned text. */
  lemma MockDrawPicks(payload: GenParams, random: real, now: nat, k: nat)
    requires 0.0 <= random < 1.0 && RandomIndex(random, 3) == k
    ensures MockGenerate(payload, random, now).description == MockDescriptions(payload.name, payload.profession)[k]
  {
  }

  /** Every canned description can be drawn. */
  lemma MockReachesEveryDescription(payload: GenParams, k: nat, now: nat)
    requires k < 3
    ensures exists random | 0.0 <= random < 1.0 ::
      MockGenerate(payload, random, now).description == MockDescriptions(payload.name, payload.profession)[k]
  {
    var r := if k == 0 then 0.0 else if k == 1 then 0.5 else 0.75;
    assert RandomIndex(r, 3) == k;
    MockDrawPicks(payload, r, now, k);
  }
}
