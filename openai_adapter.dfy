/** The OpenAI adapters (src/lib/openaiAdapter.ts): DALL-E 3 for the image and a
    chat completion for the text, requested together; and the experimental variant
    that asks for a variation of the user's photo instead. Each `fetch` is given
    by its settled outcome. */
module OpenAIAdapter {
  import opened Wrappers
  import opened Strings
  import opened Types
  import opened PromptBuilder
  import opened Generation

  const DefaultBaseUrl := "https://api.openai.com/v1"
  const ImagePath := "/images/generations"
  const VariationPath := "/images/variations"
  const TextPath := "/chat/completions"
  const InvalidImageReply := "Respuesta inválida de la API de imagen"
  const InvalidTextReply := "Respuesta inválida de la API de texto"
  const FacialFeaturesSuffix := " The person should have the exact facial features from the reference photo provided."
  const CopywriterRole := "Eres un experto en copywriting motivacional e inclusivo. Generas textos épicos que destacan el valor de cada profesión en las empresas."

  /** The JSON of an image reply: `data` as a list whose entries give their `url`
      (None when the entry or its url is missing), and `error.message`. */
  datatype ImageReply = ImageReply(data: Option<seq<Option<string>>>, errorMessage: Option<string>)

  /** The JSON of a chat reply: `choices` as a list whose entries give their
      `message.content` (None when missing), and `error.message`. */
  datatype TextReply = TextReply(choices: Option<seq<Option<string>>>, errorMessage: Option<string>)

  /** How the adapter phrases a failed response that carries no error message: the
      main adapter substitutes "unknown" for a zero status and "Unknown error" for an
      empty status text, the variation adapter prints both as they are. */
  datatype ErrorStyle = FillsDefaults | Verbatim

  /** The message thrown for a response that is not `ok`: the body's `error.message`
      when present and non-empty, otherwise "HTTP <status>: <statusText>". */
  function HttpFailureMessage(style: ErrorStyle, bodyMessage: Option<string>, status: nat, statusText: string): (m: string)
    ensures bodyMessage.Some? && bodyMessage.value != [] ==> m == bodyMessage.value
    ensures (bodyMessage.None? || bodyMessage.value == []) && (style.Verbatim? || (status != 0 && statusText != [])) ==>
      m == "HTTP " + NatToString(status) + ": " + statusText
    ensures (bodyMessage.None? || bodyMessage.value == []) && style.FillsDefaults? ==>
      m == "HTTP " + (if status == 0 then "unknown" else NatToString(status)) + ": " + OrElse(Some(statusText), "Unknown error")
    ensures m != []
  {
    var shown := if style.FillsDefaults? && status == 0 then "unknown" else NatToString(status);
    var text := if style.FillsDefaults? then OrElse(Some(statusText), "Unknown error") else statusText;
    OrElse(bodyMessage, "HTTP " + shown + ": " + text)
  }

  /** When the failed response carries no message, the thrown message shows the status code. */
  lemma FailureWithoutMessageShowsStatus(style: ErrorStyle, status: nat, statusText: string)
    requires status != 0
    ensures Contains(HttpFailureMessage(style, None, status, statusText), NatToString(status))
  {
    var m := HttpFailureMessage(style, None, status, statusText);
    var text := if style.FillsDefaults? then OrElse(Some(statusText), "Unknown error") else statusText;
    assert m == "HTTP " + NatToString(status) + (": " + text);
    ContainsInfix("HTTP ", NatToString(status), ": " + text);
  }

  /** The error message a failed response's body yields: `{}` when it does not parse. */
  function BodyErrorMessage<T>(body: Json<T>, message: T -> Option<string>): (m: Option<string>)
    ensures body.Malformed? ==> m.None?
    ensures body.Parsed? ==> m == message(body.value)
  {
    match body
    case Malformed(_) => None
    case Parsed(v) => message(v)
  }

  /** The adapter: the key, the optional base address and the endpoints built from it. */
  datatype Adapter = Adapter(apiKey: string, baseUrl: Option<string>, imageEndpoint: string, textEndpoint: string)

  /** `new OpenAIAdapter(apiKey, baseUrl)`: both endpoints hang off the given base,
      or off the public API when the base is absent or empty. */
  function NewAdapter(apiKey: string, baseUrl: Option<string>): (a: Adapter)
    ensures a.apiKey == apiKey && a.baseUrl == baseUrl
    ensures a.imageEndpoint == OrElse(baseUrl, DefaultBaseUrl) + ImagePath
    ensures a.textEndpoint == OrElse(baseUrl, DefaultBaseUrl) + TextPath
  {
    var base := OrElse(baseUrl, DefaultBaseUrl);
    Adapter(apiKey, baseUrl, base + ImagePath, base + TextPath)
  }

  /** The image request: where it goes, its bearer token and its JSON body. */
  datatype ImageRequest = ImageRequest(endpoint: string, authorization: string, model: string, prompt: string,
                                       n: nat, size: string, quality: string, style: string)

  /** The DALL-E 3 request of `generateImage`: one HD, vivid 1024x1024 image from the
      image prompt with the facial-features sentence appended, so it names the person
      and the profession. */
  function ImageRequestFor(a: Adapter, payload: GenParams): (req: ImageRequest)
    ensures req.endpoint == a.imageEndpoint && req.authorization == "Bearer " + a.apiKey
    ensures req.prompt == BuildImagePrompt(payload.name, payload.profession) + FacialFeaturesSuffix
    ensures Contains(req.prompt, payload.name) && Contains(req.prompt, payload.profession)
    ensures req.model == "dall-e-3" && req.n == 1 && req.quality == "hd" && req.style == "vivid"
    ensures req.size == GetImageGenerationParams().size
  {
    var prompt := BuildImagePrompt(payload.name, payload.profession);
    ContainsPrefix(prompt, FacialFeaturesSuffix);
    ContainsTrans(prompt + FacialFeaturesSuffix, prompt, payload.name);
    ContainsTrans(prompt + FacialFeaturesSuffix, prompt, payload.profession);
    ImageRequest(a.imageEndpoint, "Bearer " + a.apiKey, "dall-e-3", prompt + FacialFeaturesSuffix,
                 1, "1024x1024", "hd", "vivid")
  }

  /** The chat request: where it goes, its bearer token and its JSON body. */
  datatype TextRequest = TextRequest(endpoint: string, authorization: string, model: string,
                                     systemContent: string, userContent: string, maxTokens: nat, temperature: real)

  /** The GPT-4 request of `generateText`: the copywriter role, then the text prompt
      as the user's message, at most 150 tokens, temperature 0.8. */
  function TextRequestFor(a: Adapter, payload: GenParams): (req: TextRequest)
    ensures req.endpoint == a.textEndpoint && req.authorization == "Bearer " + a.apiKey
    ensures req.userContent == BuildTextPrompt(payload.name, payload.profession)
    ensures req.model == "gpt-4" && req.systemContent == CopywriterRole
    ensures req.maxTokens == 150 && req.temperature == 0.8
  {
    var prompt := BuildTextPrompt(payload.name, payload.profession);
    TextRequest(a.textEndpoint, "Bearer " + a.apiKey, "gpt-4", CopywriterRole, prompt, 150, 0.8)
  }

  /** The image reply has a first entry with a non-empty url. */
  predicate HasImageUrl(v: ImageReply) {
    v.data.Some? && |v.data.value| > 0 && v.data.value[0].Some? && v.data.value[0].value != []
  }

  /** The chat reply has a first choice with non-empty content. */
  predicate HasContent(v: TextReply) {
    v.choices.Some? && |v.choices.value| > 0 && v.choices.value[0].Some? && v.choices.value[0].value != []
  }

  /** The settling of an image request (`generateImage` and `generateImageVariation`
      after their fetch): the url of the first entry of a successful reply, or the
      message it throws. */
  function ImageOutcome(style: ErrorStyle, reply: HttpOutcome<Json<ImageReply>>): (r: Result<string>)
    ensures r.Ok? <==> reply.HttpResponse? && reply.ok && reply.body.Parsed? && HasImageUrl(reply.body.value)
    ensures r.Ok? ==> r.value == reply.body.value.data.value[0].value && r.value != []
    ensures reply.NetworkFailure? ==> r == Err(reply.reason)
    ensures reply.HttpResponse? && !reply.ok ==>
      r == Err(HttpFailureMessage(style, BodyErrorMessage(reply.body, (v: ImageReply) => v.errorMessage), reply.status, reply.statusText))
    ensures reply.HttpResponse? && reply.ok && reply.body.Parsed? && !HasImageUrl(reply.body.value) ==> r == Err(InvalidImageReply)
  {
    match reply
    case NetworkFailure(reason) => Err(reason)
    case HttpResponse(ok, status, statusText, body) =>
      if !ok then
        Err(HttpFailureMessage(style, BodyErrorMessage(body, (v: ImageReply) => v.errorMessage), status, statusText))
      else
        match body
        case Malformed(syntaxError) => Err(syntaxError)
        case Parsed(v) => if HasImageUrl(v) then Ok(v.data.value[0].value) else Err(InvalidImageReply)
  }

  /** The settling of a chat request (`generateText` after its fetch): the first
      choice's content, trimmed, or the message it throws. Content is checked
      before trimming, so content made only of whitespace gives an empty description. */
  function TextOutcome(style: ErrorStyle, reply: HttpOutcome<Json<TextReply>>): (r: Result<string>)
    ensures r.Ok? <==> reply.HttpResponse? && reply.ok && reply.body.Parsed? && HasContent(reply.body.value)
    ensures r.Ok? ==> r.value == Trim(reply.body.value.choices.value[0].value)
    ensures r.Ok? && r.value != [] ==> !IsWhitespace(r.value[0]) && !IsWhitespace(r.value[|r.value| - 1])
    ensures reply.NetworkFailure? ==> r == Err(reply.reason)
    ensures reply.HttpResponse? && !reply.ok ==>
      r == Err(HttpFailureMessage(style, BodyErrorMessage(reply.body, (v: TextReply) => v.errorMessage), reply.status, reply.statusText))
    ensures reply.HttpResponse? && reply.ok && reply.body.Parsed? && !HasContent(reply.body.value) ==> r == Err(InvalidTextReply)
  {
    match reply
    case NetworkFailure(reason) => Err(reason)
    case HttpResponse(ok, status, statusText, body) =>
      if !ok then
        Err(HttpFailureMessage(style, BodyErrorMessage(body, (v: TextReply) => v.errorMessage), status, statusText))
      else
        match body
        case Malformed(syntaxError) => Err(syntaxError)
        case Parsed(v) => if HasContent(v) then Ok(Trim(v.choices.value[0].value)) else Err(InvalidTextReply)
  }

  /** Content made only of whitespace passes the check and leaves an empty description. */
  lemma BlankContentGivesEmptyDescription(style: ErrorStyle, content: string, statusText: string)
    requires content != [] && AllWhitespace(content)
    ensures TextOutcome(style, HttpResponse(true, 200, statusText, Parsed(TextReply(Some([Some(content)]), None)))) == Ok("")
  {
    TrimEmptyIff(content);
  }

  /** `OpenAIAdapter.generate`: with a usable key, the url of the image and the trimmed
      text when both requests succeed, otherwise the first failure passed through
      `handleApiError`; a blank key is refused before anything is requested. */
  function Generate(a: Adapter, payload: GenParams, imageReply: HttpOutcome<Json<ImageReply>>,
                    textReply: HttpOutcome<Json<TextReply>>, imageSettlesFirst: bool): (r: Result<GenResult>)
    ensures AllWhitespace(a.apiKey) ==> r == Err(MissingKeyError)
    ensures r.Ok? <==> (!AllWhitespace(a.apiKey) && ImageOutcome(FillsDefaults, imageReply).Ok?
      && TextOutcome(FillsDefaults, textReply).Ok?)
    ensures r.Ok? ==> (r.value.imageUrl == ImageOutcome(FillsDefaults, imageReply).value
      && r.value.description == TextOutcome(FillsDefaults, textReply).value)
  {
    GuardedGenerate(a.apiKey, ImageOutcome(FillsDefaults, imageReply), TextOutcome(FillsDefaults, textReply), imageSettlesFirst)
  }

  /** An error response's own message reaches the user unchanged: a 401 whose body says
      "Unauthorized" surfaces as "Unauthorized", not as the invalid-key message. */
  lemma UnauthorizedSurfacesRawMessage(payload: GenParams, textReply: HttpOutcome<Json<TextReply>>)
    ensures Generate(NewAdapter("invalid-key", None), payload,
        HttpResponse(false, 401, "", Parsed(ImageReply(None, Some("Unauthorized")))), textReply, true)
      == Err("Unauthorized")
    ensures !Contains("Unauthorized", "API key")
  {
    NotContainsFirstChar("invalid-key", " ");
    assert !AllWhitespace("invalid-key") by { assert !IsWhitespace("invalid-key"[0]); }
    PlainErrorPassesThrough("Unauthorized");
    NotContainsSomeChar("Unauthorized", "network", 3);
    NotContainsFirstChar("Unauthorized", "API key");
  }

  /** The status line `generateImage` falls back to for a 401 without a body message. */
  lemma Status401Message()
    ensures HttpFailureMessage(FillsDefaults, None, 401, "Unauthorized") == "HTTP 401: Unauthorized"
  {
    assert NatToString(4) == "4";
    assert NatToString(40) == "40";
    assert NatToString(401) == "401";
  }

  /** Without a body message, the same 401 surfaces with its status code in the text. */
  lemma UnauthorizedWithoutBodyShowsCode(payload: GenParams, textReply: HttpOutcome<Json<TextReply>>)
    ensures Generate(NewAdapter("invalid-key", None), payload,
        HttpResponse(false, 401, "Unauthorized", Malformed("Unexpected end of JSON input")), textReply, true)
      == Err("HTTP 401: Unauthorized")
  {
    var a := NewAdapter("invalid-key", None);
    assert !AllWhitespace(a.apiKey) by { assert !IsWhitespace("invalid-key"[0]); }
    var m := "HTTP 401: Unauthorized";
    assert HandleApiError(PlainError(m)) == m by {
      PlainErrorPassesThrough(m);
      NotContainsSomeChar(m, "network", 3);
    }
    Status401Outcome();
  }

  /** The image request's outcome for a 401 whose body is not JSON. */
  lemma Status401Outcome()
    ensures ImageOutcome(FillsDefaults, HttpResponse(false, 401, "Unauthorized", Malformed("Unexpected end of JSON input")))
      == Err("HTTP 401: Unauthorized")
  {
    Status401Message();
  }

  /** The reply is an HTTP error response with this status. */
  predicate RejectedWith<B>(reply: HttpOutcome<B>, status: nat) {
    reply.HttpResponse? && !reply.ok && reply.status == status
  }

  /** The reply is an HTTP error response whose status one of `handleApiError`'s
      status rules (401, 429, 5xx) maps. */
  predicate MappedStatus<B>(reply: HttpOutcome<B>) {
    reply.HttpResponse? && !reply.ok && (reply.status == 401 || reply.status == 429 || reply.status >= 500)
  }

  /** An error that keeps the status of the response that caused it. Where no status
      rule applies, `handleApiError` treats it as it treats the plain `Error`. */
  function FailureWithStatus<B>(reply: HttpOutcome<B>, message: string): (e: CaughtError)
    ensures e.message == Some(message) && e.code.None?
    ensures reply.HttpResponse? && !reply.ok ==> e.status == Some(reply.status as int)
    ensures !(reply.HttpResponse? && !reply.ok) ==> e == PlainError(message)
    ensures RejectedWith(reply, 401) ==> HandleApiError(e) == InvalidKeyError
    ensures !MappedStatus(reply) ==> HandleApiError(e) == HandleApiError(PlainError(message))
  {
    if reply.HttpResponse? && !reply.ok then CaughtError(Some(reply.status as int), Some(message), None)
    else PlainError(message)
  }

  /** `generate` as its error mapping evidently intends: whichever failure settles
      the `Promise.all` is thrown with its response's status attached, so
      `handleApiError`'s status rules apply to the image and the text request alike.
      It differs from `Generate` only where such a rule fires. */
  function GenerateReportingStatus(a: Adapter, payload: GenParams, imageReply: HttpOutcome<Json<ImageReply>>,
                                   textReply: HttpOutcome<Json<TextReply>>, imageSettlesFirst: bool): (r: Result<GenResult>)
    ensures AllWhitespace(a.apiKey) ==> r == Err(MissingKeyError)
    ensures r.Ok? <==> Generate(a, payload, imageReply, textReply, imageSettlesFirst).Ok?
    ensures Generate(a, payload, imageReply, textReply, imageSettlesFirst).Ok? ==>
      r == Generate(a, payload, imageReply, textReply, imageSettlesFirst)
    ensures !MappedStatus(imageReply) && !MappedStatus(textReply) ==>
      r == Generate(a, payload, imageReply, textReply, imageSettlesFirst)
    ensures var image := ImageOutcome(FillsDefaults, imageReply); var text := TextOutcome(FillsDefaults, textReply);
      !AllWhitespace(a.apiKey) && image.Err? && (imageSettlesFirst || text.Ok?) ==>
        r == Err(HandleApiError(FailureWithStatus(imageReply, image.message)))
    ensures var image := ImageOutcome(FillsDefaults, imageReply); var text := TextOutcome(FillsDefaults, textReply);
      !AllWhitespace(a.apiKey) && text.Err? && (!imageSettlesFirst || image.Ok?) ==>
        r == Err(HandleApiError(FailureWithStatus(textReply, text.message)))
    ensures (!AllWhitespace(a.apiKey) && RejectedWith(imageReply, 401)
             && (imageSettlesFirst || TextOutcome(FillsDefaults, textReply).Ok?)) ==> r == Err(InvalidKeyError)
    ensures (!AllWhitespace(a.apiKey) && RejectedWith(textReply, 401)
             && (!imageSettlesFirst || ImageOutcome(FillsDefaults, imageReply).Ok?)) ==> r == Err(InvalidKeyError)
  {
    var image := ImageOutcome(FillsDefaults, imageReply);
    var text := TextOutcome(FillsDefaults, textReply);
    if AllWhitespace(a.apiKey) then Err(MissingKeyError)
    else if image.Ok? && text.Ok? then Ok(GenResult(image.value, text.value))
    else if image.Err? && (imageSettlesFirst || text.Ok?) then Err(HandleApiError(FailureWithStatus(imageReply, image.message)))
    else Err(HandleApiError(FailureWithStatus(textReply, text.message)))
  }

  /** With the status kept, the 401 reply of the example above is reported as an
      invalid key, whose message names the key and not the code. */
  lemma ReportingStatusNamesKey(payload: GenParams, textReply: HttpOutcome<Json<TextReply>>)
    ensures GenerateReportingStatus(NewAdapter("invalid-key", None), payload,
        HttpResponse(false, 401, "", Parsed(ImageReply(None, Some("Unauthorized")))), textReply, true)
      == Err(InvalidKeyError)
    ensures Contains(InvalidKeyError, "API key") && !Contains(InvalidKeyError, "401")
  {
    assert !AllWhitespace("invalid-key") by { assert !IsWhitespace("invalid-key"[0]); }
    assert RejectedWith(HttpResponse(false, 401, "", Parsed(ImageReply(None, Some("Unauthorized")))), 401);
    InvalidKeyMessageIsFriendly();
  }

  /** `OpenAIImageEditAdapter`: the variation endpoint in place of image generation. */
  datatype EditAdapter = EditAdapter(apiKey: string, baseUrl: Option<string>, editEndpoint: string, textEndpoint: string)

  /** `new OpenAIImageEditAdapter(apiKey, baseUrl)`: same base as the main adapter,
      variations instead of generations. */
  function NewEditAdapter(apiKey: string, baseUrl: Option<string>): (a: EditAdapter)
    ensures a.apiKey == apiKey && a.baseUrl == baseUrl
    ensures a.editEndpoint == OrElse(baseUrl, DefaultBaseUrl) + VariationPath
    ensures a.textEndpoint == NewAdapter(apiKey, baseUrl).textEndpoint
  {
    var base := OrElse(baseUrl, DefaultBaseUrl);
    EditAdapter(apiKey, baseUrl, base + VariationPath, base + TextPath)
  }

  /** The multipart fields of `generateImageVariation`, in the order it appends them. */
  function VariationFields(payload: GenParams): seq<(string, FormValue)> {
    [("image", FileField(payload.userImage)), ("n", TextField("1")), ("size", TextField("1024x1024"))]
  }

  /** Builds the variation form by appending its fields one by one on a new `FormData`. */
  method BuildVariationForm(payload: GenParams) returns (form: FormData)
    ensures fresh(form)
    ensures form.entries == VariationFields(payload)
  {
    form := new FormData();
    form.Append("image", FileField(payload.userImage));
    form.Append("n", TextField("1"));
    form.Append("size", TextField("1024x1024"));
  }

  /** The variation form carries the user's photo itself and asks for one 1024x1024 image. */
  lemma VariationFormCarriesPhoto(payload: GenParams)
    ensures FormGet(VariationFields(payload), "image") == Some(FileField(payload.userImage))
    ensures FormGet(VariationFields(payload), "n") == Some(TextField("1"))
    ensures FormGet(VariationFields(payload), "size") == Some(TextField(GetImageGenerationParams().size))
  {
    var f := VariationFields(payload);
    FormGetAt(f, "image", 0);
    FormGetAt(f, "n", 1);
    FormGetAt(f, "size", 2);
  }

  /** `OpenAIImageEditAdapter.generate`: as the main adapter, with the variation reply
      for the image and failures phrased without defaults. */
  function GenerateWithVariation(a: EditAdapter, payload: GenParams, variationReply: HttpOutcome<Json<ImageReply>>,
                                 textReply: HttpOutcome<Json<TextReply>>, imageSettlesFirst: bool): (r: Result<GenResult>)
    ensures AllWhitespace(a.apiKey) ==> r == Err(MissingKeyError)
    ensures r.Ok? <==> (!AllWhitespace(a.apiKey) && ImageOutcome(Verbatim, variationReply).Ok?
      && TextOutcome(Verbatim, textReply).Ok?)
    ensures r.Ok? ==> (r.value.imageUrl == ImageOutcome(Verbatim, variationReply).value
      && r.value.description == TextOutcome(Verbatim, textReply).value)
  {
    GuardedGenerate(a.apiKey, ImageOutcome(Verbatim, variationReply), TextOutcome(Verbatim, textReply), imageSettlesFirst)
  }

  /** The two adapters agree whenever the replies succeed or carry their own messages;
      they differ only in how they phrase a bare status. */
  lemma AdaptersPhraseZeroStatusDifferently()
    ensures HttpFailureMessage(FillsDefaults, None, 0, "") == "HTTP unknown: Unknown error"
    ensures HttpFailureMessage(Verbatim, None, 0, "") == "HTTP 0: "
  {
  }
}
