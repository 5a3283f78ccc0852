/** The Stability AI adapter (src/lib/stabilityAdapter.ts): an image-to-image request
    on the user's photo, falling back to text-to-image when it fails, and a
    description drawn from local templates; and the stand-in adapter for
    development. Each `fetch` is given by its settled outcome and each
    `Math.random()` draw as a number in [0, 1). */
module StabilityAdapter {
  import opened Wrappers
  import opened Strings
  import opened Types
  import opened PromptBuilder
  import opened Generation

  const DefaultBaseUrl := "https://api.stability.ai/v1"
  /** The engine path up to its last segment; it does not contain "image-to-image", so only the last segment is swapped. */
  const EnginePath := "/generation/stable-diffusion-xl-1024-v1-0"
  const ImageToImage := "image-to-image"
  const TextToImage := "text-to-image"
  const InvalidStabilityReply := "Respuesta inválida de Stability AI"
  const DataUriPrefix := "data:image/png;base64,"

  /** One generated artifact: its `base64` field, possibly missing. */
  datatype Artifact = Artifact(base64: Option<string>)

  /** The JSON of a Stability reply: `artifacts` (None entries are missing ones)
      and the top-level `message` an error reply carries. */
  datatype ArtifactsReply = ArtifactsReply(artifacts: Option<seq<Option<Artifact>>>, message: Option<string>)

  /** The adapter: the key, the optional base address and the image-to-image endpoint. */
  datatype Adapter = Adapter(apiKey: string, baseUrl: Option<string>, imageEndpoint: string)

  /** `new StabilityAdapter(apiKey, baseUrl)`: the SDXL image-to-image endpoint under
      the given base, or under the public API when the base is absent or empty. */
  function NewAdapter(apiKey: string, baseUrl: Option<string>): (a: Adapter)
    ensures a.apiKey == apiKey && a.baseUrl == baseUrl
    ensures a.imageEndpoint == OrElse(baseUrl, DefaultBaseUrl) + EnginePath + "/" + ImageToImage
  {
    Adapter(apiKey, baseUrl, OrElse(baseUrl, DefaultBaseUrl) + EnginePath + "/" + ImageToImage)
  }

  /** The text-to-image endpoint of `generateTextToImage`: the first "image-to-image"
      of the image endpoint replaced by "text-to-image". */
  function TextToImageEndpoint(a: Adapter): (e: string)
    ensures !Contains(a.imageEndpoint, ImageToImage) ==> e == a.imageEndpoint
    ensures Contains(a.imageEndpoint, ImageToImage) ==> exists i :: (OccursAt(a.imageEndpoint, ImageToImage, i)
      && (forall j | 0 <= j < i :: !OccursAt(a.imageEndpoint, ImageToImage, j))
      && e == a.imageEndpoint[..i] + TextToImage + a.imageEndpoint[i + |ImageToImage|..])
  {
    ReplaceFirst(a.imageEndpoint, ImageToImage, TextToImage)
  }

  /** The engine path has no 'm', hence no "image-to-image". */
  lemma EnginePathLacksSegment()
    ensures !Contains(EnginePath, ImageToImage)
  {
    assert 'm' !in EnginePath;
    NotContainsSomeChar(EnginePath, ImageToImage, 1);
  }

  /** When the base address itself does not mention "image-to-image", the fallback
      endpoint is the same engine with its last segment swapped to "text-to-image". */
  lemma TextToImageEndpointSwapsSegment(apiKey: string, baseUrl: Option<string>)
    requires !Contains(OrElse(baseUrl, DefaultBaseUrl), ImageToImage)
    ensures TextToImageEndpoint(NewAdapter(apiKey, baseUrl))
      == OrElse(baseUrl, DefaultBaseUrl) + EnginePath + "/" + TextToImage
  {
    EnginePathLacksSegment();
    SegmentLacksSlash();
    ReplaceLastSegment(OrElse(baseUrl, DefaultBaseUrl), EnginePath, '/', ImageToImage, TextToImage);
  }

  /** When the base address itself mentions "image-to-image", it is that first
      mention, inside the base, that is swapped; the engine's last segment stays. */
  lemma BaseSegmentIsSwapped(apiKey: string, base: string, i: nat)
    requires OccursAt(base, ImageToImage, i)
    requires forall j | 0 <= j < i :: !OccursAt(base, ImageToImage, j)
    ensures TextToImageEndpoint(NewAdapter(apiKey, Some(base)))
      == base[..i] + TextToImage + base[i + |ImageToImage|..] + EnginePath + "/" + ImageToImage
  {
    var rest := EnginePath + "/" + ImageToImage;
    assert NewAdapter(apiKey, Some(base)).imageEndpoint == base + rest;
    ReplaceFirstInPrefix(base, rest, ImageToImage, TextToImage, i);
  }

  lemma SegmentLacksSlash()
    ensures '/' !in ImageToImage && EnginePath[0] == '/'
  {
  }

  /** The default base mentions no "image-to-image", so the swap above applies to it. */
  lemma DefaultBaseHasNoSegment()
    ensures !Contains(DefaultBaseUrl, ImageToImage)
  {
    NotContainsSomeChar(DefaultBaseUrl, ImageToImage, 1);
  }

  /** The names of the image-to-image form fields. */
  const InitImageField := "init_image"
  const InitImageModeField := "init_image_mode"
  const ImageStrengthField := "image_strength"
  const PromptTextField := "text_prompts[0][text]"
  const PromptWeightField := "text_prompts[0][weight]"
  const NegativeTextField := "text_prompts[1][text]"
  const NegativeWeightField := "text_prompts[1][weight]"
  const CfgScaleField := "cfg_scale"
  const SamplesField := "samples"
  const StepsField := "steps"
  const StylePresetField := "style_preset"

  /** The multipart fields of `generateImageToImage` for the given photo, prompts and
      settings, in the order it appends them: the initial image and how strongly it
      binds, the two weighted prompts, then the settings. */
  function ImageToImageFormFields(photo: Blob, prompt: string, negativePrompt: string,
                                  params: ImageGenerationParams): seq<(string, FormValue)> {
    InitImageFields(photo) + PromptFields(prompt, negativePrompt) + SettingFields(params)
  }

  function InitImageFields(photo: Blob): seq<(string, FormValue)> {
    [ (InitImageField, FileField(photo)),
      (InitImageModeField, TextField("IMAGE_STRENGTH")),
      (ImageStrengthField, TextField("0.85")) ]
  }

  function PromptFields(prompt: string, negativePrompt: string): seq<(string, FormValue)> {
    [ (PromptTextField, TextField(prompt)),
      (PromptWeightField, TextField("1")),
      (NegativeTextField, TextField(negativePrompt)),
      (NegativeWeightField, TextField("-1")) ]
  }

  function SettingFields(params: ImageGenerationParams): seq<(string, FormValue)> {
    [ (CfgScaleField, TextField(NatToString(params.cfgScale))),
      (SamplesField, TextField("1")),
      (StepsField, TextField(NatToString(params.steps))),
      (StylePresetField, TextField(params.stylePreset)) ]
  }

  /** The form of `generateImageToImage` for a payload. */
  function ImageToImageFields(payload: GenParams): seq<(string, FormValue)> {
    ImageToImageFormFields(payload.userImage, BuildImagePrompt(payload.name, payload.profession),
                           BuildNegativePrompt(), GetImageGenerationParams())
  }

  /** Builds the image-to-image form by appending its fields one by one on a new `FormData`. */
  method BuildImageToImageForm(payload: GenParams) returns (form: FormData)
    ensures fresh(form)
    ensures form.entries == ImageToImageFields(payload)
  {
    form := new FormData();
    AppendInitImage(form, payload.userImage);
    AppendPrompts(form, BuildImagePrompt(payload.name, payload.profession), BuildNegativePrompt());
    AppendSettings(form, GetImageGenerationParams());
  }

  method AppendInitImage(form: FormData, photo: Blob)
    modifies form
    ensures form.entries == old(form.entries) + InitImageFields(photo)
  {
    form.Append(InitImageField, FileField(photo));
    form.Append(InitImageModeField, TextField("IMAGE_STRENGTH"));
    form.Append(ImageStrengthField, TextField("0.85"));
  }

  method AppendPrompts(form: FormData, prompt: string, negativePrompt: string)
    modifies form
    ensures form.entries == old(form.entries) + PromptFields(prompt, negativePrompt)
  {
    form.Append(PromptTextField, TextField(prompt));
    form.Append(PromptWeightField, TextField("1"));
    form.Append(NegativeTextField, TextField(negativePrompt));
    form.Append(NegativeWeightField, TextField("-1"));
  }

  method AppendSettings(form: FormData, params: ImageGenerationParams)
    modifies form
    ensures form.entries == old(form.entries) + SettingFields(params)
  {
    form.Append(CfgScaleField, TextField(NatToString(params.cfgScale)));
    form.Append(SamplesField, TextField("1"));
    form.Append(StepsField, TextField(NatToString(params.steps)));
    form.Append(StylePresetField, TextField(params.stylePreset));
  }

  /** What the server reads from the form: the photo as the initial image, the prompt
      with weight 1, the negative prompt with weight -1 and the given settings. */
  lemma FormFieldsLookup(photo: Blob, prompt: string, negativePrompt: string, params: ImageGenerationParams)
    ensures var f := ImageToImageFormFields(photo, prompt, negativePrompt, params);
      FormGet(f, InitImageField) == Some(FileField(photo))
      && FormGet(f, PromptTextField) == Some(TextField(prompt))
      && FormGet(f, PromptWeightField) == Some(TextField("1"))
      && FormGet(f, NegativeTextField) == Some(TextField(negativePrompt))
      && FormGet(f, NegativeWeightField) == Some(TextField("-1"))
      && FormGet(f, CfgScaleField) == Some(TextField(NatToString(params.cfgScale)))
      && FormGet(f, StepsField) == Some(TextField(NatToString(params.steps)))
      && FormGet(f, StylePresetField) == Some(TextField(params.stylePreset))
  {
    var f := ImageToImageFormFields(photo, prompt, negativePrompt, params);
    assert f[0].0 == InitImageField && f[3].0 == PromptTextField && f[4].0 == PromptWeightField;
    assert f[5].0 == NegativeTextField && f[6].0 == NegativeWeightField && f[7].0 == CfgScaleField;
    assert f[9].0 == StepsField && f[10].0 == StylePresetField;
    FormGetAt(f, InitImageField, 0);
    FormGetAt(f, PromptTextField, 3);
    FormGetAt(f, PromptWeightField, 4);
    FormGetAt(f, NegativeTextField, 5);
    FormGetAt(f, NegativeWeightField, 6);
    FormGetAt(f, CfgScaleField, 7);
    FormGetAt(f, StepsField, 9);
    FormGetAt(f, StylePresetField, 10);
  }

  /** The form sends the user's photo as the initial image, the image prompt with weight 1,
      the negative prompt with weight -1, and the recommended guidance scale, step count
      and style. */
  lemma ImageToImageFormCarriesPhotoAndPrompts(payload: GenParams)
    ensures var f := ImageToImageFields(payload);
      FormGet(f, InitImageField) == Some(FileField(payload.userImage))
      && FormGet(f, PromptTextField) == Some(TextField(BuildImagePrompt(payload.name, payload.profession)))
      && FormGet(f, NegativeTextField) == Some(TextField(BuildNegativePrompt()))
      && FormGet(f, NegativeWeightField) == Some(TextField("-1"))
      && FormGet(f, CfgScaleField) == Some(TextField("7"))
      && FormGet(f, StepsField) == Some(TextField("30"))
      && FormGet(f, StylePresetField) == Some(TextField("cinematic"))
  {
    FormFieldsLookup(payload.userImage, BuildImagePrompt(payload.name, payload.profession),
                     BuildNegativePrompt(), GetImageGenerationParams());
    assert NatToString(3) == "3";
    assert NatToString(30) == "30";
  }

  /** The JSON body of the text-to-image request. */
  datatype TextToImageRequest = TextToImageRequest(endpoint: string, authorization: string,
                                                   prompts: seq<(string, int)>, cfgScale: nat, height: nat,
                                                   width: nat, samples: nat, steps: nat, stylePreset: string)

  /** The request of `generateTextToImage`: the same two weighted prompts and settings
      as the form, and an explicit 1024x1024 size, sent to the swapped endpoint. */
  function TextToImageRequestFor(a: Adapter, payload: GenParams): (req: TextToImageRequest)
    ensures req.endpoint == TextToImageEndpoint(a) && req.authorization == "Bearer " + a.apiKey
    ensures req.prompts == [(BuildImagePrompt(payload.name, payload.profession), 1), (BuildNegativePrompt(), -1)]
    ensures req.cfgScale == GetImageGenerationParams().cfgScale && req.steps == GetImageGenerationParams().steps
    ensures req.stylePreset == GetImageGenerationParams().stylePreset
    ensures req.height == 1024 && req.width == 1024 && req.samples == 1
  {
    var params := GetImageGenerationParams();
    TextToImageRequest(TextToImageEndpoint(a), "Bearer " + a.apiKey,
                       [(BuildImagePrompt(payload.name, payload.profession), 1), (BuildNegativePrompt(), -1)],
                       params.cfgScale, 1024, 1024, 1, params.steps, params.stylePreset)
  }

  /** The reply has a first artifact. */
  predicate HasArtifact(v: ArtifactsReply) {
    v.artifacts.Some? && |v.artifacts.value| > 0 && v.artifacts.value[0].Some?
  }

  /** The image as a PNG data URI; a missing `base64` field is printed as "undefined". */
  function DataUri(artifact: Artifact): (uri: string)
    ensures |uri| >= |DataUriPrefix| && uri[..|DataUriPrefix|] == DataUriPrefix
    ensures |uri| == |DataUriPrefix| <==> artifact.base64 == Some([])
    ensures artifact.base64.Some? ==> uri == DataUriPrefix + artifact.base64.value
  {
    DataUriPrefix + match artifact.base64 { case None => "undefined" case Some(b) => b }
  }

  /** The settling of one Stability request (either generation call after its fetch):
      the data URI of the first artifact, or the message it throws. A failed response
      is described by its top-level `message`, else by "HTTP <status>: <statusText>". */
  function ArtifactOutcome(reply: HttpOutcome<Json<ArtifactsReply>>): (r: Result<string>)
    ensures r.Ok? <==> reply.HttpResponse? && reply.ok && reply.body.Parsed? && HasArtifact(reply.body.value)
    ensures r.Ok? ==> r.value == DataUri(reply.body.value.artifacts.value[0].value)
    ensures reply.NetworkFailure? ==> r == Err(reply.reason)
    ensures reply.HttpResponse? && !reply.ok ==> r == Err(OrElse(
      if reply.body.Parsed? then reply.body.value.message else None,
      "HTTP " + NatToString(reply.status) + ": " + reply.statusText))
    ensures reply.HttpResponse? && reply.ok && reply.body.Parsed? && !HasArtifact(reply.body.value)
      ==> r == Err(InvalidStabilityReply)
  {
    match reply
    case NetworkFailure(reason) => Err(reason)
    case HttpResponse(ok, status, statusText, body) =>
      if !ok then
        var message := match body { case Malformed(_) => None case Parsed(v) => v.message };
        Err(OrElse(message, "HTTP " + NatToString(status) + ": " + statusText))
      else
        match body
        case Malformed(syntaxError) => Err(syntaxError)
        case Parsed(v) => if HasArtifact(v) then Ok(DataUri(v.artifacts.value[0].value)) else Err(InvalidStabilityReply)
  }

  /** `generateImage`: the image-to-image result, or, whatever made it fail, the
      text-to-image result in its place. */
  function GenerateImage(imageToImageReply: HttpOutcome<Json<ArtifactsReply>>,
                         textToImageReply: HttpOutcome<Json<ArtifactsReply>>): (r: Result<string>)
    ensures ArtifactOutcome(imageToImageReply).Ok? ==> r == ArtifactOutcome(imageToImageReply)
    ensures ArtifactOutcome(imageToImageReply).Err? ==> r == ArtifactOutcome(textToImageReply)
    ensures r.Ok? <==> ArtifactOutcome(imageToImageReply).Ok? || ArtifactOutcome(textToImageReply).Ok?
  {
    match ArtifactOutcome(imageToImageReply)
    case Ok(uri) => Ok(uri)
    case Err(_) => ArtifactOutcome(textToImageReply)
  }

  const LocalTail0 := " excepcional que transforma cada proyecto en una obra maestra. Su dedicación y talento son la base del éxito de nuestro equipo."
  const LocalTail1 := ". Su trabajo marca la diferencia y demuestra por qué esta profesión vale tanto."
  const LocalTail2 := ". Cada día demuestra que su compromiso y visión son fundamentales para alcanzar nuevas alturas en la empresa."
  const LocalTail3 := " es invaluable. Su liderazgo y dedicación inspiran a todo el equipo hacia la innovación y el crecimiento."
  const LocalTail4 := ". Su enfoque único y determinación convierten cada desafío en una oportunidad de brillar."

  /** The five local description templates. */
  function LocalTemplates(name: string, profession: string): (ts: seq<string>)
    ensures |ts| == 5
  {
    [ Concat([name, " es un/a ", profession, LocalTail0]),
      Concat(["En ", name, " encontramos la perfecta fusión de pasión y expertise como ", profession, LocalTail1]),
      Concat([name, " representa la excelencia en ", profession, LocalTail2]),
      Concat(["La contribución de ", name, " como ", profession, LocalTail3]),
      Concat([name, " embodies excellence as ", profession, LocalTail4]) ]
  }

  /** Each local template names the person and the profession. */
  lemma LocalTemplatesMention(name: string, profession: string, k: nat)
    requires k < 5
    ensures Contains(LocalTemplates(name, profession)[k], name)
    ensures Contains(LocalTemplates(name, profession)[k], profession)
  {
    if k == 0 {
      var parts := [name, " es un/a ", profession, LocalTail0];
      ContainsPart(parts, 0);
      ContainsPart(parts, 2);
    } else if k == 1 {
      var parts := ["En ", name, " encontramos la perfecta fusión de pasión y expertise como ", profession, LocalTail1];
      ContainsPart(parts, 1);
      ContainsPart(parts, 3);
    } else if k == 2 {
      var parts := [name, " representa la excelencia en ", profession, LocalTail2];
      ContainsPart(parts, 0);
      ContainsPart(parts, 2);
    } else if k == 3 {
      var parts := ["La contribución de ", name, " como ", profession, LocalTail3];
      ContainsPart(parts, 1);
      ContainsPart(parts, 3);
    } else {
      var parts := [name, " embodies excellence as ", profession, LocalTail4];
      ContainsPart(parts, 0);
      ContainsPart(parts, 2);
    }
  }

  /** `generateLocalText` for a `Math.random()` draw: one of the five templates, which
      names the person and the profession. */
  function GenerateLocalText(payload: GenParams, random: real): (d: string)
    requires 0.0 <= random < 1.0
    ensures d in LocalTemplates(payload.name, payload.profession)
    ensures Contains(d, payload.name) && Contains(d, payload.profession)
  {
    var k := RandomIndex(random, 5);
    LocalTemplatesMention(payload.name, payload.profession, k);
    LocalTemplates(payload.name, payload.profession)[k]
  }

  /** `StabilityAdapter.generate`: the description never fails, so with a usable key the
      outcome is decided by the two image attempts alone. */
  function Generate(a: Adapter, payload: GenParams, imageToImageReply: HttpOutcome<Json<ArtifactsReply>>,
                    textToImageReply: HttpOutcome<Json<ArtifactsReply>>, random: real, imageSettlesFirst: bool): (r: Result<GenResult>)
    requires 0.0 <= random < 1.0
    ensures AllWhitespace(a.apiKey) ==> r == Err(MissingKeyError)
    ensures r.Ok? <==> (!AllWhitespace(a.apiKey) && GenerateImage(imageToImageReply, textToImageReply).Ok?)
    ensures r.Ok? ==> (r.value.imageUrl == GenerateImage(imageToImageReply, textToImageReply).value
      && r.value.description == GenerateLocalText(payload, random))
    ensures !AllWhitespace(a.apiKey) && r.Err? ==>
      r.message == HandleApiError(PlainError(ArtifactOutcome(textToImageReply).message))
  {
    GuardedGenerate(a.apiKey, GenerateImage(imageToImageReply, textToImageReply),
                    Ok(GenerateLocalText(payload, random)), imageSettlesFirst)
  }

  /** A successful Stability generation returns a PNG data URI and a description naming
      the person and the profession. */
  lemma GenerateSuccessShape(a: Adapter, payload: GenParams, i2i: HttpOutcome<Json<ArtifactsReply>>,
                             t2i: HttpOutcome<Json<ArtifactsReply>>, random: real, imageSettlesFirst: bool)
    requires 0.0 <= random < 1.0
    requires Generate(a, payload, i2i, t2i, random, imageSettlesFirst).Ok?
    ensures var g := Generate(a, payload, i2i, t2i, random, imageSettlesFirst).value;
      |g.imageUrl| >= |DataUriPrefix| && g.imageUrl[..|DataUriPrefix|] == DataUriPrefix
      && Contains(g.description, payload.name) && Contains(g.description, payload.profession)
  {
  }

  const MockImagePrefix := "https://picsum.photos/1024/1024?random="
  const MockImageSuffix := "&blur=1"

  /** The three canned descriptions of the stand-in adapter. */
  function MockDescriptions(name: string, profession: string): (ds: seq<string>)
    ensures |ds| == 3
  {
    [ Concat([name, " es un/a ", profession, MockTail0]),
      Concat(["En ", name, " confluyen el talento y la pasión de un/a ", profession, MockTail1]),
      Concat([name, " demuestra día a día por qué ", profession, MockTail2]) ]
  }

  const MockTail0 := " excepcional que ilumina cada proyecto con su brillante expertise. Su dedicación transforma desafíos en victorias épicas para toda la empresa."
  const MockTail1 := " legendario/a. Su trabajo no solo cumple expectativas, las supera creando un legado de excelencia."
  const MockTail2 := " es una profesión que vale oro puro. Su compromiso y visión estratégica elevan a todo el equipo hacia la grandeza."

  /** Each canned description names the person and the profession and runs longer than 50 characters. */
  lemma MockDescriptionsShape(name: string, profession: string, k: nat)
    requires k < 3
    ensures Contains(MockDescriptions(name, profession)[k], name)
    ensures Contains(MockDescriptions(name, profession)[k], profession)
    ensures |MockDescriptions(name, profession)[k]| > 50
  {
    if k == 0 {
      var parts := [name, " es un/a ", profession, MockTail0];
      ContainsPart(parts, 0);
      ContainsPart(parts, 2);
      ContainsPart(parts, 3);
    } else if k == 1 {
      var parts := ["En ", name, " confluyen el talento y la pasión de un/a ", profession, MockTail1];
      ContainsPart(parts, 1);
      ContainsPart(parts, 3);
      ContainsPart(parts, 4);
    } else {
      var parts := [name, " demuestra día a día por qué ", profession, MockTail2];
      ContainsPart(parts, 0);
      ContainsPart(parts, 2);
      ContainsPart(parts, 3);
    }
  }

  /** `StabilityMockAdapter.generate` for a draw and a timestamp: a canned description
      that names the person and the profession in more than 50 characters, and a blurred
      placeholder image served over https. No key is looked at. */
  function MockGenerate(payload: GenParams, random: real, now: nat): (r: GenResult)
    requires 0.0 <= random < 1.0
    ensures r.description in MockDescriptions(payload.name, payload.profession)
    ensures Contains(r.description, payload.name) && Contains(r.description, payload.profession)
    ensures |r.description| > 50
    ensures r.imageUrl == MockImagePrefix + NatToString(now) + MockImageSuffix
    ensures r.imageUrl[..8] == "https://"
  {
    var k := RandomIndex(random, 3);
    MockDescriptionsShape(payload.name, payload.profession, k);
    var url := MockImagePrefix + NatToString(now) + MockImageSuffix;
    assert url[..8] == MockImagePrefix[..8];
    GenResult(url, MockDescriptions(payload.name, payload.profession)[k])
  }
}
