# Super Profession: a verified model of the postcard generator's core

Super Profession turns a person's name, profession and photo into an "epic"
postcard. It has an AI-generated hero portrait and a short motivational text
in Spanish. This project is a Dafny model of the code that decides what
happens along the way:

- **Form step** (`src/components/FormStep.tsx`): validates the user's input and resolves the profession.
- **Photo checks** (`src/utils/image.ts`): checks the photo's type and weight, fits its dimensions, and turns a data URL back into a file.
- **Prompt builder** (`src/lib/promptBuilder.ts`): builds the prompts, the profession catalogue and the share message.
- **Generators** (`src/lib/generation.ts`, `src/lib/openaiAdapter.ts`, `src/lib/stabilityAdapter.ts`): the error mapping, the key check, and the OpenAI, Stability and mock generators with the requests they send and the replies they accept.
- **Generation hook** (`src/hooks/useGenerateEpic.ts`): picks a generator and holds the retry policy.
- **Wizard** (`src/App.tsx`): a state machine that moves form → photo → result.

One Dafny module per source file:

| module | models |
|---|---|
| `Wrappers` | `Option`, `Result`, `Validation` (`{ valid, error? }`) |
| `Strings` | the JavaScript string operations the code uses: `trim` with the JavaScript whitespace set, `includes`, `indexOf`, `replace` with a string pattern, `join`, `split`, `||` on strings, number formatting |
| `Types` | the records of `src/types/index.ts`, settled `fetch` outcomes, JSON bodies, `FormData` |
| `PromptBuilder` | `src/lib/promptBuilder.ts` |
| `Generation` | `BaseGenerator` and `MockGenerator` of `src/lib/generation.ts` |
| `OpenAIAdapter`, `StabilityAdapter` | the two adapter files |
| `GeneratorFactory` | `GeneratorFactory.create` and running a created generator |
| `GenerateEpic` | `src/hooks/useGenerateEpic.ts` |
| `Image` | `src/utils/image.ts` |
| `FormStep` | `src/components/FormStep.tsx` |
| `App` | `src/App.tsx` |

Outside effects are passed in as values:

- **`fetch`.** Each call becomes a settled `HttpOutcome`: a transport failure, or a response with `ok`, `status`, `statusText` and a JSON body that parsed or did not.
- **`Promise.all`.** An adapter receives both request outcomes. When both fail, a flag says which rejection settles first.
- **`Math.random()`.** A real in `[0, 1)`.
- **`Date.now()`.** A natural number.
- **The adapter modules' dynamic `import()`.** A flag saying whether the module loads.
- **Image loading and `atob`.** The loaded image's width and height, and the decoded string.

The wizard is a class whose fields are the component's state variables. Its handlers are methods, and each one keeps the class invariant `Valid()`. The other stateful parts are methods too:

- **`FormData`.** A class, `Types.FormData`, whose `Append` adds an entry at the end.
- **Multipart request bodies.** `StabilityAdapter.BuildImageToImageForm` and its three helpers `AppendInitImage`, `AppendPrompts` and `AppendSettings`, and `OpenAIAdapter.BuildVariationForm`, append to a fresh `FormData` in the source's order.
- **`compressImage`'s size steps.** `Image.FitDimensions` updates `width` and `height` in place, as the `let` variables of the source do.
- **`base64ToFile`'s byte copy.** `Image.CopyCharCodes` is a loop that fills an array.

Everything else is pure functions.

Four behaviours of the code worth knowing:

- **No keyword heuristic.** `getProfessionConfig` has no keyword rules for unknown professions. Every string outside the catalogue, and "Personalizada", gets the one generic scenario.
- **Status codes are lost.** Adapters throw plain `Error`s that carry no status. So `handleApiError`'s 401/429/5xx rules never fire for a failed request. The raw error message from the server reaches the user (see Findings).
- **The share message may not split into five sections.** It does for fields without line breaks. A profession ending in a line break followed by a description starting with one gives six sections.
- **The description can be empty.** A completion made only of whitespace passes the adapter's content check and trims to an empty description.

## Model

| member | source | states |
|---|---|---|
| Strings.Trim | src/lib/promptBuilder.ts:130 | `trim` returns a contiguous slice of the input with no JavaScript whitespace at either end |
| Strings.TrimEmptyIff | src/lib/promptBuilder.ts:144 | a string trims to empty exactly when it is empty or only whitespace |
| Strings.IndexOf | src/lib/stabilityAdapter.ts:97-100 | `indexOf` gives the first occurrence, and none exactly when the pattern does not occur |
| Strings.ReplaceFirst | src/lib/stabilityAdapter.ts:97-100 | `replace` with a string pattern leaves a string without it untouched, and otherwise replaces its first occurrence only |
| Strings.ReplaceFirstInPrefix | src/lib/stabilityAdapter.ts:97-100 | a first occurrence inside a prefix is the one replaced, and the rest of the string is kept |
| Strings.Contains | src/lib/generation.ts:37 | `includes`: a pattern found is no longer than the string, and the empty pattern is found in every string |
| Strings.Join | src/lib/promptBuilder.ts:169 | `join` of no parts is empty; a join starts with its first part |
| Strings.NatToString | src/lib/generation.ts:106 | the decimal text of a number is non-empty, all digits, and has no leading zero |
| Strings.Split | src/utils/image.ts:259 | `split` always gives at least one part |
| Strings.SplitJoin | src/lib/promptBuilder.ts:163-169 | splitting a join of parts that hold no separator gives back the parts |
| Strings.OrElse | src/lib/openaiAdapter.ts:14 | `a \|\| b` on an optional string: `a` when present and non-empty, else `b`; a non-empty fallback never gives an empty result |
| Strings.NatToStringRoundTrip | src/lib/generation.ts:106 | decimal formatting of a natural number parses back to it |
| Strings.NatToStringInjective | src/lib/generation.ts:106 | distinct numbers format to distinct texts |
| Types.FormGetFirst | src/lib/stabilityAdapter.ts:49-60 | a form lookup finds nothing exactly when no entry has the name, otherwise the first entry with it |
| Types.FormGetAt | src/lib/stabilityAdapter.ts:49-60 | the first entry with a name is what the lookup returns |
| Types.FormData.Append | src/lib/stabilityAdapter.ts:50 | `append` adds one entry at the end and keeps the others |
| PromptBuilder.FindByValue | src/lib/promptBuilder.ts:71 | `find` gives the first entry with the value, and none exactly when no entry has it |
| PromptBuilder.CatalogueWellFormed | src/lib/promptBuilder.ts:4-65 | ten entries with pairwise distinct values and scenarios, each label equal to its value |
| PromptBuilder.GetProfessionConfig | src/lib/promptBuilder.ts:70-82 | value and label are always the input; a catalogue value other than "Personalizada" gives its first catalogue entry; every other string gives the generic scenario |
| PromptBuilder.CatalogueLookupIdentity | src/lib/promptBuilder.ts:70-82 | each catalogue entry other than "Personalizada" is returned unchanged |
| PromptBuilder.GenericScenarioFallback | src/lib/promptBuilder.ts:72-79 | unknown professions get a non-empty scenario mentioning "majestuoso" |
| PromptBuilder.BuildImagePrompt | src/lib/promptBuilder.ts:87-93 | the prompt contains the name, the profession, the resolved scenario and the keywords "epic superhero", "ultra-detailed", "8k", "masterpiece", "realistic face identical" |
| PromptBuilder.BuildNegativePrompt | src/lib/promptBuilder.ts:98-100 | it contains "deformed face", "disfigured", "low-res", "blurry", "bad anatomy" |
| PromptBuilder.BuildTextPrompt | src/lib/promptBuilder.ts:105-107 | it contains `nombre=<name>`, `profesión=<profession>`, the word range and the no-emoji and no-quote rules |
| PromptBuilder.GetImageGenerationParams | src/lib/promptBuilder.ts:112-121 | 1024x1024, cfg 7, denoising 0.3, k_euler_a, 30 steps, cinematic |
| PromptBuilder.ValidatePromptParams | src/lib/promptBuilder.ts:126-152 | each of the three errors holds exactly when its rule is the first to fail; the result is valid exactly when the trimmed name has 2+ characters, the name at most 60 and the profession is not blank |
| PromptBuilder.BuildWhatsAppMessage | src/lib/promptBuilder.ts:157-172 | each of the five sections appears in the message |
| PromptBuilder.WhatsAppMessageSplitsIntoSections | src/lib/promptBuilder.ts:163-169 | for fields without blank lines or line breaks at their ends, splitting on "\n\n" gives exactly the five sections |
| PromptBuilder.WhatsAppMessageSixSections | src/lib/promptBuilder.ts:163-169 | a profession ending and a description starting with a line break split into six sections, one of them empty |
| Generation.PlainError | src/lib/openaiAdapter.ts:68-73 | a thrown `new Error(msg)` has the message and neither a status nor a code |
| Generation.LooksLikeNetworkFailure | src/lib/generation.ts:37-39 | the NETWORK_ERROR code alone is enough; otherwise the message must be present and hold "network" |
| Generation.NetworkHintIsCaseSensitive | src/lib/generation.ts:37-41 | "network error" becomes the connection error, while "Network error" is not recognised and comes back unchanged |
| Generation.HandleApiError | src/lib/generation.ts:20-42 | 401, 429, then 5xx, then a network hint, then the message or the generic text, in that order; never empty |
| Generation.InvalidKeyMessageIsFriendly | src/lib/generation.ts:23-25 | the invalid-key message names the key and does not contain "401" |
| Generation.PlainErrorPassesThrough | src/lib/generation.ts:37-41 | a status-less error comes back unchanged unless it mentions "network" or is empty |
| Generation.ValidateApiKey | src/lib/generation.ts:47-51 | the key is refused, with "API key no configurada", exactly when it is empty or only whitespace |
| Generation.SettleBoth | src/lib/openaiAdapter.ts:22-35 | success exactly when both requests succeed; otherwise the rejection that settles first, mapped by `handleApiError` |
| Generation.GuardedGenerate | src/lib/openaiAdapter.ts:19-36 | the key check comes before any request |
| Generation.RandomIndex | src/lib/generation.ts:102-103 | `Math.floor(r * n)` is a valid index within one unit of `r * n` |
| Generation.RandomIndexReaches | src/lib/generation.ts:102-103 | every index is drawn by some `r` in `[0, 1)` |
| Generation.MockDescriptions | src/lib/generation.ts:96-100 | three canned descriptions |
| Generation.MockDescriptionsMention | src/lib/generation.ts:96-100 | each canned description names the person and the profession |
| Generation.MockGenerate | src/lib/generation.ts:91-113 | one of the canned descriptions, which contains the name and profession; the image URL ends in the clock value |
| Generation.MockImageUrlsDiffer | src/lib/generation.ts:106 | calls at different instants give different image URLs |
| Generation.MockDrawPicks | src/lib/generation.ts:102-103 | the draw's index decides the description |
| Generation.MockReachesEveryDescription | src/lib/generation.ts:96-103 | each canned description can come out |
| OpenAIAdapter.HttpFailureMessage | src/lib/openaiAdapter.ts:66-73 | the body's non-empty `error.message`, else "HTTP status: statusText" with "unknown"/"Unknown error" for falsy parts; never empty |
| OpenAIAdapter.FailureWithoutMessageShowsStatus | src/lib/openaiAdapter.ts:68-73 | without a body message the status code appears in the error |
| OpenAIAdapter.BodyErrorMessage | src/lib/openaiAdapter.ts:67 | an unparseable body gives no message (`{}`) |
| OpenAIAdapter.NewAdapter | src/lib/openaiAdapter.ts:12-17 | both endpoints hang off the given base or the public API |
| OpenAIAdapter.ImageRequestFor | src/lib/openaiAdapter.ts:41-64 | the DALL-E 3 request: its endpoint, bearer key, enhanced prompt (name and profession included), n 1, hd, vivid, 1024x1024 |
| OpenAIAdapter.TextRequestFor | src/lib/openaiAdapter.ts:88-115 | the GPT-4 request: its endpoint, bearer key, copywriter role, text prompt, 150 tokens, temperature 0.8 |
| OpenAIAdapter.ImageOutcome | src/lib/openaiAdapter.ts:66-82 | success exactly for an ok, parsed reply with a first non-empty url, which it returns; each failure gives its message |
| OpenAIAdapter.TextOutcome | src/lib/openaiAdapter.ts:117-137 | success exactly for an ok, parsed reply with non-empty first content, returned trimmed; each failure gives its message |
| OpenAIAdapter.BlankContentGivesEmptyDescription | src/lib/openaiAdapter.ts:129-137 | whitespace-only content passes the check and yields "" |
| OpenAIAdapter.Generate | src/lib/openaiAdapter.ts:19-36 | blank key gives the missing-key error; success exactly when both requests succeed, with the url and the trimmed text |
| OpenAIAdapter.UnauthorizedSurfacesRawMessage | src/lib/openaiAdapter.ts:66-73 | a 401 whose body says "Unauthorized" fails with "Unauthorized", which does not name the key |
| OpenAIAdapter.Status401Message | src/lib/openaiAdapter.ts:70-72 | a bodiless 401 is phrased "HTTP 401: Unauthorized" |
| OpenAIAdapter.UnauthorizedWithoutBodyShowsCode | src/lib/openaiAdapter.ts:66-73 | without a body message, the 401 reaches the user with its code |
| OpenAIAdapter.FailureWithStatus | src/lib/generation.ts:20-41 | the corrected error keeps an HTTP error response's status; a 401 then gives the invalid-key error, and where no status rule applies `handleApiError` treats it as the plain error |
| OpenAIAdapter.GenerateReportingStatus | src/lib/openaiAdapter.ts:19-36 | corrected `generate`: the same successes as the original, and the same failures unless a status rule applies; whichever of the image and text failures settles first keeps its status, so a 401 on either reports the invalid-key error |
| OpenAIAdapter.ReportingStatusNamesKey | src/lib/generation.ts:23-25 | with the status kept, the example 401 names the key and not "401" |
| OpenAIAdapter.NewEditAdapter | src/lib/openaiAdapter.ts:150-155 | variation endpoint under the same base, same text endpoint |
| OpenAIAdapter.BuildVariationForm | src/lib/openaiAdapter.ts:183-186 | the variation form's entries in append order |
| OpenAIAdapter.VariationFormCarriesPhoto | src/lib/openaiAdapter.ts:183-186 | the form carries the user's photo, n=1 and size 1024x1024 |
| OpenAIAdapter.GenerateWithVariation | src/lib/openaiAdapter.ts:157-211 | as `Generate`, with the variation reply and verbatim failure phrasing |
| OpenAIAdapter.AdaptersPhraseZeroStatusDifferently | src/lib/openaiAdapter.ts:196-201 | a bare status 0 is phrased "HTTP unknown: Unknown error" by one adapter and "HTTP 0: " by the other |
| StabilityAdapter.NewAdapter | src/lib/stabilityAdapter.ts:15-19 | the SDXL image-to-image endpoint under the given or default base |
| StabilityAdapter.TextToImageEndpoint | src/lib/stabilityAdapter.ts:97-100 | an endpoint without "image-to-image" is kept as it is; otherwise its first "image-to-image" is swapped for "text-to-image" |
| StabilityAdapter.BaseSegmentIsSwapped | src/lib/stabilityAdapter.ts:97-100 | a base address that mentions "image-to-image" has that mention swapped, and the endpoint keeps its image-to-image last segment |
| StabilityAdapter.EnginePathLacksSegment | src/lib/stabilityAdapter.ts:18 | the engine path does not contain "image-to-image" |
| StabilityAdapter.TextToImageEndpointSwapsSegment | src/lib/stabilityAdapter.ts:97-100 | when the base does not mention it, the fallback endpoint is the same path ending in "text-to-image" |
| StabilityAdapter.DefaultBaseHasNoSegment | src/lib/stabilityAdapter.ts:17 | the default base does not mention "image-to-image" |
| StabilityAdapter.AppendInitImage | src/lib/stabilityAdapter.ts:50-52 | appends the photo, the IMAGE_STRENGTH mode and strength 0.85, after the existing entries |
| StabilityAdapter.AppendPrompts | src/lib/stabilityAdapter.ts:53-56 | appends the prompt at weight 1 and the negative prompt at weight -1, after the existing entries |
| StabilityAdapter.AppendSettings | src/lib/stabilityAdapter.ts:57-60 | appends cfg scale, one sample, steps and style preset, after the existing entries |
| StabilityAdapter.BuildImageToImageForm | src/lib/stabilityAdapter.ts:49-60 | the form's entries in append order |
| StabilityAdapter.FormFieldsLookup | src/lib/stabilityAdapter.ts:49-60 | each named field holds the photo, prompts, weights and settings it was given |
| StabilityAdapter.ImageToImageFormCarriesPhotoAndPrompts | src/lib/stabilityAdapter.ts:43-60 | the user's photo as `init_image`, the prompt at weight 1, the negative prompt at weight -1, 0.85 strength |
| StabilityAdapter.TextToImageRequestFor | src/lib/stabilityAdapter.ts:92-129 | the fallback request: endpoint, key, both weighted prompts, settings, 1024x1024, one sample |
| StabilityAdapter.DataUri | src/lib/stabilityAdapter.ts:85-86 | a PNG base64 data URI; a missing field prints "undefined" |
| StabilityAdapter.ArtifactOutcome | src/lib/stabilityAdapter.ts:71-86 | success exactly for an ok, parsed reply with a first artifact; each failure gives its message |
| StabilityAdapter.GenerateImage | src/lib/stabilityAdapter.ts:151-163 | image-to-image, or text-to-image after any failure; succeeds when either does |
| StabilityAdapter.LocalTemplates | src/lib/stabilityAdapter.ts:179-189 | five templates |
| StabilityAdapter.LocalTemplatesMention | src/lib/stabilityAdapter.ts:179-189 | each template names the person and the profession |
| StabilityAdapter.GenerateLocalText | src/lib/stabilityAdapter.ts:178-194 | one of the templates, naming the person and the profession |
| StabilityAdapter.Generate | src/lib/stabilityAdapter.ts:21-38 | blank key gives the missing-key error; success exactly when the image succeeds (the text cannot fail) |
| StabilityAdapter.GenerateSuccessShape | src/lib/stabilityAdapter.ts:21-38 | a success is a PNG data URI and a description naming the person and the profession |
| StabilityAdapter.MockDescriptions | src/lib/stabilityAdapter.ts:206-212 | three canned descriptions |
| StabilityAdapter.MockDescriptionsShape | src/lib/stabilityAdapter.ts:206-212 | each names the person and the profession and is over 50 characters |
| StabilityAdapter.MockGenerate | src/lib/stabilityAdapter.ts:202-224 | a canned description; an https picsum URL with the clock value and blur |
| GeneratorFactory.Create | src/lib/generation.ts:57-86 | refused exactly for unsupported providers, with the provider in the message; the adapter of the provider, or the mock when the module does not load |
| GeneratorFactory.UnsupportedProviderNamed | src/lib/generation.ts:82-83 | the error names the refused provider |
| GeneratorFactory.CreatedAdapterKeepsKey | src/lib/generation.ts:66-67 | a built adapter holds exactly the given key and base |
| GeneratorFactory.Run | src/lib/generation.ts:92-112 | each generator kind runs its own `generate`; the mock always succeeds |
| GeneratorFactory.BlankKeyOnlyStopsAdapters | src/lib/generation.ts:47-51 | the mock succeeds even with a blank key; adapters with one fail with the missing-key error |
| GenerateEpic.ProviderOf | src/hooks/useGenerateEpic.ts:26 | an absent provider means "openai" |
| GenerateEpic.BlankKey | src/hooks/useGenerateEpic.ts:33 | blank exactly when the key is absent, empty or trims to empty |
| GenerateEpic.CreateGenerator | src/hooks/useGenerateEpic.ts:31-44 | a blank key gives the mock with "mock-key"; otherwise the factory's generator, or the mock with "fallback-key" on error |
| GenerateEpic.GeneratorHoldsCallerKey | src/hooks/useGenerateEpic.ts:31-44 | an adapter is only handed out for the caller's own non-blank key |
| GenerateEpic.Mutate | src/hooks/useGenerateEpic.ts:50-53 | a blank key runs the mock generator |
| GenerateEpic.MockStandInNeverFails | src/hooks/useGenerateEpic.ts:31-53 | whenever the mock stands in, the request succeeds |
| GenerateEpic.MockOptionsAlwaysMock | src/hooks/useGenerateEpic.ts:134-142 | `useMockGeneration` always gets the mock |
| GenerateEpic.ProviderHooksGetTheirAdapter | src/hooks/useGenerateEpic.ts:106-129 | the provider hooks get their adapter for a usable key |
| GenerateEpic.ShouldRetry | src/hooks/useGenerateEpic.ts:56-64 | never for a message with "API key" or "401"; otherwise exactly while fewer than 3 failures |
| GenerateEpic.KeyErrorsAreFinal | src/hooks/useGenerateEpic.ts:56-60 | the invalid-key and missing-key messages are never retried |
| GenerateEpic.OtherErrorsRetriedThreeTimes | src/hooks/useGenerateEpic.ts:62-63 | other messages are retried at counts 0, 1, 2 and not from 3 |
| GenerateEpic.UnauthorizedReplyIsRetried | src/hooks/useGenerateEpic.ts:56-64 | as written, the OpenAI 401 "Unauthorized" failure is retried |
| GenerateEpic.UnauthorizedMessageRetried | src/hooks/useGenerateEpic.ts:58 | "Unauthorized" contains neither marker |
| GenerateEpic.ReportedUnauthorizedIsFinal | src/hooks/useGenerateEpic.ts:56-60 | with the status reported, a 401 on whichever request settles first gives the invalid-key error, which is never retried |
| GenerateEpic.Pow2Monotone | src/hooks/useGenerateEpic.ts:66 | `2 ** i` grows with `i` |
| GenerateEpic.RetryDelay | src/hooks/useGenerateEpic.ts:66 | at most 30000 and at most `1000 * 2 ** i`, equal to one of them |
| GenerateEpic.RetryDelayMonotone | src/hooks/useGenerateEpic.ts:66 | later attempts never wait less |
| GenerateEpic.RetryDelaySchedule | src/hooks/useGenerateEpic.ts:66 | 1, 2, 4, 8, 16 seconds, then 30 seconds from the sixth attempt on |
| Image.ValidateImageFile | src/utils/image.ts:12-31 | valid exactly for PNG/JPEG types within 2 MiB; the type is checked first |
| Image.SizeLimitIsInclusive | src/utils/image.ts:23-28 | exactly 2 MiB passes; one byte more fails on size, a GIF on format |
| Image.ValidateImageDimensions | src/utils/image.ts:60-80 | valid exactly when both sides are at least 512; load failures give their own error |
| Image.Fit | src/utils/image.ts:103-115 | an image within the box on its longer side is left alone; otherwise that side becomes the box's |
| Image.FitDimensions | src/utils/image.ts:101-115 | computes the fit of the image into the box |
| Image.FitNeverEnlarges | src/utils/image.ts:105-115 | the fit never enlarges a side |
| Image.FitPreservesRatio | src/utils/image.ts:105-115 | the fit keeps the aspect ratio |
| Image.FitWithinSquare | src/utils/image.ts:105-115 | in a square box the fitted image lies inside it |
| Image.UpscaleCallCannotEnlarge | src/utils/image.ts:218-225 | as written, the second call never enlarges a side |
| Image.WidePhotoShrinksTwice | src/utils/image.ts:209-225 | 2000x400 gives 1024x204.8 and then 512x102.4 |
| Image.UpscaleToMinimum | src/utils/image.ts:218-225 | scaling so both sides reach the minimum keeps the ratio and puts one side at it |
| Image.ProcessedSizeAsWritten | src/utils/image.ts:209-226 | as written, the two fits never make a side larger than the photo's nor than 1024 |
| Image.ProcessedSize | src/utils/image.ts:209-228 | corrected: both sides at least 512 and the photo's ratio kept |
| Image.ProcessImage | src/utils/image.ts:201-235 | as written: fails exactly when the file check fails, with its message; otherwise the size the two fits give, no larger than the photo nor than 1024 |
| Image.ProcessImageIntended | src/utils/image.ts:201-235 | corrected: the same failures; a success has both sides at least 512 and the photo's ratio |
| Image.WidePhotoProcessing | src/utils/image.ts:209-225 | a valid 2000x400 photo ends at 512x102.4 as written, while the corrected version reaches 512 on both sides |
| Image.CaptureToSemicolon | src/utils/image.ts:260 | the lazy group ends at the first `;` and holds no line terminator |
| Image.MatchMime | src/utils/image.ts:260 | no match exactly when no `:` is followed by a lazy group ending in `;` |
| Image.MatchMimeLeftmost | src/utils/image.ts:260 | a match found is the leftmost one, and its group is what comes back |
| Image.MimeOf | src/utils/image.ts:259-260 | the MIME type is never empty |
| Image.CaptureUpTo | src/utils/image.ts:260 | the capture stops at the first `;` |
| Image.MatchMimeSkips | src/utils/image.ts:260 | text before the first `:` is skipped |
| Image.DataUrlMime | src/utils/image.ts:259-260 | a data URL's media type is what `base64ToFile` reads |
| Image.NoColonMeansPng | src/utils/image.ts:260 | without a `:` there is no match, so the type falls back to PNG |
| Image.NoSemicolonMeansPng | src/utils/image.ts:259-260 | a header without `;` gives PNG |
| Image.PlainTextUrlIsPng | src/utils/image.ts:259-260 | `data:text/plain,x` gives PNG |
| Image.CopyCharCodes | src/utils/image.ts:262-267 | the countdown loop fills the array with every character's byte, its code's low eight bits, visiting each index once from the last down to the first |
| Image.FileType | src/utils/image.ts:269 | the type `new File` keeps: empty when any character lies outside U+0020–U+007E, otherwise the same text in ASCII lower case |
| Image.FileTypeKeepsNormalForm | src/utils/image.ts:269 | a type of printable ASCII with no capitals is kept as it is |
| Image.FileTypeIdempotent | src/utils/image.ts:269 | normalising twice is normalising once, and each accepted type is kept as it is |
| Image.UpperCaseDataUrlMime | src/utils/image.ts:260 | a media type written in capitals is parsed as written |
| Image.UpperCaseTypeIsAccepted | src/utils/image.ts:269 | the file's type becomes "image/png", which the photo check accepts; a type with a non-ASCII character becomes "" and is refused |
| Image.Base64ToFile | src/utils/image.ts:258-270 | the file has the given name, the parsed type as `new File` normalises it, and the decoded bytes |
| FormStep.NameIssues | src/components/FormStep.tsx:29-33 | no issues exactly when the length is 2-60 and the pattern matches; each message exactly when its rule fails |
| FormStep.FormIssues | src/components/FormStep.tsx:28-42 | the name issues in order, then the profession and consent issues exactly when those rules fail |
| FormStep.AcceptsIff | src/components/FormStep.tsx:28-42 | the schema accepts exactly a 2-60 name of letters and whitespace, a non-empty profession and consent |
| FormStep.OnSubmit | src/components/FormStep.tsx:74-86 | "Personalizada" becomes the custom profession or "Profesional"; the other fields are forwarded |
| FormStep.SubmittedProfessionIsNamed | src/components/FormStep.tsx:74-86 | an accepted form hands on a non-empty profession, "Personalizada" only when typed as the custom one |
| FormStep.BlankValuesPassTheForm | src/components/FormStep.tsx:29-34 | the schema does not trim: two spaces pass as a name and a space as a profession, which the prompt validator refuses |
| App.Wizard.constructor | src/App.tsx:43-47 | starts on the form with nothing stored, moving forward |
| App.Wizard.Params | src/App.tsx:93-97 | a request carries the stored name, profession and photo file |
| App.Wizard.HandleFormSubmit | src/App.tsx:77-80 | stores the data and moves to the photo step |
| App.Wizard.HandleGeneratePostcard | src/App.tsx:89-103 | requests a generation only with user data stored, and then the new mutation clears the hook's error |
| App.Wizard.HandleImageCaptured | src/App.tsx:83-86 | stores the photo and requests a generation with its file, clearing the hook's error |
| App.Wizard.OnSuccess | src/App.tsx:58-70 | with data and photo stored, shows the result with a postcard from them and the result; otherwise changes nothing |
| App.Wizard.OnFailure | src/App.tsx:53 | the hook's error becomes the shown error |
| App.Wizard.DismissError | src/App.tsx:198-208 | the alert's "Reintentar" (`resetGeneration`) clears the error and changes nothing else |
| App.Wizard.HandleRestart | src/App.tsx:106-112 | back to the form with everything cleared and the hook reset |
| App.Wizard.HandleGenerateNew | src/App.tsx:115-129 | requests again only with data and photo stored, clearing the hook's error when it does |
| App.Wizard.HandleBack | src/App.tsx:132-142 | one step back, none from the form, always setting the direction to -1 |
| App.PreviousStep | src/App.tsx:134-141 | photo goes to form, result to photo, and the form stays |
| App.HappyPath | src/App.tsx:77-86 | submit, capture and success give the result step, the postcard, and exactly one request |
| App.LateSuccessAfterRestart | src/App.tsx:59 | with `onSuccess` reading the wizard's state when it runs, a success after a restart is ignored |
| App.FailureThenNewPhoto | src/App.tsx:83-103 | a failure's error is shown until a new request, a restart or a dismissal; here a new photo starts a request, which clears it |
| App.FailureThenDismiss | src/App.tsx:198-208 | dismissing the error clears it with no new request, on the same step |
| App.BackThenGenerateNew | src/App.tsx:115-142 | a reachable sequence: on the result step, "generate new" sends the same payload again; two back steps reach the form with the data kept, and submitting it again leaves the photo step with direction -1 and no further request |

## Left out

- Timers and logging: the 2000 ms and 3000 ms simulated delays, every `console` call, and the React Query cache invalidation on success.
- React Query's scheduling, its `failureCount` bookkeeping and the `mutations.retry: 2` default (which the hook's `retry` overrides). So the number of attempts a sequence of failures leads to is not modelled, only the `retry` predicate and `retryDelay`.
- Async interleaving beyond the injected "which rejection settles first" flag.
- App.LateSuccessAfterRestart: the model's `onSuccess` reads the wizard's state when it runs. In the program, `resetGeneration` detaches the in-flight mutation from the hook, so a success that arrives later runs the `onSuccess` closure of a render before the restart, which still sees the old data and photo and may show the result. Which closure a mutation keeps is React Query's bookkeeping and is not modelled.
- A `fetch` that resolves to `undefined`: the `!response` and `response?.` guards of `generateImage` and `generateText` are not modelled, because a real `fetch` never resolves to `undefined`.
- Image.FitDimensions: canvas sizes are whole pixels in the browser; the model keeps the exact real quotient and does not model the canvas's conversion. `compressImage`'s drawing and encoding, `getImageDimensions` and its load failure are inputs, not modelled operations.
- `cropImage` and `fileToBase64` are not modelled: `cropImage` only copies the crop rectangle to a canvas (no logic beyond the browser's), and `fileToBase64` wraps `FileReader`.
- Image.Base64ToFile: `atob` itself is not modelled. The decoded string is a parameter, and a malformed second part (where `atob` throws) is not modelled.
- String lengths count UTF-16 code units in JavaScript and characters here. They differ only for characters outside the Basic Multilingual Plane (for example emoji), for the 60-character limits.
- The UI components (camera, cropper, result view, stepper, inputs) and the share button, including its clipboard text, are rendering and device access.
- `epicGenerationQueryKeys` is only React Query key arrays.
- `getProfessionConfig` is modelled as written. The program's tests expect more than the code does: tests/promptBuilder.test.ts:163-174 expects keyword detection ("código digital", "estudio artístico") for unknown professions, and tests/promptBuilder.test.ts:148-154 expects a "Médico" entry, but the catalogue at src/lib/promptBuilder.ts:4-65 has neither.

## Findings

| source | as written | input that shows it | evidently intended | confidence | as-written member | corrected member |
|---|---|---|---|---|---|---|
| src/utils/image.ts:218-225 | a photo with a side under 512 after the first fit is passed to `compressImage(…, 512, 512)`, which only ever shrinks | a 2000x400 photo: 1024x204.8 after the first fit, 512x102.4 after the "upscale" | scale up so both sides reach 512, keeping the ratio | high (not executed) | Image.ProcessImage, Image.UpscaleCallCannotEnlarge, Image.WidePhotoShrinksTwice | Image.ProcessImageIntended, Image.ProcessedSize, Image.UpscaleToMinimum |
| src/lib/openaiAdapter.ts:66-73 | the adapter throws a plain `Error` without the response status, so `handleApiError`'s 401 rule (src/lib/generation.ts:23-25) never fires; the raw body message reaches the hook, which retries it | a 401 reply with body `{"error":{"message":"Unauthorized"}}` fails with "Unauthorized", and `retry` returns true | report a 401 on either request as "API key inválida o expirada" and do not retry it | high (not executed) | OpenAIAdapter.UnauthorizedSurfacesRawMessage, GenerateEpic.UnauthorizedReplyIsRetried | OpenAIAdapter.GenerateReportingStatus, GenerateEpic.ReportedUnauthorizedIsFinal |
