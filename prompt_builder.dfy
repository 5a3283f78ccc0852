/** Prompt and message construction (src/lib/promptBuilder.ts): the profession
    catalogue and its lookup, the image, negative and text prompts, the field
    validator and the share message. Everything here is a pure function. */
module PromptBuilder {
  import opened Wrappers
  import opened Strings
  import opened Types

  /** The scenario catalogue, in the source's order. */
  const ProfessionConfigs: seq<ProfessionConfig> := [
    ProfessionConfig("Líder de Proyectos", "Líder de Proyectos",
      "orquestando un equipo de hologramas, diagramas de Gantt flotantes, en un centro de comando futurista"),
    ProfessionConfig("Especialista en Marketing", "Especialista en Marketing",
      "creando campañas de luz, con gráficos virales y vallas publicitarias holográficas en una ciber-ciudad"),
    ProfessionConfig("Analista de Datos", "Analista de Datos",
      "navegando por un mar tridimensional de datos, con insights luminosos y dashboards holográficos"),
    ProfessionConfig("Desarrollador de Software", "Desarrollador de Software",
      "escribiendo código que se materializa como estructuras de neón, en un entorno de realidad virtual"),
    ProfessionConfig("Diseñador UX/UI", "Diseñador UX/UI",
      "moldeando interfaces de usuario fluidas en el aire, con paletas de colores flotantes y prototipos interactivos"),
    ProfessionConfig("Recursos Humanos", "Recursos Humanos",
      "conectando redes neuronales de talento, en un jardín zen corporativo con árboles de datos"),
    ProfessionConfig("Finanzas y Contabilidad", "Finanzas y Contabilidad",
      "protegiendo una bóveda de datos financieros con escudos de energía, rodeado de gráficos dorados ascendentes"),
    ProfessionConfig("Soporte Técnico", "Soporte Técnico",
      "reparando un núcleo de servidor con herramientas de luz, en una sala de servidores de alta tecnología"),
    ProfessionConfig("Ventas y Comercial", "Ventas y Comercial",
      "cerrando un trato con un apretón de manos de energía, sobre un mapa holográfico de la ciudad"),
    ProfessionConfig(CustomProfession, CustomProfession,
      "entorno épico y majestuoso, elementos únicos de poder, iluminación dramática")
  ]

  /** The catalogue value that stands for a free-text profession. */
  const CustomProfession := "Personalizada"

  /** The scenario used for "Personalizada" and for every value outside the catalogue. */
  const GenericScenario := "entorno " + "majestuoso" + " y poderoso, elementos únicos de grandeza, iluminación épica cinematográfica"

  /** Keywords the prompts are promised to carry. */
  const EpicSuperhero := "epic superhero"
  const UltraDetailed := "ultra-detailed"
  const EightK := "8k"
  const Masterpiece := "masterpiece"
  const IdenticalFace := "realistic face identical"
  const DeformedFace := "deformed face"
  const Disfigured := "disfigured"
  const LowRes := "low-res"
  const Blurry := "blurry"
  const BadAnatomy := "bad anatomy"
  const WordRange := "25–60 palabras"
  const NoEmojis := "Sin emojis"
  const NoQuotes := "sin comillas"
  const NameKey := "nombre="
  const ProfessionKey := "profesión="

  /** The fixed wording between the parts of the prompts. */
  const ImagePromptStyle := ", dramatic lighting, cinematic, award-winning photography, hero pose, dynamic composition, majestic environment: "
  const FidelityNote := " to the input photo, sharp focus, "
  const NegativeQualityTail := ", worst quality, low quality, normal quality, lowres, pixelated, ugly, distorted, watermark"
  const TextPromptTone := "Tono épico, motivacional, inclusivo. Devuelve 2–3 líneas ("
  const TextPromptAsk := "). Incluye el nombre y la profesión, destacando su aporte y que \"esa profesión vale\" en la empresa. "
  const TextPromptData := ", sin prefijos. Datos: "

  /** The pieces of the negative prompt, in order. */
  const NegativePromptParts := [DeformedFace, ", ", Disfigured, ", extra limbs, duplicate, ", LowRes, ", ",
    Blurry, ", ", BadAnatomy, NegativeQualityTail]

  const ShareGreeting := "Mira mi postal épica ✨"
  const ShareSeparator := "\n\n"

  const NameTooShortError := "El nombre debe tener al menos 2 caracteres."
  const NameTooLongError := "El nombre no puede tener más de 60 caracteres."
  const ProfessionMissingError := "Debes seleccionar una profesión."

  predicate InCatalogue(profession: string) {
    exists i | 0 <= i < |ProfessionConfigs| :: ProfessionConfigs[i].value == profession
  }

  /** `configs.find(p => p.value === value)`: the first entry with that value. */
  function FindByValue(configs: seq<ProfessionConfig>, value: string): (r: Option<ProfessionConfig>)
    ensures r.None? <==> forall i | 0 <= i < |configs| :: configs[i].value != value
    ensures r.Some? ==> exists i | 0 <= i < |configs| :: (configs[i] == r.value
      && configs[i].value == value && forall j | 0 <= j < i :: configs[j].value != value)
  {
    if configs == [] then None
    else if configs[0].value == value then Some(configs[0])
    else
      var r := FindByValue(configs[1..], value);
      assert forall i | 1 <= i < |configs| :: configs[i] == configs[1..][i - 1];
      r
  }

  /** The catalogue holds ten entries whose values are pairwise distinct and whose
      scenarios are pairwise distinct and longer than ten characters; each label is its value. */
  lemma CatalogueWellFormed()
    ensures |ProfessionConfigs| == 10
    ensures forall i, j | 0 <= i < j < |ProfessionConfigs| ::
      ProfessionConfigs[i].value != ProfessionConfigs[j].value
      && ProfessionConfigs[i].scenario != ProfessionConfigs[j].scenario
    ensures forall i | 0 <= i < |ProfessionConfigs| ::
      |ProfessionConfigs[i].scenario| > 10 && ProfessionConfigs[i].labelText == ProfessionConfigs[i].value
  {
  }

  /** `getProfessionConfig`: a catalogue value other than "Personalizada" gives its
      entry unchanged; "Personalizada" and every other string give a synthetic entry
      whose value and label are the input and whose scenario is the generic one.
      Either way the value and label are the input, so the lookup is total. */
  function GetProfessionConfig(profession: string): (c: ProfessionConfig)
    ensures c.value == profession && c.labelText == profession
    ensures InCatalogue(profession) && profession != CustomProfession
      ==> FindByValue(ProfessionConfigs, profession) == Some(c)
    ensures !InCatalogue(profession) || profession == CustomProfession
      ==> c == ProfessionConfig(profession, profession, GenericScenario)
  {
    CatalogueWellFormed();
    match FindByValue(ProfessionConfigs, profession)
    case Some(config) =>
      if config.value == CustomProfession then ProfessionConfig(profession, profession, GenericScenario)
      else config
    case None => ProfessionConfig(profession, profession, GenericScenario)
  }

  /** Every catalogue entry other than "Personalizada" is found as it is. */
  lemma CatalogueLookupIdentity(i: nat)
    requires i < |ProfessionConfigs| && ProfessionConfigs[i].value != CustomProfession
    ensures GetProfessionConfig(ProfessionConfigs[i].value) == ProfessionConfigs[i]
  {
    CatalogueWellFormed();
    var c := GetProfessionConfig(ProfessionConfigs[i].value);
    var k :| 0 <= k < |ProfessionConfigs| && ProfessionConfigs[k] == c;
  }

  /** Free text falls back to a non-empty scenario that mentions "majestuoso". */
  lemma GenericScenarioFallback(profession: string)
    requires !InCatalogue(profession) || profession == CustomProfession
    ensures GetProfessionConfig(profession).scenario == GenericScenario
    ensures GenericScenario != [] && Contains(GenericScenario, "majestuoso")
  {
    ContainsInfix("entorno ", "majestuoso",
      " y poderoso, elementos únicos de grandeza, iluminación épica cinematográfica");
  }

  /** The image prompt template filled with a name, a profession and a scenario. */
  function ImagePromptTemplate(name: string, profession: string, scenario: string): (r: string)
    ensures Contains(r, name) && Contains(r, profession) && Contains(r, scenario)
    ensures Contains(r, EpicSuperhero) && Contains(r, UltraDetailed) && Contains(r, EightK)
      && Contains(r, Masterpiece) && Contains(r, IdenticalFace)
  {
    var parts := ["Portrait of ", name, " as an ", EpicSuperhero, " version of a ", profession, ", ",
      UltraDetailed, ImagePromptStyle,
      scenario, ", ", IdenticalFace, FidelityNote, EightK, ", ", Masterpiece, "."];
    ContainsPart(parts, 1);
    ContainsPart(parts, 3);
    ContainsPart(parts, 5);
    ContainsPart(parts, 7);
    ContainsPart(parts, 9);
    ContainsPart(parts, 11);
    ContainsPart(parts, 13);
    ContainsPart(parts, 15);
    Concat(parts)
  }

  /** `buildImagePrompt`: contains the name, the profession, the scenario the catalogue
      lookup resolves for it and the fixed quality and fidelity keywords. */
  function BuildImagePrompt(name: string, profession: string): (r: string)
    ensures Contains(r, name) && Contains(r, profession)
    ensures Contains(r, GetProfessionConfig(profession).scenario)
    ensures Contains(r, EpicSuperhero) && Contains(r, UltraDetailed) && Contains(r, EightK)
      && Contains(r, Masterpiece) && Contains(r, IdenticalFace)
  {
    ImagePromptTemplate(name, profession, GetProfessionConfig(profession).scenario)
  }

  /** `buildNegativePrompt`: one constant list of undesired attributes. */
  function BuildNegativePrompt(): (r: string)
    ensures Contains(r, DeformedFace) && Contains(r, Disfigured) && Contains(r, LowRes)
      && Contains(r, Blurry) && Contains(r, BadAnatomy)
  {
    var parts := NegativePromptParts;
    ContainsPart(parts, 0);
    ContainsPart(parts, 2);
    ContainsPart(parts, 4);
    ContainsPart(parts, 6);
    ContainsPart(parts, 8);
    Concat(parts)
  }

  /** `buildTextPrompt`: carries NameKey + name and ProfessionKey + profession and the
      length and no-emoji instructions. */
  function BuildTextPrompt(name: string, profession: string): (r: string)
    ensures Contains(r, NameKey + name) && Contains(r, ProfessionKey + profession)
    ensures Contains(r, WordRange) && Contains(r, NoEmojis) && Contains(r, NoQuotes)
  {
    var parts := [TextPromptTone, WordRange,
      TextPromptAsk,
      NoEmojis, ", ", NoQuotes, TextPromptData, NameKey + name, ", ",
      ProfessionKey + profession, "."];
    ContainsPart(parts, 1);
    ContainsPart(parts, 3);
    ContainsPart(parts, 5);
    ContainsPart(parts, 7);
    ContainsPart(parts, 9);
    Concat(parts)
  }

  /** The recommended image-generation settings. */
  datatype ImageGenerationParams = ImageGenerationParams(size: string, cfgScale: nat, denoisingStrength: real,
                                                         sampler: string, steps: nat, stylePreset: string)

  /** `getImageGenerationParams`: a square 1024-pixel image, guidance scale 7, a light
      denoising strength of 0.3 (to keep the face), the k_euler_a sampler, 30 steps
      and the cinematic style. */
  function GetImageGenerationParams(): (p: ImageGenerationParams)
    ensures p.size == "1024x1024" && p.cfgScale == 7 && p.steps == 30 && p.stylePreset == "cinematic"
    ensures p.denoisingStrength == 0.3 && p.sampler == "k_euler_a"
  {
    ImageGenerationParams("1024x1024", 7, 0.3, "k_euler_a", 30, "cinematic")
  }

  /** `validatePromptParams`: the rules are tried in order and the first that fails
      decides the error; a value passing all three is valid. */
  function ValidatePromptParams(name: string, profession: string): (r: Validation)
    ensures r == Invalid(NameTooShortError) <==> |Trim(name)| < 2
    ensures r == Invalid(NameTooLongError) <==> |Trim(name)| >= 2 && |name| > 60
    ensures r == Invalid(ProfessionMissingError) <==> |Trim(name)| >= 2 && |name| <= 60 && AllWhitespace(profession)
    ensures r == Valid <==> |Trim(name)| >= 2 && |name| <= 60 && !AllWhitespace(profession)
  {
    TrimEmptyIff(profession);
    if name == [] || |Trim(name)| < 2 then Invalid(NameTooShortError)
    else if |name| > 60 then Invalid(NameTooLongError)
    else if profession == [] || |Trim(profession)| == 0 then Invalid(ProfessionMissingError)
    else Valid
  }

  /** The five sections of the share message, in order. */
  function ShareSections(name: string, profession: string, description: string, imageUrl: string): seq<string> {
    [ShareGreeting, "Nombre: " + name, "Profesión: " + profession, description, imageUrl]
  }

  /** `buildWhatsAppMessage`: the five sections joined by a blank line; each section,
      labelled name and profession included, appears in the message. */
  function BuildWhatsAppMessage(name: string, profession: string, description: string, imageUrl: string): (r: string)
    ensures forall k | 0 <= k < 5 :: Contains(r, ShareSections(name, profession, description, imageUrl)[k])
  {
    var parts := ShareSections(name, profession, description, imageUrl);
    forall k | 0 <= k < 5 ensures Contains(Join(parts, ShareSeparator), parts[k]) {
      JoinContainsPart(parts, ShareSeparator, k);
    }
    Join(parts, ShareSeparator)
  }

  /** A field that neither contains a blank line nor ends in a line break. */
  predicate SingleParagraph(s: string) {
    !Contains(s, "\n\n") && (s == [] || s[|s| - 1] != '\n')
  }

  /** A one-line prefix followed by a single-paragraph field can be split off at the next blank line. */
  lemma PrefixedSeparable(prefix: string, x: string)
    requires '\n' !in prefix && SingleParagraph(x)
    ensures Separable(prefix + x, ShareSeparator)
  {
    var t := prefix + x + "\n";
    assert ShareSeparator[..1] == "\n";
    forall j | 0 <= j <= |t| - 2 ensures !OccursAt(t, ShareSeparator, j) {
      if j < |prefix| {
        assert t[j] == prefix[j];
      } else if j + 2 <= |prefix| + |x| {
        assert t[j..j + 2] == x[j - |prefix|..j - |prefix| + 2];
        assert !OccursAt(x, ShareSeparator, j - |prefix|);
      } else {
        assert x != [] && t[j] == x[|x| - 1];
      }
    }
  }

  /** When the name, profession and description are single paragraphs and the image URL
      holds no blank line, splitting the message on "\n\n" gives back exactly its five sections. */
  lemma WhatsAppMessageSplitsIntoSections(name: string, profession: string, description: string, imageUrl: string)
    requires SingleParagraph(name) && SingleParagraph(profession) && SingleParagraph(description)
    requires !Contains(imageUrl, ShareSeparator)
    ensures Split(BuildWhatsAppMessage(name, profession, description, imageUrl), ShareSeparator)
      == ShareSections(name, profession, description, imageUrl)
    ensures |Split(BuildWhatsAppMessage(name, profession, description, imageUrl), ShareSeparator)| == 5
  {
    var parts := ShareSections(name, profession, description, imageUrl);
    PrefixedSeparable(ShareGreeting, "");
    assert ShareGreeting + "" == ShareGreeting;
    PrefixedSeparable("Nombre: ", name);
    PrefixedSeparable("Profesión: ", profession);
    PrefixedSeparable("", description);
    assert "" + description == description;
    SplitJoin(parts, ShareSeparator);
  }

  /** Regrouping the line breaks around an empty section. */
  lemma RegroupEmptySection(a: string, d: string, u: string)
    ensures (a + "\n") + ShareSeparator + (("\n" + d) + ShareSeparator + u)
         == a + ShareSeparator + ("" + ShareSeparator + (d + ShareSeparator + u))
  {
    var l := (a + "\n") + ShareSeparator + (("\n" + d) + ShareSeparator + u);
    var r := a + ShareSeparator + ("" + ShareSeparator + (d + ShareSeparator + u));
    assert l == a + "\n\n\n\n" + d + ShareSeparator + u;
    assert r == a + "\n\n\n\n" + d + ShareSeparator + u;
  }

  /** The message for a profession ending and a description starting with a line
      break is the join of six sections, the fourth of them empty. */
  lemma SixSectionJoin(name: string, p: string, d: string, u: string)
    ensures BuildWhatsAppMessage(name, p + "\n", "\n" + d, u)
      == Join([ShareGreeting, "Nombre: " + name, "Profesión: " + p, "", d, u], ShareSeparator)
  {
    var sep := ShareSeparator;
    var five := ShareSections(name, p + "\n", "\n" + d, u);
    var six := [ShareGreeting, "Nombre: " + name, "Profesión: " + p, "", d, u];
    assert Join(five[4..], sep) == u;
    assert Join(five[3..], sep) == ("\n" + d) + sep + u;
    assert Join(six[5..], sep) == u;
    assert Join(six[4..], sep) == d + sep + u;
    assert Join(six[3..], sep) == "" + sep + (d + sep + u);
    RegroupEmptySection("Profesión: " + p, d, u);
    assert Join(five[2..], sep) == Join(six[2..], sep);
    assert Join(five[1..], sep) == five[1] + sep + Join(five[2..], sep);
    assert Join(six[1..], sep) == six[1] + sep + Join(six[2..], sep);
    assert Join(five, sep) == five[0] + sep + Join(five[1..], sep);
    assert Join(six, sep) == six[0] + sep + Join(six[1..], sep);
  }

  /** No blank line inside any field is not enough: a profession ending and a
      description starting with a line break make the split find an empty sixth section. */
  lemma WhatsAppMessageSixSections(name: string, p: string, d: string, u: string)
    requires SingleParagraph(name) && SingleParagraph(p) && SingleParagraph(d)
    requires !Contains(u, ShareSeparator)
    ensures Split(BuildWhatsAppMessage(name, p + "\n", "\n" + d, u), ShareSeparator)
      == [ShareGreeting, "Nombre: " + name, "Profesión: " + p, "", d, u]
  {
    var six := [ShareGreeting, "Nombre: " + name, "Profesión: " + p, "", d, u];
    SixSectionJoin(name, p, d, u);
    PrefixedSeparable(ShareGreeting, "");
    assert ShareGreeting + "" == ShareGreeting;
    PrefixedSeparable("Nombre: ", name);
    PrefixedSeparable("Profesión: ", p);
    PrefixedSeparable("", "");
    PrefixedSeparable("", d);
    assert "" + d == d && "" + "" == "";
    SplitJoin(six, ShareSeparator);
  }
}
