/** The form step (src/components/FormStep.tsx): the rules of its validation
    schema and how `onSubmit` turns the accepted values into the user's data. */
module FormStep {
  import opened Wrappers
  import opened Strings
  import opened Types
  import PromptBuilder

  const MinNameLength := 2
  const MaxNameLength := 60
  const AccentedLetters := "áéíóúÁÉÍÓÚñÑ"
  const DefaultCustomProfession := "Profesional"

  const NameTooShort := "El nombre debe tener al menos 2 caracteres"
  const NameTooLong := "El nombre no puede tener más de 60 caracteres"
  const NameCharset := "Solo se permiten letras y espacios"
  const ProfessionMissing := "Debes seleccionar una profesión"
  const ConsentMissing := "Debes aceptar el procesamiento de tu imagen"

  /** The values the form holds when it is submitted. */
  datatype FormValues = FormValues(name: string, profession: string,
                                   customProfession: Option<string>, hasConsent: bool)

  /** One failed rule: the field it belongs to and its message. */
  datatype Issue = Issue(field: string, message: string)

  /** A character of the class `[a-zA-ZáéíóúÁÉÍÓÚñÑ\s]`. */
  predicate NameChar(c: char) {
    ('a' <= c <= 'z') || ('A' <= c <= 'Z') || c in AccentedLetters || IsWhitespace(c)
  }

  /** `/^[a-zA-ZáéíóúÁÉÍÓÚñÑ\s]+$/`: one or more characters, all of the class. */
  predicate MatchesNamePattern(name: string) {
    name != [] && forall i | 0 <= i < |name| :: NameChar(name[i])
  }

  /** The checks on `name`, in schema order; each one that fails adds its message. */
  function NameIssues(name: string): (issues: seq<string>)
    ensures issues == [] <==> (MinNameLength <= |name| <= MaxNameLength && MatchesNamePattern(name))
    ensures NameTooShort in issues <==> |name| < MinNameLength
    ensures NameTooLong in issues <==> |name| > MaxNameLength
    ensures NameCharset in issues <==> !MatchesNamePattern(name)
  {
    (if |name| < MinNameLength then [NameTooShort] else [])
    + (if |name| > MaxNameLength then [NameTooLong] else [])
    + (if MatchesNamePattern(name) then [] else [NameCharset])
  }

  /** Every failed rule of the schema, field by field. */
  function FormIssues(v: FormValues): (issues: seq<Issue>)
    ensures |issues| >= |NameIssues(v.name)|
    ensures forall k | 0 <= k < |NameIssues(v.name)| :: issues[k] == Issue("name", NameIssues(v.name)[k])
    ensures Issue("profession", ProfessionMissing) in issues <==> v.profession == []
    ensures Issue("hasConsent", ConsentMissing) in issues <==> !v.hasConsent
  {
    var nameIssues := NameIssues(v.name);
    seq(|nameIssues|, k requires 0 <= k < |nameIssues| => Issue("name", nameIssues[k]))
    + (if v.profession == [] then [Issue("profession", ProfessionMissing)] else [])
    + (if v.hasConsent then [] else [Issue("hasConsent", ConsentMissing)])
  }

  /** The schema accepts the values: no rule fails. */
  predicate Accepts(v: FormValues) {
    FormIssues(v) == []
  }

  /** What acceptance means, rule by rule. */
  lemma AcceptsIff(v: FormValues)
    ensures Accepts(v) <==> (MinNameLength <= |v.name| <= MaxNameLength && MatchesNamePattern(v.name)
      && v.profession != [] && v.hasConsent)
  {
    if NameIssues(v.name) == [] && v.profession != [] && v.hasConsent {
      assert FormIssues(v) == [];
    }
    if Accepts(v) {
      assert NameIssues(v.name) == [];
    }
  }

  /** `onSubmit`: "Personalizada" is replaced by the custom profession, or by
      "Profesional" when that is absent or empty; everything else is forwarded. */
  function OnSubmit(v: FormValues): (d: UserFormData)
    ensures d.name == v.name && d.customProfession == v.customProfession && d.hasConsent == v.hasConsent
    ensures v.profession != PromptBuilder.CustomProfession ==> d.profession == v.profession
    ensures v.profession == PromptBuilder.CustomProfession ==> d.profession == OrElse(v.customProfession, DefaultCustomProfession)
  {
    var finalProfession :=
      if v.profession == PromptBuilder.CustomProfession then OrElse(v.customProfession, DefaultCustomProfession)
      else v.profession;
    UserFormData(v.name, finalProfession, v.customProfession, v.hasConsent)
  }

  /** An accepted form always hands on a non-empty profession, and never the
      placeholder "Personalizada" unless the user typed it as the custom one. */
  lemma SubmittedProfessionIsNamed(v: FormValues)
    requires Accepts(v)
    ensures OnSubmit(v).profession != []
    ensures OnSubmit(v).profession == PromptBuilder.CustomProfession ==>
      (v.profession != PromptBuilder.CustomProfession || v.customProfession == Some(PromptBuilder.CustomProfession))
  {
    AcceptsIff(v);
  }

  /** The schema does not trim: a name of two spaces and a profession of one space
      are accepted, and only the prompt validator refuses them later. */
  lemma BlankValuesPassTheForm()
    ensures Accepts(FormValues("  ", " ", None, true))
    ensures PromptBuilder.ValidatePromptParams("  ", " ") == Invalid(PromptBuilder.NameTooShortError)
  {
    var v := FormValues("  ", " ", None, true);
    assert IsWhitespace(v.name[0]) && IsWhitespace(v.name[1]);
    AcceptsIff(v);
    TrimEmptyIff("  ");
  }
}
