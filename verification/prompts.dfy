/** System prompts stored per language (internal/repository/prompts.go).
    The document read is a parameter: collection and document id to the
    document's fields, or the read's error. */
module PromptRepository {
  import opened Results
  import Languages

  const PromptTable := "prompts"
  const AddressGenerationKey := "address_generation"

  /** A field of the prompt document: a string, or any other JSON value. */
  datatype Field = Text(text: string) | NonText

  type PromptDoc = map<string, Field>
  type PromptStore = (string, string) -> Result<PromptDoc>

  datatype GetSystemPromptOptions = GetSystemPromptOptions(language: Languages.Language, key: string)

  /** `getPromptLanguage`: the language's key when it is supported, the
      English key otherwise. */
  function PromptLanguage(language: Languages.Language): (r: string)
    ensures r == "en" || r == "zh"
    ensures Languages.Validate(language).Pass? ==> r == Languages.Get(language)
    ensures Languages.Validate(language).Fail? ==> r == "en"
  {
    Languages.GetOfSupported();
    if Languages.Validate(language).Fail? then Languages.Get(Languages.LanguageEN)
    else Languages.Get(language)
  }

  /** `GetSystemPrompt`: the string stored under `key` in the language's
      prompt document. */
  function GetSystemPrompt(opts: GetSystemPromptOptions, fetch: PromptStore): (r: Result<string>)
    ensures
      var doc := fetch(PromptTable, PromptLanguage(opts.language));
      && (r.Ok? <==> doc.Ok? && opts.key in doc.value && doc.value[opts.key].Text?)
      && (r.Ok? ==> r.value == doc.value[opts.key].text)
      && (doc.Err? ==> r.error == "failed to get prompt")
      && (doc.Ok? && r.Err? ==> r.error == "prompt key missing or not a string")
  {
    match fetch(PromptTable, PromptLanguage(opts.language))
    case Err(_) => Err("failed to get prompt")
    case Ok(data) =>
      if opts.key in data && data[opts.key].Text? then Ok(data[opts.key].text)
      else Err("prompt key missing or not a string")
  }

  /** `GetSystemAddressGenerationPrompt`: the prompt stored under exactly
      "address_generation". */
  function GetSystemAddressGenerationPrompt(language: Languages.Language, fetch: PromptStore): (r: Result<string>)
    ensures
      var doc := fetch("prompts", PromptLanguage(language));
      && (r.Ok? <==> doc.Ok? && "address_generation" in doc.value && doc.value["address_generation"].Text?)
      && (r.Ok? ==> r.value == doc.value["address_generation"].text)
  {
    GetSystemPrompt(GetSystemPromptOptions(language, AddressGenerationKey), fetch)
  }

  /** Only the prompt documents "en" and "zh" are ever read: an unsupported
      language reads the English document. */
  lemma UnsupportedLanguageReadsEnglish(language: Languages.Language, key: string, fetch: PromptStore)
    requires Languages.Validate(language).Fail?
    ensures GetSystemPrompt(GetSystemPromptOptions(language, key), fetch)
         == GetSystemPrompt(GetSystemPromptOptions(Languages.LanguageEN, key), fetch)
  {
    Languages.GetOfSupported();
  }
}
