/** The structured-completion client (internal/infra/llm.go): it builds one
    schema-constrained chat request from the options and decodes the first
    choice. The schema generator, the chat backend and the JSON decoder are
    parameters. */
module Llm {
  import opened Results
  import Strings

  const DefaultModel := "gpt-5-mini"
  const DefaultEffort := "low"
  /** Models whose name starts with this accept a reasoning effort. */
  const ReasoningFamily := "gpt-5"

  datatype CompletionOptions = CompletionOptions(
    prompt: string,
    systemPrompt: string,
    schemaName: string,
    description: string,
    model: string,
    reasoningEffort: string)

  datatype Role = SystemRole | UserRole
  datatype Message = Message(role: Role, content: string)

  /** The response-format parameter: a named JSON schema, always strict. */
  datatype SchemaParam = SchemaParam(name: string, description: string, schema: string, strict: bool)

  datatype ChatRequest = ChatRequest(
    messages: seq<Message>,
    format: SchemaParam,
    model: string,
    reasoningEffort: Option<string>)

  datatype Choice = Choice(content: string)
  datatype ChatResponse = ChatResponse(choices: seq<Choice>)

  type Backend = ChatRequest -> Result<ChatResponse>

  /** The model used: the given one, or the default when none is given. */
  function ChooseModel(model: string): (r: string)
    ensures r != ""
    ensures model != "" ==> r == model
  {
    if model == "" then DefaultModel else model
  }

  /** The reasoning effort sent with the request: only for the reasoning
      family, defaulting to "low". */
  function EffortFor(model: string, effort: string): (r: Option<string>)
    ensures r.Some? <==> ReasoningFamily <= model
    ensures r.Some? ==> r.value != "" && (effort != "" ==> r.value == effort)
    ensures r.Some? && effort == "" ==> r.value == DefaultEffort
  {
    if ReasoningFamily <= model then Some(if effort == "" then DefaultEffort else effort)
    else None
  }

  /** A system message for a non-blank system prompt, then a user message
      for a non-blank prompt; both carry the text untrimmed. */
  function Messages(opts: CompletionOptions): (r: seq<Message>)
    ensures |r| == (if Strings.IsBlank(opts.systemPrompt) then 0 else 1) + (if Strings.IsBlank(opts.prompt) then 0 else 1)
    ensures !Strings.IsBlank(opts.systemPrompt) ==> r[0] == Message(SystemRole, opts.systemPrompt)
    ensures !Strings.IsBlank(opts.prompt) ==> r[|r| - 1] == Message(UserRole, opts.prompt)
  {
    var hasSystem := Strings.TrimSpace(opts.systemPrompt) != "";
    var hasUser := Strings.TrimSpace(opts.prompt) != "";
    assert hasSystem == !Strings.IsBlank(opts.systemPrompt) && hasUser == !Strings.IsBlank(opts.prompt);
    var system := Message(SystemRole, opts.systemPrompt);
    var user := Message(UserRole, opts.prompt);
    if hasSystem && hasUser then [system, user]
    else if hasSystem then [system]
    else if hasUser then [user]
    else []
  }

  /** Everything before the backend call: schema generation, defaults,
      messages, effort gating. */
  function BuildRequest(opts: CompletionOptions, schema: Result<string>): (r: Result<ChatRequest>)
    ensures schema.Err? ==> r == Err(Wrap("failed to generate schema", schema.error))
    ensures schema.Ok? ==> (r.Err? <==> Strings.IsBlank(opts.systemPrompt) && Strings.IsBlank(opts.prompt))
    ensures schema.Ok? && r.Err? ==> r.error == "no user or system message provided"
    ensures r.Ok? ==>
      && r.value.format == SchemaParam(opts.schemaName, opts.description, schema.value, true)
      && r.value.model == ChooseModel(opts.model)
      && r.value.reasoningEffort == EffortFor(r.value.model, opts.reasoningEffort)
      && r.value.messages == Messages(opts) && |r.value.messages| > 0
  {
    match schema
    case Err(e) => Err(Wrap("failed to generate schema", e))
    case Ok(jsonSchema) =>
      var messages := Messages(opts);
      if |messages| == 0 then Err("no user or system message provided")
      else
        var model := ChooseModel(opts.model);
        Ok(ChatRequest(
          messages,
          SchemaParam(opts.schemaName, opts.description, jsonSchema, true),
          model,
          EffortFor(model, opts.reasoningEffort)))
  }

  /** The part after the request is built: a build error is passed on,
      otherwise the backend is called once and the first choice's content is
      decoded into a `T`. */
  function Dispatch<T>(request: Result<ChatRequest>, backend: Backend, decode: string -> Result<T>): (r: Result<T>)
    ensures request.Err? ==> r == Err(request.error)
    ensures request.Ok? ==>
      var answer := backend(request.value);
      && (answer.Err? ==> r == Err(Wrap("chat completion failed", answer.error)))
      && (answer.Ok? && |answer.value.choices| == 0 ==> r == Err("no choices returned from completion"))
      && (answer.Ok? && |answer.value.choices| > 0 ==>
            var decoded := decode(answer.value.choices[0].content);
            && (decoded.Err? ==> r == Err(Wrap("failed to unmarshal response", decoded.error)))
            && (decoded.Ok? ==> r == decoded))
  {
    match request
    case Err(e) => Err(e)
    case Ok(req) =>
      match backend(req)
      case Err(e) => Err(Wrap("chat completion failed", e))
      case Ok(response) =>
        if |response.choices| == 0 then Err("no choices returned from completion")
        else
          match decode(response.choices[0].content)
          case Err(e) => Err(Wrap("failed to unmarshal response", e))
          case Ok(value) => Ok(value)
  }

  /** `StructuredCompletion`: build the request from the options, then
      dispatch it. A result needs a schema and at least one non-blank
      prompt. */
  function StructuredCompletion<T>(
    opts: CompletionOptions, schema: Result<string>,
    backend: Backend, decode: string -> Result<T>): (r: Result<T>)
    ensures schema.Err? ==> r == Err(Wrap("failed to generate schema", schema.error))
    ensures schema.Ok? && Strings.IsBlank(opts.systemPrompt) && Strings.IsBlank(opts.prompt) ==>
      r == Err("no user or system message provided")
    ensures r.Ok? ==> schema.Ok? && !(Strings.IsBlank(opts.systemPrompt) && Strings.IsBlank(opts.prompt))
  {
    Dispatch(BuildRequest(opts, schema), backend, decode)
  }

  /** With only blank prompts the call fails the same way whatever the
      backend would answer: the backend is never consulted. */
  lemma BlankPromptsNeverReachBackend<T>(
    opts: CompletionOptions, schema: string,
    backend1: Backend, backend2: Backend, decode: string -> Result<T>)
    requires Strings.IsBlank(opts.systemPrompt) && Strings.IsBlank(opts.prompt)
    ensures StructuredCompletion(opts, Ok(schema), backend1, decode)
         == StructuredCompletion(opts, Ok(schema), backend2, decode)
         == Err("no user or system message provided")
  {
  }

  /** Only the first choice is decoded: later choices never matter. */
  lemma OnlyFirstChoiceMatters<T>(
    request: ChatRequest, backend1: Backend, backend2: Backend, decode: string -> Result<T>)
    requires backend1(request).Ok? && backend2(request).Ok?
    requires |backend1(request).value.choices| > 0 && |backend2(request).value.choices| > 0
    requires backend1(request).value.choices[0] == backend2(request).value.choices[0]
    ensures Dispatch(Ok(request), backend1, decode) == Dispatch(Ok(request), backend2, decode)
  {
  }

  /** Model and effort defaults: an unnamed model is the default reasoning
      model with effort "low"; a model outside the family gets no effort. */
  lemma ModelAndEffortDefaults()
    ensures ChooseModel("") == "gpt-5-mini"
    ensures EffortFor(ChooseModel(""), "") == Some("low")
    ensures EffortFor("gpt-5", "high") == Some("high")
    ensures EffortFor("gpt-4o", "high") == None
  {
    assert ReasoningFamily[4] != "gpt-4o"[4];
  }
}
