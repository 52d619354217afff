/** The catalog service façade (internal/services/address.go): page-size
    clamping and pass-through for listing, forwarding of the CRUD calls to
    the repository, and draft assembly for generation. The repository
    calls, the language model and the id supply are parameters. */
module AddressService {
  import opened Results
  import opened Models
  import Llm
  import Strings
  import AddressRepository

  const DefaultPageSize := 100

  // -------------------------------------------------------------- listing

  datatype ListInput = ListInput(language: string, tags: seq<string>, pageSize: int, startAfterDoc: string)

  /** What the service asks the repository for. */
  datatype RepoListOptions = RepoListOptions(language: string, tags: seq<string>, pageSize: int, startAfterDoc: string)

  /** One page as the repository answers it. */
  datatype RepoPage = RepoPage(addresses: seq<AddressItem>, totalCount: int, lastDocId: string, hasMore: bool)

  datatype ListOutput = ListOutput(addresses: seq<AddressItem>, totalCount: int, lastDocId: string, hasMore: bool)

  /** The page size actually requested: the input when it lies in
      [1, DefaultPageSize], the default otherwise. */
  function ClampPageSize(n: int): (r: int)
    ensures 1 <= r <= DefaultPageSize
    ensures 1 <= n <= DefaultPageSize ==> r == n
  {
    if n <= 0 || n > DefaultPageSize then DefaultPageSize else n
  }

  lemma ClampPageSizeIdempotent(n: int)
    ensures ClampPageSize(ClampPageSize(n)) == ClampPageSize(n)
  {
  }

  /** Out-of-range page sizes all become the default. */
  lemma ClampPageSizeOutOfRange(n: int)
    requires n <= 0 || n > DefaultPageSize
    ensures ClampPageSize(n) == DefaultPageSize
  {
  }

  function ListOptionsFor(input: ListInput): RepoListOptions
  {
    RepoListOptions(input.language, input.tags, ClampPageSize(input.pageSize), input.startAfterDoc)
  }

  /** `GetAllAddresses`: one repository call with the clamped page size and
      every other field forwarded; the page is copied field by field. */
  function GetAllAddresses(input: ListInput, repo: RepoListOptions -> Result<RepoPage>): (r: Result<ListOutput>)
    ensures
      var opts := ListOptionsFor(input);
      && 1 <= opts.pageSize <= DefaultPageSize
      && opts.language == input.language && opts.tags == input.tags
      && opts.startAfterDoc == input.startAfterDoc
      && (r.Ok? <==> repo(opts).Ok?)
      && (r.Err? ==> r.error == repo(opts).error)
      && (r.Ok? ==>
            && r.value.addresses == repo(opts).value.addresses
            && r.value.totalCount == repo(opts).value.totalCount
            && r.value.lastDocId == repo(opts).value.lastDocId
            && r.value.hasMore == repo(opts).value.hasMore)
  {
    match repo(ListOptionsFor(input))
    case Err(e) => Err(e)
    case Ok(page) => Ok(ListOutput(page.addresses, page.totalCount, page.lastDocId, page.hasMore))
  }

  // ------------------------------------------------------ CRUD forwarding

  datatype RepoByIdOptions = RepoByIdOptions(language: string, id: string)
  datatype RepoCreateOptions = RepoCreateOptions(language: string, item: AddressItem)
  datatype RepoUpdateOptions = RepoUpdateOptions(language: string, id: string, item: AddressItem)

  datatype GetByIdInput = GetByIdInput(language: string, id: string)
  datatype CreateInput = CreateInput(language: string, address: AddressItem)
  datatype UpdateInput = UpdateInput(language: string, id: string, address: AddressItem)
  datatype DeleteInput = DeleteInput(language: string, id: string)

  /** `GetAddressById`: the repository's record or its error, unchanged. */
  function GetAddressById(input: GetByIdInput, repo: RepoByIdOptions -> Result<AddressItem>): (r: Result<AddressItem>)
    ensures
      var answer := repo(RepoByIdOptions(input.language, input.id));
      && (r.Ok? <==> answer.Ok?)
      && (r.Ok? ==> r.value == answer.value)
      && (r.Err? ==> r.error == answer.error)
  {
    match repo(RepoByIdOptions(input.language, input.id))
    case Err(e) => Err(e)
    case Ok(item) => Ok(item)
  }

  /** `CreateNewAddress`: the repository's new id or its error. */
  function CreateNewAddress(input: CreateInput, repo: RepoCreateOptions -> Result<string>): (r: Result<string>)
    ensures
      var answer := repo(RepoCreateOptions(input.language, input.address));
      && (r.Ok? <==> answer.Ok?)
      && (r.Ok? ==> r.value == answer.value)
      && (r.Err? ==> r.error == answer.error)
  {
    match repo(RepoCreateOptions(input.language, input.address))
    case Err(e) => Err(e)
    case Ok(id) => Ok(id)
  }

  /** `UpdateAddress`: the repository's updated record or its error. */
  function UpdateAddress(input: UpdateInput, repo: RepoUpdateOptions -> Result<AddressItem>): (r: Result<AddressItem>)
    ensures
      var answer := repo(RepoUpdateOptions(input.language, input.id, input.address));
      && (r.Ok? <==> answer.Ok?)
      && (r.Ok? ==> r.value == answer.value)
      && (r.Err? ==> r.error == answer.error)
  {
    match repo(RepoUpdateOptions(input.language, input.id, input.address))
    case Err(e) => Err(e)
    case Ok(item) => Ok(item)
  }

  /** `DeleteAddress`: the id the repository reports deleted, or its error. */
  function DeleteAddress(input: DeleteInput, repo: RepoByIdOptions -> Result<string>): (r: Result<string>)
    ensures
      var answer := repo(RepoByIdOptions(input.language, input.id));
      && (r.Ok? <==> answer.Ok?)
      && (r.Ok? ==> r.value == answer.value)
      && (r.Err? ==> r.error == answer.error)
  {
    match repo(RepoByIdOptions(input.language, input.id))
    case Err(e) => Err(e)
    case Ok(id) => Ok(id)
  }

  /** The repository's create as the service calls it: the id of the
      record written. */
  function RepositoryCreate(
    mode: string, store: AddressRepository.Store, scan: AddressRepository.Stop,
    now: int, newId: string, setError: Option<string>): RepoCreateOptions -> Result<string>
  {
    (o: RepoCreateOptions) =>
      match AddressRepository.CreateNewAddress(
        mode, AddressRepository.CreateOptions(o.language, o.item), store, scan, now, newId, setError)
      case Err(e) => Err(e)
      case Ok(created) => Ok(created.id)
  }

  /** Creating through the service over the repository: a candidate that
      the duplicate guard rejects is never written, and a written one gets
      the store's id. */
  lemma CreateGoesThroughDuplicateGuard(
    input: CreateInput, mode: string, store: AddressRepository.Store, scan: AddressRepository.Stop,
    now: int, newId: string, setError: Option<string>)
    ensures
      var results := AddressRepository.Take(
        AddressRepository.SameName(store(AddressRepository.CollectionName(mode, input.language)), input.address.name),
        AddressRepository.GetByNameLimit);
      var r := CreateNewAddress(input, RepositoryCreate(mode, store, scan, now, newId, setError));
      && (AddressRepository.CheckDuplicate(input.address, results, scan).Duplicate? ==> r.Err?)
      && (r.Ok? ==> r.value == newId)
  {
  }

  // ----------------------------------------------------------- generation

  datatype GenerateInput = GenerateInput(
    systemPrompt: string,
    prompt: string,
    language: string,
    model: string,
    reasoningEffort: string)

  const GenerationSchemaName := "address_generation"
  const GenerationDescription := "Generate a structured address with metadata"

  /** The language-model call as the service sees it. */
  type Generator = Llm.CompletionOptions -> Result<BatchAddressGenerationSchema>

  /** The completion options the service sends: fixed schema name and
      description, everything else from the input. */
  function GenerationOptions(input: GenerateInput): (o: Llm.CompletionOptions)
    ensures o.schemaName == "address_generation"
    ensures o.description == "Generate a structured address with metadata"
    ensures o.prompt == input.prompt && o.systemPrompt == input.systemPrompt
    ensures o.model == input.model && o.reasoningEffort == input.reasoningEffort
  {
    Llm.CompletionOptions(
      input.prompt, input.systemPrompt, GenerationSchemaName, GenerationDescription,
      input.model, input.reasoningEffort)
  }

  /** A provisional record: the generated content, a fresh id, no
      timestamps. */
  function Draft(g: AddressGenerationSchema, id: string): AddressItem
  {
    AddressItem(id, g.name, g.briefIntro, 0, 0, g.tags, g.address)
  }

  /** The generated content of a record, without identity or timestamps. */
  function Content(x: AddressItem): AddressGenerationSchema
  {
    AddressGenerationSchema(x.name, x.briefIntro, x.tags, x.address)
  }

  /** One draft per generated item, in order; the i-th draft takes the i-th
      id of the supply. */
  function Drafts(batch: seq<AddressGenerationSchema>, freshId: nat -> string): (r: seq<AddressItem>)
    ensures |r| == |batch|
    ensures forall i :: 0 <= i < |r| ==>
      Content(r[i]) == batch[i] && r[i].id == freshId(i) && r[i].createdAt == 0 && r[i].updatedAt == 0
  {
    var r := seq(|batch|, i requires 0 <= i < |batch| => Draft(batch[i], freshId(i)));
    assert forall i :: 0 <= i < |r| ==> r[i] == Draft(batch[i], freshId(i));
    r
  }

  /** Drafts have pairwise distinct ids whenever the id supply never repeats. */
  lemma DraftIdsDistinct(batch: seq<AddressGenerationSchema>, freshId: nat -> string)
    requires forall i: nat, j: nat :: i != j ==> freshId(i) != freshId(j)
    ensures var r := Drafts(batch, freshId);
      forall i, j :: 0 <= i < j < |r| ==> r[i].id != r[j].id
  {
  }

  /** `GenerateNewAddress`: reject the empty prompt, otherwise ask the model
      once and turn each generated item into a draft. */
  function GenerateNewAddress(input: GenerateInput, llm: Generator, freshId: nat -> string): (r: Result<seq<AddressItem>>)
    ensures input.prompt == "" ==> r == Err("prompt cannot be empty")
    ensures input.prompt != "" ==>
      var answer := llm(GenerationOptions(input));
      && (r.Ok? <==> answer.Ok?)
      && (answer.Err? ==> r.error == Wrap("failed to generate address", answer.error))
      && (r.Ok? ==> r.value == Drafts(answer.value.addresses, freshId))
  {
    if input.prompt == "" then Err("prompt cannot be empty")
    else
      match llm(GenerationOptions(input))
      case Err(e) => Err(Wrap("failed to generate address", e))
      case Ok(result) => Ok(Drafts(result.addresses, freshId))
  }

  /** Only the exact empty prompt is refused here; a blank one goes on to
      the model. */
  lemma OnlyEmptyPromptRefused(input: GenerateInput, llm: Generator, freshId: nat -> string)
    requires input.prompt != ""
    requires llm(GenerationOptions(input)).Ok?
    ensures GenerateNewAddress(input, llm, freshId).Ok?
  {
  }

  /** Generation composed with the structured-completion client: a blank
      but non-empty prompt with a blank system prompt passes the service's
      check and is then refused by the client before any backend call. */
  lemma BlankPromptRefusedByClient(
    input: GenerateInput, schema: string,
    backend: Llm.Backend, decode: string -> Result<BatchAddressGenerationSchema>, freshId: nat -> string)
    requires input.prompt != "" && Strings.IsBlank(input.prompt) && Strings.IsBlank(input.systemPrompt)
    ensures
      var llm := (o: Llm.CompletionOptions) => Llm.StructuredCompletion(o, Ok(schema), backend, decode);
      GenerateNewAddress(input, llm, freshId)
        == Err(Wrap("failed to generate address", "no user or system message provided"))
  {
    Llm.BlankPromptsNeverReachBackend(GenerationOptions(input), schema, backend, backend, decode);
  }
}
