# North Post catalog core in Dafny

This project is a Dafny model of the decision logic in the North Post admin backend. The backend keeps a catalog of address records (points of interest), with one collection per language. The model covers:

- **Tag similarity and the near-duplicate guard** (`AddressRepository`). A new record is refused when one of the first ten records with the same name shares more than 60% of the candidate's tags. On success the record is stamped with the store's id and the current time.
- **The repository listing and lookup by id** (`AddressRepository`). The listing applies the optional "any tag" filter and the optional limit, and skips documents that do not decode. Any iteration error fails the whole call.
- **The catalog service façade** (`AddressService`). It clamps the page size, forwards the CRUD calls, and turns generated content into drafts.
- **The admin listing service** (`AdminAddressService`): limit clamping and the record count.
- **The structured-completion client** (`Llm`). It covers the default model, which messages are sent, reasoning-effort gating and error outcomes.
- **Wire mapping of records** (`AddressDto`) and its round trips.
- **Language validation and keys** (`Languages`, `AdminLanguages`) and the prompt lookup (`PromptRepository`).
- **The Bearer authorization check** of the admin middleware (`AdminAuth`).

Everything is a pure function. External effects are parameters:

- The document store is a function from a collection name to its documents in store order. The end of an iteration is a `Stop` value (`Done`, or broken after k results).
- The chat backend, the JSON-schema generator and the JSON decoder are parameters of `Llm.StructuredCompletion`.
- The repository calls seen by the services are function parameters.
- The UUID supply is a function from the draft's index to an id.
- The clock is a `now` value, and the store-assigned document id is a `newId` value.
- The ID-token verifier is a function from token to `Result<Token>`.
- The `MODE` environment variable is a `mode` parameter.

A statement that some collaborator "is not called" is proved by showing the result is the same fixed error whatever that collaborator would answer.

Three behaviours of the program are worth stating up front:

- Generation refuses only the exact empty prompt, not a blank one. `AddressService.OnlyEmptyPromptRefused` states this. `AddressService.BlankPromptRefusedByClient` shows that a blank prompt is refused one layer down, and only when the system prompt is blank too.
- The repository's `GetAllAddresses` (internal/repository/address.go) has no ordering, cursor, total count or has-more logic; pagination is a TODO at its line 57. The service's repository interface (internal/services/address.go:17-23) expects a response type with those fields, which that file does not define; the service only copies them.
- An empty candidate tag list is not guarded. It gives NaN in float32, which never exceeds the limit, so such a candidate is never refused.

## Model

| member | source | states |
|---|---|---|
| AddressRepository.CompareTags | internal/repository/address.go:165-173 | the score's denominator is the candidate's length and its numerator never exceeds it, so a non-empty candidate scores in [0,1] |
| AddressRepository.SameTagCount | internal/repository/address.go:166-171 | the matched count never exceeds the number of candidate tags |
| AddressRepository.SameTagCountCountsPositions | internal/repository/address.go:166-171 | the score's numerator equals the number of candidate positions (multiplicity counted) whose tag occurs among the existing tags |
| AddressRepository.FullScoreIffAllFound | internal/repository/address.go:165-172 | the score is 1 exactly when every candidate tag occurs among the existing tags (both directions) |
| AddressRepository.ScoreMonotoneInExisting | internal/repository/address.go:166-172 | giving the existing record more tags never lowers the score |
| AddressRepository.ScoreIsAsymmetric | internal/repository/address.go:165-173 | the score is not symmetric: {a} vs {a,b} scores 1, {a,b} vs {a} scores 1/2 |
| AddressRepository.EmptyCandidateNeverExceeds | internal/repository/address.go:172 | an empty candidate list scores NaN (0/0), which never exceeds the limit |
| AddressRepository.LimitIsStrict | internal/repository/address.go:19 | the 0.6 limit is strict: 3 of 5 passes, 2 of 3 is refused, 1 of 3 passes |
| AddressRepository.ThreeTagScenario | internal/repository/address.go:140-141 | candidate tags {a,b,c} are refused against {a,b} (2/3) and allowed against {a} (1/3) |
| AddressRepository.RoundedPercent | internal/repository/address.go:142 | the percentage in the refusal message is an integer nearest to 100 * same / total, the even one on an exact tie |
| AddressRepository.RoundedPercentExamples | internal/repository/address.go:142 | 2 of 3 reports 67 and the exact tie 5 of 8 (62.5) reports 62 |
| AddressRepository.ExceedsLimit | internal/repository/address.go:141 | the integer test holds iff the total is positive and the real ratio same / total is greater than 0.6; a zero total (NaN) never exceeds |
| AddressRepository.RatioAboveLimit | internal/repository/address.go:141 | for a positive total, same / total > 0.6 iff 5 * same > 3 * total |
| AddressRepository.DuplicateMessage | internal/repository/address.go:142 | the refusal message starts with "address with name '", contains the candidate's name and contains the rounded percentage |
| AddressRepository.FirstRejecting | internal/repository/address.go:126-144 | the scan stops at the first decodable record whose similarity exceeds the limit; no record before it refuses |
| AddressRepository.SameName | internal/repository/address.go:123 | the same-name query yields only records with the candidate's name and misses none of them |
| AddressRepository.SameNameExact | internal/repository/address.go:123 | the query keeps store order and each record's multiplicity: it is the stored sequence with exactly the other-named records left out |
| AddressRepository.CheckDuplicate | internal/repository/address.go:123-144 | refuses iff some decodable record delivered before the iteration ended exceeds the limit; undecodable records never refuse; an iteration error fails with the wrapped error only when nothing refused first; a refusal's message names the candidate and reports the rounded score of the first refusing record |
| AddressRepository.Stamp | internal/repository/address.go:145-151 | the written record has the store's id, createdAt == updatedAt == now, and every other field from the input |
| AddressRepository.Commit | internal/repository/address.go:140-157 | a refusal or a scan failure is returned with its own text; after a clear scan a failed write is wrapped as "failed to create address", and a successful one returns the store's id with the stamped record in the given collection |
| AddressRepository.CreateNewAddress | internal/repository/address.go:120-158 | succeeds iff the bounded duplicate scan is clear and the write succeeds; on success the id returned is the stored record's id, the record is written to the language's collection, and client-supplied id and timestamps are overwritten |
| AddressRepository.RejectionHasWitness | internal/repository/address.go:123-143 | when the guard refuses, the create fails with a message naming the candidate, and some stored same-name record justifies the refusal |
| AddressRepository.EmptyTagsNeverDuplicate | internal/repository/address.go:140-141 | a candidate without tags is never refused as a duplicate |
| AddressRepository.QueryIgnoresRecordsPastCap | internal/repository/address.go:123 | once ten same-name records exist, records appended after them do not change the bounded query's results |
| AddressRepository.ScanIgnoresRecordsPastCap | internal/repository/address.go:123-144 | once ten same-name records exist, records added after them never change the create's outcome |
| AddressRepository.FilterByTags | internal/repository/address.go:62-64 | the "any tag" filter yields only documents sharing a tag with the list and misses none of them; with an empty list it keeps everything |
| AddressRepository.FilterByTagsExact | internal/repository/address.go:62-64 | the filter keeps store order and each document's multiplicity: it is the stored sequence with exactly the unselected documents left out |
| AddressRepository.QueryResults | internal/repository/address.go:62-67 | the query yields a prefix of the filtered documents: the first `limit` of them (all when fewer) for a positive limit, and all of them otherwise |
| AddressRepository.DecodedItems | internal/repository/address.go:82-88 | every listed record comes from a document that decoded to it, every decodable document's record is listed, and nothing is dropped when all documents decode |
| AddressRepository.DecodedItemsSingleton | internal/repository/address.go:82-88 | one document contributes its record when it decodes and nothing when it does not |
| AddressRepository.DecodedItemsAppend | internal/repository/address.go:71-89 | the records of two runs of documents are the records of the first run followed by those of the second, so store order and multiplicity are kept |
| AddressRepository.GetAllAddresses | internal/repository/address.go:58-94 | fails, with no partial list, iff the iteration breaks; otherwise the list is exactly the records of the decodable documents among the filtered, limited query results, in query order (the limit is applied before undecodable documents are skipped): at most `limit` records (when positive), each from a decodable selected document of the language's collection, an order-preserving subsequence of the collection's decodable records; with no positive limit every decodable selected document is listed |
| AddressRepository.UnfilteredUnlimitedListsAll | internal/repository/address.go:62-67 | with no tags and no positive limit the listing returns every decodable record of the collection |
| AddressRepository.GetAddressById | internal/repository/address.go:97-113 | a read failure gives "failed to get address with ID <id>", an undecodable document gives the wrapped parse error, otherwise the decoded record from the language's collection |
| AddressRepository.CollectionName | internal/repository/address.go:161-163 | the collection name ends with the language's lower-case key |
| AddressRepository.CollectionsPartitionByLanguage | internal/repository/address.go:161-163 | distinct supported languages use distinct collections |
| AddressService.ClampPageSize | internal/services/address.go:105-108 | the page size passed on is always in [1,100] and equals the input when the input is in range |
| AddressService.ClampPageSizeIdempotent | internal/services/address.go:105-108 | clamping a clamped page size changes nothing |
| AddressService.ClampPageSizeOutOfRange | internal/services/address.go:106-107 | every page size <= 0 or > 100 becomes 100 |
| AddressService.GetAllAddresses | internal/services/address.go:104-126 | language, tags and cursor are forwarded unchanged with a page size in [1,100]; the output exists iff the repository call succeeds, copying addresses, total count, last doc id and has-more verbatim; the repository's error is returned as is |
| AddressService.GetAddressById | internal/services/address.go:128-138 | forwards language and id; the output is the repository's record, and an error exactly when the repository errs |
| AddressService.CreateNewAddress | internal/services/address.go:140-150 | forwards language and record; returns the repository's id, and an error exactly when the repository errs |
| AddressService.UpdateAddress | internal/services/address.go:152-163 | forwards language, id and record; returns the repository's record, and an error exactly when the repository errs |
| AddressService.DeleteAddress | internal/services/address.go:165-175 | forwards language and id; returns the repository's id, and an error exactly when the repository errs |
| AddressService.CreateGoesThroughDuplicateGuard | internal/services/address.go:140-150 | over the repository model, a create the duplicate guard refuses fails, and a successful one returns the store-assigned id |
| AddressService.GenerationOptions | internal/services/address.go:183-191 | schema name "address_generation" and the fixed description; system prompt, prompt, model and effort passed through unchanged |
| AddressService.Drafts | internal/services/address.go:198-208 | one draft per generated item in the same order, each with the item's content, the i-th fresh id, and zero timestamps |
| AddressService.DraftIdsDistinct | internal/services/address.go:199-206 | when the id supply never repeats, the drafts' ids are pairwise distinct |
| AddressService.GenerateNewAddress | internal/services/address.go:177-210 | the empty prompt fails with "prompt cannot be empty" whatever the model would answer; otherwise the output exists iff the model call succeeds, and is the drafts of its items; a model error is wrapped |
| AddressService.OnlyEmptyPromptRefused | internal/services/address.go:179-181 | any non-empty prompt, blank ones included, gets past the service's check |
| AddressService.BlankPromptRefusedByClient | internal/services/address.go:179-196 | with the real client, a blank prompt and a blank system prompt fail with the client's "no message" error and no backend call |
| AdminAddressService.ClampLimit | internal/transport/http/v1/admin/services/address.go:46-49 | the limit passed on is always in [1,100] and equals the input when in range |
| AdminAddressService.ClampLimitAgreesWithCatalog | internal/transport/http/v1/admin/services/address.go:11-49 | the admin limit is clamped exactly like the catalog page size |
| AdminAddressService.GetAddresses | internal/transport/http/v1/admin/services/address.go:45-62 | forwards language and tags with a clamped limit; on success the records are returned unchanged with count = their number; on failure the error starts with "failed to get addresses" |
| AdminAddressService.TestedLimits | internal/services/address_test.go:39-158 | limit 0 and limit default+5 become the default; limit 5 is passed through |
| Llm.ChooseModel | internal/infra/llm.go:54-57 | the model is never empty and is the given one whenever one is given |
| Llm.EffortFor | internal/infra/llm.go:84-91 | an effort is attached iff the model starts with "gpt-5"; it is the given effort when one is given and "low" otherwise |
| Llm.Messages | internal/infra/llm.go:66-72 | a system message iff the system prompt is not blank, a user message iff the prompt is not blank, system first, texts untrimmed |
| Llm.BuildRequest | internal/infra/llm.go:49-91 | a schema failure is wrapped; otherwise the request fails iff both prompts are blank; a built request has a strict schema with the given name and description, the chosen model, the gated effort and at least one message |
| Llm.Dispatch | internal/infra/llm.go:93-109 | a build error is passed on; a backend error, an empty choice list and a decode failure each give their own error; otherwise the result is the decoding of the first choice |
| Llm.StructuredCompletion | internal/infra/llm.go:43-110 | a schema failure gives the wrapped schema error; with both prompts blank the call fails with "no user or system message provided"; a result exists only with a schema and a non-blank prompt |
| Llm.BlankPromptsNeverReachBackend | internal/infra/llm.go:73-76 | with both prompts blank the call fails the same way whatever the backend would answer |
| Llm.OnlyFirstChoiceMatters | internal/infra/llm.go:99-109 | two backends whose first choices agree give the same result for the same request |
| Llm.ModelAndEffortDefaults | internal/infra/llm.go:54-91 | no model means "gpt-5-mini" with effort "low"; a given effort is kept; a non-gpt-5 model gets no effort |
| AddressDto.FromAddressDTO | internal/transport/http/v1/dto/address.go:97-107 | mapping an address back to wire form gives the DTO it came from |
| AddressDto.AddressRoundTrip | internal/transport/http/v1/dto/address.go:97-119 | wire form then back is the identity on addresses |
| AddressDto.ToAddressDTO | internal/transport/http/v1/dto/address.go:109-129 | id, name, brief intro, tags and timestamps are kept, and the address maps back to the original |
| AddressDto.ToAddressDTOs | internal/transport/http/v1/dto/address.go:131-137 | same length as the input, element i is the wire form of input i |
| AddressDto.ToGetAllAddressesResponseDTO | internal/transport/http/v1/dto/address.go:139-147 | total count, last doc id and has-more copied, language set to the argument, and the records are the element-wise wire forms of the listed records |
| AddressDto.FromCreateAddressDTO | internal/transport/http/v1/dto/address.go:149-156 | copies name, brief intro, tags and address; id and timestamps are zero |
| AddressDto.FromUpdateAddressDTO | internal/transport/http/v1/dto/address.go:158-169 | the result maps back to the request body's record exactly |
| AddressDto.UpdateRoundTrip | internal/transport/http/v1/dto/address.go:109-169 | a record sent as an update body comes back unchanged, id and timestamps included |
| AddressDto.UpdateIgnoresTopLevelId | internal/transport/http/v1/dto/address.go:158-161 | the id comes from the body, and the top-level id has no effect |
| Languages.Validate | internal/transport/http/v1/dto/language.go:20-27 | passes iff the language is in SupportedLanguages; otherwise the message is "unsupported language: <l>" |
| Languages.ValidateIsCaseSensitive | internal/transport/http/v1/dto/language.go:15-26 | "EN" and "ZH" pass; "en", "zh", "En" and "" fail |
| Languages.Get | internal/transport/http/v1/dto/language.go:29-31 | the key has the language's length; each upper-case letter becomes its lower-case letter and every other character is kept |
| Languages.GetOfSupported | internal/transport/http/v1/dto/language.go:29-31 | Get(EN) is "en" and Get(ZH) is "zh" |
| Languages.GetIdempotent | internal/transport/http/v1/dto/language.go:29-31 | taking the key of a key changes nothing |
| Languages.GetSeparatesSupported | internal/transport/http/v1/dto/language.go:10-31 | two supported languages have the same key iff they are the same language |
| AdminLanguages.Occurs | internal/transport/http/v1/admin/models/address.go:26-31 | the search succeeds iff some element equals the language exactly |
| AdminLanguages.IsValid | internal/transport/http/v1/admin/models/address.go:25-32 | holds iff the language is exactly "ZH" or "EN" |
| AdminLanguages.Validate | internal/transport/http/v1/admin/models/address.go:18-23 | passes iff IsValid; the error message contains the rejected language |
| AdminLanguages.AgreesWithPublicValidation | internal/transport/http/v1/admin/models/address.go:9-32 | the admin check and the public API's check accept exactly the same languages |
| PromptRepository.PromptLanguage | internal/repository/prompts.go:70-75 | the document key is always "en" or "zh": the language's key when it is supported, "en" otherwise |
| PromptRepository.GetSystemPrompt | internal/repository/prompts.go:39-56 | a read failure gives "failed to get prompt"; a missing or non-string key gives "prompt key missing or not a string"; otherwise the string stored under the key in the language's document |
| PromptRepository.GetSystemAddressGenerationPrompt | internal/repository/prompts.go:59-67 | looks up exactly the key "address_generation" |
| PromptRepository.UnsupportedLanguageReadsEnglish | internal/repository/prompts.go:70-73 | an unsupported language gets exactly the English answer |
| AdminAuth.Authorize | internal/transport/http/v1/middleware/admin_middleware.go:19-58 | an empty header aborts with 401 and "Authorization header required."; every abort is 401; the request continues iff the header is "Bearer " plus a space-free token the verifier accepts, with user_id the token's UID; a verifier error aborts with its message; any other shape aborts with "Authorization header format must be Bearer…" |
| AdminAuth.BearerShape | internal/transport/http/v1/middleware/admin_middleware.go:34-46 | the split is ["Bearer", t] with two parts iff the header is "Bearer " + t for some space-free t, and then the second part is that token |
| AdminAuth.RefusedTestHeaders | internal/transport/http/v1/middleware/admin_middleware_test.go:59-103 | a missing header, "InvalidToken123" and "Basic token123" are all aborted |
| AdminAuth.VerifierDecidesWellFormed | internal/transport/http/v1/middleware/admin_middleware.go:46-57 | for a well-formed header the verifier is given exactly the token, and its answer decides between continue and abort |
| Strings.Split | internal/transport/http/v1/middleware/admin_middleware.go:34 | the parts contain no separator and joining them back gives the header |
| Strings.SplitJoin | internal/transport/http/v1/middleware/admin_middleware.go:34 | splitting a join of separator-free parts gives those parts back |
| Strings.TrimSpace | internal/infra/llm.go:67-70 | trimming gives "" exactly when the text is all white space |
| Strings.ToLower | internal/transport/http/v1/dto/language.go:30 | each ASCII upper-case letter becomes its lower-case letter and every other character is kept |

## Left out

- I/O and plumbing are not modelled: Firestore and Firebase clients, the OpenAI HTTP call, logging, `fmt.Println`, contexts and cancellation, Gin handlers, routing, JSON binding, and the startup code. The store, backend, schema generator, decoder, verifier, clock and id supply are parameters.
- The race between the duplicate check and the write is not modelled, because each call is a pure function of one store snapshot.
- The store's own refusals (such as too many filter values in `array-contains-any`) are not modelled; they reach the model only as a broken iteration. The store's iteration order is taken as given: a collection is a sequence in that order.
- Listing order, cursors, total count and has-more are not modelled: internal/repository/address.go's `GetAllAddresses` has no such logic, and the response type with those fields that the service's repository interface expects is not defined there. The service only copies them.
- AddressRepository.RoundedPercent: the percentage uses exact rational arithmetic. The source rounds the float32 product, which can differ by one for ratios that float32 cannot represent exactly.
- AddressRepository.ExceedsLimit: the test `similarity > 0.6` is the exact comparison `5 * same > 3 * total`. Float32 rounding could differ from it only for very long tag lists.
- Strings.ToLower: only ASCII letters are lowered. Go lowers all Unicode letters, which only matters for non-ASCII language codes, and those never validate.
- Strings.TrimSpace: strings are sequences of code points. Invalid UTF-8 bytes are not modelled.
- Integer widths are not modelled: timestamps (`int64`), page sizes and limits (`int`) and counts are unbounded integers, and no overflow is modelled.
- A repository call that returns a nil record with a nil error is not modelled, because it would make the Go service dereference nil.
- The admin `dto/address.go` is not modelled: it does not compile (undefined `Language`), and `dto/address.go` already covers its field projection.
- `person.go` is not modelled, because it duplicates `AddressItem`.
- The sign-in path (`repository/user.go`, `services/user.go`) is outside this model.
- Repository update and delete are not modelled, because no such code appears in the repository file; the service forwards them to repository methods outside this model.
