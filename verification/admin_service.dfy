/** The admin API's listing service
    (internal/transport/http/v1/admin/services/address.go). The repository
    call is a parameter. */
module AdminAddressService {
  import opened Results
  import opened Models
  import AddressService

  const DefaultPageSize := 100

  datatype GetAddressesInput = GetAddressesInput(language: string, tags: seq<string>, limit: int)
  datatype RepoOptions = RepoOptions(language: string, tags: seq<string>, limit: int)
  datatype GetAddressesOutput = GetAddressesOutput(addresses: seq<AddressItem>, count: int)

  /** The limit passed on: the input when it lies in [1, DefaultPageSize],
      the default otherwise. */
  function ClampLimit(n: int): (r: int)
    ensures 1 <= r <= DefaultPageSize
    ensures 1 <= n <= DefaultPageSize ==> r == n
  {
    if n <= 0 || n > DefaultPageSize then DefaultPageSize else n
  }

  /** The admin limit and the catalog page size are clamped alike. */
  lemma ClampLimitAgreesWithCatalog(n: int)
    ensures ClampLimit(n) == AddressService.ClampPageSize(n)
  {
  }

  function RepoOptionsFor(input: GetAddressesInput): RepoOptions
  {
    RepoOptions(input.language, input.tags, ClampLimit(input.limit))
  }

  /** `GetAddresses`: the repository's records unchanged with their count,
      or the repository's error wrapped. */
  function GetAddresses(input: GetAddressesInput, repo: RepoOptions -> Result<seq<AddressItem>>): (r: Result<GetAddressesOutput>)
    ensures
      var opts := RepoOptionsFor(input);
      && 1 <= opts.limit <= DefaultPageSize
      && opts.language == input.language && opts.tags == input.tags
      && (r.Ok? <==> repo(opts).Ok?)
      && (r.Ok? ==> r.value.addresses == repo(opts).value && r.value.count == |r.value.addresses|)
      && (r.Err? ==> "failed to get addresses" <= r.error)
  {
    match repo(RepoOptionsFor(input))
    case Err(e) => Err(Wrap("failed to get addresses", e))
    case Ok(items) => Ok(GetAddressesOutput(items, |items|))
  }

  /** The limits the service tests exercise: 0 and default + 5 become the
      default, 5 is passed through. */
  lemma TestedLimits()
    ensures ClampLimit(0) == DefaultPageSize
    ensures ClampLimit(DefaultPageSize + 5) == DefaultPageSize
    ensures ClampLimit(5) == 5
  {
  }
}
