/** Mapping between catalog records and their wire form
    (internal/transport/http/v1/dto/address.go). */
module AddressDto {
  import opened Models
  import AddressService

  datatype AddressDTO = AddressDTO(
    city: string,
    country: string,
    line1: string,
    line2: string,
    buildingName: string,
    postalCode: string,
    region: string)

  datatype AddressItemDTO = AddressItemDTO(
    id: string,
    name: string,
    briefIntro: string,
    tags: seq<string>,
    createdAt: int,
    updatedAt: int,
    address: AddressDTO)

  datatype CreateAddressRequest = CreateAddressRequest(
    language: string,
    name: string,
    briefIntro: string,
    tags: seq<string>,
    address: AddressDTO)

  datatype UpdateAddressRequest = UpdateAddressRequest(
    language: string,
    id: string,
    address: AddressItemDTO)

  datatype GetAllAddressesResponseDTO = GetAllAddressesResponseDTO(
    addresses: seq<AddressItemDTO>,
    totalCount: int,
    lastDocId: string,
    hasMore: bool,
    language: string)

  /** The postal address in wire form, as `ToAddressDTO` builds it. */
  function AddressToDTO(a: Address): AddressDTO
  {
    AddressDTO(a.city, a.country, a.line1, a.line2, a.buildingName, a.postalCode, a.region)
  }

  /** `FromAddressDTO`: the inverse of the wire form of an address. */
  function FromAddressDTO(a: AddressDTO): (r: Address)
    ensures AddressToDTO(r) == a
  {
    Address(a.city, a.country, a.line1, a.line2, a.buildingName, a.postalCode, a.region)
  }

  /** `ToAddressDTO`: every field of the record, its address included,
      survives the mapping back. */
  function ToAddressDTO(x: AddressItem): (r: AddressItemDTO)
    ensures FromAddressDTO(r.address) == x.address
    ensures r.id == x.id && r.createdAt == x.createdAt && r.updatedAt == x.updatedAt
    ensures r.name == x.name && r.briefIntro == x.briefIntro && r.tags == x.tags
  {
    AddressItemDTO(x.id, x.name, x.briefIntro, x.tags, x.createdAt, x.updatedAt, AddressToDTO(x.address))
  }

  /** `ToAddressDTOs`: element i of the output is the wire form of element i
      of the input. */
  function ToAddressDTOs(xs: seq<AddressItem>): (r: seq<AddressItemDTO>)
    ensures |r| == |xs|
    ensures forall i :: 0 <= i < |xs| ==> r[i] == ToAddressDTO(xs[i])
  {
    if |xs| == 0 then []
    else [ToAddressDTO(xs[0])] + ToAddressDTOs(xs[1..])
  }

  /** `ToGetAllAddressesResponseDTO`. */
  function ToGetAllAddressesResponseDTO(output: AddressService.ListOutput, language: string): (r: GetAllAddressesResponseDTO)
    ensures |r.addresses| == |output.addresses|
    ensures r.addresses == ToAddressDTOs(output.addresses)
    ensures r.totalCount == output.totalCount && r.lastDocId == output.lastDocId
    ensures r.hasMore == output.hasMore && r.language == language
  {
    GetAllAddressesResponseDTO(
      ToAddressDTOs(output.addresses), output.totalCount, output.lastDocId, output.hasMore, language)
  }

  /** `FromCreateAddressDTO`: the request's content, with no id and zero
      timestamps. */
  function FromCreateAddressDTO(req: CreateAddressRequest): (r: AddressItem)
    ensures r.id == "" && r.createdAt == 0 && r.updatedAt == 0
    ensures r.name == req.name && r.briefIntro == req.briefIntro && r.tags == req.tags
    ensures AddressToDTO(r.address) == req.address
  {
    AddressItem("", req.name, req.briefIntro, 0, 0, req.tags, FromAddressDTO(req.address))
  }

  /** `FromUpdateAddressDTO`: the record carried in the request body. Its id
      comes from the body, never from the request's top-level id. */
  function FromUpdateAddressDTO(req: UpdateAddressRequest): (r: AddressItem)
    ensures ToAddressDTO(r) == req.address
  {
    var a := req.address;
    AddressItem(a.id, a.name, a.briefIntro, a.createdAt, a.updatedAt, a.tags, FromAddressDTO(a.address))
  }

  /** Record to wire form and back is the identity, id and timestamps
      included, whatever the top-level id says. */
  lemma UpdateRoundTrip(x: AddressItem, language: string, topLevelId: string)
    ensures FromUpdateAddressDTO(UpdateAddressRequest(language, topLevelId, ToAddressDTO(x))) == x
  {
  }

  lemma AddressRoundTrip(a: Address)
    ensures FromAddressDTO(AddressToDTO(a)) == a
  {
  }

  /** The top-level id of an update request is ignored by the mapping. */
  lemma UpdateIgnoresTopLevelId(req: UpdateAddressRequest, otherId: string)
    ensures FromUpdateAddressDTO(req).id == req.address.id
    ensures FromUpdateAddressDTO(req.(id := otherId)) == FromUpdateAddressDTO(req)
  {
  }
}
