/** The catalog entities (internal/domain/v1/models/addressItem.go). */
module Models {

  /** A structured postal address. Country, city, line 1 and region are the
      mandatory parts; the others may be empty. */
  datatype Address = Address(
    city: string,
    country: string,
    line1: string,
    line2: string,
    buildingName: string,
    postalCode: string,
    region: string)

  /** One catalog record. `createdAt` and `updatedAt` are Unix seconds. */
  datatype AddressItem = AddressItem(
    id: string,
    name: string,
    briefIntro: string,
    createdAt: int,
    updatedAt: int,
    tags: seq<string>,
    address: Address)

  /** One record as the language model is asked to produce it: the record's
      content without identity or timestamps. */
  datatype AddressGenerationSchema = AddressGenerationSchema(
    name: string,
    briefIntro: string,
    tags: seq<string>,
    address: Address)

  /** The whole structured answer of one generation call. */
  datatype BatchAddressGenerationSchema = BatchAddressGenerationSchema(
    addresses: seq<AddressGenerationSchema>)
}
