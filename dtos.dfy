/** The data-transfer objects the services accept and return. Identifier links
    to other records are plain ids, as in the Java DTOs. */
module Dtos {
  import opened Common

  datatype ContractDto = ContractDto(
    id: Uuid,
    startDate: Option<DateTime>,
    duration: int,
    details: string,
    userId: Uuid,
    propertyId: Uuid)

  datatype OfferDto = OfferDto(id: Uuid, offerProcent: real, propertyId: Uuid)

  datatype SolicitationDto = SolicitationDto(
    id: Uuid,
    date: Option<DateTime>,
    userId: Uuid,
    propertyId: Uuid)

  datatype ReviewDto = ReviewDto(id: Uuid, message: string, date: Option<DateTime>, userId: Uuid)

  datatype PropertyDto = PropertyDto(
    id: Uuid,
    location: Option<string>,
    latitude: real,
    longitude: real,
    roomsNumber: int,
    initialPrice: real,
    priceAfterOffer: real,
    rented: bool,
    offerApplied: bool,
    propertyType: Option<PropertyType>,
    propertyStatus: Option<PropertyStatus>,
    imageUrl: Option<string>,
    rentalContract: Option<ContractDto>,
    priceOffer: Option<OfferDto>,
    propertySolicited: Option<SolicitationDto>)

  datatype UserDto = UserDto(
    id: Uuid,
    firstName: Option<string>,
    lastName: Option<string>,
    username: Option<string>,
    password: Option<string>,
    email: Option<string>,
    phoneNumber: Option<string>,
    userRole: Option<UserType>,
    contracts: seq<ContractDto>,
    reviews: seq<ReviewDto>,
    solicitations: seq<SolicitationDto>)
}
