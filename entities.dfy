/** The persistent entities as object graphs: a contract holds its user and its
    property, a property holds the contract, offer and solicitation that point
    at it, a user holds its contracts, reviews and solicitations. A value of
    these types is a finite snapshot of such a graph. */
module Entities {
  import opened Common

  datatype Property = Property(
    id: Uuid,
    location: Option<string>,
    latitude: real,
    longitude: real,
    roomsNumber: int,
    initialPrice: real,
    priceAfterOffer: real,
    rented: bool,
    offerApplied: bool,
    propertyType: Option<PropertyType>,
    propertyStatus: Option<PropertyStatus>,
    imageUrl: Option<string>,
    rentalContract: Option<Contract>,
    priceOffer: Option<Offer>,
    propertySolicited: Option<Solicitation>)

  datatype Contract = Contract(
    id: Uuid,
    startDate: Option<DateTime>,
    duration: int,
    details: string,
    user: User,
    property: Property)

  datatype Offer = Offer(id: Uuid, offerProcent: real, property: Property)

  datatype Solicitation = Solicitation(id: Uuid, date: Option<DateTime>, user: User, property: Property)

  datatype Review = Review(id: Uuid, message: string, date: Option<DateTime>, user: User)

  datatype User = User(
    id: Uuid,
    firstName: Option<string>,
    lastName: Option<string>,
    username: Option<string>,
    password: Option<string>,
    email: Option<string>,
    phoneNumber: Option<string>,
    userRole: Option<UserType>,
    contracts: seq<Contract>,
    reviews: seq<Review>,
    solicitations: seq<Solicitation>)

  /** `User.builder().id(id).build()`: every other field keeps its default. */
  function UserStub(id: Uuid): User {
    User(id, None, None, None, None, None, None, None, [], [], [])
  }

  /** `Property.builder().id(id).build()`: numbers are zero, flags false, references absent. */
  function PropertyStub(id: Uuid): Property {
    Property(id, None, 0.0, 0.0, 0, 0.0, 0.0, false, false, None, None, None, None, None, None)
  }
}
