/** The persistent store behind the services: one id-keyed table per entity, the
    lookups the repositories offer, and the HTTP session holding the logged-in user. */
module Repositories {
  import opened Common
  import opened Dtos

  /** A row of `properties`. Links to the contract, offer and solicitation live on their side. */
  datatype PropertyRow = PropertyRow(
    location: Option<string>,
    latitude: real,
    longitude: real,
    roomsNumber: int,
    initialPrice: real,
    priceAfterOffer: real,
    rented: bool,
    offerApplied: bool,
    propertyType: Option<PropertyType>,
    propertyStatus: Option<PropertyStatus>,
    imageUrl: Option<string>)

  /** A row of `contracts`, with its `user_id` and `property_id` foreign keys. */
  datatype ContractRow = ContractRow(
    startDate: Option<DateTime>,
    duration: int,
    details: string,
    userId: Uuid,
    propertyId: Uuid)

  /** A row of `offers`. */
  datatype OfferRow = OfferRow(offerProcent: real, propertyId: Uuid)

  /** A row of `solicitations`. */
  datatype SolicitationRow = SolicitationRow(date: Option<DateTime>, userId: Uuid, propertyId: Uuid)

  /** A row of `reviews`. */
  datatype ReviewRow = ReviewRow(message: string, date: Option<DateTime>, userId: Uuid)

  /** A row of `users`: the profile and the role. */
  datatype UserRow = UserRow(
    firstName: Option<string>,
    lastName: Option<string>,
    username: Option<string>,
    password: Option<string>,
    email: Option<string>,
    phoneNumber: Option<string>,
    userRole: Option<UserType>)

  /** The DTO a service returns for a stored property; the nested contract, offer and
      solicitation DTOs are not filled in. */
  function PropertyView(id: Uuid, p: PropertyRow): PropertyDto {
    PropertyDto(id, p.location, p.latitude, p.longitude, p.roomsNumber, p.initialPrice,
      p.priceAfterOffer, p.rented, p.offerApplied, p.propertyType, p.propertyStatus,
      p.imageUrl, None, None, None)
  }

  /** The columns of a property request that a row stores. */
  function PropertyRowOf(d: PropertyDto): PropertyRow {
    PropertyRow(d.location, d.latitude, d.longitude, d.roomsNumber, d.initialPrice,
      d.priceAfterOffer, d.rented, d.offerApplied, d.propertyType, d.propertyStatus, d.imageUrl)
  }

  function ContractView(id: Uuid, c: ContractRow): ContractDto {
    ContractDto(id, c.startDate, c.duration, c.details, c.userId, c.propertyId)
  }

  function ContractRowOf(d: ContractDto): ContractRow {
    ContractRow(d.startDate, d.duration, d.details, d.userId, d.propertyId)
  }

  function OfferView(id: Uuid, o: OfferRow): OfferDto {
    OfferDto(id, o.offerProcent, o.propertyId)
  }

  function SolicitationView(id: Uuid, s: SolicitationRow): SolicitationDto {
    SolicitationDto(id, s.date, s.userId, s.propertyId)
  }

  function ReviewView(id: Uuid, r: ReviewRow): ReviewDto {
    ReviewDto(id, r.message, r.date, r.userId)
  }

  /** The DTO of a stored user; its contract, review and solicitation lists are left empty. */
  function UserView(id: Uuid, u: UserRow): UserDto {
    UserDto(id, u.firstName, u.lastName, u.username, u.password, u.email, u.phoneNumber,
      u.userRole, [], [], [])
  }

  function UserRowOf(d: UserDto): UserRow {
    UserRow(d.firstName, d.lastName, d.username, d.password, d.email, d.phoneNumber, d.userRole)
  }

  /** A row and its id turned into a DTO and back give the row and the id again. */
  lemma ViewsRoundTrip(id: Uuid, p: PropertyRow, c: ContractRow, u: UserRow)
    ensures PropertyRowOf(PropertyView(id, p)) == p && PropertyView(id, p).id == id
    ensures ContractRowOf(ContractView(id, c)) == c && ContractView(id, c).id == id
    ensures UserRowOf(UserView(id, u)) == u && UserView(id, u).id == id
  {
  }

  /** The six tables. */
  class Database {
    var properties: map<Uuid, PropertyRow>
    var contracts: map<Uuid, ContractRow>
    var offers: map<Uuid, OfferRow>
    var solicitations: map<Uuid, SolicitationRow>
    var reviews: map<Uuid, ReviewRow>
    var users: map<Uuid, UserRow>

    constructor ()
      ensures properties == map[] && contracts == map[] && offers == map[]
      ensures solicitations == map[] && reviews == map[] && users == map[]
      ensures RentalConsistent(properties, contracts)
    {
      properties := map[];
      contracts := map[];
      offers := map[];
      solicitations := map[];
      reviews := map[];
      users := map[];
    }
  }

  /** The `HttpSession` attribute "logged_user". */
  class HttpSession {
    var loggedUser: Option<UserDto>

    constructor ()
      ensures loggedUser == None
    {
      loggedUser := None;
    }
  }

  /** `ContractRepository.findByUserId`, as the set of matching ids. */
  function ContractsOfUser(contracts: map<Uuid, ContractRow>, userId: Uuid): (found: set<Uuid>)
    ensures forall cid :: cid in found <==> cid in contracts && contracts[cid].userId == userId
  {
    set cid | cid in contracts && contracts[cid].userId == userId
  }

  /** `SolicitationRepository.findByUserIdAndPropertyId`, as the set of matching ids. */
  function SolicitationsOf(solicitations: map<Uuid, SolicitationRow>, userId: Uuid, propertyId: Uuid): (found: set<Uuid>)
    ensures forall sid :: sid in found <==>
      sid in solicitations && solicitations[sid].userId == userId && solicitations[sid].propertyId == propertyId
  {
    set sid | sid in solicitations && solicitations[sid].userId == userId && solicitations[sid].propertyId == propertyId
  }

  /** `UserRepository.findByUsername`, as the set of matching ids. */
  function UsersNamed(users: map<Uuid, UserRow>, username: string): (found: set<Uuid>)
    ensures forall uid :: uid in found <==> uid in users && users[uid].username == Some(username)
  {
    set uid | uid in users && users[uid].username == Some(username)
  }

  /** Every stored contract is found under its own user and under no other, and saving or
      deleting a contract changes only that contract's membership. */
  lemma ContractsOfUserUpdates(contracts: map<Uuid, ContractRow>, cid: Uuid, row: ContractRow, u: Uuid)
    ensures forall c :: c in contracts ==> c in ContractsOfUser(contracts, contracts[c].userId)
    ensures forall u2 :: u2 != u ==> ContractsOfUser(contracts, u) !! ContractsOfUser(contracts, u2)
    ensures ContractsOfUser(contracts[cid := row], u)
            == (ContractsOfUser(contracts, u) - {cid}) + (if row.userId == u then {cid} else {})
    ensures ContractsOfUser(contracts - {cid}, u) == ContractsOfUser(contracts, u) - {cid}
  {
  }

  /** Every stored solicitation is found under its own (user, property) pair, and saving or
      deleting one changes only that solicitation's membership. */
  lemma SolicitationsOfUpdates(
    solicitations: map<Uuid, SolicitationRow>, sid: Uuid, row: SolicitationRow, u: Uuid, p: Uuid)
    ensures forall s :: s in solicitations ==>
      s in SolicitationsOf(solicitations, solicitations[s].userId, solicitations[s].propertyId)
    ensures SolicitationsOf(solicitations[sid := row], u, p)
            == (SolicitationsOf(solicitations, u, p) - {sid})
               + (if row.userId == u && row.propertyId == p then {sid} else {})
    ensures SolicitationsOf(solicitations - {sid}, u, p) == SolicitationsOf(solicitations, u, p) - {sid}
  {
  }

  /** Every stored user with a username is found under that name and under no other, and
      saving or deleting a user changes only that user's membership. */
  lemma UsersNamedUpdates(users: map<Uuid, UserRow>, uid: Uuid, row: UserRow, name: string)
    ensures forall v :: v in users && users[v].username.Some? ==> v in UsersNamed(users, users[v].username.value)
    ensures forall other :: other != name ==> UsersNamed(users, name) !! UsersNamed(users, other)
    ensures UsersNamed(users[uid := row], name)
            == (UsersNamed(users, name) - {uid}) + (if row.username == Some(name) then {uid} else {})
    ensures UsersNamed(users - {uid}, name) == UsersNamed(users, name) - {uid}
  {
  }

  /** The contract table after the cascade of a property delete: the contracts linked to
      the property are gone, every other contract stays as it was. */
  function ContractsWithoutProperty(contracts: map<Uuid, ContractRow>, pid: Uuid): (cs: map<Uuid, ContractRow>)
    ensures forall c :: c in cs <==> c in contracts && contracts[c].propertyId != pid
    ensures forall c :: c in cs ==> cs[c] == contracts[c]
    ensures !HasContract(cs, pid)
  {
    map c | c in contracts && contracts[c].propertyId != pid :: contracts[c]
  }

  /** The offer table after the cascade of a property delete. */
  function OffersWithoutProperty(offers: map<Uuid, OfferRow>, pid: Uuid): (os: map<Uuid, OfferRow>)
    ensures forall o :: o in os <==> o in offers && offers[o].propertyId != pid
    ensures forall o :: o in os ==> os[o] == offers[o]
  {
    map o | o in offers && offers[o].propertyId != pid :: offers[o]
  }

  /** The solicitation table after the cascade of a property delete. */
  function SolicitationsWithoutProperty(solicitations: map<Uuid, SolicitationRow>, pid: Uuid)
    : (ss: map<Uuid, SolicitationRow>)
    ensures forall s :: s in ss <==> s in solicitations && solicitations[s].propertyId != pid
    ensures forall s :: s in ss ==> ss[s] == solicitations[s]
    ensures forall u :: SolicitationsOf(ss, u, pid) == {}
  {
    map s | s in solicitations && solicitations[s].propertyId != pid :: solicitations[s]
  }

  /** Some contract is linked to the property. */
  predicate HasContract(contracts: map<Uuid, ContractRow>, propertyId: Uuid) {
    exists cid :: cid in contracts && contracts[cid].propertyId == propertyId
  }

  /** The rental link: a stored property is rented exactly when a contract is
      linked to it, and no property carries two contracts. */
  predicate RentalConsistent(properties: map<Uuid, PropertyRow>, contracts: map<Uuid, ContractRow>) {
    (forall pid :: pid in properties ==> (properties[pid].rented <==> HasContract(contracts, pid)))
    && (forall c1, c2 ::
          c1 in contracts && c2 in contracts && contracts[c1].propertyId == contracts[c2].propertyId ==> c1 == c2)
  }

  /** Under the rental link a stored property is rented exactly when it has one contract,
      and then that contract is the only one. */
  lemma RentedPropertyHasOneContract(properties: map<Uuid, PropertyRow>, contracts: map<Uuid, ContractRow>, pid: Uuid)
    requires RentalConsistent(properties, contracts) && pid in properties
    ensures properties[pid].rented <==>
      exists cid :: cid in contracts && contracts[cid].propertyId == pid
                    && forall c :: c in contracts && contracts[c].propertyId == pid ==> c == cid
  {
    if properties[pid].rented {
      var cid :| cid in contracts && contracts[cid].propertyId == pid;
      assert forall c :: c in contracts && contracts[c].propertyId == pid ==> c == cid;
    }
  }
}
