/** `SolicitationService`: customers' requests to rent a property. */
module SolicitationService {
  import opened Common
  import opened Dtos
  import opened Repositories

  /** `doesSolicitationExist`: the user has already asked for the property. */
  function DoesSolicitationExist(db: Database, userId: Uuid, propertyId: Uuid): (b: bool)
    reads db
    ensures b <==> (exists sid :: sid in db.solicitations
                      && db.solicitations[sid].userId == userId && db.solicitations[sid].propertyId == propertyId)
  {
    SolicitationsOf(db.solicitations, userId, propertyId) != {}
  }

  /** `getAllSolicitationsCustomer`: the session user's solicitations. */
  function GetAllSolicitationsCustomer(db: Database, loggedUser: Option<UserDto>): (r: Result<set<SolicitationDto>>)
    reads db
    ensures loggedUser.None? <==> r == Err(IllegalState("Customer ID not found in session"))
    ensures r.Ok? ==> forall d :: d in r.value <==>
      d.id in db.solicitations && d == SolicitationView(d.id, db.solicitations[d.id]) && d.userId == loggedUser.value.id
  {
    match loggedUser
    case None => Err(IllegalState("Customer ID not found in session"))
    case Some(u) =>
      Ok(set sid | sid in db.solicitations && db.solicitations[sid].userId == u.id
                 :: SolicitationView(sid, db.solicitations[sid]))
  }

  /** `getSolicitationById`. */
  function GetSolicitationById(db: Database, id: Uuid): (r: Result<SolicitationDto>)
    reads db
    ensures r.Ok? <==> id in db.solicitations
    ensures r.Ok? ==> r.value == SolicitationView(id, db.solicitations[id]) && r.value.id == id
    ensures r.Err? ==> r.error == SolicitationNotFound
  {
    if id in db.solicitations then Ok(SolicitationView(id, db.solicitations[id])) else Err(SolicitationNotFound)
  }

  /** `getSolicitationByIdCustomer`: the solicitation, only when it belongs to the session user. */
  function GetSolicitationByIdCustomer(db: Database, loggedUser: Option<UserDto>, id: Uuid): (r: Result<SolicitationDto>)
    reads db
    ensures loggedUser.None? ==> r == Err(NullReference)
    ensures loggedUser.Some? ==>
      (r.Ok? <==> id in db.solicitations && db.solicitations[id].userId == loggedUser.value.id)
    ensures loggedUser.Some? && r.Err? ==> r.error == SolicitationNotFound
    ensures r.Ok? ==> r == GetSolicitationById(db, id) && r.value.userId == loggedUser.value.id
  {
    match loggedUser
    case None => Err(NullReference)
    case Some(u) =>
      if id in db.solicitations && db.solicitations[id].userId == u.id then
        Ok(SolicitationView(id, db.solicitations[id]))
      else Err(SolicitationNotFound)
  }

  /** `createSolicitationCustomer`: a logged-in user asks for a property. The request's
      date and user are replaced by now and the session user. A repeated request, an
      unknown property and a rented property are refused, in that order. */
  method CreateSolicitationCustomer(
    db: Database, dto: SolicitationDto, loggedUser: Option<UserDto>, now: DateTime, freshId: Uuid)
    returns (r: Result<SolicitationDto>)
    requires freshId !in db.solicitations
    modifies db`solicitations
    ensures loggedUser.None? ==> r == Err(IllegalState("User not logged in or user ID not found in session"))
    ensures (loggedUser.Some? && old(DoesSolicitationExist(db, loggedUser.value.id, dto.propertyId)))
      ==> r == Err(IllegalState("You have already requested this property."))
    ensures (loggedUser.Some? && !old(DoesSolicitationExist(db, loggedUser.value.id, dto.propertyId))
             && dto.propertyId !in db.properties) ==> r == Err(PropertyNotFound)
    ensures (loggedUser.Some? && !old(DoesSolicitationExist(db, loggedUser.value.id, dto.propertyId))
             && dto.propertyId in db.properties && db.properties[dto.propertyId].rented)
      ==> r == Err(IllegalArgument("Property is not available!"))
    ensures r.Ok? <==> (loggedUser.Some? && !old(DoesSolicitationExist(db, loggedUser.value.id, dto.propertyId))
                        && dto.propertyId in db.properties && !db.properties[dto.propertyId].rented)
    ensures r.Err? ==> db.solicitations == old(db.solicitations)
    ensures r.Ok? ==> (r.value == SolicitationDto(freshId, Some(now), loggedUser.value.id, dto.propertyId)
                       && db.solicitations == old(db.solicitations)[freshId :=
                            SolicitationRow(Some(now), loggedUser.value.id, dto.propertyId)])
    ensures r.Ok? ==> DoesSolicitationExist(db, loggedUser.value.id, dto.propertyId)
  {
    var request := dto.(date := Some(now));
    if loggedUser.None? {
      return Err(IllegalState("User not logged in or user ID not found in session"));
    }
    request := request.(userId := loggedUser.value.id);
    if DoesSolicitationExist(db, loggedUser.value.id, request.propertyId) {
      return Err(IllegalState("You have already requested this property."));
    }
    if request.propertyId !in db.properties {
      return Err(PropertyNotFound);
    }
    var property := db.properties[request.propertyId];
    if property.rented {
      return Err(IllegalArgument("Property is not available!"));
    }
    db.solicitations := db.solicitations[freshId := SolicitationRow(request.date, request.userId, request.propertyId)];
    assert db.solicitations[freshId].userId == loggedUser.value.id;
    r := Ok(SolicitationView(freshId, db.solicitations[freshId]));
  }

  /** `deleteSolicitationAdmin`. */
  method DeleteSolicitationAdmin(db: Database, id: Uuid) returns (r: Result<()>)
    modifies db`solicitations
    ensures r.Ok? <==> id in old(db.solicitations)
    ensures r.Err? ==> r.error == SolicitationNotFound && db.solicitations == old(db.solicitations)
    ensures r.Ok? ==> db.solicitations == old(db.solicitations) - {id}
  {
    if id !in db.solicitations {
      return Err(SolicitationNotFound);
    }
    db.solicitations := db.solicitations - {id};
    r := Ok(());
  }

  /** `deleteSolicitationCustomer`: only a solicitation of the session user is removed. */
  method DeleteSolicitationCustomer(db: Database, loggedUser: Option<UserDto>, id: Uuid) returns (r: Result<()>)
    modifies db`solicitations
    ensures loggedUser.None? ==> r == Err(IllegalState("User not logged in"))
    ensures r.Ok? <==> (loggedUser.Some? && id in old(db.solicitations)
                        && old(db.solicitations)[id].userId == loggedUser.value.id)
    ensures loggedUser.Some? && r.Err? ==> r.error == SolicitationNotFound
    ensures r.Err? ==> db.solicitations == old(db.solicitations)
    ensures r.Ok? ==> db.solicitations == old(db.solicitations) - {id}
  {
    if loggedUser.None? {
      return Err(IllegalState("User not logged in"));
    }
    if !(id in db.solicitations && db.solicitations[id].userId == loggedUser.value.id) {
      return Err(SolicitationNotFound);
    }
    db.solicitations := db.solicitations - {id};
    r := Ok(());
  }

  /** The same user asking twice for the same property: the second request is refused
      as a repeat and stores nothing. */
  method SolicitTwice(db: Database, dto: SolicitationDto, loggedUser: Option<UserDto>, now: DateTime,
                      id1: Uuid, id2: Uuid)
    returns (first: Result<SolicitationDto>, second: Result<SolicitationDto>)
    requires id1 !in db.solicitations && id2 !in db.solicitations && id1 != id2
    modifies db`solicitations
    ensures first.Ok? ==> (second == Err(IllegalState("You have already requested this property."))
                           && |db.solicitations| == |old(db.solicitations)| + 1)
  {
    first := CreateSolicitationCustomer(db, dto, loggedUser, now, id1);
    second := CreateSolicitationCustomer(db, dto, loggedUser, now + 1, id2);
  }

  /** One user may ask for two different available properties: both requests succeed. */
  method SolicitTwoProperties(db: Database, a: SolicitationDto, b: SolicitationDto, loggedUser: Option<UserDto>,
                              now: DateTime, id1: Uuid, id2: Uuid)
    returns (first: Result<SolicitationDto>, second: Result<SolicitationDto>)
    requires id1 !in db.solicitations && id2 !in db.solicitations && id1 != id2
    requires loggedUser.Some? && a.propertyId != b.propertyId
    requires a.propertyId in db.properties && !db.properties[a.propertyId].rented
    requires b.propertyId in db.properties && !db.properties[b.propertyId].rented
    requires !DoesSolicitationExist(db, loggedUser.value.id, a.propertyId)
    requires !DoesSolicitationExist(db, loggedUser.value.id, b.propertyId)
    modifies db`solicitations
    ensures first.Ok? && second.Ok?
  {
    first := CreateSolicitationCustomer(db, a, loggedUser, now, id1);
    second := CreateSolicitationCustomer(db, b, loggedUser, now, id2);
  }
}
