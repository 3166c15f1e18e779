/** `PropertyService`: the property catalogue and its field rules. */
module PropertyService {
  import opened Common
  import opened Dtos
  import opened Strings
  import opened Repositories
  import Entities
  import PropertyBuilder

  /** `isValidLatitude`: within [-90, 90], both ends included. */
  predicate IsValidLatitude(latitude: real) {
    latitude >= -90.0 && latitude <= 90.0
  }

  /** `isValidLongitude`: within [-180, 180], both ends included. */
  predicate IsValidLongitude(longitude: real) {
    longitude >= -180.0 && longitude <= 180.0
  }

  /** The coordinate bounds are inclusive. */
  lemma CoordinateBoundsInclusive()
    ensures IsValidLatitude(90.0) && IsValidLatitude(-90.0) && IsValidLongitude(180.0) && IsValidLongitude(-180.0)
    ensures forall x :: x > 90.0 || x < -90.0 ==> !IsValidLatitude(x)
    ensures forall x :: x > 180.0 || x < -180.0 ==> !IsValidLongitude(x)
  {
  }

  /** The first rule of `createProperty` the request breaks, if any: location length
      (the location is dereferenced, so an absent one fails), rooms, price, coordinates. */
  function CreatePropertyError(dto: PropertyDto): (e: Option<Error>)
    ensures e.None? <==> (dto.location.Some? && |dto.location.value| <= 50 && dto.roomsNumber > 0
                          && dto.initialPrice > 0.0 && IsValidLatitude(dto.latitude) && IsValidLongitude(dto.longitude))
    ensures dto.location.None? ==> e == Some(NullReference)
    ensures dto.location.Some? && |dto.location.value| > 50 ==>
      e == Some(IllegalArgument("Location must be 50 characters or less."))
    ensures dto.location.Some? && |dto.location.value| <= 50 && dto.roomsNumber <= 0 ==>
      e == Some(IllegalArgument("Rooms number must be greater than 0."))
    ensures dto.location.Some? && |dto.location.value| <= 50 && dto.roomsNumber > 0 && dto.initialPrice <= 0.0 ==>
      e == Some(IllegalArgument("Initial price must be greater than 0."))
    ensures (dto.location.Some? && |dto.location.value| <= 50 && dto.roomsNumber > 0 && dto.initialPrice > 0.0
             && !(IsValidLatitude(dto.latitude) && IsValidLongitude(dto.longitude))) ==>
      e == Some(IllegalArgument("Invalid latitude or longitude values."))
    ensures e.Some? && e.value.IllegalArgument? ==> dto.location.Some?
  {
    if dto.location.None? then Some(NullReference)
    else if |dto.location.value| > 50 then Some(IllegalArgument("Location must be 50 characters or less."))
    else if dto.roomsNumber <= 0 then Some(IllegalArgument("Rooms number must be greater than 0."))
    else if dto.initialPrice <= 0.0 then Some(IllegalArgument("Initial price must be greater than 0."))
    else if !IsValidLatitude(dto.latitude) || !IsValidLongitude(dto.longitude) then
      Some(IllegalArgument("Invalid latitude or longitude values."))
    else None
  }

  /** The row `createProperty` stores: the request's columns, except that a request
      without a contract is not rented and one without an offer keeps its initial price. */
  function CreatedRow(dto: PropertyDto): (p: PropertyRow)
    ensures dto.rentalContract.None? ==> !p.rented
    ensures dto.rentalContract.Some? ==> p.rented == dto.rented
    ensures dto.priceOffer.None? ==> p.priceAfterOffer == dto.initialPrice && !p.offerApplied
    ensures dto.priceOffer.Some? ==> p.priceAfterOffer == dto.priceAfterOffer && p.offerApplied == dto.offerApplied
    ensures p.(rented := dto.rented, priceAfterOffer := dto.priceAfterOffer, offerApplied := dto.offerApplied)
            == PropertyRowOf(dto)
  {
    var p := PropertyRowOf(dto);
    var p := if dto.rentalContract.None? then p.(rented := false) else p;
    if dto.priceOffer.None? then p.(priceAfterOffer := p.initialPrice, offerApplied := false) else p
  }

  /** `createProperty`. */
  method CreateProperty(db: Database, dto: PropertyDto, freshId: Uuid) returns (r: Result<PropertyDto>)
    requires freshId !in db.properties
    modifies db`properties
    ensures r.Err? <==> CreatePropertyError(dto).Some?
    ensures r.Err? ==> r.error == CreatePropertyError(dto).value && db.properties == old(db.properties)
    ensures r.Ok? ==> (db.properties == old(db.properties)[freshId := CreatedRow(dto)]
                       && r.value == PropertyView(freshId, CreatedRow(dto)))
  {
    if dto.location.None? {
      return Err(NullReference);
    }
    if |dto.location.value| > 50 {
      return Err(IllegalArgument("Location must be 50 characters or less."));
    }
    if dto.roomsNumber <= 0 {
      return Err(IllegalArgument("Rooms number must be greater than 0."));
    }
    if dto.initialPrice <= 0.0 {
      return Err(IllegalArgument("Initial price must be greater than 0."));
    }
    if !IsValidLatitude(dto.latitude) || !IsValidLongitude(dto.longitude) {
      return Err(IllegalArgument("Invalid latitude or longitude values."));
    }
    var property := PropertyRowOf(dto);
    if dto.rentalContract.None? {
      property := property.(rented := false);
    }
    if dto.priceOffer.None? {
      property := property.(priceAfterOffer := property.initialPrice, offerApplied := false);
    }
    db.properties := db.properties[freshId := property];
    r := Ok(PropertyView(freshId, property));
  }

  /** `String.valueOf(rooms).matches("\\d+")`: the decimal rendering is all digits. */
  predicate RoomsTextIsDigits(rooms: int) {
    forall k :: 0 <= k < |IntToString(rooms)| ==> '0' <= IntToString(rooms)[k] <= '9'
  }

  /** The digit check fails exactly for negative counts (the minus sign), so zero
      reaches the "greater than 0" rule. */
  lemma RoomsTextIsDigitsIff(rooms: int)
    ensures RoomsTextIsDigits(rooms) <==> rooms >= 0
  {
    if rooms < 0 {
      assert IntToString(rooms)[0] == '-';
    }
  }

  /** `String.valueOf(price).matches("\\d+(\\.\\d+)?")` as written. `Float.toString` prints
      plain decimals only for zero and for magnitudes in [10^-3, 10^7), and computerized
      scientific notation (`1.0E7`, `1.0E-4`) otherwise, which the pattern refuses; a
      negative value starts with a minus sign. */
  predicate PriceTextIsDecimalAsWritten(price: real) {
    price == 0.0 || (0.001 <= price && price < 10000000.0)
  }

  /** The check as written refuses valid positive prices: ten million, and one ten-thousandth. */
  lemma PriceCheckRefusesValidPrices()
    ensures 10000000.0 > 0.0 && !PriceTextIsDecimalAsWritten(10000000.0)
    ensures 0.0001 > 0.0 && !PriceTextIsDecimalAsWritten(0.0001)
  {
  }

  /** The intended format check: the price is a non-negative number. */
  predicate PriceIsNumeric(price: real) {
    price >= 0.0
  }

  /** The first rule of `updateProperty` the request breaks, if any, once the property is
      found, with the price format check passed in: location length (only when present),
      rooms format, rooms, price format, price, coordinates. */
  function UpdatePropertyError(dto: PropertyDto, priceFormat: real -> bool): (e: Option<Error>)
    ensures e.None? <==> ((dto.location.None? || |dto.location.value| <= 50) && dto.roomsNumber > 0
                          && priceFormat(dto.initialPrice) && dto.initialPrice > 0.0
                          && IsValidLatitude(dto.latitude) && IsValidLongitude(dto.longitude))
    ensures dto.location.Some? && |dto.location.value| > 50 ==>
      e == Some(IllegalArgument("Location must not exceed 50 characters."))
    ensures (dto.location.None? || |dto.location.value| <= 50) && dto.roomsNumber < 0 ==>
      e == Some(IllegalArgument("Rooms number must be numeric and greater than 0."))
    ensures (dto.location.None? || |dto.location.value| <= 50) && dto.roomsNumber == 0 ==>
      e == Some(IllegalArgument("Rooms number must be greater than 0."))
    ensures ((dto.location.None? || |dto.location.value| <= 50) && dto.roomsNumber > 0
             && !priceFormat(dto.initialPrice)) ==>
      e == Some(IllegalArgument("Initial price must be numeric and greater than 0."))
    ensures ((dto.location.None? || |dto.location.value| <= 50) && dto.roomsNumber > 0
             && priceFormat(dto.initialPrice) && dto.initialPrice <= 0.0) ==>
      e == Some(IllegalArgument("Initial price must be greater than 0."))
    ensures ((dto.location.None? || |dto.location.value| <= 50) && dto.roomsNumber > 0
             && priceFormat(dto.initialPrice) && dto.initialPrice > 0.0
             && !(IsValidLatitude(dto.latitude) && IsValidLongitude(dto.longitude))) ==>
      e == Some(IllegalArgument("Invalid latitude or longitude values."))
  {
    RoomsTextIsDigitsIff(dto.roomsNumber);
    if dto.location.Some? && |dto.location.value| > 50 then
      Some(IllegalArgument("Location must not exceed 50 characters."))
    else if !RoomsTextIsDigits(dto.roomsNumber) then
      Some(IllegalArgument("Rooms number must be numeric and greater than 0."))
    else if dto.roomsNumber <= 0 then Some(IllegalArgument("Rooms number must be greater than 0."))
    else if !priceFormat(dto.initialPrice) then
      Some(IllegalArgument("Initial price must be numeric and greater than 0."))
    else if dto.initialPrice <= 0.0 then Some(IllegalArgument("Initial price must be greater than 0."))
    else if !IsValidLatitude(dto.latitude) || !IsValidLongitude(dto.longitude) then
      Some(IllegalArgument("Invalid latitude or longitude values."))
    else None
  }

  /** With the intended format check an update passes the price rules exactly when the
      price is positive; as written, a request that is valid in every field but has a price
      of ten million is refused as "not numeric". */
  lemma UpdatePriceRules(dto: PropertyDto)
    ensures UpdatePropertyError(dto, PriceIsNumeric).None? <==>
      ((dto.location.None? || |dto.location.value| <= 50) && dto.roomsNumber > 0 && dto.initialPrice > 0.0
       && IsValidLatitude(dto.latitude) && IsValidLongitude(dto.longitude))
    ensures (dto.location.None? && dto.roomsNumber == 1 && dto.initialPrice == 10000000.0
             && dto.latitude == 0.0 && dto.longitude == 0.0) ==>
      UpdatePropertyError(dto, PriceIsNumeric).None?
      && UpdatePropertyError(dto, PriceTextIsDecimalAsWritten)
         == Some(IllegalArgument("Initial price must be numeric and greater than 0."))
  {
  }

  /** The row after `updateProperty`: the request's location, coordinates, rooms, price,
      flags, type and status; the image only when the request has a non-empty one. The
      discounted price is not recomputed. */
  function UpdatedRow(existing: PropertyRow, dto: PropertyDto): (p: PropertyRow)
    ensures p.priceAfterOffer == existing.priceAfterOffer
    ensures p.imageUrl == (if dto.imageUrl.Some? && dto.imageUrl.value != "" then dto.imageUrl else existing.imageUrl)
    ensures p.(priceAfterOffer := dto.priceAfterOffer, imageUrl := dto.imageUrl) == PropertyRowOf(dto)
  {
    var p := existing.(location := dto.location, latitude := dto.latitude, longitude := dto.longitude,
      roomsNumber := dto.roomsNumber, initialPrice := dto.initialPrice, rented := dto.rented,
      offerApplied := dto.offerApplied, propertyType := dto.propertyType, propertyStatus := dto.propertyStatus);
    if dto.imageUrl.Some? && dto.imageUrl.value != "" then p.(imageUrl := dto.imageUrl) else p
  }

  /** `updateProperty`, with the price format check passed in: the code as written runs
      `PriceTextIsDecimalAsWritten`, the intended check is `PriceIsNumeric`. */
  method UpdateProperty(db: Database, id: Uuid, dto: PropertyDto, priceFormat: real -> bool)
    returns (r: Result<PropertyDto>)
    modifies db`properties
    ensures id !in old(db.properties) ==> r == Err(PropertyNotFound)
    ensures id in old(db.properties) ==> (r.Err? <==> UpdatePropertyError(dto, priceFormat).Some?)
    ensures id in old(db.properties) && r.Err? ==> r.error == UpdatePropertyError(dto, priceFormat).value
    ensures r.Err? ==> db.properties == old(db.properties)
    ensures r.Ok? ==> (id in old(db.properties)
                       && db.properties == old(db.properties)[id := UpdatedRow(old(db.properties)[id], dto)]
                       && r.value == PropertyView(id, db.properties[id]))
  {
    if id !in db.properties {
      return Err(PropertyNotFound);
    }
    var existing := db.properties[id];
    if dto.location.Some? && |dto.location.value| > 50 {
      return Err(IllegalArgument("Location must not exceed 50 characters."));
    }
    if !RoomsTextIsDigits(dto.roomsNumber) {
      return Err(IllegalArgument("Rooms number must be numeric and greater than 0."));
    }
    if dto.roomsNumber <= 0 {
      return Err(IllegalArgument("Rooms number must be greater than 0."));
    }
    if !priceFormat(dto.initialPrice) {
      return Err(IllegalArgument("Initial price must be numeric and greater than 0."));
    }
    if dto.initialPrice <= 0.0 {
      return Err(IllegalArgument("Initial price must be greater than 0."));
    }
    if !IsValidLatitude(dto.latitude) || !IsValidLongitude(dto.longitude) {
      return Err(IllegalArgument("Invalid latitude or longitude values."));
    }
    existing := existing.(location := dto.location, latitude := dto.latitude, longitude := dto.longitude,
      roomsNumber := dto.roomsNumber, initialPrice := dto.initialPrice, rented := dto.rented,
      offerApplied := dto.offerApplied, propertyType := dto.propertyType, propertyStatus := dto.propertyStatus);
    if dto.imageUrl.Some? && dto.imageUrl.value != "" {
      existing := existing.(imageUrl := dto.imageUrl);
    }
    db.properties := db.properties[id := existing];
    r := Ok(PropertyView(id, existing));
  }

  /** The code as written refuses a request valid in every field when its price is ten
      million, and leaves the property as it was. */
  method UpdateRefusesTenMillion(db: Database, id: Uuid, dto: PropertyDto) returns (r: Result<PropertyDto>)
    requires id in db.properties && dto.location.None? && dto.roomsNumber == 1
    requires dto.initialPrice == 10000000.0 && dto.latitude == 0.0 && dto.longitude == 0.0
    modifies db`properties
    ensures r == Err(IllegalArgument("Initial price must be numeric and greater than 0."))
    ensures db.properties == old(db.properties)
  {
    UpdatePriceRules(dto);
    r := UpdateProperty(db, id, dto, PriceTextIsDecimalAsWritten);
  }

  /** Since the rented flag is copied from the request, an update can mark a property
      rented that no contract rents: the rental link does not survive `updateProperty`. */
  lemma UpdateCanBreakRentalLink(
    properties: map<Uuid, PropertyRow>, contracts: map<Uuid, ContractRow>, id: Uuid, dto: PropertyDto)
    requires id in properties && !HasContract(contracts, id) && dto.rented
    ensures !RentalConsistent(properties[id := UpdatedRow(properties[id], dto)], contracts)
  {
    var ps := properties[id := UpdatedRow(properties[id], dto)];
    assert id in ps && ps[id].rented;
  }

  /** `deleteProperty`. The property's `rentalContract`, `priceOffer` and `propertySolicited`
      links cascade, so `deleteById` also removes the rows linked to the property. */
  method DeleteProperty(db: Database, id: Uuid) returns (r: Result<()>)
    modifies db`properties, db`contracts, db`offers, db`solicitations
    ensures r.Ok? <==> id in old(db.properties)
    ensures r.Err? ==> (r.error == PropertyNotFound && db.properties == old(db.properties)
                        && db.contracts == old(db.contracts) && db.offers == old(db.offers)
                        && db.solicitations == old(db.solicitations))
    ensures r.Ok? ==> (db.properties == old(db.properties) - {id}
                       && db.contracts == ContractsWithoutProperty(old(db.contracts), id)
                       && db.offers == OffersWithoutProperty(old(db.offers), id)
                       && db.solicitations == SolicitationsWithoutProperty(old(db.solicitations), id))
  {
    if id !in db.properties {
      return Err(PropertyNotFound);
    }
    db.properties := db.properties - {id};
    db.contracts := ContractsWithoutProperty(db.contracts, id);
    db.offers := OffersWithoutProperty(db.offers, id);
    db.solicitations := SolicitationsWithoutProperty(db.solicitations, id);
    r := Ok(());
  }

  /** Deleting a property together with its cascaded contract keeps the rental link. */
  lemma DeletePropertyKeepsRentalConsistent(
    properties: map<Uuid, PropertyRow>, contracts: map<Uuid, ContractRow>, id: Uuid)
    requires RentalConsistent(properties, contracts)
    ensures RentalConsistent(properties - {id}, ContractsWithoutProperty(contracts, id))
  {
    var ps := properties - {id};
    var cs := ContractsWithoutProperty(contracts, id);
    forall pid | pid in ps
      ensures ps[pid].rented <==> HasContract(cs, pid)
    {
      if HasContract(contracts, pid) {
        var cid :| cid in contracts && contracts[cid].propertyId == pid;
        assert cid in cs;
      }
    }
  }

  /** `getAllPropertiesCustomer`: the DTOs of the properties of `findAll` that are not rented. */
  function GetAllPropertiesCustomer(all: seq<Entities.Property>): (r: seq<PropertyDto>)
    ensures |r| <= |all|
    ensures forall d :: d in r <==> exists p :: p in all && !p.rented && d == PropertyBuilder.ToPropertyDto(p)
    ensures forall k :: 0 <= k < |r| ==> !r[k].rented
  {
    if all == [] then []
    else
      var rest := GetAllPropertiesCustomer(all[1..]);
      assert forall p :: p in all[1..] ==> p in all;
      assert forall p :: p in all ==> p == all[0] || p in all[1..];
      if all[0].rented then rest else [PropertyBuilder.ToPropertyDto(all[0])] + rest
  }

  /** The filter keeps the order of `findAll`: filtering a concatenation concatenates the
      filtered halves. */
  lemma {:induction false} AvailableKeepsOrder(a: seq<Entities.Property>, b: seq<Entities.Property>)
    ensures GetAllPropertiesCustomer(a + b) == GetAllPropertiesCustomer(a) + GetAllPropertiesCustomer(b)
  {
    if a != [] {
      assert (a + b)[1..] == a[1..] + b;
      AvailableKeepsOrder(a[1..], b);
    } else {
      assert a + b == b;
    }
  }
}
