/** `ContractService`: contracts, and the `rented` flag of the property each one rents. */
module ContractService {
  import opened Common
  import opened Dtos
  import opened Repositories

  /** The start-date rules shared by create and update: the date must be present and
      not strictly before now. Gives the rejection, if any. */
  function CheckStartDate(startDate: Option<DateTime>, now: DateTime): (e: Option<Error>)
    ensures e.None? <==> startDate.Some? && startDate.value >= now
    ensures startDate.None? ==> e == Some(IllegalArgument("Start date not valid"))
    ensures startDate.Some? && startDate.value < now ==> e == Some(IllegalArgument("Start date cannot be in the past"))
  {
    if startDate.None? then Some(IllegalArgument("Start date not valid"))
    else if IsBefore(startDate.value, now) then Some(IllegalArgument("Start date cannot be in the past"))
    else None
  }

  /** `getAllContractsCustomer`: the session user's contracts. A missing session user
      is dereferenced. */
  function GetAllContractsCustomer(db: Database, loggedUser: Option<UserDto>): (r: Result<set<ContractDto>>)
    reads db
    ensures loggedUser.None? <==> r == Err(NullReference)
    ensures r.Ok? ==> forall d :: d in r.value <==>
      d.id in db.contracts && d == ContractView(d.id, db.contracts[d.id]) && d.userId == loggedUser.value.id
  {
    match loggedUser
    case None => Err(NullReference)
    case Some(u) =>
      Ok(set cid | cid in ContractsOfUser(db.contracts, u.id) :: ContractView(cid, db.contracts[cid]))
  }

  /** `getContractById`. */
  function GetContractById(db: Database, id: Uuid): (r: Result<ContractDto>)
    reads db
    ensures r.Ok? <==> id in db.contracts
    ensures r.Ok? ==> r.value == ContractView(id, db.contracts[id]) && r.value.id == id
    ensures r.Err? ==> r.error == ContractNotFound
  {
    if id in db.contracts then Ok(ContractView(id, db.contracts[id])) else Err(ContractNotFound)
  }

  /** `getContractByIdCustomer`: the contract, only when it belongs to the session user. */
  function GetContractByIdCustomer(db: Database, loggedUser: Option<UserDto>, id: Uuid): (r: Result<ContractDto>)
    reads db
    ensures loggedUser.None? ==> r == Err(NullReference)
    ensures loggedUser.Some? ==>
      (r.Ok? <==> id in db.contracts && db.contracts[id].userId == loggedUser.value.id)
    ensures loggedUser.Some? && r.Err? ==> r.error == ContractNotFound
    ensures r.Ok? ==> r == GetContractById(db, id) && r.value.userId == loggedUser.value.id
  {
    match loggedUser
    case None => Err(NullReference)
    case Some(u) =>
      if id in db.contracts && db.contracts[id].userId == u.id then Ok(ContractView(id, db.contracts[id]))
      else Err(ContractNotFound)
  }

  /** `createContract`: the date rules, then the user, then the property, which must
      not be rented already. On success the property becomes rented and the contract
      is stored under the fresh id. */
  method CreateContract(db: Database, dto: ContractDto, now: DateTime, freshId: Uuid) returns (r: Result<ContractDto>)
    requires freshId !in db.contracts
    modifies db`contracts, db`properties
    ensures CheckStartDate(dto.startDate, now).Some? ==> r == Err(CheckStartDate(dto.startDate, now).value)
    ensures CheckStartDate(dto.startDate, now).None? && dto.userId !in db.users ==> r == Err(UserNotFound)
    ensures CheckStartDate(dto.startDate, now).None? && dto.userId in db.users && dto.propertyId !in old(db.properties)
      ==> r == Err(PropertyNotFound)
    ensures (CheckStartDate(dto.startDate, now).None? && dto.userId in db.users && dto.propertyId in old(db.properties)
             && old(db.properties)[dto.propertyId].rented) ==> r == Err(IllegalArgument("Property is already rented!"))
    ensures r.Ok? <==> (CheckStartDate(dto.startDate, now).None? && dto.userId in db.users
                        && dto.propertyId in old(db.properties) && !old(db.properties)[dto.propertyId].rented)
    ensures r.Err? ==> db.contracts == old(db.contracts) && db.properties == old(db.properties)
    ensures r.Ok? ==> (r.value == dto.(id := freshId)
                       && db.contracts == old(db.contracts)[freshId := ContractRowOf(dto)]
                       && db.properties == old(db.properties)[dto.propertyId := old(db.properties)[dto.propertyId].(rented := true)])
    ensures old(RentalConsistent(db.properties, db.contracts)) ==> RentalConsistent(db.properties, db.contracts)
  {
    var dateError := CheckStartDate(dto.startDate, now);
    if dateError.Some? {
      return Err(dateError.value);
    }
    if dto.userId !in db.users {
      return Err(UserNotFound);
    }
    if dto.propertyId in db.properties {
      var property := db.properties[dto.propertyId];
      if property.rented {
        return Err(IllegalArgument("Property is already rented!"));
      }
      if RentalConsistent(db.properties, db.contracts) {
        CreateKeepsRentalConsistent(db.properties, db.contracts, freshId, ContractRowOf(dto));
      }
      db.properties := db.properties[dto.propertyId := property.(rented := true)];
    } else {
      return Err(PropertyNotFound);
    }
    db.contracts := db.contracts[freshId := ContractRowOf(dto)];
    r := Ok(ContractView(freshId, ContractRowOf(dto)));
  }

  /** `updateContract`: the date rules come first, then the contract must exist. Only
      the start date, duration and details change; both links stay. */
  method UpdateContract(db: Database, id: Uuid, dto: ContractDto, now: DateTime) returns (r: Result<ContractDto>)
    modifies db`contracts
    ensures CheckStartDate(dto.startDate, now).Some? ==> r == Err(CheckStartDate(dto.startDate, now).value)
    ensures CheckStartDate(dto.startDate, now).None? && id !in old(db.contracts) ==> r == Err(ContractNotFound)
    ensures r.Ok? <==> CheckStartDate(dto.startDate, now).None? && id in old(db.contracts)
    ensures r.Err? ==> db.contracts == old(db.contracts)
    ensures r.Ok? ==>
      var updated := old(db.contracts)[id].(startDate := dto.startDate, duration := dto.duration, details := dto.details);
      db.contracts == old(db.contracts)[id := updated] && r.value == ContractView(id, updated)
    ensures RentalConsistent(db.properties, old(db.contracts)) ==> RentalConsistent(db.properties, db.contracts)
  {
    var dateError := CheckStartDate(dto.startDate, now);
    if dateError.Some? {
      return Err(dateError.value);
    }
    if id !in db.contracts {
      return Err(ContractNotFound);
    }
    var existing := db.contracts[id];
    var updated := existing.(startDate := dto.startDate, duration := dto.duration, details := dto.details);
    if RentalConsistent(db.properties, db.contracts) {
      UpdateKeepsRentalConsistent(db.properties, db.contracts, id, updated);
    }
    db.contracts := db.contracts[id := updated];
    r := Ok(ContractView(id, updated));
  }

  /** The property table once a contract on `propertyId` is gone: the property, if it
      is still stored, is no longer rented. */
  function Released(properties: map<Uuid, PropertyRow>, propertyId: Uuid): map<Uuid, PropertyRow> {
    if propertyId in properties then properties[propertyId := properties[propertyId].(rented := false)]
    else properties
  }

  /** `deleteContract`: remove the contract and release its property; a property that
      is no longer stored is not an error. */
  method DeleteContract(db: Database, id: Uuid) returns (r: Result<()>)
    modifies db`contracts, db`properties
    ensures r.Ok? <==> id in old(db.contracts)
    ensures r.Err? ==> r.error == ContractNotFound && db.contracts == old(db.contracts) && db.properties == old(db.properties)
    ensures r.Ok? ==> (db.contracts == old(db.contracts) - {id}
                       && db.properties == Released(old(db.properties), old(db.contracts)[id].propertyId))
    ensures old(RentalConsistent(db.properties, db.contracts)) ==> RentalConsistent(db.properties, db.contracts)
  {
    if id !in db.contracts {
      return Err(ContractNotFound);
    }
    var contract := db.contracts[id];
    if RentalConsistent(db.properties, db.contracts) {
      DeleteKeepsRentalConsistent(db.properties, db.contracts, id);
    }
    db.contracts := db.contracts - {id};
    if contract.propertyId in db.properties {
      var property := db.properties[contract.propertyId];
      db.properties := db.properties[contract.propertyId := property.(rented := false)];
    }
    r := Ok(());
  }

  /** Renting a stored property that is not rented, under a fresh contract id, keeps the rental link. */
  lemma CreateKeepsRentalConsistent(
    properties: map<Uuid, PropertyRow>, contracts: map<Uuid, ContractRow>, cid: Uuid, row: ContractRow)
    requires RentalConsistent(properties, contracts)
    requires row.propertyId in properties && !properties[row.propertyId].rented && cid !in contracts
    ensures RentalConsistent(
      properties[row.propertyId := properties[row.propertyId].(rented := true)], contracts[cid := row])
  {
    var pid := row.propertyId;
    var ps := properties[pid := properties[pid].(rented := true)];
    var cs := contracts[cid := row];
    assert !HasContract(contracts, pid);
    forall q | q in ps
      ensures ps[q].rented <==> HasContract(cs, q)
    {
      if q == pid {
        assert cs[cid].propertyId == q;
      } else {
        if HasContract(cs, q) {
          var c :| c in cs && cs[c].propertyId == q;
          assert c != cid && c in contracts && contracts[c].propertyId == q;
        }
        if HasContract(contracts, q) {
          var c :| c in contracts && contracts[c].propertyId == q;
          assert c in cs && cs[c].propertyId == q;
        }
      }
    }
  }

  /** Changing a contract's dates and details keeps the rental link. */
  lemma UpdateKeepsRentalConsistent(
    properties: map<Uuid, PropertyRow>, contracts: map<Uuid, ContractRow>, cid: Uuid, row: ContractRow)
    requires RentalConsistent(properties, contracts)
    requires cid in contracts && row.propertyId == contracts[cid].propertyId
    ensures RentalConsistent(properties, contracts[cid := row])
  {
    var cs := contracts[cid := row];
    forall q | q in properties
      ensures HasContract(cs, q) <==> HasContract(contracts, q)
    {
      if HasContract(contracts, q) {
        var c :| c in contracts && contracts[c].propertyId == q;
        assert cs[c].propertyId == q;
      }
      if HasContract(cs, q) {
        var c :| c in cs && cs[c].propertyId == q;
        assert contracts[c].propertyId == q;
      }
    }
  }

  /** Removing a contract and releasing its property keeps the rental link. */
  lemma DeleteKeepsRentalConsistent(properties: map<Uuid, PropertyRow>, contracts: map<Uuid, ContractRow>, cid: Uuid)
    requires RentalConsistent(properties, contracts)
    requires cid in contracts
    ensures RentalConsistent(Released(properties, contracts[cid].propertyId), contracts - {cid})
  {
    var pid := contracts[cid].propertyId;
    var ps := Released(properties, pid);
    var cs := contracts - {cid};
    forall q | q in ps
      ensures ps[q].rented <==> HasContract(cs, q)
    {
      if HasContract(cs, q) {
        var c :| c in cs && cs[c].propertyId == q;
        assert c in contracts && c != cid;
        assert q != pid;
      }
      if q != pid && HasContract(contracts, q) {
        var c :| c in contracts && contracts[c].propertyId == q;
        assert c in cs;
      }
    }
  }

  /** A client creating a contract and then deleting it leaves the property not rented. */
  method CreateThenDeleteContract(db: Database, dto: ContractDto, now: DateTime, freshId: Uuid)
    returns (created: Result<ContractDto>, deleted: Result<()>)
    requires freshId !in db.contracts
    modifies db`contracts, db`properties
    ensures created.Ok? ==> (deleted.Ok? && db.contracts == old(db.contracts) && dto.propertyId in old(db.properties)
                             && db.properties == old(db.properties)[dto.propertyId := old(db.properties)[dto.propertyId].(rented := false)])
  {
    created := CreateContract(db, dto, now, freshId);
    if created.Ok? {
      assert db.contracts[freshId].propertyId == dto.propertyId;
      deleted := DeleteContract(db, freshId);
      assert old(db.contracts)[freshId := ContractRowOf(dto)] - {freshId} == old(db.contracts);
    } else {
      deleted := Err(ContractNotFound);
    }
  }
}
