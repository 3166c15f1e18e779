/** `OfferService`: price offers, and the discounted price of the property each one targets. */
module OfferService {
  import opened Common
  import opened Dtos
  import opened Repositories

  /** `initialPrice - initialPrice * (procent / 100)`, in exact arithmetic. */
  function Discounted(initialPrice: real, procent: real): (price: real)
    ensures price == initialPrice * (1.0 - procent / 100.0)
    ensures 0.0 <= procent <= 100.0 && initialPrice > 0.0 ==> 0.0 <= price <= initialPrice
    ensures procent == 0.0 ==> price == initialPrice
    ensures procent == 100.0 ==> price == 0.0
  {
    initialPrice - initialPrice * (procent / 100.0)
  }

  /** A property with an offer of `procent` applied. */
  function WithOffer(p: PropertyRow, procent: real): PropertyRow {
    p.(priceAfterOffer := Discounted(p.initialPrice, procent), offerApplied := true)
  }

  /** A property once its offer is withdrawn: back to the initial price. */
  function WithoutOffer(p: PropertyRow): PropertyRow {
    p.(priceAfterOffer := p.initialPrice, offerApplied := false)
  }

  /** Withdrawing an offer undoes applying one, whatever the percentage. */
  lemma WithdrawUndoesOffer(p: PropertyRow, procent: real)
    ensures WithoutOffer(WithOffer(p, procent)) == WithoutOffer(p)
    ensures WithoutOffer(WithOffer(p, procent)).priceAfterOffer == p.initialPrice
    ensures !WithoutOffer(WithOffer(p, procent)).offerApplied
  {
  }

  /** `getOfferById`. */
  function GetOfferById(db: Database, id: Uuid): (r: Result<OfferDto>)
    reads db
    ensures r.Ok? <==> id in db.offers
    ensures r.Ok? ==> r.value == OfferView(id, db.offers[id]) && r.value.id == id
    ensures r.Err? ==> r.error == OfferNotFound
  {
    if id in db.offers then Ok(OfferView(id, db.offers[id])) else Err(OfferNotFound)
  }

  /** `createOffer`: the targeted property must exist; it gets the discounted price and
      is marked as having an offer, and the offer is stored under the fresh id. */
  method CreateOffer(db: Database, dto: OfferDto, freshId: Uuid) returns (r: Result<OfferDto>)
    requires freshId !in db.offers
    modifies db`offers, db`properties
    ensures r.Ok? <==> dto.propertyId in old(db.properties)
    ensures r.Err? ==> (r.error == PropertyNotFound
                        && db.offers == old(db.offers) && db.properties == old(db.properties))
    ensures r.Ok? ==> (r.value == dto.(id := freshId)
                       && db.offers == old(db.offers)[freshId := OfferRow(dto.offerProcent, dto.propertyId)]
                       && db.properties == old(db.properties)[dto.propertyId :=
                            WithOffer(old(db.properties)[dto.propertyId], dto.offerProcent)])
  {
    if dto.propertyId in db.properties {
      var property := db.properties[dto.propertyId];
      db.properties := db.properties[dto.propertyId := WithOffer(property, dto.offerProcent)];
    } else {
      return Err(PropertyNotFound);
    }
    db.offers := db.offers[freshId := OfferRow(dto.offerProcent, dto.propertyId)];
    r := Ok(OfferView(freshId, db.offers[freshId]));
  }

  /** `updateOffer`: replace the percentage, then recompute the discounted price of the
      property the request names (not the one the offer is linked to), if it exists.
      The offer-applied flag is left as it is. */
  method UpdateOffer(db: Database, id: Uuid, dto: OfferDto) returns (r: Result<OfferDto>)
    modifies db`offers, db`properties
    ensures r.Ok? <==> id in old(db.offers)
    ensures r.Err? ==> (r.error == OfferNotFound
                        && db.offers == old(db.offers) && db.properties == old(db.properties))
    ensures r.Ok? ==> (db.offers == old(db.offers)[id := old(db.offers)[id].(offerProcent := dto.offerProcent)]
                       && r.value == OfferView(id, db.offers[id]))
    ensures r.Ok? && dto.propertyId in old(db.properties) ==>
      db.properties == old(db.properties)[dto.propertyId := old(db.properties)[dto.propertyId].(
        priceAfterOffer := Discounted(old(db.properties)[dto.propertyId].initialPrice, dto.offerProcent))]
    ensures dto.propertyId !in old(db.properties) ==> db.properties == old(db.properties)
  {
    if id !in db.offers {
      return Err(OfferNotFound);
    }
    var existing := db.offers[id];
    db.offers := db.offers[id := existing.(offerProcent := dto.offerProcent)];
    if dto.propertyId in db.properties {
      var property := db.properties[dto.propertyId];
      db.properties := db.properties[dto.propertyId :=
        property.(priceAfterOffer := Discounted(property.initialPrice, dto.offerProcent))];
    }
    r := Ok(OfferView(id, db.offers[id]));
  }

  /** `deleteOffer`: remove the offer; its property, if it still exists, returns to its
      initial price without an offer. */
  method DeleteOffer(db: Database, id: Uuid) returns (r: Result<()>)
    modifies db`offers, db`properties
    ensures r.Ok? <==> id in old(db.offers)
    ensures r.Err? ==> (r.error == OfferNotFound
                        && db.offers == old(db.offers) && db.properties == old(db.properties))
    ensures r.Ok? ==> db.offers == old(db.offers) - {id}
    ensures r.Ok? && old(db.offers)[id].propertyId in old(db.properties) ==>
      db.properties == old(db.properties)[old(db.offers)[id].propertyId :=
        WithoutOffer(old(db.properties)[old(db.offers)[id].propertyId])]
    ensures r.Ok? && old(db.offers)[id].propertyId !in old(db.properties) ==> db.properties == old(db.properties)
  {
    if id !in db.offers {
      return Err(OfferNotFound);
    }
    var offer := db.offers[id];
    db.offers := db.offers - {id};
    if offer.propertyId in db.properties {
      var property := db.properties[offer.propertyId];
      db.properties := db.properties[offer.propertyId := WithoutOffer(property)];
    }
    r := Ok(());
  }

  /** A client creating an offer and deleting it straight away leaves the property at its
      initial price without an offer, and the offer table as it was. */
  method CreateThenDeleteOffer(db: Database, dto: OfferDto, freshId: Uuid)
    returns (created: Result<OfferDto>, deleted: Result<()>)
    requires freshId !in db.offers
    modifies db`offers, db`properties
    ensures created.Ok? ==> (deleted.Ok? && db.offers == old(db.offers)
                             && dto.propertyId in old(db.properties) && dto.propertyId in db.properties
                             && db.properties[dto.propertyId].priceAfterOffer == db.properties[dto.propertyId].initialPrice
                             && !db.properties[dto.propertyId].offerApplied
                             && db.properties == old(db.properties)[dto.propertyId :=
                                  WithoutOffer(old(db.properties)[dto.propertyId])])
  {
    created := CreateOffer(db, dto, freshId);
    if created.Ok? {
      deleted := DeleteOffer(db, freshId);
      assert old(db.offers)[freshId := OfferRow(dto.offerProcent, dto.propertyId)] - {freshId} == old(db.offers);
      WithdrawUndoesOffer(old(db.properties)[dto.propertyId], dto.offerProcent);
    } else {
      deleted := Err(OfferNotFound);
    }
  }
}
