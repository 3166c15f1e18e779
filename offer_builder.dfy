/** Mapping between the offer entity and its DTO (the source class is `OfferBuider`). */
module OfferBuilder {
  import opened Common
  import opened Dtos
  import opened Entities

  /** The DTO copies id and percentage and takes property_id from the linked property. */
  function ToOfferDto(o: Offer): OfferDto {
    OfferDto(o.id, o.offerProcent, o.property.id)
  }

  /** The entity links a property stub carrying only property_id; the round trip
      back to a DTO is the identity. */
  function ToEntity(d: OfferDto): (o: Offer)
    ensures ToOfferDto(o) == d
    ensures o.property == PropertyStub(d.propertyId)
  {
    Offer(d.id, d.offerProcent, PropertyStub(d.propertyId))
  }

  /** Entity -> DTO -> entity keeps id, percentage and the linked property id. */
  lemma EntityRoundTrip(o: Offer)
    ensures ToEntity(ToOfferDto(o)) == o.(property := PropertyStub(o.property.id))
  {
  }
}
