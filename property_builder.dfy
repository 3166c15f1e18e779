/** Mapping between the property entity and its DTO. */
module PropertyBuilder {
  import opened Common
  import opened Dtos
  import opened Entities
  import ContractBuilder
  import OfferBuilder
  import SolicitationBuilder

  /** The DTO copies the twelve scalar fields and carries a nested contract,
      offer or solicitation DTO exactly when the entity links one. */
  function ToPropertyDto(p: Property): PropertyDto {
    PropertyDto(
      p.id, p.location, p.latitude, p.longitude, p.roomsNumber, p.initialPrice,
      p.priceAfterOffer, p.rented, p.offerApplied, p.propertyType, p.propertyStatus, p.imageUrl,
      match p.rentalContract
        case None => None
        case Some(c) => Some(ContractBuilder.ToContractDto(c)),
      match p.priceOffer
        case None => None
        case Some(o) => Some(OfferBuilder.ToOfferDto(o)),
      match p.propertySolicited
        case None => None
        case Some(s) => Some(SolicitationBuilder.ToSolicitationDto(s)))
  }

  /** The entity takes the twelve scalar fields and never links a contract,
      offer or solicitation. */
  function ToEntity(d: PropertyDto): (p: Property)
    ensures p.rentalContract == None && p.priceOffer == None && p.propertySolicited == None
    ensures ToPropertyDto(p) == d.(rentalContract := None, priceOffer := None, propertySolicited := None)
  {
    Property(
      d.id, d.location, d.latitude, d.longitude, d.roomsNumber, d.initialPrice,
      d.priceAfterOffer, d.rented, d.offerApplied, d.propertyType, d.propertyStatus, d.imageUrl,
      None, None, None)
  }

  /** A nested DTO is present exactly when the entity links the record, and it
      is that record's own builder output. */
  lemma NestedDtos(p: Property)
    ensures ToPropertyDto(p).rentalContract.Some? <==> p.rentalContract.Some?
    ensures ToPropertyDto(p).priceOffer.Some? <==> p.priceOffer.Some?
    ensures ToPropertyDto(p).propertySolicited.Some? <==> p.propertySolicited.Some?
    ensures p.rentalContract.Some? ==>
      ToPropertyDto(p).rentalContract.value == ContractBuilder.ToContractDto(p.rentalContract.value)
    ensures p.priceOffer.Some? ==>
      ToPropertyDto(p).priceOffer.value == OfferBuilder.ToOfferDto(p.priceOffer.value)
    ensures p.propertySolicited.Some? ==>
      ToPropertyDto(p).propertySolicited.value == SolicitationBuilder.ToSolicitationDto(p.propertySolicited.value)
  {
  }
}
