/** Mapping between the contract entity and its DTO. */
module ContractBuilder {
  import opened Common
  import opened Dtos
  import opened Entities

  /** The DTO copies the scalar fields and takes the two links from the ids of
      the linked user and property. */
  function ToContractDto(c: Contract): ContractDto {
    ContractDto(c.id, c.startDate, c.duration, c.details, c.user.id, c.property.id)
  }

  /** The entity links stubs that carry only the DTO's user and property ids;
      turning it back into a DTO gives the DTO it came from. */
  function ToEntity(d: ContractDto): (c: Contract)
    ensures ToContractDto(c) == d
    ensures c.user == UserStub(d.userId) && c.property == PropertyStub(d.propertyId)
  {
    Contract(d.id, d.startDate, d.duration, d.details, UserStub(d.userId), PropertyStub(d.propertyId))
  }

  /** Entity -> DTO -> entity keeps every scalar field and the two linked ids;
      only the rest of the linked user and property is lost. */
  lemma EntityRoundTrip(c: Contract)
    ensures ToEntity(ToContractDto(c)) == c.(user := UserStub(c.user.id), property := PropertyStub(c.property.id))
    ensures ToEntity(ToContractDto(c)).user.id == c.user.id
    ensures ToEntity(ToContractDto(c)).property.id == c.property.id
  {
  }
}
