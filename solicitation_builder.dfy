/** Mapping between the solicitation entity and its DTO. */
module SolicitationBuilder {
  import opened Common
  import opened Dtos
  import opened Entities

  /** The DTO copies id and date and takes user_id and property_id from the links. */
  function ToSolicitationDto(s: Solicitation): SolicitationDto {
    SolicitationDto(s.id, s.date, s.user.id, s.property.id)
  }

  /** The entity links user and property stubs carrying only their ids; the round
      trip back to a DTO is the identity. */
  function ToEntity(d: SolicitationDto): (s: Solicitation)
    ensures ToSolicitationDto(s) == d
    ensures s.user == UserStub(d.userId) && s.property == PropertyStub(d.propertyId)
  {
    Solicitation(d.id, d.date, UserStub(d.userId), PropertyStub(d.propertyId))
  }

  /** Entity -> DTO -> entity keeps id, date and the two linked ids. */
  lemma EntityRoundTrip(s: Solicitation)
    ensures ToEntity(ToSolicitationDto(s)) == s.(user := UserStub(s.user.id), property := PropertyStub(s.property.id))
  {
  }
}
