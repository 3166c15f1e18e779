/** Mapping between the review entity and its DTO. */
module ReviewBuilder {
  import opened Common
  import opened Dtos
  import opened Entities

  /** The DTO copies id, message and date and takes user_id from the linked user. */
  function ToReviewDto(r: Review): ReviewDto {
    ReviewDto(r.id, r.message, r.date, r.user.id)
  }

  /** The entity links a user stub carrying only user_id; the round trip back to
      a DTO is the identity. */
  function ToEntity(d: ReviewDto): (r: Review)
    ensures ToReviewDto(r) == d
    ensures r.user == UserStub(d.userId)
  {
    Review(d.id, d.message, d.date, UserStub(d.userId))
  }

  /** Entity -> DTO -> entity keeps id, message, date and the linked user id. */
  lemma EntityRoundTrip(r: Review)
    ensures ToEntity(ToReviewDto(r)) == r.(user := UserStub(r.user.id))
  {
  }
}
