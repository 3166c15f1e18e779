/** `ReviewService`: reviews written by users. */
module ReviewService {
  import opened Common
  import opened Dtos
  import opened Repositories

  /** `getAllReviewsCustomer`: the session user's reviews. */
  function GetAllReviewsCustomer(db: Database, loggedUser: Option<UserDto>): (r: Result<set<ReviewDto>>)
    reads db
    ensures loggedUser.None? <==> r == Err(IllegalState("Customer ID not found in session"))
    ensures r.Ok? ==> forall d :: d in r.value <==>
      d.id in db.reviews && d == ReviewView(d.id, db.reviews[d.id]) && d.userId == loggedUser.value.id
  {
    match loggedUser
    case None => Err(IllegalState("Customer ID not found in session"))
    case Some(u) =>
      Ok(set rid | rid in db.reviews && db.reviews[rid].userId == u.id :: ReviewView(rid, db.reviews[rid]))
  }

  /** `getReviewById`. */
  function GetReviewById(db: Database, id: Uuid): (r: Result<ReviewDto>)
    reads db
    ensures r.Ok? <==> id in db.reviews
    ensures r.Ok? ==> r.value == ReviewView(id, db.reviews[id]) && r.value.id == id
    ensures r.Err? ==> r.error == ReviewNotFound
  {
    if id in db.reviews then Ok(ReviewView(id, db.reviews[id])) else Err(ReviewNotFound)
  }

  /** `getReviewByIdCustomer`: the review, only when the session user wrote it. */
  function GetReviewByIdCustomer(db: Database, loggedUser: Option<UserDto>, id: Uuid): (r: Result<ReviewDto>)
    reads db
    ensures loggedUser.None? ==> r == Err(NullReference)
    ensures loggedUser.Some? ==> (r.Ok? <==> id in db.reviews && db.reviews[id].userId == loggedUser.value.id)
    ensures loggedUser.Some? && r.Err? ==> r.error == ReviewNotFound
    ensures r.Ok? ==> r == GetReviewById(db, id) && r.value.userId == loggedUser.value.id
  {
    match loggedUser
    case None => Err(NullReference)
    case Some(u) =>
      if id in db.reviews && db.reviews[id].userId == u.id then Ok(ReviewView(id, db.reviews[id]))
      else Err(ReviewNotFound)
  }

  /** `createReview`: the named user must exist (the `Optional` is unwrapped before the
      save); the review is stored as given under the fresh id. */
  method CreateReview(db: Database, dto: ReviewDto, freshId: Uuid) returns (r: Result<ReviewDto>)
    requires freshId !in db.reviews
    modifies db`reviews
    ensures r.Ok? <==> dto.userId in db.users
    ensures r.Err? ==> r.error == NoSuchElement && db.reviews == old(db.reviews)
    ensures r.Ok? ==> (r.value == dto.(id := freshId)
                       && db.reviews == old(db.reviews)[freshId := ReviewRow(dto.message, dto.date, dto.userId)])
  {
    if dto.userId !in db.users {
      return Err(NoSuchElement);
    }
    db.reviews := db.reviews[freshId := ReviewRow(dto.message, dto.date, dto.userId)];
    r := Ok(ReviewView(freshId, db.reviews[freshId]));
  }

  /** `createReviewCustomer`: the review is dated now and attributed to the session user,
      whatever the request said. */
  method CreateReviewCustomer(db: Database, dto: ReviewDto, loggedUser: Option<UserDto>, now: DateTime, freshId: Uuid)
    returns (r: Result<ReviewDto>)
    requires freshId !in db.reviews
    modifies db`reviews
    ensures r.Ok? <==> loggedUser.Some?
    ensures r.Err? ==> (r == Err(IllegalState("User not logged in or user ID not found in session"))
                        && db.reviews == old(db.reviews))
    ensures r.Ok? ==> (r.value == ReviewDto(freshId, dto.message, Some(now), loggedUser.value.id)
                       && db.reviews == old(db.reviews)[freshId := ReviewRow(dto.message, Some(now), loggedUser.value.id)])
  {
    var request := dto.(date := Some(now));
    if loggedUser.None? {
      return Err(IllegalState("User not logged in or user ID not found in session"));
    }
    request := request.(userId := loggedUser.value.id);
    db.reviews := db.reviews[freshId := ReviewRow(request.message, request.date, request.userId)];
    r := Ok(ReviewView(freshId, db.reviews[freshId]));
  }

  /** `updateReview`: message and date are replaced (the date may be absent); the author
      changes only when the request names an existing user. */
  method UpdateReview(db: Database, id: Uuid, dto: ReviewDto) returns (r: Result<ReviewDto>)
    modifies db`reviews
    ensures r.Ok? <==> id in old(db.reviews)
    ensures r.Err? ==> r.error == ReviewNotFound && db.reviews == old(db.reviews)
    ensures r.Ok? ==>
      (var author := if dto.userId in db.users then dto.userId else old(db.reviews)[id].userId;
       db.reviews == old(db.reviews)[id := ReviewRow(dto.message, dto.date, author)]
       && r.value == ReviewView(id, db.reviews[id]))
  {
    if id !in db.reviews {
      return Err(ReviewNotFound);
    }
    var existing := db.reviews[id];
    existing := existing.(message := dto.message, date := dto.date);
    if dto.userId in db.users {
      existing := existing.(userId := dto.userId);
    }
    db.reviews := db.reviews[id := existing];
    r := Ok(ReviewView(id, existing));
  }

  /** `updateReviewCustomer`: the review must exist; then the new date must be present and
      not before now. Only the date and the message change; there is no ownership check. */
  method UpdateReviewCustomer(db: Database, id: Uuid, dto: ReviewDto, now: DateTime) returns (r: Result<ReviewDto>)
    modifies db`reviews
    ensures id !in old(db.reviews) ==> r == Err(ReviewNotFound)
    ensures id in old(db.reviews) && dto.date.None? ==> r == Err(IllegalArgument("Review date not valid"))
    ensures (id in old(db.reviews) && dto.date.Some? && dto.date.value < now)
      ==> r == Err(IllegalArgument("Review date cannot be in the past"))
    ensures r.Ok? <==> (id in old(db.reviews) && dto.date.Some? && dto.date.value >= now)
    ensures r.Err? ==> db.reviews == old(db.reviews)
    ensures r.Ok? ==>
      (var updated := old(db.reviews)[id].(date := dto.date, message := dto.message);
       db.reviews == old(db.reviews)[id := updated] && updated.userId == old(db.reviews)[id].userId
       && r.value == ReviewView(id, updated))
  {
    if id !in db.reviews {
      return Err(ReviewNotFound);
    }
    var existing := db.reviews[id];
    if dto.date.None? {
      return Err(IllegalArgument("Review date not valid"));
    }
    if IsBefore(dto.date.value, now) {
      return Err(IllegalArgument("Review date cannot be in the past"));
    }
    existing := existing.(date := dto.date, message := dto.message);
    db.reviews := db.reviews[id := existing];
    r := Ok(ReviewView(id, existing));
  }

  /** `deleteReview`. */
  method DeleteReview(db: Database, id: Uuid) returns (r: Result<()>)
    modifies db`reviews
    ensures r.Ok? <==> id in old(db.reviews)
    ensures r.Err? ==> r.error == ReviewNotFound && db.reviews == old(db.reviews)
    ensures r.Ok? ==> db.reviews == old(db.reviews) - {id}
  {
    if id !in db.reviews {
      return Err(ReviewNotFound);
    }
    db.reviews := db.reviews - {id};
    r := Ok(());
  }

  /** `deleteReviewCustomer`: only a review of the session user is removed. */
  method DeleteReviewCustomer(db: Database, loggedUser: Option<UserDto>, id: Uuid) returns (r: Result<()>)
    modifies db`reviews
    ensures loggedUser.None? ==> r == Err(IllegalState("User not logged in"))
    ensures r.Ok? <==> (loggedUser.Some? && id in old(db.reviews) && old(db.reviews)[id].userId == loggedUser.value.id)
    ensures loggedUser.Some? && r.Err? ==> r.error == ReviewNotFound
    ensures r.Err? ==> db.reviews == old(db.reviews)
    ensures r.Ok? ==> db.reviews == old(db.reviews) - {id}
  {
    if loggedUser.None? {
      return Err(IllegalState("User not logged in"));
    }
    if !(id in db.reviews && db.reviews[id].userId == loggedUser.value.id) {
      return Err(ReviewNotFound);
    }
    db.reviews := db.reviews - {id};
    r := Ok(());
  }
}
