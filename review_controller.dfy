// The review endpoints: a new review takes its user from the token and is
// checked field by field before the service is asked; the other endpoints map
// a missing review to 404 and check no identity at all.
module ReviewController {
  import opened Common
  import opened Http
  import opened ReviewService
  import opened Table

  datatype ReviewRefusal =
    | InvalidToken
    | PackageIdRequired
    | RatingOutOfRange
    | CommentRequired
    | Rejected(message: string)
    | InternalError
    | NoReview

  /** The error text of each refusal; a 404 has no body. */
  function Message(r: ReviewRefusal): Option<string>
  {
    match r
    case InvalidToken => Some("Invalid or missing authentication token")
    case PackageIdRequired => Some("Package ID is required")
    case RatingOutOfRange => Some("Rating must be between 1 and 5")
    case CommentRequired => Some("Comment is required")
    case Rejected(m) => Some(m)
    case InternalError => Some("Internal server error")
    case NoReview => None
  }

  /** The checks of a new review, in order: a package, a rating from 1 to 5, a
      comment that is not blank. */
  function CheckReview(r: Review): (x: Option<ReviewRefusal>)
    ensures x.None? <==> r.packageId.Some? && 1 <= r.rating <= 5 && !NullOrTrimsEmpty(r.comment)
    ensures r.packageId.None? ==> x == Some(PackageIdRequired)
    ensures r.packageId.Some? && !(1 <= r.rating <= 5) ==> x == Some(RatingOutOfRange)
    ensures r.packageId.Some? && 1 <= r.rating <= 5 && x.Some? ==> x == Some(CommentRequired)
  {
    if r.packageId.None? then Some(PackageIdRequired)
    else if r.rating < 1 || r.rating > 5 then Some(RatingOutOfRange)
    else if NullOrTrimsEmpty(r.comment) then Some(CommentRequired)
    else None
  }

  /** A body that leaves the rating out carries 0 and is refused. */
  lemma MissingRatingRefused(r: Review)
    requires r.packageId.Some? && r.rating == 0
    ensures CheckReview(r) == Some(RatingOutOfRange)
  {
  }

  /** addReview: answered 200 with the enhanced review; the service's refusal
      becomes 400 with its message, and any other exception a handled 500. */
  method AddReview(store: ReviewStore, dto: ReviewDto, tokenUserId: Option<int>, now: int,
                   bookings: Fetch<seq<JsonObject>>, look: Lookups)
    returns (r: Response<ReviewDto, ReviewRefusal>)
    requires store.Valid()
    modifies store
    ensures store.Valid()
    ensures tokenUserId.None? ==> r == Refused(StatusUnauthorized, InvalidToken)
    ensures tokenUserId.Some? && CheckReview(dto.review.(userId := tokenUserId)).Some? ==>
              r == Refused(StatusBadRequest, CheckReview(dto.review.(userId := tokenUserId)).value)
    ensures (tokenUserId.Some? && CheckReview(dto.review.(userId := tokenUserId)).None?
             && !Booked(bookings, dto.review.packageId)) ==> r == Refused(StatusBadRequest, Rejected(NotBooked))
    ensures r.Answer? ==> r.status == StatusOk && r.data.review.userId == tokenUserId
                          && r.data.review.packageId == dto.review.packageId
    ensures !r.Answer? && r != Refused(StatusServerError, InternalError) ==>
              store.rows == old(store.rows) && store.nextId == old(store.nextId)
    ensures tokenUserId.Some? && CheckReview(dto.review.(userId := tokenUserId)).None? && Booked(bookings, dto.review.packageId) ==>
              var body := dto.review.(userId := tokenUserId);
              var key := SaveKey(old(store.rows), old(store.nextId), body.reviewId);
              var saved := body.(reviewId := Some(key), timestamp := if body.timestamp.Some? then body.timestamp else Some(now));
              store.rows == old(store.rows)[key := saved]
              && (r.Answer? <==> Enhanced(saved, look).Ok?)
              && (r.Answer? ==> r.data == Enhanced(saved, look).value)
              && (!r.Answer? ==> r == Refused(StatusServerError, InternalError))
  {
    if tokenUserId.None? {
      return Refused(StatusUnauthorized, InvalidToken);
    }
    var body := dto.(review := dto.review.(userId := tokenUserId));
    var err := CheckReview(body.review);
    if err.Some? {
      return Refused(StatusBadRequest, err.value);
    }
    var added := store.Add(body, now, bookings, look);
    if added.Ok? {
      r := Answer(StatusOk, added.value);
    } else if added.error == NotBooked {
      r := Refused(StatusBadRequest, Rejected(NotBooked));
    } else {
      r := Refused(StatusServerError, InternalError);
    }
  }

  /** getReview */
  function GetReview(store: ReviewStore, id: int): (r: Response<ReviewDto, ReviewRefusal>)
    reads store
    ensures r.Answer? <==> id in store.rows
    ensures r.Answer? ==> r == Answer(StatusOk, BasicDto(store.rows[id]))
    ensures !r.Answer? ==> r == Refused(StatusNotFound, NoReview)
  {
    match store.ById(id)
    case Some(d) => Answer(StatusOk, d)
    case None => Refused(StatusNotFound, NoReview)
  }

  /** updateReview: open to any caller; 404 for an unknown id. */
  method UpdateReview(store: ReviewStore, id: int, dto: ReviewDto) returns (r: Response<ReviewDto, ReviewRefusal>)
    requires store.Valid()
    modifies store
    ensures store.Valid()
    ensures r.Answer? <==> id in old(store.rows)
    ensures r.Answer? ==> r.status == StatusOk && store.rows == old(store.rows)[id := r.data.review]
                          && r.data.review == Overwritten(old(store.rows)[id], dto.review)
    ensures !r.Answer? ==> r == Refused(StatusNotFound, NoReview) && store.rows == old(store.rows)
  {
    var u := store.Update(id, dto);
    r := if u.Some? then Answer(StatusOk, u.value) else Refused(StatusNotFound, NoReview);
  }

  /** addAgentReply: no identity or ownership check; 404 for an unknown id. */
  method AddAgentReply(store: ReviewStore, id: int, reply: Option<string>) returns (r: Response<ReviewDto, ReviewRefusal>)
    requires store.Valid()
    modifies store
    ensures store.Valid()
    ensures r.Answer? <==> id in old(store.rows)
    ensures r.Answer? ==> r.status == StatusOk && r.data.review == old(store.rows)[id].(agentReply := reply)
                          && store.rows == old(store.rows)[id := r.data.review]
    ensures !r.Answer? ==> r == Refused(StatusNotFound, NoReview) && store.rows == old(store.rows)
  {
    var u := store.AddAgentReply(id, reply);
    r := if u.Some? then Answer(StatusOk, u.value) else Refused(StatusNotFound, NoReview);
  }

  /** deleteReview: 404 unless the review exists, then 204. */
  method DeleteReview(store: ReviewStore, id: int) returns (r: Response<(), ReviewRefusal>)
    requires store.Valid()
    modifies store
    ensures store.Valid()
    ensures id in old(store.rows) ==> r == Answer(StatusNoContent, ()) && store.rows == old(store.rows) - {id}
    ensures id !in old(store.rows) ==> r == Refused(StatusNotFound, NoReview) && store.rows == old(store.rows)
  {
    if store.ById(id).None? {
      return Refused(StatusNotFound, NoReview);
    }
    store.Delete(id);
    r := Answer(StatusNoContent, ());
  }
}
