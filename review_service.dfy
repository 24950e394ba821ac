// The review service: reviews kept by id, added only by a user who booked the
// package, partly overwritten, answered by an agent, and listed with the
// reviewer's and the package's details from the other services.
module ReviewService {
  import opened Common
  import opened Table
  import opened Http

  /** A stored review. The timestamp is an instant; the conversions through UTC
      in both directions cancel out, so one number serves the entity and its
      transfer record. The rating is a Java `int`, 0 when not given. */
  datatype Review = Review(reviewId: Option<int>, userId: Option<int>, packageId: Option<int>, rating: int,
                           comment: Option<string>, agentReply: Option<string>, timestamp: Option<int>)

  /** The fields the enhanced transfer record adds (the package price is not
      modelled). */
  datatype ReviewDetails = ReviewDetails(userName: Option<string>, userEmail: Option<string>,
                                         packageName: Option<string>, packageDestination: Option<string>)

  const NoDetails := ReviewDetails(None, None, None, None)

  /** The transfer record: the review's own fields and the added details. */
  datatype ReviewDto = ReviewDto(review: Review, details: ReviewDetails)

  /** `toDto`; `toEntity` reads back `review`, so the two are inverse. */
  function BasicDto(r: Review): (d: ReviewDto)
    ensures d.review == r && d.details == NoDetails
  {
    ReviewDto(r, NoDetails)
  }

  const NotBooked := "You can only review packages you have booked"

  /** `validateUserBookedPackage` on the list a 2xx answer carries: the lazy
      `anyMatch` is true at the first booking on the package; a booking before
      it whose package id is not a number throws, and the handler answers false.
      A null package id throws on the first comparison. */
  function BookedIn(bs: seq<JsonObject>, packageId: Option<int>): (b: bool)
    ensures b ==> packageId.Some? && exists i :: 0 <= i < |bs| && Field(bs[i], "packageId") == JNum(packageId.value)
    ensures packageId.Some? && (forall i :: 0 <= i < |bs| ==> Field(bs[i], "packageId").JNum?) ==>
              (b <==> exists i :: 0 <= i < |bs| && Field(bs[i], "packageId") == JNum(packageId.value))
  {
    if bs == [] || packageId.None? then false
    else
      var v := Field(bs[0], "packageId");
      if !v.JNum? then false
      else if v.n == packageId.value then true
      else
        var rest := BookedIn(bs[1..], packageId);
        assert forall i :: 1 <= i < |bs| ==> bs[i] == bs[1..][i - 1];
        assert forall i :: 0 <= i < |bs[1..]| ==> bs[1..][i] == bs[i + 1];
        rest
  }

  /** The whole check: a failed or non-2xx lookup, or a null list, counts as no
      booking. */
  function Booked(f: Fetch<seq<JsonObject>>, packageId: Option<int>): (b: bool)
    ensures b ==> f.Answered? && f.data.Some?
    ensures f.Answered? && f.data.Some? ==> b == BookedIn(f.data.value, packageId)
  {
    f.Answered? && f.data.Some? && BookedIn(f.data.value, packageId)
  }

  /** A user with no bookings may not review anything. */
  lemma NoBookingsNoReview(packageId: Option<int>)
    ensures !Booked(Answered(Some([])), packageId)
  {
  }

  /** The data entry of a 2xx answer; null otherwise. */
  function DataOf(f: Fetch<JsonObject>): (d: Option<JsonObject>)
    ensures d.Some? ==> f.Answered?
  {
    if f.Answered? then f.data else None
  }

  /** The two lookups enrichment needs. */
  datatype Lookups = Lookups(users: Option<int> -> Fetch<JsonObject>, packages: Option<int> -> Fetch<JsonObject>)

  /** `toDtoEnhanced`: the reviewer's name and email and the package's name and
      destination where the lookups gave data; a field that is neither a string
      nor null throws (Err). */
  function Enhanced(r: Review, look: Lookups): (d: Result<ReviewDto>)
    ensures var user := DataOf(look.users(r.userId));
            var pkg := DataOf(look.packages(r.packageId));
            d.Ok? <==> (user.Some? ==> Castable(user.value, "name") && Castable(user.value, "email"))
                       && (pkg.Some? ==> Castable(pkg.value, "name") && Castable(pkg.value, "destination"))
    ensures d.Err? ==> d.error == "ClassCastException"
    ensures d.Ok? ==> d.value.review == r
    ensures var user := DataOf(look.users(r.userId));
            d.Ok? && user.Some? ==> Ok(d.value.details.userName) == StringOrNull(Field(user.value, "name"))
                                    && Ok(d.value.details.userEmail) == StringOrNull(Field(user.value, "email"))
    ensures var pkg := DataOf(look.packages(r.packageId));
            d.Ok? && pkg.Some? ==> Ok(d.value.details.packageName) == StringOrNull(Field(pkg.value, "name"))
                                   && Ok(d.value.details.packageDestination) == StringOrNull(Field(pkg.value, "destination"))
    ensures d.Ok? && DataOf(look.users(r.userId)).None? ==> d.value.details.userName.None? && d.value.details.userEmail.None?
    ensures d.Ok? && DataOf(look.packages(r.packageId)).None? ==>
              d.value.details.packageName.None? && d.value.details.packageDestination.None?
    ensures DataOf(look.users(r.userId)).None? && DataOf(look.packages(r.packageId)).None? ==> d == Ok(BasicDto(r))
  {
    var user := DataOf(look.users(r.userId));
    var pkg := DataOf(look.packages(r.packageId));
    var name := if user.Some? then StringOrNull(Field(user.value, "name")) else Ok(None);
    var email := if user.Some? then StringOrNull(Field(user.value, "email")) else Ok(None);
    var pkgName := if pkg.Some? then StringOrNull(Field(pkg.value, "name")) else Ok(None);
    var destination := if pkg.Some? then StringOrNull(Field(pkg.value, "destination")) else Ok(None);
    if name.Err? || email.Err? || pkgName.Err? || destination.Err? then Err("ClassCastException")
    else Ok(ReviewDto(r, ReviewDetails(name.value, email.value, pkgName.value, destination.value)))
  }

  /** The enhanced records of a list; the first throw escapes. */
  function EnhancedAll(rs: seq<Review>, look: Lookups): (r: Result<seq<ReviewDto>>)
    ensures r.Ok? <==> forall i :: 0 <= i < |rs| ==> Enhanced(rs[i], look).Ok?
    ensures r.Ok? ==> |r.value| == |rs| && forall i :: 0 <= i < |rs| ==> Ok(r.value[i]) == Enhanced(rs[i], look)
  {
    MapAll(rs, (q: Review) => Enhanced(q, look))
  }

  /** The overwrite of `updateReview`: a non-zero rating, and a comment or
      reply that is present; nothing else. */
  function Overwritten(e: Review, d: Review): (r: Review)
    ensures r.(rating := e.rating, comment := e.comment, agentReply := e.agentReply) == e
    ensures r.rating == (if d.rating != 0 then d.rating else e.rating)
    ensures d.comment.Some? ==> r.comment == d.comment
    ensures d.comment.None? ==> r.comment == e.comment
    ensures d.agentReply.Some? ==> r.agentReply == d.agentReply
    ensures d.agentReply.None? ==> r.agentReply == e.agentReply
  {
    var e1 := if d.rating != 0 then e.(rating := d.rating) else e;
    var e2 := if d.comment.Some? then e1.(comment := d.comment) else e1;
    if d.agentReply.Some? then e2.(agentReply := d.agentReply) else e2
  }

  /** An update carrying only a rating of 0 and no texts changes nothing, and an
      update applied twice is applied once. */
  lemma OverwriteLaws(e: Review, d: Review)
    ensures d.rating == 0 && d.comment.None? && d.agentReply.None? ==> Overwritten(e, d) == e
    ensures Overwritten(Overwritten(e, d), d) == Overwritten(e, d)
  {
  }

  /** The enhanced records of the rows under some keys, element by element. */
  lemma EnhancedAt(rows: map<int, Review>, ks: seq<int>, look: Lookups)
    requires forall i :: 0 <= i < |ks| ==> ks[i] in rows
    ensures var r := EnhancedAll(RowsAt(rows, ks), look);
            (r.Ok? <==> forall i :: 0 <= i < |ks| ==> Enhanced(rows[ks[i]], look).Ok?)
            && (r.Ok? ==> |r.value| == |ks| && forall i :: 0 <= i < |ks| ==> Ok(r.value[i]) == Enhanced(rows[ks[i]], look))
  {
    var ws := RowsAt(rows, ks);
    assert |ws| == |ks| && forall i :: 0 <= i < |ks| ==> ws[i] == rows[ks[i]];
  }

  /** The filters of `findAllByUserId` and `findAllByPackageId`. */
  function WrittenBy(userId: int): Review -> bool { (v: Review) => v.userId == Some(userId) }
  function AboutPackage(packageId: int): Review -> bool { (v: Review) => v.packageId == Some(packageId) }

  class ReviewStore {
    var rows: map<int, Review>
    var nextId: int

    /** Keys run from 1 below the next id, and every row carries its own key. */
    ghost predicate Valid()
      reads this
    {
      nextId >= 1 && forall k :: k in rows ==> 1 <= k < nextId && rows[k].reviewId == Some(k)
    }

    constructor ()
      ensures Valid() && rows == map[] && nextId == 1
    {
      rows := map[];
      nextId := 1;
    }

    /** getAllReviews: every stored review, basic, in id order. */
    function All(): (r: seq<ReviewDto>)
      reads this
      ensures |r| == |Listing(rows, nextId)|
      ensures forall i :: 0 <= i < |r| ==> r[i] == BasicDto(Listing(rows, nextId)[i])
    {
      var s := Listing(rows, nextId);
      seq(|s|, i requires 0 <= i < |s| => BasicDto(s[i]))
    }

    /** getReviewById: None for an unknown id. */
    function ById(id: int): (r: Option<ReviewDto>)
      reads this
      ensures r.Some? <==> id in rows
      ensures r.Some? ==> r.value == BasicDto(rows[id])
    {
      if id in rows then Some(BasicDto(rows[id])) else None
    }

    /** The stored reviews satisfying `p`, each once, in ascending id order. */
    function Where(p: Review -> bool): (r: seq<Review>)
      reads this
      ensures r == RowsAt(rows, KeysWhere(rows, nextId, p))
      ensures forall i :: 0 <= i < |r| ==> p(r[i]) && r[i] in rows.Values
      ensures forall k :: k in rows && 1 <= k < nextId && p(rows[k]) ==> rows[k] in r
    {
      var all := Listing(rows, nextId);
      var r := Filter(all, p);
      ListingFilter(rows, nextId, p);
      assert forall i :: 0 <= i < |r| ==> r[i] in rows.Values by {
        forall i | 0 <= i < |r| ensures r[i] in rows.Values {
          assert r[i] in all;
        }
      }
      assert forall k :: k in rows && 1 <= k < nextId && p(rows[k]) ==> rows[k] in r by {
        forall k | k in rows && 1 <= k < nextId && p(rows[k]) ensures rows[k] in r {
          assert rows[k] in all;
        }
      }
      r
    }

    /** getReviewsByUserId: the user's reviews in ascending id order, each
        enhanced; the first throw escapes. */
    function ByUser(userId: int, look: Lookups): (r: Result<seq<ReviewDto>>)
      reads this
      ensures var ks := KeysWhere(rows, nextId, WrittenBy(userId));
              (r.Ok? <==> forall i :: 0 <= i < |ks| ==> Enhanced(rows[ks[i]], look).Ok?)
              && (r.Ok? ==> |r.value| == |ks| && forall i :: 0 <= i < |ks| ==> Ok(r.value[i]) == Enhanced(rows[ks[i]], look))
      ensures r.Ok? ==> forall i :: 0 <= i < |r.value| ==> r.value[i].review.userId == Some(userId)
    {
      EnhancedAt(rows, KeysWhere(rows, nextId, WrittenBy(userId)), look);
      var ws := Where(WrittenBy(userId));
      var r := EnhancedAll(ws, look);
      assert r.Ok? ==> forall i :: 0 <= i < |r.value| ==> r.value[i].review == ws[i] && ws[i].userId == Some(userId);
      r
    }

    /** getReviewsByPackageId: the package's reviews in ascending id order, each
        enhanced; the first throw escapes. */
    function ByPackage(packageId: int, look: Lookups): (r: Result<seq<ReviewDto>>)
      reads this
      ensures var ks := KeysWhere(rows, nextId, AboutPackage(packageId));
              (r.Ok? <==> forall i :: 0 <= i < |ks| ==> Enhanced(rows[ks[i]], look).Ok?)
              && (r.Ok? ==> |r.value| == |ks| && forall i :: 0 <= i < |ks| ==> Ok(r.value[i]) == Enhanced(rows[ks[i]], look))
      ensures r.Ok? ==> forall i :: 0 <= i < |r.value| ==> r.value[i].review.packageId == Some(packageId)
    {
      EnhancedAt(rows, KeysWhere(rows, nextId, AboutPackage(packageId)), look);
      var ws := Where(AboutPackage(packageId));
      var r := EnhancedAll(ws, look);
      assert r.Ok? ==> forall i :: 0 <= i < |r.value| ==> r.value[i].review == ws[i] && ws[i].packageId == Some(packageId);
      r
    }

    /** addReview: refused unless the user booked the package; otherwise saved
        (merged into a stored row of the same id) with the timestamp now when
        it had none, and answered enhanced; when the enrichment throws the row
        stays saved while the call fails. */
    method Add(dto: ReviewDto, now: int, bookings: Fetch<seq<JsonObject>>, look: Lookups) returns (r: Result<ReviewDto>)
      requires Valid()
      modifies this
      ensures Valid()
      ensures !Booked(bookings, dto.review.packageId) ==>
                r == Err(NotBooked) && rows == old(rows) && nextId == old(nextId)
      ensures Booked(bookings, dto.review.packageId) ==>
                var key := SaveKey(old(rows), old(nextId), dto.review.reviewId);
                var saved := dto.review.(reviewId := Some(key),
                                         timestamp := if dto.review.timestamp.Some? then dto.review.timestamp else Some(now));
                rows == old(rows)[key := saved]
                && nextId == (if key == old(nextId) then old(nextId) + 1 else old(nextId))
                && r == Enhanced(saved, look)
    {
      if !Booked(bookings, dto.review.packageId) {
        return Err(NotBooked);
      }
      var review := dto.review;
      if review.timestamp.None? {
        review := review.(timestamp := Some(now));
      }
      var key := SaveKey(rows, nextId, review.reviewId);
      var saved := review.(reviewId := Some(key));
      rows := rows[key := saved];
      if key == nextId {
        nextId := nextId + 1;
      }
      r := Enhanced(saved, look);
    }

    /** updateReview: None for an unknown id. */
    method Update(id: int, dto: ReviewDto) returns (r: Option<ReviewDto>)
      requires Valid()
      modifies this
      ensures Valid() && nextId == old(nextId)
      ensures r.Some? <==> id in old(rows)
      ensures r.Some? ==> r.value == BasicDto(Overwritten(old(rows)[id], dto.review))
                          && rows == old(rows)[id := r.value.review]
      ensures r.None? ==> rows == old(rows)
    {
      if id !in rows {
        return None;
      }
      var e := Overwritten(rows[id], dto.review);
      rows := rows[id := e];
      r := Some(BasicDto(e));
    }

    /** addAgentReply: the reply replaces any earlier one; None for an unknown
        id. */
    method AddAgentReply(id: int, reply: Option<string>) returns (r: Option<ReviewDto>)
      requires Valid()
      modifies this
      ensures Valid() && nextId == old(nextId)
      ensures r.Some? <==> id in old(rows)
      ensures r.Some? ==> r.value == BasicDto(old(rows)[id].(agentReply := reply)) && rows == old(rows)[id := r.value.review]
      ensures r.None? ==> rows == old(rows)
    {
      if id !in rows {
        return None;
      }
      var e := rows[id].(agentReply := reply);
      rows := rows[id := e];
      r := Some(BasicDto(e));
    }

    /** deleteReview: the id leaves; an unknown id is ignored. */
    method Delete(id: int)
      requires Valid()
      modifies this
      ensures Valid() && nextId == old(nextId)
      ensures rows == old(rows) - {id}
    {
      rows := rows - {id};
    }
  }
}
