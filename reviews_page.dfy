// The reviews page: customers write reviews, the agent who owns a package
// replies to the reviews of it, and a summary counts the reviews shown.
module ReviewsPage {
  import opened Common
  import opened ClientRecords
  import opened BookingForm
  import opened AdminDashboard

  /** A review as the page reads it: each property may be missing. */
  datatype ClientReview = ClientReview(reviewID: Option<int>, ReviewID: Option<int>, PackageID: Option<int>,
                                       Rating: Option<int>, Comment: Option<string>, agentReply: Option<string>)

  /** The create call's body, `{success: true, data: review}`. */
  datatype CreatedBody = CreatedBody(data: ClientReview)

  /** That body read as a review: it has none of a review's properties. */
  const EnvelopeAsRead := ClientReview(None, None, None, None, None, None)

  datatype ReviewPackage = ReviewPackage(packageId: Option<int>, PackageID: Option<int>, AgentID: Option<int>)

  /** `packages.find(pkg => (pkg.packageId || pkg.PackageID) === id)`: the first match. */
  function FindPackage(ps: seq<ReviewPackage>, id: Option<int>): (r: Option<ReviewPackage>)
    ensures r.Some? ==> r.value in ps && OrInt(r.value.packageId, r.value.PackageID) == id
    ensures r.None? ==> forall p :: p in ps ==> OrInt(p.packageId, p.PackageID) != id
  {
    if ps == [] then None
    else if OrInt(ps[0].packageId, ps[0].PackageID) == id then Some(ps[0])
    else FindPackage(ps[1..], id)
  }

  /** canReplyToReview: the user's role is agent and the reviewed package's AgentID
      equals the user's id. */
  predicate CanReply(user: Option<ClientUser>, ps: seq<ReviewPackage>, review: ClientReview)
  {
    user.Some? && RoleOf(user.value) == Some("agent")
    && FindPackage(ps, review.PackageID).Some?
    && FindPackage(ps, review.PackageID).value.AgentID == IdOf(user.value)
  }

  /** Only an agent may ever reply, and only when the reviewed package is known. */
  lemma OnlyOwningAgentReplies(user: Option<ClientUser>, ps: seq<ReviewPackage>, review: ClientReview)
    requires CanReply(user, ps, review)
    ensures RoleOf(user.value) == Some("agent")
    ensures exists p :: p in ps && OrInt(p.packageId, p.PackageID) == review.PackageID && p.AgentID == IdOf(user.value)
  {
    var p := FindPackage(ps, review.PackageID).value;
    assert p in ps;
  }

  /** The reply form is offered when the user may reply and no reply exists yet. */
  predicate ReplyFormShown(user: Option<ClientUser>, ps: seq<ReviewPackage>, review: ClientReview)
  {
    CanReply(user, ps, review) && !Truthy(review.agentReply)
  }

  /** The write-review button is shown to signed-in customers only. */
  predicate WriteButtonShown(isAuthenticated: bool, user: Option<ClientUser>)
  {
    isAuthenticated && user.Some? && RoleOf(user.value) == Some("customer")
  }

  const FullStar: char := '⭐'
  const EmptyStar: char := '☆'

  function Repeat(c: char, n: nat): (r: string)
    ensures |r| == n && forall i :: 0 <= i < n ==> r[i] == c
  {
    if n == 0 then [] else [c] + Repeat(c, n - 1)
  }

  /** renderStars: `rating` filled stars then `5 - rating` empty ones. A missing
      rating counts as 0 stars of each kind and renders as nothing; a rating above
      5 or below 0 makes `repeat` throw a RangeError during rendering (None). */
  function RenderStars(rating: Option<int>): (r: Option<string>)
    ensures r.Some? <==> rating.None? || 0 <= rating.value <= 5
    ensures rating.None? ==> r == Some("")
    ensures r.Some? && rating.Some? ==> |r.value| == 5
    ensures r.Some? && rating.Some? ==> forall i :: 0 <= i < 5 ==> r.value[i] == (if i < rating.value then FullStar else EmptyStar)
  {
    if rating.None? then Some("")
    else if 0 <= rating.value <= 5 then Some(Repeat(FullStar, rating.value) + Repeat(EmptyStar, 5 - rating.value))
    else None
  }

  /** `review.Rating >= 4`, false for a missing rating. */
  predicate FourPlus(r: ClientReview) { r.Rating.Some? && r.Rating.value >= 4 }

  predicate Rated(r: ClientReview) { r.Rating.Some? }

  /** The summary: the number of reviews, the rating total the average divides
      (None when it is NaN), and the number rated 4 or more. */
  datatype Summary = Summary(total: nat, ratingSum: Option<int>, fourPlus: nat)

  /** `reduce((sum, review) => sum + review.Rating, 0)`: a missing rating adds NaN. */
  function RatingSum(rs: seq<ClientReview>): Option<int>
  {
    if rs == [] then Some(0)
    else
      var rest := RatingSum(rs[1..]);
      if rs[0].Rating.None? || rest.None? then None else Some(rs[0].Rating.value + rest.value)
  }

  function Summarize(rs: seq<ClientReview>): (s: Summary)
    ensures s.total == |rs| && s.fourPlus <= s.total
    ensures s.ratingSum.Some? <==> forall i :: 0 <= i < |rs| ==> Rated(rs[i])
    ensures (forall i :: 0 <= i < |rs| ==> rs[i].Rating.Some? && 1 <= rs[i].Rating.value <= 5) ==>
              s.ratingSum.Some? && s.total <= s.ratingSum.value <= 5 * s.total
  {
    RatingBounds(rs);
    Summary(|rs|, RatingSum(rs), Count(rs, FourPlus))
  }

  lemma {:induction false} RatingBounds(rs: seq<ClientReview>)
    ensures RatingSum(rs).Some? <==> forall i :: 0 <= i < |rs| ==> Rated(rs[i])
    ensures (forall i :: 0 <= i < |rs| ==> rs[i].Rating.Some? && 1 <= rs[i].Rating.value <= 5) ==>
              RatingSum(rs).Some? && |rs| <= RatingSum(rs).value <= 5 * |rs|
  {
    if rs != [] {
      RatingBounds(rs[1..]);
      assert forall i :: 0 <= i < |rs[1..]| ==> rs[1..][i] == rs[i + 1];
      if forall i :: 0 <= i < |rs[1..]| ==> Rated(rs[1..][i]) {
        if Rated(rs[0]) {
          forall i | 0 <= i < |rs| ensures Rated(rs[i]) {
            if i > 0 { assert rs[i] == rs[1..][i - 1]; }
          }
        }
      }
    }
  }

  /** The wrapper appended after a successful create has no rating, so the
      summary's average becomes NaN and its card shows no stars. */
  lemma AppendedEnvelopeHasNoRating(rs: seq<ClientReview>)
    ensures Summarize(rs + [EnvelopeAsRead]).total == |rs| + 1
    ensures Summarize(rs + [EnvelopeAsRead]).ratingSum.None?
    ensures RenderStars(EnvelopeAsRead.Rating) == Some("")
    ensures EnvelopeAsRead.ReviewID.None? && EnvelopeAsRead.Comment.None?
  {
    assert !Rated((rs + [EnvelopeAsRead])[|rs|]);
  }

  /** The review form. `packageId` is the selected option's value text. */
  datatype ReviewForm = ReviewForm(rating: int, comment: string, packageId: string)

  const EmptyForm := ReviewForm(5, "", "")

  datatype FormError = MissingFields | RatingOutOfRange

  /** The checks before anything is sent, in order. */
  function CheckReview(f: ReviewForm): (r: Option<FormError>)
    ensures r.None? <==> !JsBlank(f.comment) && f.packageId != "" && 1 <= f.rating <= 5
    ensures JsBlank(f.comment) || f.packageId == "" ==> r == Some(MissingFields)
  {
    if JsBlank(f.comment) || f.packageId == "" then Some(MissingFields)
    else if f.rating < 1 || f.rating > 5 then Some(RatingOutOfRange)
    else None
  }

  /** The create call's body. `UserID` is left to the token. */
  datatype ReviewRequest = ReviewRequest(PackageID: Option<int>, Rating: int, Comment: string)

  /** The body sent for a checked form: the package id parsed as `parseInt` does,
      the rating, and the comment untrimmed. */
  function RequestOf(f: ReviewForm): (r: ReviewRequest)
    ensures r.Rating == f.rating && r.Comment == f.comment && r.PackageID == ParseInt(f.packageId)
  {
    ReviewRequest(ParseInt(f.packageId), f.rating, f.comment)
  }

  datatype ReviewNotice = Invalid(reason: FormError) | Submitted | SubmitFailed(error: Option<string>)
                        | Replied | ReplyFailed

  class Page {
    var allReviews: seq<ClientReview>
    var packages: seq<ReviewPackage>
    var showReviewForm: bool
    var form: ReviewForm

    constructor ()
      ensures allReviews == [] && packages == [] && !showReviewForm && form == EmptyForm
    {
      allReviews := [];
      packages := [];
      showReviewForm := false;
      form := EmptyForm;
    }

    /** loadData: a list whose call failed keeps its previous value. Its
        `data?.data || data` unwrapping picks the same list as `Unwrap` for every
        body shape: a truthy `data.data` that is not a list gives [] either way. */
    method Load(reviews: Reply<Body<ClientReview>>, pkgs: Reply<Body<ReviewPackage>>)
      modifies this
      ensures allReviews == (if reviews.Success? then Unwrap(reviews) else old(allReviews))
      ensures packages == (if pkgs.Success? then Unwrap(pkgs) else old(packages))
      ensures showReviewForm == old(showReviewForm) && form == old(form)
    {
      if reviews.Success? {
        allReviews := Unwrap(reviews);
      }
      if pkgs.Success? {
        packages := Unwrap(pkgs);
      }
    }

    /** handleReviewSubmit as written: an invalid form sends nothing; after a
        successful create the reply's `data`, which is the create call's body
        and not the review inside it, is appended, and the form resets and
        closes. The comment is sent untrimmed. */
    method SubmitReviewAsWritten(reply: Reply<CreatedBody>) returns (sent: Option<ReviewRequest>, notice: ReviewNotice)
      modifies this`allReviews, this`form, this`showReviewForm
      ensures sent.Some? <==> CheckReview(old(form)).None?
      ensures sent.Some? ==> sent.value == RequestOf(old(form))
      ensures sent.None? ==> notice == Invalid(CheckReview(old(form)).value)
      ensures sent.Some? && reply.Success? ==>
                allReviews == old(allReviews) + [EnvelopeAsRead] && form == EmptyForm && !showReviewForm
                && notice == Submitted
      ensures !(sent.Some? && reply.Success?) ==>
                allReviews == old(allReviews) && form == old(form) && showReviewForm == old(showReviewForm)
      ensures sent.Some? && reply.Failure? ==> notice == SubmitFailed(reply.error)
      ensures packages == old(packages)
    {
      sent, notice := Submit(reply, EnvelopeAsRead);
    }

    /** handleReviewSubmit with the created review taken out of the body: the
        review the backend created joins the list. */
    method SubmitReview(reply: Reply<CreatedBody>) returns (sent: Option<ReviewRequest>, notice: ReviewNotice)
      modifies this`allReviews, this`form, this`showReviewForm
      ensures sent.Some? <==> CheckReview(old(form)).None?
      ensures sent.Some? ==> sent.value == RequestOf(old(form))
      ensures sent.None? ==> notice == Invalid(CheckReview(old(form)).value)
      ensures sent.Some? && reply.Success? ==>
                allReviews == old(allReviews) + [reply.data.data] && form == EmptyForm && !showReviewForm
                && notice == Submitted
      ensures !(sent.Some? && reply.Success?) ==>
                allReviews == old(allReviews) && form == old(form) && showReviewForm == old(showReviewForm)
      ensures sent.Some? && reply.Failure? ==> notice == SubmitFailed(reply.error)
      ensures packages == old(packages)
    {
      var created := if reply.Success? then reply.data.data else EnvelopeAsRead;
      sent, notice := Submit(reply, created);
    }

    /** The checks, the call and, on success, appending `shown`. */
    method Submit(reply: Reply<CreatedBody>, shown: ClientReview) returns (sent: Option<ReviewRequest>, notice: ReviewNotice)
      modifies this`allReviews, this`form, this`showReviewForm
      ensures sent.Some? <==> CheckReview(old(form)).None?
      ensures sent.Some? ==> sent.value == RequestOf(old(form))
      ensures sent.None? ==> notice == Invalid(CheckReview(old(form)).value)
      ensures sent.Some? && reply.Success? ==>
                allReviews == old(allReviews) + [shown] && form == EmptyForm && !showReviewForm
                && notice == Submitted
      ensures !(sent.Some? && reply.Success?) ==>
                allReviews == old(allReviews) && form == old(form) && showReviewForm == old(showReviewForm)
      ensures sent.Some? && reply.Failure? ==> notice == SubmitFailed(reply.error)
      ensures packages == old(packages)
    {
      var f := form;
      var err := CheckReview(f);
      if err.Some? {
        return None, Invalid(err.value);
      }
      sent := Some(RequestOf(f));
      if reply.Success? {
        Accept(shown);
        notice := Submitted;
      } else {
        notice := SubmitFailed(reply.error);
      }
    }

    /** The success branch: the given element joins the list, and the form
        resets and closes. */
    method Accept(shown: ClientReview)
      modifies this`allReviews, this`form, this`showReviewForm
      ensures allReviews == old(allReviews) + [shown] && form == EmptyForm && !showReviewForm
    {
      allReviews := allReviews + [shown];
      form := EmptyForm;
      showReviewForm := false;
    }

    /** The Reply button and handleReplySubmit: a blank reply sends nothing; the
        button sends the review's `ReviewID`, and a success sets `agentReply` on the
        reviews whose `reviewID || ReviewID` equals it. */
    method SubmitReply(review: ClientReview, text: string, reply: Reply<()>)
      returns (sentFor: Option<Option<int>>, notice: Option<ReviewNotice>)
      modifies this
      ensures sentFor.Some? <==> !JsBlank(text)
      ensures sentFor.Some? ==> sentFor.value == review.ReviewID
      ensures sentFor.Some? && reply.Success? ==>
                allReviews == UpdateWhere(old(allReviews), (r: ClientReview) => OrInt(r.reviewID, r.ReviewID) == review.ReviewID,
                                          (r: ClientReview) => r.(agentReply := Some(text)))
                && notice == Some(Replied)
      ensures !(sentFor.Some? && reply.Success?) ==> allReviews == old(allReviews)
      ensures sentFor.Some? && reply.Failure? ==> notice == Some(ReplyFailed)
      ensures sentFor.None? ==> notice.None?
      ensures packages == old(packages) && form == old(form) && showReviewForm == old(showReviewForm)
    {
      if JsBlank(text) {
        sentFor := None;
        notice := None;
        return;
      }
      sentFor := Some(review.ReviewID);
      if reply.Success? {
        allReviews := UpdateWhere(allReviews, (r: ClientReview) => OrInt(r.reviewID, r.ReviewID) == review.ReviewID,
                                  (r: ClientReview) => r.(agentReply := Some(text)));
        notice := Some(Replied);
      } else {
        notice := Some(ReplyFailed);
      }
    }
  }

  /** A reply changes no review whose id differs, and on the matching ones only
      the reply. */
  lemma ReplyLocal(rs: seq<ClientReview>, id: Option<int>, text: string)
    ensures var r := UpdateWhere(rs, (x: ClientReview) => OrInt(x.reviewID, x.ReviewID) == id,
                                 (x: ClientReview) => x.(agentReply := Some(text)));
            |r| == |rs|
            && (forall i :: 0 <= i < |rs| && OrInt(rs[i].reviewID, rs[i].ReviewID) != id ==> r[i] == rs[i])
            && (forall i :: 0 <= i < |rs| && OrInt(rs[i].reviewID, rs[i].ReviewID) == id ==>
                  r[i].(agentReply := rs[i].agentReply) == rs[i] && r[i].agentReply == Some(text))
  {
  }

  /** A review whose id is set only in camel case never matches the id its own
      Reply button sends, so the reply is stored on the server but not shown. */
  lemma CamelCaseIdNotMatched(review: ClientReview, text: string)
    requires review.reviewID == Some(7) && review.ReviewID == None
    ensures var r := UpdateWhere([review], (x: ClientReview) => OrInt(x.reviewID, x.ReviewID) == review.ReviewID,
                                 (x: ClientReview) => x.(agentReply := Some(text)));
            r == [review]
  {
  }
}
