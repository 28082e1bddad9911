/**
 * Reviewing a completed service request. Either party may review the other
 * once; who is reviewed, and in which role, is worked out from which party
 * the caller is, never taken from the request body.
 */
module CreateReview {
  import opened Schema
  import opened Parties
  import opened Store

  /** The request body; every field may be absent. */
  datatype ReviewInput = ReviewInput(
    requestId: Option<Id>,
    rating: Option<int>,
    title: Option<string>,
    comment: Option<string>,
    isPublic: Option<bool>)

  /** Whether a review is public when the body does not say. */
  const DefaultIsPublic := true

  /** Both the request id and a non-zero rating are present. */
  predicate HasRequiredFields(input: ReviewInput) {
    Given(input.requestId) && input.rating.Some? && input.rating.value != 0
  }

  predicate RatingInRange(rating: int) {
    1 <= rating <= 5
  }

  /** The caller's side of the review and the party being reviewed. */
  datatype Authorship = Authorship(request: ServiceRequest, role: Role, reviewedId: Id)

  /**
   * The checks before any write, in the handler's order: the fields, the
   * rating, the request, its status, the caller's side and an earlier review.
   */
  function CheckReview(input: ReviewInput, caller: Id, requests: map<Id, ServiceRequest>,
                       providers: map<Id, ServiceProvider>, reviews: seq<Review>)
    : (r: Result<Authorship>)
    requires RequestsLinked(requests, providers)
    ensures r == Err(ReviewFieldsRequired) <==> !HasRequiredFields(input)
    ensures r == Err(RatingOutOfRange) <==> HasRequiredFields(input) && !RatingInRange(input.rating.value)
    ensures r == Err(RequestNotFound) <==>
      HasRequiredFields(input) && RatingInRange(input.rating.value) && Find(requests, input.requestId).None?
    ensures r == Err(NotCompleted) <==>
      && HasRequiredFields(input) && RatingInRange(input.rating.value)
      && Find(requests, input.requestId).Some?
      && Find(requests, input.requestId).value.status != Completed
    ensures r == Err(AccessDenied) <==>
      && HasRequiredFields(input) && RatingInRange(input.rating.value)
      && Find(requests, input.requestId).Some?
      && Find(requests, input.requestId).value.status == Completed
      && var p := PartiesOf(Find(requests, input.requestId).value, providers);
      && caller != p.owner && caller != p.provider
    ensures r == Err(AlreadyReviewed) <==>
      && HasRequiredFields(input) && RatingInRange(input.rating.value)
      && Find(requests, input.requestId).Some?
      && Find(requests, input.requestId).value.status == Completed
      && var p := PartiesOf(Find(requests, input.requestId).value, providers);
      && (caller == p.owner || caller == p.provider)
      && Reviewed(reviews, input.requestId.value, caller)
    ensures r.Ok? <==>
      && HasRequiredFields(input) && RatingInRange(input.rating.value)
      && Find(requests, input.requestId).Some?
      && Find(requests, input.requestId).value.status == Completed
      && var p := PartiesOf(Find(requests, input.requestId).value, providers);
      && (caller == p.owner || caller == p.provider)
      && !Reviewed(reviews, input.requestId.value, caller)
    ensures r.Ok? ==>
      && HasRequiredFields(input) && RatingInRange(input.rating.value)
      && Find(requests, input.requestId) == Some(r.value.request)
      && r.value.request.status == Completed
      && !Reviewed(reviews, input.requestId.value, caller)
      && var p := PartiesOf(r.value.request, providers);
      && (caller == p.owner ==> r.value.role == Owner && r.value.reviewedId == p.provider)
      && (caller != p.owner ==> caller == p.provider && r.value.role == Provider && r.value.reviewedId == p.owner)
  {
    if !HasRequiredFields(input) then Err(ReviewFieldsRequired)
    else if !RatingInRange(input.rating.value) then Err(RatingOutOfRange)
    else match Find(requests, input.requestId)
      case None => Err(RequestNotFound)
      case Some(req) =>
        if req.status != Completed then Err(NotCompleted)
        else
          var p := PartiesOf(req, providers);
          match RoleOf(p, caller)
          case None => Err(AccessDenied)
          case Some(role) =>
            if Reviewed(reviews, input.requestId.value, caller) then Err(AlreadyReviewed)
            else Ok(Authorship(req, role, Counterpart(p, role)))
  }

  /** The row the handler inserts: written by the caller, about the derived party, in the derived role. */
  function Written(id: Id, caller: Id, input: ReviewInput, authorship: Authorship): Review
    requires HasRequiredFields(input)
  {
    Review(
      id := id,
      requestId := input.requestId.value,
      reviewerId := caller,
      reviewedId := authorship.reviewedId,
      rating := input.rating.value,
      title := input.title,
      comment := input.comment,
      reviewerType := authorship.role,
      isPublic := input.isPublic.GetOr(DefaultIsPublic))
  }

  /** A review the checks let through is well-formed and is the caller's first on that request. */
  lemma AcceptedReviewIsWellFormed(input: ReviewInput, caller: Id, id: Id, requests: map<Id, ServiceRequest>,
                                   providers: map<Id, ServiceProvider>, reviews: seq<Review>)
    requires RequestsLinked(requests, providers)
    requires ReviewsUnique(reviews)
    requires CheckReview(input, caller, requests, providers, reviews).Ok?
    ensures var rv := Written(id, caller, input, CheckReview(input, caller, requests, providers, reviews).value);
      WellFormedReview(rv, requests, providers) && ReviewsUnique(reviews + [rv])
  {
    var a := CheckReview(input, caller, requests, providers, reviews).value;
    var rv := Written(id, caller, input, a);
    var p := PartiesOf(a.request, providers);
    assert input.requestId.value in requests && requests[input.requestId.value] == a.request;
    if caller == p.owner {
      assert RoleOf(p, caller) == Some(Owner);
    } else {
      assert RoleOf(p, caller) == Some(Provider);
    }
    AppendReviewUnique(reviews, rv);
  }

  /** The handler. `newId` is the id the store assigns to the review. */
  method Create(db: Database, caller: Id, input: ReviewInput, newId: Id, outcomes: WriteOutcomes)
    returns (r: Result<Review>)
    requires db.Valid()
    modifies db`reviews, db`notifications
    ensures db.Valid()
    ensures Evolves(old(db.requests), db.requests)
    ensures CheckReview(input, caller, db.requests, db.providers, old(db.reviews)).Err? ==>
      r == Err(CheckReview(input, caller, db.requests, db.providers, old(db.reviews)).error) && unchanged(db)
    ensures CheckReview(input, caller, db.requests, db.providers, old(db.reviews)).Ok? && !outcomes.primary ==>
      r == Err(StoreFailure) && unchanged(db)
    ensures CheckReview(input, caller, db.requests, db.providers, old(db.reviews)).Ok? && outcomes.primary ==>
      var a := CheckReview(input, caller, db.requests, db.providers, old(db.reviews)).value;
      && r.Ok?
      && r.value == Written(newId, caller, input, a)
      && r.value.reviewerId == caller
      && WellFormedReview(r.value, db.requests, db.providers)
      && db.reviews == old(db.reviews) + [r.value]
      && db.notifications == old(db.notifications) +
           (if outcomes.notification
            then [Notification(Some(a.reviewedId), NewMessage, r.value.requestId, None)]
            else [])
  {
    var check := CheckReview(input, caller, db.requests, db.providers, db.reviews);
    if check.Err? {
      return Err(check.error);
    }
    if !outcomes.primary {
      return Err(StoreFailure);
    }
    var review := Written(newId, caller, input, check.value);
    AcceptedReviewIsWellFormed(input, caller, newId, db.requests, db.providers, db.reviews);
    db.reviews := db.reviews + [review];
    db.Notify(Notification(Some(check.value.reviewedId), NewMessage, review.requestId, None), outcomes.notification);
    r := Ok(review);
  }
}
