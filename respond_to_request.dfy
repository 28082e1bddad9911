/**
 * Accepting or rejecting a service request: the one status transition the
 * handlers implement. Only the provider named on a pending request may
 * respond; accepting stamps the acceptance time and adds a booking to the
 * provider's counter.
 */
module RespondToRequest {
  import opened Schema
  import opened Store

  /** The request body; every field may be absent. */
  datatype ResponseInput = ResponseInput(requestId: Option<Id>, action: Option<string>, providerNotes: Option<string>)

  predicate IsAction(action: Option<string>) {
    action == Some("accept") || action == Some("reject")
  }

  predicate Accepts(input: ResponseInput) {
    input.action == Some("accept")
  }

  /** The user who runs the provider record a request names. */
  function ProviderUser(req: ServiceRequest, providers: map<Id, ServiceProvider>): Id
    requires req.providerId in providers
  {
    providers[req.providerId].profileId
  }

  /**
   * The checks before any write, in the handler's order: the action, the
   * request, the caller and the status. On success, the request as it was read.
   */
  function CheckResponse(input: ResponseInput, caller: Id,
                         requests: map<Id, ServiceRequest>, providers: map<Id, ServiceProvider>)
    : (r: Result<ServiceRequest>)
    requires RequestsLinked(requests, providers)
    ensures r == Err(InvalidAction) <==> !IsAction(input.action)
    ensures r == Err(RequestNotFound) <==> IsAction(input.action) && Find(requests, input.requestId).None?
    ensures r == Err(AccessDenied) <==>
      && IsAction(input.action)
      && Find(requests, input.requestId).Some?
      && ProviderUser(Find(requests, input.requestId).value, providers) != caller
    ensures r == Err(NotPending) <==>
      && IsAction(input.action)
      && Find(requests, input.requestId).Some?
      && ProviderUser(Find(requests, input.requestId).value, providers) == caller
      && Find(requests, input.requestId).value.status != Pending
    ensures r.Ok? <==>
      && IsAction(input.action)
      && Find(requests, input.requestId).Some?
      && ProviderUser(Find(requests, input.requestId).value, providers) == caller
      && Find(requests, input.requestId).value.status == Pending
    ensures r.Ok? ==>
      && Find(requests, input.requestId) == Some(r.value)
      && ProviderUser(r.value, providers) == caller
      && r.value.status == Pending
  {
    if !IsAction(input.action) then Err(InvalidAction)
    else match Find(requests, input.requestId)
      case None => Err(RequestNotFound)
      case Some(req) =>
        if ProviderUser(req, providers) != caller then Err(AccessDenied)
        else if req.status != Pending then Err(NotPending)
        else Ok(req)
  }

  /**
   * The row after the update: accepted or rejected as the action says, the
   * provider's notes when given (an absent note leaves the column as it was),
   * and on accept the acceptance time. No other column changes.
   */
  function Responded(req: ServiceRequest, accept: bool, notes: Option<string>, now: int): (r: ServiceRequest)
    ensures r.status == Accepted <==> accept
    ensures r.status == Rejected <==> !accept
    ensures req.status == Pending ==> Step(req.status, r.status)
    ensures r.acceptedAt == if accept then Some(now) else req.acceptedAt
    ensures r.providerNotes == if notes.Some? then notes else req.providerNotes
    ensures r.(status := req.status, acceptedAt := req.acceptedAt, providerNotes := req.providerNotes) == req
  {
    var updated := req.(status := if accept then Accepted else Rejected, providerNotes := if notes.Some? then notes else req.providerNotes);
    if accept then updated.(acceptedAt := Some(now)) else updated
  }

  /**
   * Once a response has been stored, every later response to the same
   * request fails, and one from the provider with a valid action fails
   * because the request is no longer pending. The providers may have changed
   * in between (an accepted response adds a booking), as long as each keeps
   * its profile.
   */
  lemma SecondResponseFails(requests: map<Id, ServiceRequest>, providers: map<Id, ServiceProvider>,
                            first: ResponseInput, caller: Id, now: int,
                            providersAfter: map<Id, ServiceProvider>, second: ResponseInput, caller2: Id)
    requires RequestsLinked(requests, providers)
    requires CheckResponse(first, caller, requests, providers).Ok?
    requires providers.Keys <= providersAfter.Keys
    requires forall k | k in providers :: providersAfter[k].profileId == providers[k].profileId
    requires second.requestId == first.requestId
    ensures var req := CheckResponse(first, caller, requests, providers).value;
      var after := requests[first.requestId.value := Responded(req, Accepts(first), first.providerNotes, now)];
      && RequestsLinked(after, providersAfter)
      && CheckResponse(second, caller2, after, providersAfter).Err?
      && (IsAction(second.action) && caller2 == caller ==>
            CheckResponse(second, caller2, after, providersAfter) == Err(NotPending))
  {
    var req := CheckResponse(first, caller, requests, providers).value;
    var updated := Responded(req, Accepts(first), first.providerNotes, now);
    var after := requests[first.requestId.value := updated];
    assert Find(after, second.requestId) == Some(updated);
    assert ProviderUser(updated, providersAfter) == ProviderUser(req, providers);
  }

  /**
   * The handler. `now` is the clock reading the acceptance time takes. The
   * notification to the owner carries the kind `request_accepted` whether
   * the request was accepted or rejected.
   */
  method Respond(db: Database, caller: Id, input: ResponseInput, now: int, outcomes: WriteOutcomes)
    returns (r: Result<ServiceRequest>)
    requires db.Valid()
    modifies db`requests, db`notifications, db`providers
    ensures db.Valid()
    ensures Evolves(old(db.requests), db.requests)
    ensures CheckResponse(input, caller, old(db.requests), old(db.providers)).Err? ==>
      r == Err(CheckResponse(input, caller, old(db.requests), old(db.providers)).error) && unchanged(db)
    ensures CheckResponse(input, caller, old(db.requests), old(db.providers)).Ok? && !outcomes.primary ==>
      r == Err(StoreFailure) && unchanged(db)
    ensures CheckResponse(input, caller, old(db.requests), old(db.providers)).Ok? && outcomes.primary ==>
      var req := CheckResponse(input, caller, old(db.requests), old(db.providers)).value;
      var updated := Responded(req, Accepts(input), input.providerNotes, now);
      && r == Ok(updated)
      && db.requests == old(db.requests)[input.requestId.value := updated]
      && db.notifications == old(db.notifications) +
           (if outcomes.notification then [Notification(Some(req.ownerId), RequestAccepted, req.id, None)] else [])
      && db.providers ==
           if Accepts(input) && outcomes.bookings then WithBooking(old(db.providers), req.providerId)
           else old(db.providers)
  {
    var check := CheckResponse(input, caller, db.requests, db.providers);
    if check.Err? {
      return Err(check.error);
    }
    if !outcomes.primary {
      return Err(StoreFailure);
    }
    var req := check.value;
    var accept := Accepts(input);
    var updated := Responded(req, accept, input.providerNotes, now);
    var before := db.requests;
    StoreRequest(before, db.providers, updated);
    db.requests := db.requests[input.requestId.value := updated];
    KeepsPartiesKeepsRecords(before, db.providers, db.requests, db.providers, db.messages, db.reviews);
    assert db.Valid();
    db.Notify(Notification(Some(req.ownerId), RequestAccepted, req.id, None), outcomes.notification);
    if accept {
      db.IncrementBookings(req.providerId, outcomes.bookings);
    }
    r := Ok(updated);
  }
}
