/**
 * The database the handlers read and write, as one in-memory store: keyed
 * tables for profiles, providers, pets and service requests, and append-only
 * tables for messages, reviews and notifications. `Valid` gathers the
 * integrity rules the schema's keys and foreign keys give, together with the
 * rules every handler keeps: a stored message runs between the two parties of
 * its request, and a stored review belongs to a completed request, was written
 * by one party about the other, and is the only one by that reviewer.
 */
module Store {
  import opened Schema
  import opened Parties

  /**
   * Whether the store accepted each write a handler issues: its primary insert
   * or update, its notification insert, and (on accept) the bookings RPC.
   */
  datatype WriteOutcomes = WriteOutcomes(primary: bool, notification: bool, bookings: bool)

  /** The request row `id` names, if any; an absent id finds nothing. */
  function Find(requests: map<Id, ServiceRequest>, id: Option<Id>): (r: Option<ServiceRequest>)
    ensures r.Some? <==> id.Some? && id.value in requests
    ensures r.Some? ==> r.value == requests[id.value]
  {
    if id.Some? && id.value in requests then Some(requests[id.value]) else None
  }

  /** Every request names a provider that exists (the foreign key on `provider_id`). */
  predicate RequestsLinked(requests: map<Id, ServiceRequest>, providers: map<Id, ServiceProvider>) {
    forall id | id in requests :: requests[id].providerId in providers
  }

  /** The only status changes any handler makes: none, or pending to accepted or rejected. */
  predicate Step(from: Status, to: Status) {
    to == from || (from == Pending && (to == Accepted || to == Rejected))
  }

  /**
   * How the request table may change in one handler call: rows are never
   * removed, new rows start pending and unaccepted, every status change is a
   * `Step`, and an acceptance time once set is never changed.
   */
  predicate Evolves(before: map<Id, ServiceRequest>, after: map<Id, ServiceRequest>) {
    && before.Keys <= after.Keys
    && (forall id | id in after && id !in before :: after[id].status == Pending && after[id].acceptedAt.None?)
    && (forall id | id in before :: Step(before[id].status, after[id].status))
    && (forall id | id in before && before[id].acceptedAt.Some? :: after[id].acceptedAt == before[id].acceptedAt)
  }

  /** A message whose sender is a party of its request and whose recipient is the other party. */
  predicate BetweenParties(m: Message, requests: map<Id, ServiceRequest>, providers: map<Id, ServiceProvider>) {
    && m.requestId in requests
    && requests[m.requestId].providerId in providers
    && var p := PartiesOf(requests[m.requestId], providers);
    && RoleOf(p, m.senderId).Some?
    && m.recipientId == Counterpart(p, RoleOf(p, m.senderId).value)
  }

  /**
   * A review of a completed request, rated 1 to 5, by one party in the role
   * that party holds, about the other party.
   */
  predicate WellFormedReview(rv: Review, requests: map<Id, ServiceRequest>, providers: map<Id, ServiceProvider>) {
    && rv.requestId in requests
    && requests[rv.requestId].providerId in providers
    && requests[rv.requestId].status == Completed
    && 1 <= rv.rating <= 5
    && var p := PartiesOf(requests[rv.requestId], providers);
    && RoleOf(p, rv.reviewerId) == Some(rv.reviewerType)
    && rv.reviewedId == Counterpart(p, rv.reviewerType)
  }

  /** Whether `reviewerId` has already reviewed request `requestId`. */
  predicate Reviewed(reviews: seq<Review>, requestId: Id, reviewerId: Id) {
    exists i | 0 <= i < |reviews| :: reviews[i].requestId == requestId && reviews[i].reviewerId == reviewerId
  }

  /** At most one review per (request, reviewer) pair. */
  predicate ReviewsUnique(reviews: seq<Review>) {
    forall i, j | 0 <= i < j < |reviews| ::
      reviews[i].requestId != reviews[j].requestId || reviews[i].reviewerId != reviews[j].reviewerId
  }

  /**
   * Appending a review keeps at most one review per (request, reviewer)
   * exactly when that reviewer has not reviewed that request yet.
   */
  lemma {:induction false} AppendReviewUnique(reviews: seq<Review>, rv: Review)
    requires ReviewsUnique(reviews)
    ensures ReviewsUnique(reviews + [rv]) <==> !Reviewed(reviews, rv.requestId, rv.reviewerId)
  {
    var s := reviews + [rv];
    if Reviewed(reviews, rv.requestId, rv.reviewerId) {
      var i :| 0 <= i < |reviews| && reviews[i].requestId == rv.requestId && reviews[i].reviewerId == rv.reviewerId;
      assert s[i] == reviews[i] && s[|reviews|] == rv;
    } else {
      forall i, j | 0 <= i < j < |s|
        ensures s[i].requestId != s[j].requestId || s[i].reviewerId != s[j].reviewerId
      {
        if j == |reviews| {
          assert s[i] == reviews[i];
        } else {
          assert s[i] == reviews[i] && s[j] == reviews[j];
        }
      }
    }
  }

  /**
   * The `increment_provider_bookings` routine: one more booking on the
   * provider `id` names, every other row and column as it was; an unknown id
   * matches no row and changes nothing.
   */
  function WithBooking(providers: map<Id, ServiceProvider>, id: Id): (r: map<Id, ServiceProvider>)
    ensures r.Keys == providers.Keys
    ensures forall k | k in providers && k != id :: r[k] == providers[k]
    ensures id in providers ==> r[id].totalBookings == providers[id].totalBookings + 1
    ensures id in providers ==> r[id] == providers[id].(totalBookings := r[id].totalBookings)
  {
    if id in providers then
      providers[id := providers[id].(totalBookings := providers[id].totalBookings + 1)]
    else
      providers
  }

  /**
   * A change of the request and provider tables that leaves every existing
   * request with its owner and provider, every provider with its profile, and
   * every completed request completed.
   */
  predicate KeepsParties(r0: map<Id, ServiceRequest>, p0: map<Id, ServiceProvider>,
                         r1: map<Id, ServiceRequest>, p1: map<Id, ServiceProvider>)
  {
    && r0.Keys <= r1.Keys
    && p0.Keys <= p1.Keys
    && (forall id | id in r0 ::
          r1[id].ownerId == r0[id].ownerId && r1[id].providerId == r0[id].providerId
          && (r0[id].status == Completed ==> r1[id].status == Completed))
    && (forall k | k in p0 :: p1[k].profileId == p0[k].profileId)
  }

  /** Such a change keeps every stored message and review well-formed. */
  lemma KeepsPartiesKeepsRecords(r0: map<Id, ServiceRequest>, p0: map<Id, ServiceProvider>,
                                 r1: map<Id, ServiceRequest>, p1: map<Id, ServiceProvider>,
                                 messages: seq<Message>, reviews: seq<Review>)
    requires KeepsParties(r0, p0, r1, p1)
    requires forall i | 0 <= i < |messages| :: BetweenParties(messages[i], r0, p0)
    requires forall i | 0 <= i < |reviews| :: WellFormedReview(reviews[i], r0, p0)
    ensures forall i | 0 <= i < |messages| :: BetweenParties(messages[i], r1, p1)
    ensures forall i | 0 <= i < |reviews| :: WellFormedReview(reviews[i], r1, p1)
  {
    forall i | 0 <= i < |messages| ensures BetweenParties(messages[i], r1, p1) {
      var id := messages[i].requestId;
      assert PartiesOf(r1[id], p1) == PartiesOf(r0[id], p0);
    }
    forall i | 0 <= i < |reviews| ensures WellFormedReview(reviews[i], r1, p1) {
      var id := reviews[i].requestId;
      assert PartiesOf(r1[id], p1) == PartiesOf(r0[id], p0);
    }
  }

  /** The request table's own rules: rows keyed by id, linked to a provider, pending rows unaccepted. */
  predicate RequestsWellKept(requests: map<Id, ServiceRequest>, providers: map<Id, ServiceProvider>) {
    && (forall id | id in requests :: requests[id].id == id)
    && RequestsLinked(requests, providers)
    && (forall id | id in requests && requests[id].status == Pending :: requests[id].acceptedAt.None?)
  }

  /**
   * Writing one request row, new and pending or an existing row moved by a
   * `Step` with its parties and any acceptance time kept, keeps the request
   * table's rules, is an `Evolves` change and keeps every request's parties.
   */
  lemma StoreRequest(requests: map<Id, ServiceRequest>, providers: map<Id, ServiceProvider>, row: ServiceRequest)
    requires RequestsWellKept(requests, providers)
    requires row.providerId in providers
    requires row.status == Pending ==> row.acceptedAt.None?
    requires row.id !in requests ==> row.status == Pending
    requires row.id in requests ==>
      var old_ := requests[row.id];
      && row.ownerId == old_.ownerId && row.providerId == old_.providerId
      && Step(old_.status, row.status)
      && (old_.acceptedAt.Some? ==> row.acceptedAt == old_.acceptedAt)
    ensures RequestsWellKept(requests[row.id := row], providers)
    ensures Evolves(requests, requests[row.id := row])
    ensures KeepsParties(requests, providers, requests[row.id := row], providers)
  {
  }

  class Database {
    var profiles: map<Id, Profile>
    var providers: map<Id, ServiceProvider>
    var pets: map<Id, Pet>
    var requests: map<Id, ServiceRequest>
    var messages: seq<Message>
    var reviews: seq<Review>
    var notifications: seq<Notification>

    ghost predicate Valid()
      reads this
    {
      && (forall id | id in providers :: providers[id].id == id)
      && RequestsWellKept(requests, providers)
      && (forall i | 0 <= i < |messages| :: BetweenParties(messages[i], requests, providers))
      && (forall i | 0 <= i < |reviews| :: WellFormedReview(reviews[i], requests, providers))
      && ReviewsUnique(reviews)
    }

    /** A store holding the given reference tables and no requests, messages, reviews or notifications. */
    constructor (profiles: map<Id, Profile>, providers: map<Id, ServiceProvider>, pets: map<Id, Pet>)
      requires forall id | id in providers :: providers[id].id == id
      ensures Valid()
      ensures this.profiles == profiles && this.providers == providers && this.pets == pets
      ensures requests == map[] && messages == [] && reviews == [] && notifications == []
    {
      this.profiles := profiles;
      this.providers := providers;
      this.pets := pets;
      requests := map[];
      messages := [];
      reviews := [];
      notifications := [];
    }

    /**
     * The fire-and-forget notification insert: when the store refuses it the
     * handler only logs the error, so the caller goes on either way.
     */
    method Notify(n: Notification, accepted: bool)
      requires Valid()
      modifies this`notifications
      ensures Valid()
      ensures notifications == old(notifications) + (if accepted then [n] else [])
    {
      if accepted {
        notifications := notifications + [n];
      }
    }

    /** The bookings RPC; a refused call is only logged. */
    method IncrementBookings(id: Id, accepted: bool)
      requires Valid()
      modifies this`providers
      ensures Valid()
      ensures providers == if accepted then WithBooking(old(providers), id) else old(providers)
    {
      if accepted {
        var before := providers;
        providers := WithBooking(providers, id);
        KeepsPartiesKeepsRecords(requests, before, requests, providers, messages, reviews);
      }
    }
  }
}
