/**
 * Creating a service request: an owner books a provider for one of their
 * pets. The handler checks the required fields, that the caller owns the pet
 * and that the provider exists, prices the booking from the provider's own
 * rate, inserts a pending request and then tries to notify.
 */
module CreateServiceRequest {
  import opened Schema
  import opened Parties
  import opened Store

  /** The request body; every field may be absent. */
  datatype CreateInput = CreateInput(
    providerId: Option<Id>,
    petId: Option<Id>,
    serviceType: Option<string>,
    startDate: Option<string>,
    endDate: Option<string>,
    startTime: Option<string>,
    endTime: Option<string>,
    specialInstructions: Option<string>,
    emergencyContact: Option<string>)

  /**
   * The date parser the handler relies on: a date and a time of day to an
   * instant in minutes, or None for a text that does not parse.
   */
  type Clock = (string, string) -> Option<int>

  const DefaultStartTime := "00:00"
  const DefaultEndTime := "23:59"

  predicate HasRequiredFields(input: CreateInput) {
    Given(input.providerId) && Given(input.petId) && Given(input.serviceType) && Given(input.startDate)
  }

  predicate OwnsPet(pets: map<Id, Pet>, petId: Id, caller: Id) {
    petId in pets && pets[petId].ownerId == caller
  }

  /**
   * The checks before any write, in the handler's order; on success, the
   * provider record whose rate prices the request.
   */
  function CheckCreate(input: CreateInput, caller: Id, pets: map<Id, Pet>, providers: map<Id, ServiceProvider>)
    : (r: Result<ServiceProvider>)
    ensures r == Err(MissingRequiredFields) <==> !HasRequiredFields(input)
    ensures r == Err(PetNotFound) <==> HasRequiredFields(input) && !OwnsPet(pets, input.petId.value, caller)
    ensures r == Err(ProviderNotFound) <==>
      HasRequiredFields(input) && OwnsPet(pets, input.petId.value, caller) && input.providerId.value !in providers
    ensures r.Ok? <==>
      HasRequiredFields(input) && OwnsPet(pets, input.petId.value, caller) && input.providerId.value in providers
    ensures r.Ok? ==> r.value == providers[input.providerId.value]
  {
    if !HasRequiredFields(input) then Err(MissingRequiredFields)
    else if !OwnsPet(pets, input.petId.value, caller) then Err(PetNotFound)
    else if input.providerId.value !in providers then Err(ProviderNotFound)
    else Ok(providers[input.providerId.value])
  }

  /** A time of day, or `default` when it is absent or empty. */
  function TimeOr(time: Option<string>, default: string): string {
    if Given(time) then time.value else default
  }

  /** When the booking starts: the start date at the start time, midnight by default. */
  function StartInstant(input: CreateInput, clock: Clock): (t: Option<int>)
    requires Given(input.startDate)
    ensures Given(input.startTime) ==> t == clock(input.startDate.value, input.startTime.value)
    ensures !Given(input.startTime) ==> t == clock(input.startDate.value, DefaultStartTime)
  {
    clock(input.startDate.value, TimeOr(input.startTime, DefaultStartTime))
  }

  /**
   * When the booking ends: the end date at the end time, 23:59 by default. An
   * absent or empty end date yields a text no date parser accepts.
   */
  function EndInstant(input: CreateInput, clock: Clock): (t: Option<int>)
    ensures !Given(input.endDate) ==> t.None?
    ensures Given(input.endDate) && Given(input.endTime) ==> t == clock(input.endDate.value, input.endTime.value)
    ensures Given(input.endDate) && !Given(input.endTime) ==> t == clock(input.endDate.value, DefaultEndTime)
  {
    if Given(input.endDate) then clock(input.endDate.value, TimeOr(input.endTime, DefaultEndTime)) else None
  }

  /** The length of a booking in hours, from instants in minutes. */
  function Span(start: int, end: int): real {
    (end - start) as real / 60.0
  }

  /**
   * The hours billed: the booking's length, but never less than one hour.
   * When either instant is missing the length is not a number, and so is the
   * maximum.
   */
  function TotalHours(start: Option<int>, end: Option<int>): (h: Option<real>)
    ensures h.Some? <==> start.Some? && end.Some?
    ensures h.Some? ==> 1.0 <= h.value && Span(start.value, end.value) <= h.value
    ensures h.Some? ==> h.value == 1.0 || h.value == Span(start.value, end.value)
  {
    if start.Some? && end.Some? then
      var span := Span(start.value, end.value);
      Some(if 1.0 < span then span else 1.0)
    else
      None
  }

  /** The price: billed hours at the provider's rate, an unset rate counting as zero. */
  function TotalAmount(hours: Option<real>, rate: Option<real>): (a: Option<real>)
    ensures a.Some? <==> hours.Some?
    ensures a.Some? && rate.Some? ==> a.value == hours.value * rate.value
    ensures a.Some? && rate.None? ==> a.value == 0.0
  {
    if hours.Some? then Some(hours.value * rate.GetOr(0.0)) else None
  }

  /**
   * A booking is never charged less than one hour at the provider's rate,
   * and a longer booking is charged its full length.
   */
  lemma MinimumCharge(start: int, end: int, rate: real)
    requires 0.0 <= rate
    ensures var a := TotalAmount(TotalHours(Some(start), Some(end)), Some(rate));
      a.Some? && rate <= a.value && Span(start, end) * rate <= a.value
  {
    var h := TotalHours(Some(start), Some(end)).value;
    var a := TotalAmount(TotalHours(Some(start), Some(end)), Some(rate));
    assert a.value == h * rate;
    ScaleMonotone(1.0, h, rate);
    assert 1.0 * rate == rate;
    ScaleMonotone(Span(start, end), h, rate);
  }

  /** Scaling by a non-negative factor keeps the order. */
  lemma ScaleMonotone(x: real, y: real, k: real)
    requires x <= y && 0.0 <= k
    ensures x * k <= y * k
  {
    assert y * k - x * k == (y - x) * k;
  }

  /** The row the handler inserts: the caller's booking, priced server-side, pending. */
  function PendingRequest(id: Id, caller: Id, input: CreateInput, provider: ServiceProvider, clock: Clock): ServiceRequest
    requires HasRequiredFields(input)
  {
    var hours := TotalHours(StartInstant(input, clock), EndInstant(input, clock));
    ServiceRequest(
      id := id,
      ownerId := caller,
      providerId := input.providerId.value,
      petId := input.petId.value,
      serviceType := input.serviceType.value,
      startDate := input.startDate.value,
      endDate := input.endDate,
      startTime := input.startTime,
      endTime := input.endTime,
      hourlyRate := provider.hourlyRate,
      totalHours := hours,
      totalAmount := TotalAmount(hours, provider.hourlyRate),
      specialInstructions := input.specialInstructions,
      emergencyContact := input.emergencyContact,
      status := Pending,
      acceptedAt := None,
      providerNotes := None)
  }

  /**
   * A request without an end date is stored unpriced: its end instant is an
   * invalid date, so neither the hours nor the amount is a number.
   */
  lemma OpenEndedIsUnpriced(id: Id, caller: Id, input: CreateInput, provider: ServiceProvider, clock: Clock)
    requires HasRequiredFields(input) && !Given(input.endDate)
    ensures PendingRequest(id, caller, input, provider, clock).totalHours.None?
    ensures PendingRequest(id, caller, input, provider, clock).totalAmount.None?
  {
  }

  /**
   * Booking 2024-01-01 from 09:00 to 17:00 with a provider charging 20 an
   * hour: 8 hours, 160 in all, whatever minute the clock puts 09:00 at.
   */
  lemma EightHourDay(id: Id, caller: Id, input: CreateInput, provider: ServiceProvider, clock: Clock, day: int)
    requires HasRequiredFields(input)
    requires input.startDate == Some("2024-01-01") && input.endDate == Some("2024-01-01")
    requires input.startTime == Some("09:00") && input.endTime == Some("17:00")
    requires clock("2024-01-01", "09:00") == Some(day + 540)
    requires clock("2024-01-01", "17:00") == Some(day + 1020)
    requires provider.hourlyRate == Some(20.0)
    ensures PendingRequest(id, caller, input, provider, clock).totalHours == Some(8.0)
    ensures PendingRequest(id, caller, input, provider, clock).totalAmount == Some(160.0)
  {
  }

  /**
   * The handler. `newId` is the id the store assigns to the new row. The
   * notification's target is a column the provider query never selects, so
   * the notification is addressed to no one the model knows.
   */
  method Create(db: Database, caller: Id, input: CreateInput, clock: Clock, newId: Id, outcomes: WriteOutcomes)
    returns (r: Result<ServiceRequest>)
    requires db.Valid()
    requires newId !in db.requests
    modifies db`requests, db`notifications
    ensures db.Valid()
    ensures Evolves(old(db.requests), db.requests)
    ensures CheckCreate(input, caller, db.pets, db.providers).Err? ==>
      r == Err(CheckCreate(input, caller, db.pets, db.providers).error) && unchanged(db)
    ensures CheckCreate(input, caller, db.pets, db.providers).Ok? && !outcomes.primary ==>
      r == Err(StoreFailure) && unchanged(db)
    ensures CheckCreate(input, caller, db.pets, db.providers).Ok? && outcomes.primary ==>
      var provider := CheckCreate(input, caller, db.pets, db.providers).value;
      var hours := TotalHours(StartInstant(input, clock), EndInstant(input, clock));
      && r.Ok?
      && r.value.id == newId
      && r.value.status == Pending
      && r.value.ownerId == caller
      && r.value.providerId == input.providerId.value
      && r.value.petId == input.petId.value
      && r.value.serviceType == input.serviceType.value
      && r.value.hourlyRate == provider.hourlyRate
      && r.value.totalHours == hours
      && r.value.totalAmount == TotalAmount(hours, provider.hourlyRate)
      && r.value == PendingRequest(newId, caller, input, provider, clock)
      && db.requests == old(db.requests)[newId := r.value]
      && db.notifications == old(db.notifications) +
           (if outcomes.notification then [Notification(None, NewRequest, newId, None)] else [])
  {
    var check := CheckCreate(input, caller, db.pets, db.providers);
    if check.Err? {
      return Err(check.error);
    }
    if !outcomes.primary {
      return Err(StoreFailure);
    }
    var request := PendingRequest(newId, caller, input, check.value, clock);
    var before := db.requests;
    StoreRequest(before, db.providers, request);
    db.requests := db.requests[newId := request];
    KeepsPartiesKeepsRecords(before, db.providers, db.requests, db.providers, db.messages, db.reviews);
    db.Notify(Notification(None, NewRequest, newId, None), outcomes.notification);
    r := Ok(request);
  }
}
