/** Records, inputs and errors shared by the marketplace's request handlers. */
module Schema {

  /** Row identifiers and user ids (UUIDs in the store). */
  type Id = string

  datatype Option<+T> = None | Some(value: T) {
    function GetOr(default: T): T {
      if Some? then value else default
    }
  }

  datatype Result<+T> = Ok(value: T) | Err(error: Error)

  /**
   * The failures a handler reports, one per distinct error message it throws;
   * every one reaches the client as a 400 response.
   */
  datatype Error =
    | MissingRequiredFields
    | PetNotFound
    | ProviderNotFound
    | InvalidAction
    | RequestNotFound
    | AccessDenied
    | NotPending
    | InvalidRecipient
    | ReviewFieldsRequired
    | RatingOutOfRange
    | NotCompleted
    | AlreadyReviewed
    | LocationRequired
      /** the store refused the handler's primary insert or update */
    | StoreFailure

  /** JavaScript truthiness of an optional text field: absent and "" are both falsy. */
  predicate Given(s: Option<string>) {
    s.Some? && s.value != ""
  }

  /** JavaScript truthiness of an optional number: absent and zero are both falsy. */
  predicate GivenNumber(x: Option<real>) {
    x.Some? && x.value != 0.0
  }

  /** The `request_status` enumeration of the schema. */
  datatype Status = Pending | Accepted | InProgress | Completed | Cancelled | Rejected

  /** Which side of a service request a user is on. */
  datatype Role = Owner | Provider

  /** The `notification_type` enumeration of the schema. */
  datatype NotificationKind = NewRequest | RequestAccepted | RequestCompleted | NewMessage | Reminder

  /** The profile columns the handlers read: the id and the home location. */
  datatype Profile = Profile(id: Id, latitude: Option<real>, longitude: Option<real>)

  /** A provider's capability record; `profileId` is the user who runs it. */
  datatype ServiceProvider = ServiceProvider(
    id: Id,
    profileId: Id,
    hourlyRate: Option<real>,
    services: seq<string>,
    petTypes: seq<string>,
    petSizes: seq<string>,
    averageRating: real,
    totalBookings: int,
    isActive: bool)

  /** The pet columns the handlers read. */
  datatype Pet = Pet(ownerId: Id)

  datatype ServiceRequest = ServiceRequest(
    id: Id,
    ownerId: Id,
    providerId: Id,
    petId: Id,
    serviceType: string,
    startDate: string,
    endDate: Option<string>,
    startTime: Option<string>,
    endTime: Option<string>,
    hourlyRate: Option<real>,
    /** absent when a date did not parse (the computed number is NaN, stored as null) */
    totalHours: Option<real>,
    totalAmount: Option<real>,
    specialInstructions: Option<string>,
    emergencyContact: Option<string>,
    status: Status,
    acceptedAt: Option<int>,
    providerNotes: Option<string>)

  datatype Message = Message(
    id: Id,
    requestId: Id,
    senderId: Id,
    recipientId: Id,
    content: string,
    messageType: string,
    attachmentUrl: Option<string>)

  datatype Review = Review(
    id: Id,
    requestId: Id,
    reviewerId: Id,
    reviewedId: Id,
    rating: int,
    title: Option<string>,
    comment: Option<string>,
    reviewerType: Role,
    isPublic: bool)

  /** A user-facing alert; `userId` is None when the handler's target field is undefined. */
  datatype Notification = Notification(
    userId: Option<Id>,
    kind: NotificationKind,
    requestId: Id,
    messageId: Option<Id>)
}
