/**
 * Sending a chat message on a service request. The caller must be one of the
 * request's two parties and must address the other one; the message is
 * stored and the recipient is notified.
 */
module SendMessage {
  import opened Schema
  import opened Parties
  import opened Store

  /** The request body; every field may be absent. */
  datatype MessageInput = MessageInput(
    requestId: Option<Id>,
    recipientId: Option<Id>,
    content: Option<string>,
    messageType: Option<string>,
    attachmentUrl: Option<string>)

  /** The message type an absent `message_type` defaults to. */
  const DefaultMessageType := "text"

  predicate HasRequiredFields(input: MessageInput) {
    Given(input.requestId) && Given(input.recipientId) && Given(input.content)
  }

  /**
   * The checks before any write, in the handler's order. On success, the
   * request: the caller is one of its parties and the recipient is the other.
   */
  function CheckMessage(input: MessageInput, caller: Id,
                        requests: map<Id, ServiceRequest>, providers: map<Id, ServiceProvider>)
    : (r: Result<ServiceRequest>)
    requires RequestsLinked(requests, providers)
    ensures r == Err(MissingRequiredFields) <==> !HasRequiredFields(input)
    ensures r == Err(RequestNotFound) <==> HasRequiredFields(input) && Find(requests, input.requestId).None?
    ensures r == Err(AccessDenied) <==>
      && HasRequiredFields(input)
      && Find(requests, input.requestId).Some?
      && var p := PartiesOf(Find(requests, input.requestId).value, providers);
      && caller != p.owner && caller != p.provider
    ensures r == Err(InvalidRecipient) <==>
      && HasRequiredFields(input)
      && Find(requests, input.requestId).Some?
      && var p := PartiesOf(Find(requests, input.requestId).value, providers);
      && (caller == p.owner || caller == p.provider)
      && input.recipientId.value != (if caller == p.owner then p.provider else p.owner)
    ensures r.Ok? <==>
      && HasRequiredFields(input)
      && Find(requests, input.requestId).Some?
      && var p := PartiesOf(Find(requests, input.requestId).value, providers);
      && (caller == p.owner || caller == p.provider)
      && input.recipientId.value == (if caller == p.owner then p.provider else p.owner)
    ensures r.Ok? ==>
      && HasRequiredFields(input)
      && Find(requests, input.requestId) == Some(r.value)
      && var p := PartiesOf(r.value, providers);
      && (caller == p.owner ==> input.recipientId.value == p.provider)
      && (caller != p.owner ==> caller == p.provider && input.recipientId.value == p.owner)
  {
    if !HasRequiredFields(input) then Err(MissingRequiredFields)
    else match Find(requests, input.requestId)
      case None => Err(RequestNotFound)
      case Some(req) =>
        var p := PartiesOf(req, providers);
        match RoleOf(p, caller)
        case None => Err(AccessDenied)
        case Some(role) =>
          if input.recipientId.value != Counterpart(p, role) then Err(InvalidRecipient)
          else Ok(req)
  }

  /** The row the handler inserts: sent by the caller, to the recipient checked above. */
  function Outgoing(id: Id, caller: Id, input: MessageInput): Message
    requires HasRequiredFields(input)
  {
    Message(
      id := id,
      requestId := input.requestId.value,
      senderId := caller,
      recipientId := input.recipientId.value,
      content := input.content.value,
      messageType := input.messageType.GetOr(DefaultMessageType),
      attachmentUrl := input.attachmentUrl)
  }

  /**
   * A message the checks let through runs between the two parties of its
   * request: whatever recipient the caller named, it was the other party.
   */
  lemma AcceptedMessageIsBetweenParties(input: MessageInput, caller: Id, id: Id,
                                        requests: map<Id, ServiceRequest>, providers: map<Id, ServiceProvider>)
    requires RequestsLinked(requests, providers)
    requires CheckMessage(input, caller, requests, providers).Ok?
    ensures BetweenParties(Outgoing(id, caller, input), requests, providers)
  {
    var req := CheckMessage(input, caller, requests, providers).value;
    var p := PartiesOf(req, providers);
    assert input.requestId.value in requests && requests[input.requestId.value] == req;
    if caller == p.owner {
      assert RoleOf(p, caller) == Some(Owner);
    } else {
      assert RoleOf(p, caller) == Some(Provider);
    }
  }

  /**
   * The handler. `newId` is the id the store assigns to the message. The
   * realtime broadcast that follows the notification is not part of the model.
   */
  method Send(db: Database, caller: Id, input: MessageInput, newId: Id, outcomes: WriteOutcomes)
    returns (r: Result<Message>)
    requires db.Valid()
    modifies db`messages, db`notifications
    ensures db.Valid()
    ensures Evolves(old(db.requests), db.requests)
    ensures CheckMessage(input, caller, db.requests, db.providers).Err? ==>
      r == Err(CheckMessage(input, caller, db.requests, db.providers).error) && unchanged(db)
    ensures CheckMessage(input, caller, db.requests, db.providers).Ok? && !outcomes.primary ==>
      r == Err(StoreFailure) && unchanged(db)
    ensures CheckMessage(input, caller, db.requests, db.providers).Ok? && outcomes.primary ==>
      && r.Ok?
      && r.value == Outgoing(newId, caller, input)
      && r.value.senderId == caller
      && r.value.recipientId == input.recipientId.value
      && BetweenParties(r.value, db.requests, db.providers)
      && db.messages == old(db.messages) + [r.value]
      && db.notifications == old(db.notifications) +
           (if outcomes.notification
            then [Notification(Some(r.value.recipientId), NewMessage, r.value.requestId, Some(newId))]
            else [])
  {
    var check := CheckMessage(input, caller, db.requests, db.providers);
    if check.Err? {
      return Err(check.error);
    }
    if !outcomes.primary {
      return Err(StoreFailure);
    }
    var message := Outgoing(newId, caller, input);
    AcceptedMessageIsBetweenParties(input, caller, newId, db.requests, db.providers);
    db.messages := db.messages + [message];
    db.Notify(Notification(Some(message.recipientId), NewMessage, message.requestId, Some(newId)), outcomes.notification);
    r := Ok(message);
  }
}
