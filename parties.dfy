/**
 * The two parties of a service request: the pet owner who made it and the
 * user who runs the provider record it names. Messaging and reviewing both
 * decide the caller's side, and the other side, from these two ids.
 */
module Parties {
  import opened Schema

  datatype Parties = Parties(owner: Id, provider: Id)

  /** The request's owner and the profile behind its provider record. */
  function PartiesOf(req: ServiceRequest, providers: map<Id, ServiceProvider>): Parties
    requires req.providerId in providers
  {
    Parties(req.ownerId, providers[req.providerId].profileId)
  }

  /**
   * The caller's side of the request, or None for a stranger. The owner test
   * comes first, so a user who is both parties acts as the owner.
   */
  function RoleOf(p: Parties, caller: Id): (r: Option<Role>)
    ensures r == Some(Owner) <==> caller == p.owner
    ensures r == Some(Provider) <==> caller != p.owner && caller == p.provider
    ensures r == None <==> caller != p.owner && caller != p.provider
  {
    if caller == p.owner then Some(Owner)
    else if caller == p.provider then Some(Provider)
    else None
  }

  /** The party on the other side from `role`. */
  function Counterpart(p: Parties, role: Role): Id {
    match role
    case Owner => p.provider
    case Provider => p.owner
  }
}
