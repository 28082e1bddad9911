# Furly Friends service-request handlers, modelled in Dafny

Furly Friends is a pet-care marketplace. Pet owners book providers (sitters,
walkers, groomers), and five small serverless handlers do the business work
over a relational store:

- create a service request;
- accept or reject it;
- send a message on it;
- review it once it is completed;
- search providers around a point.

Each handler reads a few rows, runs a fixed chain of checks that can each
fail, and then writes rows.

The model keeps that shape:

- `schema.dfy` holds the rows, the request bodies and the handlers' errors.
- `store.dfy` holds the store, a class `Database` whose fields are the
  tables. Its invariant `Valid` covers:
  - providers and requests keyed by their own id;
  - every request naming a provider that exists;
  - every message and review naming a request that exists.

  It does not cover the links from a request to its pet and owner, from a
  provider to its profile, or from a pet to its owner. `Valid` also holds
  three rules every handler keeps:
  - a pending request has no acceptance time;
  - every message runs between the two parties of its request;
  - every review belongs to a completed request, is written by one party
    about the other in the right role, and is the only one by that reviewer
    on that request.
- `parties.dfy` works out which party of a request the caller is, and who
  the other party is.
- There is one file per handler:
  - a pure check function gives the first failing check, or the rows the
    handler goes on with;
  - a method performs the writes and states the new contents of every table
    it may change.
- Search is pure. It is a filter, map, filter and sort pipeline, proved
  against a one-pass reference definition (`Selected`). Whether the store
  answered the provider query is an input: a refused query fails the search
  with `StoreFailure`.

Handler methods also take the outcome of each write (`WriteOutcomes`):

- A refused primary insert or update fails the call with `StoreFailure`
  and changes nothing.
- A refused notification insert, or a refused bookings increment, is only
  logged. The call still succeeds.

Every handler method also ensures `Evolves` on the request table:

- rows are never removed;
- new rows start pending, with no acceptance time;
- the only status change is pending to accepted or rejected;
- an acceptance time, once set, never changes.

No handler moves a request to `in_progress`, `completed` or `cancelled`.
The status `completed` appears only as the precondition for reviewing.

Where the code and the design prose disagree, the model follows the code:

- Creating a request does not check that the provider is active.
- JavaScript truthiness decides "missing":
  - an empty string counts as absent;
  - a latitude or longitude of exactly zero counts as absent. A search at
    latitude 0 is refused, and a provider whose profile has a zero
    coordinate is never found.
- A missing or empty `end_date` makes the end instant an invalid date. The
  computed hours and amount are then not numbers and reach the store as
  null. In the model they are `None`.
- When `provider_notes` is absent, the update leaves the column as it was.
- The owner's notification after a response has the kind `request_accepted`
  even when the request was rejected.
- The notification after a review has the kind `new_message`.
- The owner test comes first. A user who is both parties of a request acts
  as its owner when sending a message or writing a review.
- A provider without an hourly rate never passes the search's rate bound.

## Model

| member | source | states |
|---|---|---|
| `Parties.RoleOf` | supabase/functions/create-review/index.ts:79-89 | The caller is the owner exactly when they are the request's owner. They are the provider exactly when they are its provider's profile but not its owner. Otherwise they are no party. The owner test wins. |
| `Store.Find` | supabase/functions/respond-to-request/index.ts:44-60 | The lookup by request id finds a row exactly when an id is given and the table has it, and then it is that row. |
| `Store.AppendReviewUnique` | supabase/functions/create-review/index.ts:92-105 | Adding a review keeps "at most one review per (request, reviewer)" exactly when that reviewer has not reviewed that request yet. |
| `Store.WithBooking` | supabase/functions/setup-database/index.ts:201-208 | The bookings routine raises the named provider's `total_bookings` by exactly one. Every other column and every other provider stays as it was. An unknown id changes nothing. |
| `Store.Database.Notify` | supabase/functions/create-service-request/index.ts:108-122 | A notification is appended when the store accepts it. Otherwise nothing changes, and the caller carries on. |
| `Store.Database.IncrementBookings` | supabase/functions/respond-to-request/index.ts:122-130 | The bookings RPC applies `WithBooking` when the store accepts it. A refusal leaves the providers as they were. The store invariant is kept. |
| `CreateServiceRequest.CheckCreate` | supabase/functions/create-service-request/index.ts:48-74 | "Missing required fields" exactly when the provider id, pet id, service type or start date is absent or empty. Then "pet not found" when the caller owns no pet with that id. Then "provider not found" when no such provider exists. Otherwise it yields that provider. |
| `CreateServiceRequest.TotalHours` | supabase/functions/create-service-request/index.ts:77-79 | The billed hours exist exactly when both instants parsed. They are at least 1, at least the booking's length, and equal to one of the two. |
| `CreateServiceRequest.TotalAmount` | supabase/functions/create-service-request/index.ts:80 | The amount is the billed hours times the provider's rate, or 0 when the rate is unset. It is absent when the hours are. |
| `CreateServiceRequest.MinimumCharge` | supabase/functions/create-service-request/index.ts:77-80 | At a non-negative rate, a booking costs at least one hour's rate, and at least its length times the rate. |
| `CreateServiceRequest.StartInstant` | supabase/functions/create-service-request/index.ts:77 | The start is the start date at the given start time, or at 00:00 when the time is absent or empty. |
| `CreateServiceRequest.EndInstant` | supabase/functions/create-service-request/index.ts:78 | The end is the end date at the given end time, or at 23:59 when the time is absent or empty. With no end date it is an invalid date. |
| `CreateServiceRequest.OpenEndedIsUnpriced` | supabase/functions/create-service-request/index.ts:78-80 | A request without an end date is stored with neither hours nor amount. |
| `CreateServiceRequest.EightHourDay` | supabase/functions/create-service-request/index.ts:77-96 | A booking on 2024-01-01 from 09:00 to 17:00 with a provider charging 20 an hour is stored with 8 hours and an amount of 160. |
| `CreateServiceRequest.Create` | supabase/functions/create-service-request/index.ts:49-122 | A failed check or a refused insert returns that error and changes nothing. Otherwise it inserts one pending request under the new id. The request is the caller's, with the body's provider, pet and service, the provider's own rate, and the hours and amount above. A notification is attempted, and whether it is stored does not change the result. |
| `RespondToRequest.CheckResponse` | supabase/functions/respond-to-request/index.ts:38-70 | An invalid action fails before any lookup. Then an unknown request is "not found". Then a caller who is not the provider's profile gets "access denied". Then a request that is not pending is "no longer pending". It succeeds exactly when none of these applies, and then yields the request as read. |
| `RespondToRequest.Responded` | supabase/functions/respond-to-request/index.ts:72-81 | The new status is accepted exactly when the action is accept, and rejected otherwise. From pending this is a legal step. The acceptance time is set only on accept. The notes are replaced when given and kept as they were when absent. No other column changes. |
| `RespondToRequest.SecondResponseFails` | supabase/functions/respond-to-request/index.ts:67-88 | After a response is stored, every later response to the same request fails. This holds even if the providers changed in between, as long as each keeps its profile. `WithBooking` keeps every profile. A later response from the provider with a valid action fails with "no longer pending". |
| `RespondToRequest.Respond` | supabase/functions/respond-to-request/index.ts:38-130 | A failed check or a refused update returns that error and changes nothing. Otherwise the request row becomes `Responded(...)`. The owner is notified, and that notification's outcome does not change the result. On accept only, the provider's bookings rise by one unless the RPC is refused. Request history only takes legal steps. |
| `SendMessage.CheckMessage` | supabase/functions/send-message/index.ts:44-81 | "Missing required fields" exactly when the request id, recipient or content is absent or empty. Then an unknown request is "not found". Then a caller who is neither party gets "access denied". Then a recipient other than the other party is "invalid recipient". It succeeds exactly when none of these applies, and then the recipient is the other party. |
| `SendMessage.AcceptedMessageIsBetweenParties` | supabase/functions/send-message/index.ts:74-93 | A message the checks accept has the caller as sender and the other party as recipient. |
| `SendMessage.Send` | supabase/functions/send-message/index.ts:44-132 | A failed check or a refused insert returns that error and changes nothing. Otherwise it appends one message from the caller to the other party. An absent message type becomes `text`. One notification to the recipient is attempted, and its outcome does not change the result. |
| `CreateReview.CheckReview` | supabase/functions/create-review/index.ts:44-105 | The checks fail in this order: missing request id or zero rating, a rating outside 1..5, an unknown request, a request that is not completed, a caller who is neither party, an earlier review by the caller. It succeeds exactly when none of these applies. On success: as owner, the role is owner and the provider's profile is reviewed; as provider, the role is provider and the owner is reviewed. |
| `CreateReview.AcceptedReviewIsWellFormed` | supabase/functions/create-review/index.ts:75-119 | A review the checks accept is well-formed: completed request, rating 1..5, derived role and reviewed party. It keeps reviews unique per (request, reviewer). |
| `CreateReview.Create` | supabase/functions/create-review/index.ts:44-158 | A failed check or a refused insert returns that error and changes nothing. Otherwise it appends one review by the caller with the derived role and reviewed party. The reviewed party is notified, and that notification's outcome does not change the result. |
| `SearchProviders.CriteriaOf` | supabase/functions/search-providers/index.ts:30-38 | An absent radius, minimum rating or maximum rate defaults to 10, 0 and 1000. A given one is used as is. |
| `SearchProviders.Insert` | supabase/functions/search-providers/index.ts:112 | Inserting into a list sorted by distance keeps it sorted and adds exactly that element. |
| `SearchProviders.SortByDistance` | supabase/functions/search-providers/index.ts:112 | The result is sorted by non-decreasing distance and is a permutation of the input. |
| `SearchProviders.PipelineSelects` | supabase/functions/search-providers/index.ts:61-111 | The query filters, the drop of rows without a location and the radius filter together keep exactly the eligible rows, in query order. |
| `SearchProviders.SelectedMembers` | supabase/functions/search-providers/index.ts:87-111 | A match is among the selected ones exactly when some eligible row produced it. |
| `SearchProviders.Search` | supabase/functions/search-providers/index.ts:42-118 | Fails with "location required" exactly when the latitude or longitude is absent or zero. Then it fails with a store failure exactly when the provider query is refused. Otherwise the results are sorted by distance and are a permutation of the eligible rows. `count` is their number. |
| `SearchProviders.SearchMembers` | supabase/functions/search-providers/index.ts:61-111 | A provider is in the response exactly when its row passes the store-side filters, has a located profile and lies within the radius. It appears with that distance. |
| `SearchProviders.SearchResultsQualify` | supabase/functions/search-providers/index.ts:61-112 | Every result comes from the query's rows and is active. Its rating is at least the minimum and its rate at most the maximum. It offers every requested service, pet type and size. Its profile is located, and its distance is within the radius. |

## Left out

- Authentication: the caller's user id is an input. The "Authentication
  required" failure, bearer tokens and the auth client are not modelled.
- HTTP, CORS, the OPTIONS preflight, environment variables and the response
  envelope. Errors are modelled by their kind, not by their message text.
- Row-level-security policies of the store: the model lets a handler see and
  write every row.
- Date parsing: the handler's `new Date(...)` is a `Clock` parameter. It
  maps a date and a time of day to whole minutes, or to None for an invalid
  date. Anything below a minute (seconds in a time of day, milliseconds) is
  not modelled.
- The haversine formula and its rounding to one decimal: the distance is a
  function parameter. Symmetry and distance zero to itself are not modelled.
- The target of the create-request notification reads a provider profile
  column the query never selects. The model attempts that notification
  with no recipient (`None`) and does not model who would receive it.
- Notification titles, message texts and `action_data`. Only the
  recipient, kind, request and message are kept.
- The realtime broadcast after a message is sent.
- Concurrency: each handler is one atomic sequential step. The race
  between two simultaneous responses to one request is not modelled.
- The new row's id, which the store generates, is a parameter. The
  acceptance time, which the handler takes from its own clock, is the
  parameter `now`. The store's `created_at`/`requested_at` defaults are
  left out.
- TotalHours, TotalAmount: computed on exact reals. The handler divides
  milliseconds by 3,600,000 and multiplies in double precision, so its
  values can differ in the last bits. A 100-minute booking is 5/3 hours in
  the model and 1.6666666666666667 in the handler.
- Reads are assumed to succeed, apart from search's provider query. A failed
  read of the request shows up in the handlers as "not found". A failed
  duplicate-review lookup that is not a "no rows" answer is passed on as
  it is. Neither is modelled: the model reads its tables directly.
- Ids are compared as exact strings. The store compares UUIDs without
  regard to letter case.
- Ratings are integers. A fractional rating between 1 and 5, which the
  handler would pass on to the store, is not modelled.
- JSON `null` and an absent field are the same in the model (`None`). A
  client who sends `null` instead of omitting a field would bypass the
  defaults in the handler. This is not modelled.
- The `available_date` search field, which the handler reads but never
  uses.
- The provider-to-profile join of the search query: each row carries its
  profile as an input, not tied to the provider's `profile_id` or to the
  profiles table.
- The order in which the store returns providers: search takes the query's
  rows as a sequence in whatever order the store gives.
- SortByDistance: stated as sorted and a permutation. The model's sort
  keeps equal distances in their query order, but no lemma states that.
