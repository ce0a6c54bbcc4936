# e-ticketer back end: a Dafny model of its store

The e-ticketer canister keeps three kinds of record (Event, User and Ticket) in
three stable B-tree maps. All three are keyed by identifiers handed out by one
shared counter cell. Its endpoints create, read, update and delete records of
each kind. Three link operations edit denormalised lists of identifiers
inside the records. `add_event_attendee` appends to an event's
`attendee_ids`. `add_user_ticket` appends to a user's `ticket_ids`, and
`remove_user_ticket` filters an id out of it. `create_ticket` edits both
lists through the first two.

The model has three modules:

- `Records` (records.dfy) holds the records, the payloads and the one error.
  It also holds the struct literals each endpoint builds, as pure functions,
  and the link-list filter `RemoveAll` (the source's `Vec::retain`) with its
  lemmas.
- `Backend` (backend.dfy) holds the class `Store`. It has one field for the
  counter and one `map` field per stable map. Each endpoint is one method,
  or one function for the pure lookups. `Store.Valid()` is the invariant the
  single counter gives: every key is below the counter, every record's `id`
  equals its key, and no identifier is used by two maps. Every mutating
  method preserves it and states its whole new state.
- `Scenarios` (scenarios.dfy) holds behaviour that spans several calls, all
  derived from the single-call contracts: a create reads back, an update keeps
  `created_at` and the links, repeated tickets duplicate attendance, a ticket
  for a missing event is kept, and deletes leave dangling links that make the
  list endpoints fail.

The host clock `time()` is the `now` parameter of every operation that stamps
a record. Identifiers and timestamps are `nat`. `create_ticket` reads `time()`
three times: for the ticket record, inside `add_event_attendee` and inside
`add_user_ticket`. The model passes one `now` to all three. This is exact
because the host returns the same time for every read within one message.

Behaviour of the code worth noting:

- `create_ticket` discards both link results and never rolls anything back.
- An Event has no ticket list; only users keep ticket ids.
- `delete_ticket` removes only the ticket row; there is no cascade.
- The only error is `NotFound`.

## Model

| member | source | states |
|---|---|---|
| `Backend.Store.constructor` | src/e_ticketer_backend/src/lib.rs:106-124 | The counter starts at 0 and all three maps start empty; the store invariant holds. |
| `Backend.Store.AllocateId` | src/e_ticketer_backend/src/lib.rs:175-180 | Returns the counter's value before the call and leaves the counter one higher. The returned id is in none of the three maps, and the maps are unchanged. |
| `Backend.Store.GetEvent` | src/e_ticketer_backend/src/lib.rs:158-170 | Succeeds exactly when the id is stored, with that record. Otherwise it fails with NotFound(event, id). Under the invariant the record's id is the one asked for. |
| `Backend.Store.GetUser` | src/e_ticketer_backend/src/lib.rs:233-245 | Same as GetEvent, for users. |
| `Backend.Store.GetTicket` | src/e_ticketer_backend/src/lib.rs:306-318 | Same as GetEvent, for tickets. |
| `Backend.Store.GetAllEvents` | src/e_ticketer_backend/src/lib.rs:151-156 | Returns every stored event, each exactly once: the length equals the map's size, every stored event occurs, and every element is stored under its own id. Ids strictly ascend. |
| `Backend.Store.CreateEvent` | src/e_ticketer_backend/src/lib.rs:172-197 | Takes the fresh id from the counter and stores the payload under it, with no attendees, `created_at = now` and no `updated_at`. The id was in no map before, so nothing is overwritten. The user and ticket maps are unchanged. |
| `Backend.Store.UpdateEvent` | src/e_ticketer_backend/src/lib.rs:199-220 | Fails with NotFound and no write when the id is absent. Otherwise it replaces only the five payload fields and sets `updated_at = Some(now)`, keeping the id, `attendee_ids` and `created_at`. |
| `Backend.Store.DeleteEvent` | src/e_ticketer_backend/src/lib.rs:222-231 | Succeeds exactly when the id is stored. The event map loses exactly that key, and every other map is unchanged, so there is no cascade. |
| `Backend.Store.CreateUser` | src/e_ticketer_backend/src/lib.rs:247-271 | Takes the fresh id and stores the payload with empty `event_ids` and `ticket_ids`, `created_at = now` and no `updated_at`. Nothing is overwritten, and the other maps are unchanged. |
| `Backend.Store.UpdateUser` | src/e_ticketer_backend/src/lib.rs:273-293 | Fails with NotFound and no write when the id is absent. Otherwise it replaces name, email and password and sets `updated_at = Some(now)`, keeping both link lists and `created_at`. |
| `Backend.Store.DeleteUser` | src/e_ticketer_backend/src/lib.rs:295-304 | Removes exactly that key from the user map. Attendee lists and tickets that name the user are untouched. |
| `Backend.Store.CreateTicket` | src/e_ticketer_backend/src/lib.rs:320-343 | Always returns the fresh id, and the ticket is stored under it. The event's attendees gain the user only when both the event and the user exist. The user's tickets gain the id whenever the user exists. Nothing is rolled back. |
| `Backend.Store.UpdateTicket` | src/e_ticketer_backend/src/lib.rs:345-362 | Fails with NotFound and no write when the id is absent. Otherwise it rewrites `event_id`/`user_id` and stamps `updated_at`, keeping `created_at`. No event or user changes. |
| `Backend.Store.DeleteTicket` | src/e_ticketer_backend/src/lib.rs:364-373 | Removes exactly that key from the ticket map. The user's `ticket_ids` keep the id. |
| `Backend.Store.GetEventAttendees` | src/e_ticketer_backend/src/lib.rs:375-392 | Fails with NotFound(event) for a missing event. Otherwise it succeeds exactly when every attendee id is stored, and then returns one user per entry, in list order. If not, it fails with NotFound naming the first attendee id that is missing. |
| `Backend.Store.AddEventAttendee` | src/e_ticketer_backend/src/lib.rs:394-421 | The event is checked first, then the user, and either missing gives NotFound with no write. Otherwise `attendee_ids` becomes the old list plus the user id, with no dedup, and `updated_at = Some(now)`. Every other field and record is kept. |
| `Backend.Store.GetUserTickets` | src/e_ticketer_backend/src/lib.rs:423-440 | Same as GetEventAttendees, over the user's `ticket_ids` and the ticket map. |
| `Backend.Store.AddUserTicket` | src/e_ticketer_backend/src/lib.rs:442-468 | The user is checked first, then the ticket, and either missing gives NotFound with no write. Otherwise `ticket_ids` becomes the old list plus the ticket id, and `updated_at = Some(now)`. Nothing else changes. |
| `Backend.Store.RemoveUserTicket` | src/e_ticketer_backend/src/lib.rs:470-499 | Takes the ticket id from `payload.event_id`. The user is checked first, then the ticket, with NotFound and no write if either is missing. Otherwise `ticket_ids` becomes RemoveAll of the old list and `updated_at = Some(now)`. Nothing else changes. |
| `Records.NewEvent` | src/e_ticketer_backend/src/lib.rs:182-192 | A created event carries exactly the payload's fields, no attendees, `created_at = now` and `updated_at = None`. |
| `Records.NewUser` | src/e_ticketer_backend/src/lib.rs:257-266 | A created user carries exactly the payload's fields, empty link lists, `created_at = now` and `updated_at = None`. |
| `Records.NewTicket` | src/e_ticketer_backend/src/lib.rs:330-336 | A created ticket carries exactly the payload's references, `created_at = now` and `updated_at = None`. |
| `Backend.Store.LookupEvent` | src/e_ticketer_backend/src/lib.rs:168-170 | No contract of its own; GetEvent's ensures fix its result, and the mutating methods' ensures fix the event map it reads. |
| `Backend.Store.LookupUser` | src/e_ticketer_backend/src/lib.rs:243-245 | No contract of its own; GetUser's ensures fix its result, and the mutating methods' ensures fix the user map it reads. |
| `Backend.Store.LookupTicket` | src/e_ticketer_backend/src/lib.rs:316-318 | No contract of its own; GetTicket's ensures fix its result, and the mutating methods' ensures fix the ticket map it reads. |
| `Records.RevisedEvent` | src/e_ticketer_backend/src/lib.rs:205-215 | No contract of its own; UpdateEvent's ensures fix the record it builds (payload replaced, attendees and `created_at` kept, `updated_at = Some(now)`). |
| `Records.WithAttendee` | src/e_ticketer_backend/src/lib.rs:403-416 | No contract of its own; AddEventAttendee's ensures fix the record it builds (user id appended, `updated_at = Some(now)`, all else kept). |
| `Records.RevisedUser` | src/e_ticketer_backend/src/lib.rs:279-288 | No contract of its own; UpdateUser's ensures fix the record it builds (name, email, password replaced, both lists and `created_at` kept). |
| `Records.WithTicket` | src/e_ticketer_backend/src/lib.rs:451-463 | No contract of its own; AddUserTicket's ensures fix the record it builds (ticket id appended, `updated_at = Some(now)`, all else kept). |
| `Records.WithoutTicket` | src/e_ticketer_backend/src/lib.rs:482-494 | No contract of its own; RemoveUserTicket's ensures fix the record it builds (RemoveAll of the ticket list, `updated_at = Some(now)`, all else kept). |
| `Records.RevisedTicket` | src/e_ticketer_backend/src/lib.rs:351-357 | No contract of its own; UpdateTicket's ensures fix the record it builds (references replaced, `created_at` kept, `updated_at = Some(now)`). |
| `Records.RemoveAll` | src/e_ticketer_backend/src/lib.rs:482-483 | The id is absent from the result, and every other id keeps its number of occurrences (a multiset identity). |
| `Records.RemoveAllAppend` | src/e_ticketer_backend/src/lib.rs:482-483 | Filtering distributes over concatenation, so the surviving entries keep their order. |
| `Records.RemoveAllAbsent` | src/e_ticketer_backend/src/lib.rs:482-483 | A list without the id is returned unchanged. |
| `Records.RemoveAllIdempotent` | src/e_ticketer_backend/src/lib.rs:482-483 | Filtering twice equals filtering once. |
| `Records.AppendThenRemove` | src/e_ticketer_backend/src/lib.rs:451-483 | A push followed by removing the same id gives back the original list, when that list did not hold the id. |
| `Records.KeysBelow` | src/e_ticketer_backend/src/lib.rs:153-154 | No contract of its own; KeysBelowMembers, KeysBelowAscending and KeysBelowLength fix its result as the stored keys in ascending order, each once. |
| `Records.Project` | src/e_ticketer_backend/src/lib.rs:155 | Dropping the keys keeps one value per key, in key order: the result is as long as the key list and its i-th element is the value stored under the i-th key. |
| `Records.KeysBelowMembers` | src/e_ticketer_backend/src/lib.rs:153-154 | The key scan lists exactly the stored keys below the bound. |
| `Records.KeysBelowAscending` | src/e_ticketer_backend/src/lib.rs:153-154 | The key scan is strictly ascending. |
| `Records.KeysBelowLength` | src/e_ticketer_backend/src/lib.rs:153-154 | When every key is below the bound, the scan is as long as the key set, so each key appears once. |
| `Records.ScanInOrder` | src/e_ticketer_backend/src/lib.rs:151-156 | Scanning an event map whose records carry their own keys yields each event once, in strictly ascending id order. |
| `Records.ProjectInOrder` | src/e_ticketer_backend/src/lib.rs:153-155 | Projecting the values of an event map through its ascending key list gives every event once, each stored under its own id, in ascending id order. |
| `Scenarios.CreateThenGetEvent` | src/e_ticketer_backend/src/lib.rs:158-197 | `create_event` followed by `get_event` returns the payload with the new id, no attendees, `created_at = now` and no `updated_at`. |
| `Scenarios.UpdateThenGetEvent` | src/e_ticketer_backend/src/lib.rs:199-220 | After `update_event`, reading succeeds exactly when it did before. It shows the old `created_at` and attendees, the new payload and `updated_at = Some(now)`. Reading again gives the same result. |
| `Scenarios.TwoTicketsTwoAttendances` | src/e_ticketer_backend/src/lib.rs:320-343 | Two tickets for the same event and user give two distinct ids. They append the user twice to the attendees and both ids to the user's tickets. |
| `Scenarios.TicketForMissingEvent` | src/e_ticketer_backend/src/lib.rs:338-342 | A ticket whose event is missing is still stored and still appended to its user's tickets. The event map is unchanged. |
| `Scenarios.DeleteTicketLeavesDanglingLink` | src/e_ticketer_backend/src/lib.rs:364-373 | After `delete_ticket`, the user still lists the id, the ticket is gone, and `get_user_tickets` fails. |
| `Scenarios.DeleteUserLeavesDanglingAttendee` | src/e_ticketer_backend/src/lib.rs:295-304 | After `delete_user`, the event's attendee list still names the user and `get_event_attendees` fails. |
| `Scenarios.AddThenRemoveUserTicket` | src/e_ticketer_backend/src/lib.rs:442-499 | `add_user_ticket` then `remove_user_ticket` of a ticket the user did not hold both succeed and restore the user's ticket list. |

## Left out

- Candid encoding and decoding (the `Storable` impls) are not modelled. Records are values.
- The 1024-byte `BoundedStorable` bound is not modelled. An oversized record, which would make the stable map's insert trap, is not represented.
- The memory manager, the virtual memories, `thread_local!`/`RefCell`, and the internals of `StableBTreeMap` and `Cell` are not modelled. They are one counter field and three `map` fields on one object.
- Stable memory lasting across upgrades is outside the model.
- `ic_cdk::api::time()` is the `now` parameter.
- The `#[ic_cdk::query]`/`#[ic_cdk::update]` dispatch and `export_candid!` are not modelled.
- The `expect` on counter initialisation and on `Cell::set` is not modelled. Those traps come from the memory layer.
- Backend.Store.AllocateId: the `u64` addition `current_id + 1` is unbounded on `nat`, so wrap-around or overflow at 2^64 is not modelled.
- The `format!` error messages are not modelled. `NotFound` carries the entity kind and the id the message is formatted from.
- Backend.Store.GetAllEvents: the B-tree's in-order iteration is a scan of the identifiers below the counter (`KeysBelow`). Under `Store.Valid()` every key is below the counter, so the result is the same; the function therefore requires `Valid()`.
