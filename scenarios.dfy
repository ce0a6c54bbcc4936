/**
 * Behaviour that spans several endpoint calls on one store, derived from the
 * single-call contracts of Backend.Store alone.
 */
module Scenarios {
  import opened Records
  import opened Backend

  /** A created event reads back as the payload with no attendees and no update stamp. */
  method CreateThenGetEvent(s: Store, p: EventPayload, now: nat) returns (id: nat, got: Result<Event>)
    requires s.Valid()
    modifies s
    ensures s.Valid()
    ensures got.Ok? && got.value.id == id && EventFields(got.value) == p
    ensures got.value.attendeeIds == [] && got.value.createdAt == now && got.value.updatedAt == None
  {
    id := s.CreateEvent(p, now);
    got := s.GetEvent(id);
  }

  /**
   * An update keeps `created_at` and the attendee list of the record it
   * replaces and stamps `updated_at`; reading twice with no write between
   * gives the same record.
   */
  method UpdateThenGetEvent(s: Store, id: nat, p: EventPayload, now: nat)
    returns (before: Result<Event>, after: Result<Event>, again: Result<Event>)
    requires s.Valid()
    modifies s
    ensures s.Valid()
    ensures before.Ok? <==> after.Ok?
    ensures after.Ok? ==> after.value.createdAt == before.value.createdAt
                          && after.value.attendeeIds == before.value.attendeeIds
                          && EventFields(after.value) == p
                          && after.value.updatedAt == Some(now)
    ensures again == after
  {
    before := s.GetEvent(id);
    var _ := s.UpdateEvent(id, p, now);
    after := s.GetEvent(id);
    again := s.GetEvent(id);
  }

  /**
   * Two tickets for the same event and user put the user on the event's
   * attendee list twice: the list is not deduplicated.
   */
  method TwoTicketsTwoAttendances(s: Store, eventId: nat, userId: nat, now: nat)
    returns (first: nat, second: nat)
    requires s.Valid() && eventId in s.events && userId in s.users
    modifies s
    ensures s.Valid()
    ensures first != second
    ensures eventId in s.events && userId in s.users
    ensures s.events[eventId].attendeeIds == old(s.events[eventId].attendeeIds) + [userId, userId]
    ensures s.users[userId].ticketIds == old(s.users[userId].ticketIds) + [first, second]
  {
    first := s.CreateTicket(TicketPayload(eventId, userId), now);
    second := s.CreateTicket(TicketPayload(eventId, userId), now);
  }

  /**
   * A ticket created for an event that does not exist is still stored and
   * still linked from its user: there is no rollback.
   */
  method TicketForMissingEvent(s: Store, eventId: nat, userId: nat, now: nat)
    returns (id: nat, got: Result<Ticket>)
    requires s.Valid() && eventId !in s.events && userId in s.users
    modifies s
    ensures s.Valid()
    ensures got == Ok(NewTicket(id, TicketPayload(eventId, userId), now))
    ensures s.events == old(s.events)
    ensures userId in s.users && s.users[userId].ticketIds == old(s.users[userId].ticketIds) + [id]
  {
    id := s.CreateTicket(TicketPayload(eventId, userId), now);
    got := s.GetTicket(id);
  }

  /**
   * Deleting a ticket leaves its id on the user's ticket list, so listing
   * the user's tickets now fails with NotFound.
   */
  method DeleteTicketLeavesDanglingLink(s: Store, eventId: nat, userId: nat, now: nat)
    returns (id: nat, listed: Result<seq<Ticket>>)
    requires s.Valid() && userId in s.users
    modifies s
    ensures s.Valid()
    ensures listed.Err?
    ensures userId in s.users && id in s.users[userId].ticketIds && id !in s.tickets
  {
    id := s.CreateTicket(TicketPayload(eventId, userId), now);
    var _ := s.DeleteTicket(id);
    var links := s.users[userId].ticketIds;
    assert links[|links| - 1] == id;
    listed := s.GetUserTickets(userId);
  }

  /**
   * Deleting a user who attends an event leaves the user's id on the
   * attendee list, so listing the event's attendees now fails with NotFound.
   */
  method DeleteUserLeavesDanglingAttendee(s: Store, eventId: nat, userId: nat, now: nat)
    returns (listed: Result<seq<User>>)
    requires s.Valid() && eventId in s.events && userId in s.users
    modifies s
    ensures s.Valid()
    ensures eventId in s.events && userId in s.events[eventId].attendeeIds && userId !in s.users
    ensures listed.Err?
  {
    var _ := s.AddEventAttendee(eventId, userId, now);
    var _ := s.DeleteUser(userId);
    var links := s.events[eventId].attendeeIds;
    assert links[|links| - 1] == userId;
    listed := s.GetEventAttendees(eventId);
  }

  /**
   * Linking a ticket the user did not hold and then unlinking it (the
   * ticket id passed in the payload's `event_id` field) restores the user's
   * ticket list.
   */
  method AddThenRemoveUserTicket(s: Store, userId: nat, ticketId: nat, now: nat)
    returns (added: Result<()>, removed: Result<()>)
    requires s.Valid() && userId in s.users && ticketId in s.tickets
    requires ticketId !in s.users[userId].ticketIds
    modifies s
    ensures s.Valid()
    ensures added.Ok? && removed.Ok?
    ensures userId in s.users && s.users[userId].ticketIds == old(s.users[userId].ticketIds)
  {
    added := s.AddUserTicket(userId, ticketId, now);
    removed := s.RemoveUserTicket(TicketPayload(ticketId, userId), now);
    AppendThenRemove(old(s.users[userId].ticketIds), ticketId);
  }
}
