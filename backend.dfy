/**
 * The canister's state and endpoints: one shared identifier counter and three
 * stable maps (events, users, tickets) keyed by identifier, and the create,
 * read, update, delete and link operations over them.
 *
 * The host clock is the `now` parameter of every operation that stamps a
 * record. Each operation runs to completion before the next begins, so each
 * is one method on the store.
 */
module Backend {
  import opened Records

  class Store {
    /** ID_COUNTER: the next identifier to hand out, shared by all three kinds. */
    var counter: nat
    /** EVENT_STORAGE, USER_STORAGE and TICKET_STORAGE. */
    var events: map<nat, Event>
    var users: map<nat, User>
    var tickets: map<nat, Ticket>

    /**
     * What the single shared counter guarantees: every stored key was handed
     * out by it (so is below it), each record carries its own key as `id`,
     * and no identifier is used by two stores.
     */
    ghost predicate Valid()
      reads this
    {
      && (forall k :: k in events ==> k < counter && events[k].id == k)
      && (forall k :: k in users ==> k < counter && users[k].id == k)
      && (forall k :: k in tickets ==> k < counter && tickets[k].id == k)
      && events.Keys !! users.Keys
      && events.Keys !! tickets.Keys
      && users.Keys !! tickets.Keys
    }

    /** Fresh stable memory: the counter cell starts at 0 and every map is empty. */
    constructor ()
      ensures Valid()
      ensures counter == 0 && events == map[] && users == map[] && tickets == map[]
    {
      counter := 0;
      events, users, tickets := map[], map[], map[];
    }

    /**
     * The counter step every create begins with: read the cell, store one
     * more, and keep what `Cell::set` hands back, the value before the store.
     */
    method AllocateId() returns (id: nat)
      requires Valid()
      modifies this
      ensures Valid()
      ensures id == old(counter) && counter == old(counter) + 1
      ensures id !in events && id !in users && id !in tickets
      ensures events == old(events) && users == old(users) && tickets == old(tickets)
    {
      var current := counter;
      id := counter;
      counter := current + 1;
    }

    // ------------------------------------------------------------------
    // Lookups (`_get_*`) and the read endpoints built on them (`get_*`).

    function LookupEvent(id: nat): Option<Event>
      reads this
    {
      if id in events then Some(events[id]) else None
    }

    function LookupUser(id: nat): Option<User>
      reads this
    {
      if id in users then Some(users[id]) else None
    }

    function LookupTicket(id: nat): Option<Ticket>
      reads this
    {
      if id in tickets then Some(tickets[id]) else None
    }

    /** `get_event`: the stored event, or NotFound naming the event id. */
    function GetEvent(id: nat): (r: Result<Event>)
      reads this
      ensures r.Ok? <==> id in events
      ensures r.Ok? ==> r.value == events[id]
      ensures r.Err? ==> r.error == NotFound(EventKind, id)
      ensures Valid() && r.Ok? ==> r.value.id == id
    {
      match LookupEvent(id)
      case Some(e) => Ok(e)
      case None => Err(NotFound(EventKind, id))
    }

    /** `get_user`: the stored user, or NotFound naming the user id. */
    function GetUser(id: nat): (r: Result<User>)
      reads this
      ensures r.Ok? <==> id in users
      ensures r.Ok? ==> r.value == users[id]
      ensures r.Err? ==> r.error == NotFound(UserKind, id)
      ensures Valid() && r.Ok? ==> r.value.id == id
    {
      match LookupUser(id)
      case Some(u) => Ok(u)
      case None => Err(NotFound(UserKind, id))
    }

    /** `get_ticket`: the stored ticket, or NotFound naming the ticket id. */
    function GetTicket(id: nat): (r: Result<Ticket>)
      reads this
      ensures r.Ok? <==> id in tickets
      ensures r.Ok? ==> r.value == tickets[id]
      ensures r.Err? ==> r.error == NotFound(TicketKind, id)
      ensures Valid() && r.Ok? ==> r.value.id == id
    {
      match LookupTicket(id)
      case Some(t) => Ok(t)
      case None => Err(NotFound(TicketKind, id))
    }

    /**
     * `get_all_events`: every stored event once, in ascending identifier
     * order (the B-tree's iteration order), with the keys dropped.
     */
    function GetAllEvents(): (r: seq<Event>)
      reads this
      requires Valid()
      ensures |r| == |events|
      ensures forall k :: k in events ==> events[k] in r
      ensures forall e :: e in r ==> e.id in events && events[e.id] == e
      ensures forall i, j :: 0 <= i < j < |r| ==> r[i].id < r[j].id
    {
      ScanInOrder(events, counter);
      Project(events, KeysBelow(events.Keys, counter))
    }

    // ------------------------------------------------------------------
    // Event endpoints.

    /**
     * `create_event`: a fresh identifier from the counter, and under it a
     * record with the payload, no attendees, `created_at = now` and no
     * `updated_at`. Nothing stored before is overwritten.
     */
    method CreateEvent(p: EventPayload, now: nat) returns (id: nat)
      requires Valid()
      modifies this
      ensures Valid()
      ensures id == old(counter) && counter == old(counter) + 1
      ensures id !in old(events) && id !in old(users) && id !in old(tickets)
      ensures events == old(events)[id := NewEvent(id, p, now)]
      ensures users == old(users) && tickets == old(tickets)
    {
      id := AllocateId();
      var event := NewEvent(id, p, now);
      events := events[id := event];
    }

    /**
     * `update_event`: NotFound and no write when the id is not stored;
     * otherwise the payload fields are replaced and `updated_at` set, while
     * the id, the attendee list and `created_at` are kept.
     */
    method UpdateEvent(id: nat, p: EventPayload, now: nat) returns (r: Result<()>)
      requires Valid()
      modifies this
      ensures Valid()
      ensures r.Ok? <==> id in old(events)
      ensures r.Err? ==> r.error == NotFound(EventKind, id) && events == old(events)
      ensures r.Ok? ==> events == old(events)[id := old(events)[id].(
                name := p.name, description := p.description, date := p.date,
                startTime := p.startTime, location := p.location, updatedAt := Some(now))]
      ensures counter == old(counter) && users == old(users) && tickets == old(tickets)
    {
      var found := LookupEvent(id);
      if found.None? {
        return Err(NotFound(EventKind, id));
      }
      var event := found.value;
      events := events[id := RevisedEvent(event, id, p, now)];
      r := Ok(());
    }

    /**
     * `delete_event`: NotFound when the id is not stored; otherwise exactly
     * that key leaves the event map. Nothing cascades: tickets naming the
     * event keep naming it.
     */
    method DeleteEvent(id: nat) returns (r: Result<()>)
      requires Valid()
      modifies this
      ensures Valid()
      ensures r.Ok? <==> id in old(events)
      ensures r.Err? ==> r.error == NotFound(EventKind, id)
      ensures events == old(events) - {id}
      ensures counter == old(counter) && users == old(users) && tickets == old(tickets)
    {
      var found := LookupEvent(id);
      if found.None? {
        return Err(NotFound(EventKind, id));
      }
      events := events - {id};
      r := Ok(());
    }

    // ------------------------------------------------------------------
    // User endpoints.

    /**
     * `create_user`: a fresh identifier, and under it a record with the
     * payload, empty event and ticket lists, `created_at = now` and no
     * `updated_at`.
     */
    method CreateUser(p: UserPayload, now: nat) returns (id: nat)
      requires Valid()
      modifies this
      ensures Valid()
      ensures id == old(counter) && counter == old(counter) + 1
      ensures id !in old(events) && id !in old(users) && id !in old(tickets)
      ensures users == old(users)[id := NewUser(id, p, now)]
      ensures events == old(events) && tickets == old(tickets)
    {
      id := AllocateId();
      var user := NewUser(id, p, now);
      users := users[id := user];
    }

    /**
     * `update_user`: NotFound and no write when the id is not stored;
     * otherwise name, email and password are replaced and `updated_at` set,
     * while the id, both link lists and `created_at` are kept.
     */
    method UpdateUser(id: nat, p: UserPayload, now: nat) returns (r: Result<()>)
      requires Valid()
      modifies this
      ensures Valid()
      ensures r.Ok? <==> id in old(users)
      ensures r.Err? ==> r.error == NotFound(UserKind, id) && users == old(users)
      ensures r.Ok? ==> users == old(users)[id := old(users)[id].(
                name := p.name, email := p.email, password := p.password,
                updatedAt := Some(now))]
      ensures counter == old(counter) && events == old(events) && tickets == old(tickets)
    {
      var found := LookupUser(id);
      if found.None? {
        return Err(NotFound(UserKind, id));
      }
      var user := found.value;
      users := users[id := RevisedUser(user, id, p, now)];
      r := Ok(());
    }

    /**
     * `delete_user`: NotFound when the id is not stored; otherwise exactly
     * that key leaves the user map. Event attendee lists and tickets that
     * name the user are left as they are.
     */
    method DeleteUser(id: nat) returns (r: Result<()>)
      requires Valid()
      modifies this
      ensures Valid()
      ensures r.Ok? <==> id in old(users)
      ensures r.Err? ==> r.error == NotFound(UserKind, id)
      ensures users == old(users) - {id}
      ensures counter == old(counter) && events == old(events) && tickets == old(tickets)
    {
      var found := LookupUser(id);
      if found.None? {
        return Err(NotFound(UserKind, id));
      }
      users := users - {id};
      r := Ok(());
    }

    // ------------------------------------------------------------------
    // Ticket endpoints.

    /**
     * `create_ticket`: the ticket is stored under a fresh identifier first;
     * then the user is appended to the event's attendees (only when both the
     * event and the user exist) and the ticket to the user's tickets (only
     * when the user exists). Both link results are dropped and nothing is
     * undone, so the fresh identifier is returned and the ticket stays
     * stored whatever the links did.
     */
    method CreateTicket(p: TicketPayload, now: nat) returns (id: nat)
      requires Valid()
      modifies this
      ensures Valid()
      ensures id == old(counter) && counter == old(counter) + 1
      ensures id !in old(events) && id !in old(users) && id !in old(tickets)
      ensures tickets == old(tickets)[id := NewTicket(id, p, now)]
      ensures events == if p.eventId in old(events) && p.userId in old(users)
                        then old(events)[p.eventId := old(events)[p.eventId].(
                               attendeeIds := old(events)[p.eventId].attendeeIds + [p.userId],
                               updatedAt := Some(now))]
                        else old(events)
      ensures users == if p.userId in old(users)
                       then old(users)[p.userId := old(users)[p.userId].(
                              ticketIds := old(users)[p.userId].ticketIds + [id],
                              updatedAt := Some(now))]
                       else old(users)
    {
      id := AllocateId();
      var ticket := NewTicket(id, p, now);
      tickets := tickets[id := ticket];
      var _ := AddEventAttendee(p.eventId, p.userId, now);
      var _ := AddUserTicket(p.userId, id, now);
    }

    /**
     * `update_ticket`: NotFound and no write when the id is not stored;
     * otherwise the event and user references are replaced and `updated_at`
     * set. No link list of any event or user is touched.
     */
    method UpdateTicket(id: nat, p: TicketPayload, now: nat) returns (r: Result<()>)
      requires Valid()
      modifies this
      ensures Valid()
      ensures r.Ok? <==> id in old(tickets)
      ensures r.Err? ==> r.error == NotFound(TicketKind, id) && tickets == old(tickets)
      ensures r.Ok? ==> tickets == old(tickets)[id := old(tickets)[id].(
                eventId := p.eventId, userId := p.userId, updatedAt := Some(now))]
      ensures counter == old(counter) && events == old(events) && users == old(users)
    {
      var found := LookupTicket(id);
      if found.None? {
        return Err(NotFound(TicketKind, id));
      }
      var ticket := found.value;
      tickets := tickets[id := RevisedTicket(ticket, id, p, now)];
      r := Ok(());
    }

    /**
     * `delete_ticket`: NotFound when the id is not stored; otherwise exactly
     * that key leaves the ticket map. The owning user's ticket list is not
     * cleaned up, so it keeps the now dangling id.
     */
    method DeleteTicket(id: nat) returns (r: Result<()>)
      requires Valid()
      modifies this
      ensures Valid()
      ensures r.Ok? <==> id in old(tickets)
      ensures r.Err? ==> r.error == NotFound(TicketKind, id)
      ensures tickets == old(tickets) - {id}
      ensures counter == old(counter) && events == old(events) && users == old(users)
    {
      var found := LookupTicket(id);
      if found.None? {
        return Err(NotFound(TicketKind, id));
      }
      tickets := tickets - {id};
      r := Ok(());
    }

    // ------------------------------------------------------------------
    // Link lists.

    /**
     * `get_event_attendees`: NotFound for a missing event; otherwise one
     * stored user per attendee entry, in list order, or NotFound naming the
     * first attendee id that is no longer stored.
     */
    method GetEventAttendees(id: nat) returns (r: Result<seq<User>>)
      ensures id !in events ==> r == Err(NotFound(EventKind, id))
      ensures id in events ==>
        (r.Ok? <==> forall k :: 0 <= k < |events[id].attendeeIds| ==> events[id].attendeeIds[k] in users)
      ensures r.Ok? ==> id in events && |r.value| == |events[id].attendeeIds|
      ensures r.Ok? ==> forall k :: 0 <= k < |r.value| ==> r.value[k] == users[events[id].attendeeIds[k]]
      ensures r.Err? && id in events ==>
        exists j :: FirstMissing(events[id].attendeeIds, users.Keys, j)
                    && r.error == NotFound(UserKind, events[id].attendeeIds[j])
    {
      var found := LookupEvent(id);
      if found.None? {
        return Err(NotFound(EventKind, id));
      }
      var links := found.value.attendeeIds;
      var attendees: seq<User> := [];
      var i := 0;
      while i < |links|
        invariant 0 <= i <= |links|
        invariant |attendees| == i
        invariant forall k :: 0 <= k < i ==> links[k] in users && attendees[k] == users[links[k]]
      {
        var attendee := LookupUser(links[i]);
        if attendee.None? {
          assert FirstMissing(links, users.Keys, i);
          return Err(NotFound(UserKind, links[i]));
        }
        attendees := attendees + [attendee.value];
        i := i + 1;
      }
      r := Ok(attendees);
    }

    /**
     * `add_event_attendee`: NotFound for a missing event (checked first) or
     * a missing user, with no write; otherwise the user id is appended to
     * the event's attendees (duplicates kept) and `updated_at` set, and
     * nothing else changes.
     */
    method AddEventAttendee(eventId: nat, userId: nat, now: nat) returns (r: Result<()>)
      requires Valid()
      modifies this
      ensures Valid()
      ensures eventId !in old(events) ==> r == Err(NotFound(EventKind, eventId))
      ensures eventId in old(events) && userId !in old(users) ==> r == Err(NotFound(UserKind, userId))
      ensures r.Ok? <==> eventId in old(events) && userId in old(users)
      ensures events == if r.Ok?
                        then old(events)[eventId := old(events)[eventId].(
                               attendeeIds := old(events)[eventId].attendeeIds + [userId],
                               updatedAt := Some(now))]
                        else old(events)
      ensures counter == old(counter) && users == old(users) && tickets == old(tickets)
    {
      var foundEvent := LookupEvent(eventId);
      if foundEvent.None? {
        return Err(NotFound(EventKind, eventId));
      }
      var foundUser := LookupUser(userId);
      if foundUser.None? {
        return Err(NotFound(UserKind, userId));
      }
      var event, user := foundEvent.value, foundUser.value;
      events := events[event.id := WithAttendee(event, user.id, now)];
      r := Ok(());
    }

    /**
     * `get_user_tickets`: NotFound for a missing user; otherwise one stored
     * ticket per ticket entry, in list order, or NotFound naming the first
     * ticket id that is no longer stored.
     */
    method GetUserTickets(id: nat) returns (r: Result<seq<Ticket>>)
      ensures id !in users ==> r == Err(NotFound(UserKind, id))
      ensures id in users ==>
        (r.Ok? <==> forall k :: 0 <= k < |users[id].ticketIds| ==> users[id].ticketIds[k] in tickets)
      ensures r.Ok? ==> id in users && |r.value| == |users[id].ticketIds|
      ensures r.Ok? ==> forall k :: 0 <= k < |r.value| ==> r.value[k] == tickets[users[id].ticketIds[k]]
      ensures r.Err? && id in users ==>
        exists j :: FirstMissing(users[id].ticketIds, tickets.Keys, j)
                    && r.error == NotFound(TicketKind, users[id].ticketIds[j])
    {
      var found := LookupUser(id);
      if found.None? {
        return Err(NotFound(UserKind, id));
      }
      var links := found.value.ticketIds;
      var owned: seq<Ticket> := [];
      var i := 0;
      while i < |links|
        invariant 0 <= i <= |links|
        invariant |owned| == i
        invariant forall k :: 0 <= k < i ==> links[k] in tickets && owned[k] == tickets[links[k]]
      {
        var ticket := LookupTicket(links[i]);
        if ticket.None? {
          assert FirstMissing(links, tickets.Keys, i);
          return Err(NotFound(TicketKind, links[i]));
        }
        owned := owned + [ticket.value];
        i := i + 1;
      }
      r := Ok(owned);
    }

    /**
     * `add_user_ticket`: NotFound for a missing user (checked first) or a
     * missing ticket, with no write; otherwise the ticket id is appended to
     * the user's tickets and `updated_at` set, and nothing else changes.
     */
    method AddUserTicket(userId: nat, ticketId: nat, now: nat) returns (r: Result<()>)
      requires Valid()
      modifies this
      ensures Valid()
      ensures userId !in old(users) ==> r == Err(NotFound(UserKind, userId))
      ensures userId in old(users) && ticketId !in old(tickets) ==> r == Err(NotFound(TicketKind, ticketId))
      ensures r.Ok? <==> userId in old(users) && ticketId in old(tickets)
      ensures users == if r.Ok?
                       then old(users)[userId := old(users)[userId].(
                              ticketIds := old(users)[userId].ticketIds + [ticketId],
                              updatedAt := Some(now))]
                       else old(users)
      ensures counter == old(counter) && events == old(events) && tickets == old(tickets)
    {
      var foundUser := LookupUser(userId);
      if foundUser.None? {
        return Err(NotFound(UserKind, userId));
      }
      var foundTicket := LookupTicket(ticketId);
      if foundTicket.None? {
        return Err(NotFound(TicketKind, ticketId));
      }
      var user, ticket := foundUser.value, foundTicket.value;
      users := users[user.id := WithTicket(user, ticket.id, now)];
      r := Ok(());
    }

    /**
     * `remove_user_ticket`: the ticket id travels in the payload's
     * `event_id` field. NotFound for a missing user (checked first) or a
     * missing ticket, with no write; otherwise every occurrence of the ticket
     * id leaves the user's ticket list, the rest keep their order, and
     * `updated_at` is set.
     */
    method RemoveUserTicket(p: TicketPayload, now: nat) returns (r: Result<()>)
      requires Valid()
      modifies this
      ensures Valid()
      ensures p.userId !in old(users) ==> r == Err(NotFound(UserKind, p.userId))
      ensures p.userId in old(users) && p.eventId !in old(tickets) ==> r == Err(NotFound(TicketKind, p.eventId))
      ensures r.Ok? <==> p.userId in old(users) && p.eventId in old(tickets)
      ensures users == if r.Ok?
                       then old(users)[p.userId := old(users)[p.userId].(
                              ticketIds := RemoveAll(old(users)[p.userId].ticketIds, p.eventId),
                              updatedAt := Some(now))]
                       else old(users)
      ensures counter == old(counter) && events == old(events) && tickets == old(tickets)
    {
      var ticketId := p.eventId;
      var userId := p.userId;
      var foundUser := LookupUser(userId);
      if foundUser.None? {
        return Err(NotFound(UserKind, userId));
      }
      var foundTicket := LookupTicket(ticketId);
      if foundTicket.None? {
        return Err(NotFound(TicketKind, ticketId));
      }
      var user, ticket := foundUser.value, foundTicket.value;
      users := users[user.id := WithoutTicket(user, ticket.id, now)];
      r := Ok(());
    }
  }
}
