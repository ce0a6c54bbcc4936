/**
 * The records of the e-ticketer back end (Event, User, Ticket), the payloads
 * the endpoints accept, the single error the endpoints return, and the pure
 * record constructors every endpoint builds its new records with.
 *
 * Identifiers and timestamps are the source's `u64`; they are modelled as
 * `nat` (the counter's wrap-around is not modelled).
 */
module Records {

  datatype Option<T> = None | Some(value: T)

  /** Which store an identifier was looked up in. */
  datatype Kind = EventKind | UserKind | TicketKind

  /** The one error variant of the source; the message text is replaced by the
      kind and identifier it is formatted from. */
  datatype Error = NotFound(kind: Kind, id: nat)

  datatype Result<T> = Ok(value: T) | Err(error: Error)

  datatype Event = Event(
    id: nat,
    name: string,
    description: string,
    date: string,
    startTime: string,
    location: string,
    attendeeIds: seq<nat>,
    createdAt: nat,
    updatedAt: Option<nat>)

  datatype User = User(
    id: nat,
    name: string,
    email: string,
    password: string,
    eventIds: seq<nat>,
    ticketIds: seq<nat>,
    createdAt: nat,
    updatedAt: Option<nat>)

  datatype Ticket = Ticket(
    id: nat,
    eventId: nat,
    userId: nat,
    createdAt: nat,
    updatedAt: Option<nat>)

  datatype EventPayload = EventPayload(
    name: string, description: string, date: string, startTime: string, location: string)

  datatype UserPayload = UserPayload(name: string, email: string, password: string)

  datatype TicketPayload = TicketPayload(eventId: nat, userId: nat)

  /** The caller-supplied part of an event; a create or an update writes exactly this. */
  function EventFields(e: Event): EventPayload {
    EventPayload(e.name, e.description, e.date, e.startTime, e.location)
  }

  function UserFields(u: User): UserPayload {
    UserPayload(u.name, u.email, u.password)
  }

  function TicketFields(t: Ticket): TicketPayload {
    TicketPayload(t.eventId, t.userId)
  }

  // The struct literals of the endpoints, one function each.

  /** The record `create_event` stores. */
  function NewEvent(id: nat, p: EventPayload, now: nat): (e: Event)
    ensures e.id == id && EventFields(e) == p
    ensures e.attendeeIds == [] && e.createdAt == now && e.updatedAt == None
  {
    Event(id, p.name, p.description, p.date, p.startTime, p.location, [], now, None)
  }

  /** The record `update_event` stores in place of `prev`. */
  function RevisedEvent(prev: Event, id: nat, p: EventPayload, now: nat): Event {
    Event(id, p.name, p.description, p.date, p.startTime, p.location,
          prev.attendeeIds, prev.createdAt, Some(now))
  }

  /** The record `add_event_attendee` stores: `e` with `userId` pushed on its attendees. */
  function WithAttendee(e: Event, userId: nat, now: nat): Event {
    Event(e.id, e.name, e.description, e.date, e.startTime, e.location,
          e.attendeeIds + [userId], e.createdAt, Some(now))
  }

  /** The record `create_user` stores. */
  function NewUser(id: nat, p: UserPayload, now: nat): (u: User)
    ensures u.id == id && UserFields(u) == p
    ensures u.eventIds == [] && u.ticketIds == [] && u.createdAt == now && u.updatedAt == None
  {
    User(id, p.name, p.email, p.password, [], [], now, None)
  }

  /** The record `update_user` stores in place of `prev`. */
  function RevisedUser(prev: User, id: nat, p: UserPayload, now: nat): User {
    User(id, p.name, p.email, p.password, prev.eventIds, prev.ticketIds, prev.createdAt, Some(now))
  }

  /** The record `add_user_ticket` stores: `u` with `ticketId` pushed on its tickets. */
  function WithTicket(u: User, ticketId: nat, now: nat): User {
    User(u.id, u.name, u.email, u.password, u.eventIds, u.ticketIds + [ticketId],
         u.createdAt, Some(now))
  }

  /** The record `remove_user_ticket` stores: `u` with every `ticketId` retained out. */
  function WithoutTicket(u: User, ticketId: nat, now: nat): User {
    User(u.id, u.name, u.email, u.password, u.eventIds, RemoveAll(u.ticketIds, ticketId),
         u.createdAt, Some(now))
  }

  /** The record `create_ticket` stores. */
  function NewTicket(id: nat, p: TicketPayload, now: nat): (t: Ticket)
    ensures t.id == id && TicketFields(t) == p && t.createdAt == now && t.updatedAt == None
  {
    Ticket(id, p.eventId, p.userId, now, None)
  }

  /** The record `update_ticket` stores in place of `prev`. */
  function RevisedTicket(prev: Ticket, id: nat, p: TicketPayload, now: nat): Ticket {
    Ticket(id, p.eventId, p.userId, prev.createdAt, Some(now))
  }

  /**
   * `Vec::retain(|&t| t != x)`: the link array with every occurrence of `x`
   * removed. Nothing but `x` is lost (the multiset of the rest is kept);
   * that the order of the rest is kept is RemoveAllAppend below.
   */
  function RemoveAll(s: seq<nat>, x: nat): (r: seq<nat>)
    ensures x !in r
    ensures multiset(r) == multiset(s)[x := 0]
  {
    if s == [] then []
    else
      assert s == [s[0]] + s[1..];
      (if s[0] == x then [] else [s[0]]) + RemoveAll(s[1..], x)
  }

  /** Filtering distributes over concatenation: the survivors keep their order. */
  lemma {:induction false} RemoveAllAppend(a: seq<nat>, b: seq<nat>, x: nat)
    ensures RemoveAll(a + b, x) == RemoveAll(a, x) + RemoveAll(b, x)
  {
    if a == [] {
      assert a + b == b;
    } else {
      assert (a + b)[1..] == a[1..] + b;
      RemoveAllAppend(a[1..], b, x);
    }
  }

  /** A link array that does not hold `x` is left as it is. */
  lemma {:induction false} RemoveAllAbsent(s: seq<nat>, x: nat)
    requires x !in s
    ensures RemoveAll(s, x) == s
  {
    if s != [] {
      RemoveAllAbsent(s[1..], x);
      assert s == [s[0]] + s[1..];
    }
  }

  /** Filtering twice is filtering once. */
  lemma RemoveAllIdempotent(s: seq<nat>, x: nat)
    ensures RemoveAll(RemoveAll(s, x), x) == RemoveAll(s, x)
  {
    RemoveAllAbsent(RemoveAll(s, x), x);
  }

  /**
   * Appending a ticket id the list did not hold and then filtering it out
   * (`add_user_ticket` then `remove_user_ticket`) restores the list.
   */
  lemma AppendThenRemove(s: seq<nat>, x: nat)
    requires x !in s
    ensures RemoveAll(s + [x], x) == s
  {
    RemoveAllAppend(s, [x], x);
    RemoveAllAbsent(s, x);
    assert RemoveAll([x], x) == [];
  }

  /**
   * The keys of `keys` below `n`, in ascending order: the order in which the
   * stable B-tree map iterates its entries.
   */
  function KeysBelow(keys: set<nat>, n: nat): seq<nat> {
    if n == 0 then [] else KeysBelow(keys, n - 1) + (if n - 1 in keys then [n - 1] else [])
  }

  /** `KeysBelow` lists exactly the keys below `n`. */
  lemma {:induction false} KeysBelowMembers(keys: set<nat>, n: nat)
    ensures forall k :: k in KeysBelow(keys, n) <==> k in keys && k < n
  {
    if n > 0 {
      KeysBelowMembers(keys, n - 1);
    }
  }

  /** `KeysBelow` lists them in strictly ascending order. */
  lemma {:induction false} KeysBelowAscending(keys: set<nat>, n: nat)
    ensures forall i, j :: 0 <= i < j < |KeysBelow(keys, n)| ==> KeysBelow(keys, n)[i] < KeysBelow(keys, n)[j]
  {
    if n > 0 {
      var below := KeysBelow(keys, n - 1);
      KeysBelowAscending(keys, n - 1);
      KeysBelowMembers(keys, n - 1);
      assert forall i :: 0 <= i < |below| ==> below[i] in below;
    }
  }

  /** `KeysBelow` lists each key once, so it is as long as the set it enumerates. */
  lemma {:induction false} KeysBelowLength(keys: set<nat>, n: nat)
    requires forall k :: k in keys ==> k < n
    ensures |KeysBelow(keys, n)| == |keys|
  {
    if n > 0 {
      var rest := keys - {n - 1};
      assert forall k :: k in rest ==> k < n - 1;
      KeysBelowLength(rest, n - 1);
      KeysBelowSame(keys, rest, n - 1);
      CardinalityStep(keys, n - 1);
    }
  }

  lemma CardinalityStep(keys: set<nat>, k: nat)
    ensures |keys| == |keys - {k}| + (if k in keys then 1 else 0)
  {
  }

  /** Two key sets that agree below `n` enumerate alike below `n`. */
  lemma {:induction false} KeysBelowSame(a: set<nat>, b: set<nat>, n: nat)
    requires forall k :: k < n ==> (k in a <==> k in b)
    ensures KeysBelow(a, n) == KeysBelow(b, n)
  {
    if n > 0 {
      KeysBelowSame(a, b, n - 1);
    }
  }

  /**
   * The map's values at `keys`, in the order of `keys`: what collecting a
   * key-ordered scan and dropping the keys yields.
   */
  function Project<T>(m: map<nat, T>, keys: seq<nat>): (r: seq<T>)
    requires forall k :: k in keys ==> k in m
    ensures |r| == |keys|
    ensures forall i :: 0 <= i < |keys| ==> r[i] == m[keys[i]]
  {
    if keys == [] then [] else [m[keys[0]]] + Project(m, keys[1..])
  }

  /**
   * Scanning an event map whose records carry their own keys, all below `n`,
   * yields every event exactly once, in strictly ascending id order.
   */
  lemma ScanInOrder(m: map<nat, Event>, n: nat)
    requires forall k :: k in m ==> k < n && m[k].id == k
    ensures forall k :: k in KeysBelow(m.Keys, n) ==> k in m
    ensures |Project(m, KeysBelow(m.Keys, n))| == |m|
    ensures InKeyOrder(m, Project(m, KeysBelow(m.Keys, n)))
  {
    var keys := KeysBelow(m.Keys, n);
    KeysBelowMembers(m.Keys, n);
    KeysBelowAscending(m.Keys, n);
    KeysBelowLength(m.Keys, n);
    ProjectInOrder(m, keys);
  }

  /**
   * `r` holds every event of `m`, holds nothing that `m` does not store
   * under its own id, and lists the events in strictly ascending id order.
   */
  ghost predicate InKeyOrder(m: map<nat, Event>, r: seq<Event>) {
    && (forall k :: k in m ==> m[k] in r)
    && (forall e :: e in r ==> e.id in m && m[e.id] == e)
    && (forall i, j :: 0 <= i < j < |r| ==> r[i].id < r[j].id)
  }

  /** Projecting through the ascending list of all keys gives the events in key order. */
  lemma ProjectInOrder(m: map<nat, Event>, keys: seq<nat>)
    requires forall k :: k in keys <==> k in m
    requires forall i, j :: 0 <= i < j < |keys| ==> keys[i] < keys[j]
    requires forall k :: k in m ==> m[k].id == k
    ensures InKeyOrder(m, Project(m, keys))
  {
    var r := Project(m, keys);
    forall k | k in m
      ensures m[k] in r
    {
      var i :| 0 <= i < |keys| && keys[i] == k;
      assert r[i] == m[k];
    }
    forall e | e in r
      ensures e.id in m && m[e.id] == e
    {
      var i :| 0 <= i < |r| && r[i] == e;
      assert keys[i] in keys;
    }
    forall i, j | 0 <= i < j < |r|
      ensures r[i].id < r[j].id
    {
      assert keys[i] in keys && keys[j] in keys;
    }
  }

  /**
   * `links[j]` is the first entry of a link list that is not a stored key:
   * the entry a link-resolving read stops at.
   */
  ghost predicate FirstMissing(links: seq<nat>, keys: set<nat>, j: int) {
    && 0 <= j < |links|
    && links[j] !in keys
    && forall i :: 0 <= i < j ==> links[i] in keys
  }
}
