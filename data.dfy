/**
 * The records of the .NET API and the database context that holds them.
 * Each table is a sequence of rows in primary-key order; each identity
 * column has a counter that supplies the key of the next inserted row.
 * Records carry exactly the fields the controllers read and write; the
 * single-precision floats of the C# models are reals here.
 */
module Data {
  import opened Wrappers
  import opened Seqs
  import opened TicketModel

  datatype User = User(
    Id: int,
    Username: Option<string>,
    Email: Option<string>,
    Password: Option<string>,
    LastActiveDate: int,
    EventsAttended: int,
    UserActivityLevel: real,
    SocialScore: real,
    PreferredEventSize: real,
    PreferredInteractivity: real,
    PreferredNoisiness: real,
    PreferredCrowdedness: real,
    Latitude: Option<real>,
    Longitude: Option<real>,
    Radius: Option<int>,
    PreferredMusicStyles: seq<string>,
    PreferredEventTypes: seq<string>)

  datatype Event = Event(
    Id: int,
    Title: Option<string>,
    Description: Option<string>,
    ImageUrl: Option<string>,
    Latitude: Option<real>,
    Longitude: Option<real>,
    OrganizerId: int,
    StartDate: int,
    EndDate: int,
    SoldTickets: int,
    MaxTickets: Option<int>,
    EventSize: real,
    Interactivity: real,
    Noisiness: real,
    Crowdedness: real,
    MusicStyles: seq<string>,
    EventType: Option<string>)

  datatype SavedEvent = SavedEvent(Id: int, UserId: int, EventId: int, CreatedAt: int)

  datatype FriendRequest = FriendRequest(Id: int, FromUserId: int, ToUserId: int, Status: string, DateCreated: int)

  datatype Friendship = Friendship(Id: int, UserId1: int, UserId2: int, FriendshipDate: int)

  /** `new Event()`: every field at its C# default (DateTime.MinValue is time 0). */
  function DefaultEvent(): (e: Event)
    ensures e.Id == 0 && e.SoldTickets == 0 && e.MaxTickets.None? && e.Title.None? && e.MusicStyles == []
  {
    Event(0, None, None, None, None, None, 0, 0, 0, 0, None, 0.0, 0.0, 0.0, 0.0, [], None)
  }

  /** The relation "strictly smaller key". */
  function KeyLess<T>(key: T -> int): (T, T) -> bool {
    (a: T, b: T) => key(a) < key(b)
  }

  /** A table whose keys increase strictly and stay below the identity counter. */
  ghost predicate Keyed<T>(s: seq<T>, key: T -> int, next: int) {
    Pairwise(s, KeyLess(key)) && (forall i :: 0 <= i < |s| ==> key(s[i]) < next)
  }

  function UserKey(u: User): int { u.Id }
  function EventKey(e: Event): int { e.Id }
  function SavedEventKey(s: SavedEvent): int { s.Id }
  function TicketKey(t: TicketRow): int { t.Id }
  function RequestKey(r: FriendRequest): int { r.Id }
  function FriendshipKey(f: Friendship): int { f.Id }

  /** Two tickets that are not held by the same owner for the same event. */
  predicate DistinctHolding(a: TicketRow, b: TicketRow) {
    !(a.OwnerId == b.OwnerId && a.EventId == b.EventId)
  }

  /** Two saved rows for different (user, event) pairs. */
  predicate DistinctSave(a: SavedEvent, b: SavedEvent) {
    !(a.UserId == b.UserId && a.EventId == b.EventId)
  }

  /** The request `r` links users `x` and `y`, in either direction. */
  predicate Between(r: FriendRequest, x: int, y: int) {
    (r.FromUserId == x && r.ToUserId == y) || (r.FromUserId == y && r.ToUserId == x)
  }

  /** Two requests between different unordered pairs of users. */
  predicate DistinctPair(a: FriendRequest, b: FriendRequest) {
    !Between(b, a.FromUserId, a.ToUserId)
  }

  /** Every ticket belongs to an existing event (the foreign key Ticket.EventId). */
  predicate EventsExist(tickets: seq<TicketRow>, events: seq<Event>) {
    forall i :: 0 <= i < |tickets| ==> HasEvent(events, tickets[i].EventId)
  }

  predicate HasEvent(events: seq<Event>, id: int) {
    exists j :: 0 <= j < |events| && events[j].Id == id
  }

  /** No event has sold more tickets than its limit. */
  predicate WithinCapacity(events: seq<Event>) {
    forall i :: 0 <= i < |events| ==>
      events[i].MaxTickets.Some? ==> events[i].SoldTickets <= events[i].MaxTickets.value
  }

  /** Key lookup (FindAsync): the row with that primary key. */
  function FindUser(users: seq<User>, id: int): (r: Option<nat>)
    ensures r.Some? ==> r.value < |users| && users[r.value].Id == id
    ensures r.None? <==> forall i :: 0 <= i < |users| ==> users[i].Id != id
  {
    IndexWhere(users, (u: User) => u.Id == id)
  }

  function FindEvent(events: seq<Event>, id: int): (r: Option<nat>)
    ensures r.Some? ==> r.value < |events| && events[r.value].Id == id
    ensures r.None? <==> forall i :: 0 <= i < |events| ==> events[i].Id != id
  {
    IndexWhere(events, (e: Event) => e.Id == id)
  }

  /** In a keyed table a key occurs at one index only. */
  lemma KeyedUnique<T>(s: seq<T>, key: T -> int, next: int, i: nat, j: nat)
    requires Keyed(s, key, next)
    requires i < |s| && j < |s| && key(s[i]) == key(s[j])
    ensures i == j
  {
  }

  /** Inserting a row with the counter's key, then advancing the counter, keeps the table keyed. */
  lemma KeyedAppend<T>(s: seq<T>, key: T -> int, next: int, x: T)
    requires Keyed(s, key, next) && key(x) == next
    ensures Keyed(s + [x], key, next + 1)
  {
    AppendPairwise(s, x, KeyLess(key));
  }

  /** Deleting rows keeps a table keyed. */
  lemma KeyedFilter<T(!new)>(s: seq<T>, key: T -> int, next: int, p: T -> bool)
    requires Keyed(s, key, next)
    ensures Keyed(Filter(s, p), key, next)
  {
    FilterPairwise(s, p, KeyLess(key));
    var r := Filter(s, p);
    forall i | 0 <= i < |r| ensures key(r[i]) < next {
      assert r[i] in s;
    }
  }

  lemma KeyedRemoveAt<T>(s: seq<T>, key: T -> int, next: int, k: nat)
    requires Keyed(s, key, next) && k < |s|
    ensures Keyed(RemoveAt(s, k), key, next)
  {
    RemoveAtPairwise(s, k, KeyLess(key));
  }

  /** Changing the non-key fields of one row keeps a table keyed. */
  lemma KeyedUpdate<T>(s: seq<T>, key: T -> int, next: int, k: nat, x: T)
    requires Keyed(s, key, next) && k < |s| && key(x) == key(s[k])
    ensures Keyed(s[k := x], key, next)
  {
    UpdatePairwise(s, k, x, KeyLess(key));
  }

  /** Changing an event's non-key fields keeps every ticket's event. */
  lemma EventsExistUpdate(tickets: seq<TicketRow>, events: seq<Event>, k: nat, e: Event)
    requires EventsExist(tickets, events) && k < |events| && e.Id == events[k].Id
    ensures EventsExist(tickets, events[k := e])
  {
    var updated := events[k := e];
    forall i | 0 <= i < |tickets| ensures HasEvent(updated, tickets[i].EventId) {
      var j :| 0 <= j < |events| && events[j].Id == tickets[i].EventId;
      assert updated[j].Id == events[j].Id;
    }
  }

  /** A new ticket for an existing event, or a new event, keeps every ticket's event. */
  lemma EventsExistAppend(tickets: seq<TicketRow>, events: seq<Event>, t: TicketRow, extra: seq<Event>)
    requires EventsExist(tickets, events)
    requires HasEvent(events, t.EventId)
    ensures EventsExist(tickets + [t], events + extra)
  {
    var all := events + extra;
    forall i | 0 <= i < |tickets + [t]| ensures HasEvent(all, (tickets + [t])[i].EventId) {
      var j :| 0 <= j < |events| && events[j].Id == (tickets + [t])[i].EventId;
      assert all[j] == events[j];
    }
  }

  /** More events keep every ticket's event. */
  lemma EventsExistGrow(tickets: seq<TicketRow>, events: seq<Event>, extra: seq<Event>)
    requires EventsExist(tickets, events)
    ensures EventsExist(tickets, events + extra)
  {
    forall i | 0 <= i < |tickets| ensures HasEvent(events + extra, tickets[i].EventId) {
      var j :| 0 <= j < |events| && events[j].Id == tickets[i].EventId;
      assert (events + extra)[j] == events[j];
    }
  }

  /** The database context: the six tables and their identity counters. */
  class EventbuddyDb {
    var users: seq<User>
    var events: seq<Event>
    var savedEvents: seq<SavedEvent>
    var tickets: seq<TicketRow>
    var friendRequests: seq<FriendRequest>
    var friendships: seq<Friendship>
    var nextUserId: int
    var nextEventId: int
    var nextSavedEventId: int
    var nextTicketId: int
    var nextRequestId: int
    var nextFriendshipId: int

    /**
     * Primary keys are unique, a user holds at most one ticket per event and
     * saves an event at most once, and at most one friend request exists per
     * unordered pair of users, and every ticket's event exists.
     */
    ghost predicate Valid()
      reads this
    {
      && Keyed(users, UserKey, nextUserId)
      && Keyed(events, EventKey, nextEventId)
      && Keyed(savedEvents, SavedEventKey, nextSavedEventId)
      && Keyed(tickets, TicketKey, nextTicketId)
      && Keyed(friendRequests, RequestKey, nextRequestId)
      && Keyed(friendships, FriendshipKey, nextFriendshipId)
      && Pairwise(tickets, DistinctHolding)
      && Pairwise(savedEvents, DistinctSave)
      && Pairwise(friendRequests, DistinctPair)
      && EventsExist(tickets, events)
    }

    /** An empty database; identity columns start at 1. */
    constructor ()
      ensures Valid()
      ensures users == [] && events == [] && savedEvents == [] && tickets == []
      ensures friendRequests == [] && friendships == []
      ensures nextTicketId == 1
    {
      users, events, savedEvents, tickets, friendRequests, friendships := [], [], [], [], [], [];
      nextUserId, nextEventId, nextSavedEventId := 1, 1, 1;
      nextTicketId, nextRequestId, nextFriendshipId := 1, 1, 1;
    }
  }
}
