/**
 * TicketsController: listing a user's tickets, buying a ticket and admitting
 * a ticket at the door. Each endpoint runs as one atomic request against the
 * database context.
 */
module TicketsController {
  import opened Wrappers
  import opened Http
  import opened Seqs
  import opened TicketModel
  import opened Data

  /** The event fields shown with a ticket. */
  datatype EventSummary = EventSummary(
    Id: int, Title: Option<string>, ImageUrl: Option<string>, Description: Option<string>,
    StartDate: int, EndDate: int)

  /** One entry of a user's ticket list. */
  datatype TicketView = TicketView(TicketId: int, CreatedAt: int, IsValid: bool, QRCode: Option<string>, Event: EventSummary)

  /** The ticket as listed, joined with its event. */
  function ViewOf(t: TicketRow, events: seq<Event>): (v: TicketView)
    requires HasEvent(events, t.EventId)
    ensures v.TicketId == t.Id && v.Event.Id == t.EventId && v.QRCode == t.QRCode && v.IsValid == t.IsValid
  {
    var e := events[FindEvent(events, t.EventId).value];
    TicketView(t.Id, t.CreatedAt, t.IsValid, t.QRCode,
               EventSummary(e.Id, e.Title, e.ImageUrl, e.Description, e.StartDate, e.EndDate))
  }

  function OwnedBy(userId: int): TicketRow -> bool {
    (t: TicketRow) => t.OwnerId == userId
  }

  /** The listed form of each ticket, in order. */
  function ViewsOf(ts: seq<TicketRow>, events: seq<Event>): (vs: seq<TicketView>)
    requires EventsExist(ts, events)
    ensures |vs| == |ts|
    ensures forall i :: 0 <= i < |ts| ==> vs[i] == ViewOf(ts[i], events)
  {
    if ts == [] then [] else [ViewOf(ts[0], events)] + ViewsOf(ts[1..], events)
  }

  /** GetUserTickets: every ticket the user owns, with its event; Ok in both cases. */
  function GetUserTickets(tickets: seq<TicketRow>, events: seq<Event>, userId: int): (r: Response<seq<TicketView>>)
    requires EventsExist(tickets, events)
    ensures r.Ok?
    ensures |r.payload| == Count(tickets, OwnedBy(userId))
    ensures r.info == if r.payload == [] then "User has no Tickets" else "Tickets for user found"
    ensures forall t :: t in tickets && t.OwnerId == userId ==> ViewOf(t, events) in r.payload
    ensures forall v :: v in r.payload ==> exists t :: t in tickets && t.OwnerId == userId && v == ViewOf(t, events)
  {
    var owned := Filter(tickets, OwnedBy(userId));
    CountIsFilterLength(tickets, OwnedBy(userId));
    assert EventsExist(owned, events) by {
      forall i | 0 <= i < |owned| ensures HasEvent(events, owned[i].EventId) {
        assert owned[i] in tickets;
      }
    }
    var views := ViewsOf(owned, events);
    forall t | t in tickets && t.OwnerId == userId ensures ViewOf(t, events) in views {
      assert t in owned;
      var i :| 0 <= i < |owned| && owned[i] == t;
      assert views[i] == ViewOf(t, events);
    }
    if views == [] then Ok("User has no Tickets", []) else Ok("Tickets for user found", views)
  }

  /** The user already holds a ticket for the event. */
  predicate Holds(tickets: seq<TicketRow>, userId: int, eventId: int) {
    exists i :: 0 <= i < |tickets| && tickets[i].OwnerId == userId && tickets[i].EventId == eventId
  }

  /** Sold out: a limit is set and reached. A missing limit never sells out. */
  predicate SoldOut(e: Event) {
    e.MaxTickets.Some? && e.SoldTickets >= e.MaxTickets.value
  }

  /**
   * PurchaseTicket. The guards run in this order: an existing ticket of the
   * user for the event, a missing user, a missing event, a sold-out event.
   * Any rejection leaves the database untouched; a purchase appends one ticket
   * and adds one to the event's SoldTickets. The QR code and seal are computed
   * before the database assigns the ticket's Id, so they are taken over Id 0.
   */
  method PurchaseTicket(db: EventbuddyDb, userId: int, eventId: int, now: int, guid: int,
                        crypto: TicketCrypto, ticks: int)
    returns (r: Response<TicketRow>)
    requires db.Valid()
    modifies db
    ensures db.Valid()
    ensures old(WithinCapacity(db.events)) ==> WithinCapacity(db.events)
    ensures r == BadRequest("Ticket already bought") <==> Holds(old(db.tickets), userId, eventId)
    ensures r == NotFound("User not found") <==>
              !Holds(old(db.tickets), userId, eventId) && FindUser(db.users, userId).None?
    ensures r == NotFound("Event not found") <==>
              !Holds(old(db.tickets), userId, eventId) && FindUser(db.users, userId).Some? &&
              FindEvent(old(db.events), eventId).None?
    ensures r.BadRequest? && r.info == "Event sold out" <==>
              !Holds(old(db.tickets), userId, eventId) && FindUser(db.users, userId).Some? &&
              FindEvent(old(db.events), eventId).Some? &&
              SoldOut(old(db.events)[FindEvent(old(db.events), eventId).value])
    ensures r.Ok? <==>
              !Holds(old(db.tickets), userId, eventId) && FindUser(db.users, userId).Some? &&
              FindEvent(old(db.events), eventId).Some? &&
              !SoldOut(old(db.events)[FindEvent(old(db.events), eventId).value])
    ensures !r.Ok? ==> db.tickets == old(db.tickets) && db.events == old(db.events) && db.nextTicketId == old(db.nextTicketId)
    ensures r.Ok? ==>
              var k := FindEvent(old(db.events), eventId).value;
              && r.payload == WithQRCode(FreshTicket(userId, eventId, now, guid), crypto, ticks).(Id := old(db.nextTicketId))
              && db.tickets == old(db.tickets) + [r.payload]
              && db.events == old(db.events)[k := old(db.events)[k].(SoldTickets := old(db.events)[k].SoldTickets + 1)]
              && db.nextTicketId == old(db.nextTicketId) + 1
    ensures db.users == old(db.users) && db.savedEvents == old(db.savedEvents)
    ensures db.friendRequests == old(db.friendRequests) && db.friendships == old(db.friendships)
    ensures db.nextUserId == old(db.nextUserId) && db.nextEventId == old(db.nextEventId)
    ensures db.nextSavedEventId == old(db.nextSavedEventId) && db.nextRequestId == old(db.nextRequestId)
    ensures db.nextFriendshipId == old(db.nextFriendshipId)
  {
    var prev := IndexWhere(db.tickets, (t: TicketRow) => t.OwnerId == userId && t.EventId == eventId);
    if prev.Some? {
      return BadRequest("Ticket already bought");
    }
    var user := FindUser(db.users, userId);
    if user.None? {
      return NotFound("User not found");
    }
    var found := FindEvent(db.events, eventId);
    if found.None? {
      return NotFound("Event not found");
    }
    var k := found.value;
    var e := db.events[k];
    if e.SoldTickets >= e.MaxTickets.GetOr(0) && e.MaxTickets.Some? {
      return BadRequest("Event sold out");
    }
    r := Issue(db, k, userId, eventId, now, guid, crypto, ticks);
  }

  /** The successful branch of PurchaseTicket: store the new ticket and count it as sold. */
  /** Selling one more ticket of an event that is not sold out keeps every event within its capacity. */
  lemma SellKeepsCapacity(events: seq<Event>, k: nat)
    requires k < |events| && !SoldOut(events[k])
    ensures WithinCapacity(events) ==> WithinCapacity(events[k := events[k].(SoldTickets := events[k].SoldTickets + 1)])
  {
  }

  method Issue(db: EventbuddyDb, k: nat, userId: int, eventId: int, now: int, guid: int,
               crypto: TicketCrypto, ticks: int)
    returns (r: Response<TicketRow>)
    requires db.Valid() && k < |db.events| && db.events[k].Id == eventId
    requires !Holds(db.tickets, userId, eventId) && !SoldOut(db.events[k])
    modifies db
    ensures db.Valid()
    ensures old(WithinCapacity(db.events)) ==> WithinCapacity(db.events)
    ensures r.Ok? && r.info == "Ticket purchased"
    ensures r.payload == WithQRCode(FreshTicket(userId, eventId, now, guid), crypto, ticks).(Id := old(db.nextTicketId))
    ensures db.tickets == old(db.tickets) + [r.payload]
    ensures db.events == old(db.events)[k := old(db.events)[k].(SoldTickets := old(db.events)[k].SoldTickets + 1)]
    ensures db.nextTicketId == old(db.nextTicketId) + 1
    ensures db.users == old(db.users) && db.savedEvents == old(db.savedEvents)
    ensures db.friendRequests == old(db.friendRequests) && db.friendships == old(db.friendships)
    ensures db.nextUserId == old(db.nextUserId) && db.nextEventId == old(db.nextEventId)
    ensures db.nextSavedEventId == old(db.nextSavedEventId) && db.nextRequestId == old(db.nextRequestId)
    ensures db.nextFriendshipId == old(db.nextFriendshipId)
  {
    var e := db.events[k];
    var ticket := new Ticket(userId, eventId, now, guid);
    ticket.GenerateQRCode(crypto, ticks);
    // SaveChanges assigns the identity key.
    var row := ticket.Row().(Id := db.nextTicketId);
    AppendPairwise(db.tickets, row, DistinctHolding);
    KeyedAppend(db.tickets, TicketKey, db.nextTicketId, row);
    KeyedUpdate(db.events, EventKey, db.nextEventId, k, e.(SoldTickets := e.SoldTickets + 1));
    EventsExistAppend(db.tickets, db.events, row, []);
    assert db.events + [] == db.events;
    EventsExistUpdate(db.tickets + [row], db.events, k, e.(SoldTickets := e.SoldTickets + 1));
    SellKeepsCapacity(db.events, k);
    db.tickets, db.nextTicketId, db.events :=
      db.tickets + [row], db.nextTicketId + 1, db.events[k := e.(SoldTickets := e.SoldTickets + 1)];
    r := Ok("Ticket purchased", row);
  }

  /** The door check of one ticket: None admits it, otherwise the rejection. */
  function Admission(t: TicketRow): (r: Option<string>)
    ensures r.None? <==> t.IsValid && t.UsedAt.None?
  {
    if !t.IsValid then Some("Ticket is no longer valid")
    else if t.UsedAt.Some? then Some("Ticket has already been used")
    else None
  }

  /** A used ticket that is resold is valid again but still rejected at the door. */
  lemma ResoldUsedTicketRejected(t: TicketRow, newOwnerId: int, now: int, newIdentifier: int,
                                 crypto: TicketCrypto, ticks: int)
    requires t.UsedAt.Some?
    ensures Resold(t, newOwnerId, now, newIdentifier, crypto, ticks).IsValid
    ensures Admission(Resold(t, newOwnerId, now, newIdentifier, crypto, ticks)) == Some("Ticket has already been used")
  {
  }

  function WithCode(qrCode: Option<string>): TicketRow -> bool {
    (t: TicketRow) => t.QRCode == qrCode
  }

  /**
   * VerifyTicket: finds the first ticket with the QR code; an unknown code is
   * NotFound, an invalid or used ticket is BadRequest, and an admitted ticket
   * is marked used at `now` and invalid.
   */
  method VerifyTicket(db: EventbuddyDb, qrCode: Option<string>, now: int) returns (r: Response<()>)
    requires db.Valid()
    modifies db
    ensures db.Valid()
    ensures IndexWhere(old(db.tickets), WithCode(qrCode)).None? ==>
              r == NotFound("Ticket not found") && db.tickets == old(db.tickets)
    ensures IndexWhere(old(db.tickets), WithCode(qrCode)).Some? ==>
              var k := IndexWhere(old(db.tickets), WithCode(qrCode)).value;
              var t := old(db.tickets)[k];
              match Admission(t)
              case Some(reason) => r == BadRequest(reason) && db.tickets == old(db.tickets)
              case None =>
                && r == Ok("Ticket has been activated", ())
                && db.tickets == old(db.tickets)[k := t.(UsedAt := Some(now), IsValid := false)]
    ensures db.users == old(db.users) && db.events == old(db.events) && db.savedEvents == old(db.savedEvents)
    ensures db.friendRequests == old(db.friendRequests) && db.friendships == old(db.friendships)
    ensures db.nextUserId == old(db.nextUserId) && db.nextEventId == old(db.nextEventId)
    ensures db.nextSavedEventId == old(db.nextSavedEventId) && db.nextTicketId == old(db.nextTicketId)
    ensures db.nextRequestId == old(db.nextRequestId) && db.nextFriendshipId == old(db.nextFriendshipId)
  {
    var found := IndexWhere(db.tickets, WithCode(qrCode));
    if found.None? {
      return NotFound("Ticket not found");
    }
    var k := found.value;
    var t := db.tickets[k];
    if !t.IsValid {
      return BadRequest("Ticket is no longer valid");
    }
    if t.UsedAt.Some? {
      return BadRequest("Ticket has already been used");
    }
    var used := t.(UsedAt := Some(now), IsValid := false);
    KeyedUpdate(db.tickets, TicketKey, db.nextTicketId, k, used);
    UpdatePairwise(db.tickets, k, used, DistinctHolding);
    db.tickets := db.tickets[k := used];
    r := Ok("Ticket has been activated", ());
  }

  /** Admission is one-shot: presenting an admitted QR code again is refused as no longer valid. */
  method VerifyTwice(db: EventbuddyDb, qrCode: Option<string>, now: int, later: int)
    returns (first: Response<()>, second: Response<()>)
    requires db.Valid()
    modifies db
    ensures first.Ok? ==> second == BadRequest("Ticket is no longer valid")
    ensures db.nextUserId == old(db.nextUserId) && db.nextEventId == old(db.nextEventId)
    ensures db.nextSavedEventId == old(db.nextSavedEventId) && db.nextTicketId == old(db.nextTicketId)
    ensures db.nextRequestId == old(db.nextRequestId) && db.nextFriendshipId == old(db.nextFriendshipId)
  {
    first := VerifyTicket(db, qrCode, now);
    ghost var k := IndexWhere(old(db.tickets), WithCode(qrCode));
    if first.Ok? {
      var t := old(db.tickets)[k.value];
      IndexWhereUpdate(old(db.tickets), WithCode(qrCode), k.value, t.(UsedAt := Some(now), IsValid := false));
    }
    second := VerifyTicket(db, qrCode, later);
  }
}
