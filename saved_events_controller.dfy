/**
 * SavedEventsController: the save / unsave toggle of an event for a user and
 * the list of a user's saved events joined with the event rows.
 */
module SavedEventsController {
  import opened Wrappers
  import opened Http
  import opened Seqs
  import opened Data

  function SavedBy(userId: int, eventId: int): SavedEvent -> bool {
    (s: SavedEvent) => s.UserId == userId && s.EventId == eventId
  }

  /** The user has saved the event. */
  predicate IsSaved(saved: seq<SavedEvent>, userId: int, eventId: int) {
    Any(saved, SavedBy(userId, eventId))
  }

  /**
   * ChangeSavedStatus: deletes the user's saved row for the event when there is
   * one ("Unsaved"), otherwise adds one ("Saved"). The saved state of the pair
   * flips and the rows of every other (user, event) pair stay as they were.
   */
  method ChangeSavedStatus(db: EventbuddyDb, eventId: int, userId: int, now: int) returns (r: Response<()>)
    requires db.Valid()
    modifies db
    ensures db.Valid()
    ensures IsSaved(db.savedEvents, userId, eventId) == !old(IsSaved(db.savedEvents, userId, eventId))
    ensures r == Ok(if old(IsSaved(db.savedEvents, userId, eventId)) then "Unsaved" else "Saved", ())
    ensures forall s :: !SavedBy(userId, eventId)(s) ==> (s in db.savedEvents <==> s in old(db.savedEvents))
    ensures !old(IsSaved(db.savedEvents, userId, eventId)) ==>
              db.savedEvents == old(db.savedEvents) + [SavedEvent(old(db.nextSavedEventId), userId, eventId, now)]
    ensures old(IsSaved(db.savedEvents, userId, eventId)) ==>
              |db.savedEvents| == |old(db.savedEvents)| - 1
    ensures db.users == old(db.users) && db.events == old(db.events) && db.tickets == old(db.tickets)
    ensures db.friendRequests == old(db.friendRequests) && db.friendships == old(db.friendships)
    ensures db.nextSavedEventId == old(db.nextSavedEventId) + (if old(IsSaved(db.savedEvents, userId, eventId)) then 0 else 1)
    ensures db.nextUserId == old(db.nextUserId) && db.nextEventId == old(db.nextEventId)
    ensures db.nextTicketId == old(db.nextTicketId) && db.nextRequestId == old(db.nextRequestId)
    ensures db.nextFriendshipId == old(db.nextFriendshipId)
  {
    var found := IndexWhere(db.savedEvents, SavedBy(userId, eventId));
    if found.Some? {
      Unsave(db, found.value);
      r := Ok("Unsaved", ());
    } else {
      var row := SavedEvent(db.nextSavedEventId, userId, eventId, now);
      AppendPairwise(db.savedEvents, row, DistinctSave);
      KeyedAppend(db.savedEvents, SavedEventKey, db.nextSavedEventId, row);
      db.savedEvents := db.savedEvents + [row];
      db.nextSavedEventId := db.nextSavedEventId + 1;
      assert db.savedEvents[|db.savedEvents| - 1] == row;
      r := Ok("Saved", ());
    }
  }

  /** Deleting the one saved row of a pair leaves that pair unsaved. */
  method Unsave(db: EventbuddyDb, k: nat)
    requires db.Valid() && k < |db.savedEvents|
    modifies db
    ensures db.Valid()
    ensures db.savedEvents == RemoveAt(old(db.savedEvents), k)
    ensures !IsSaved(db.savedEvents, old(db.savedEvents)[k].UserId, old(db.savedEvents)[k].EventId)
    ensures forall s :: !SavedBy(old(db.savedEvents)[k].UserId, old(db.savedEvents)[k].EventId)(s) ==>
              (s in db.savedEvents <==> s in old(db.savedEvents))
    ensures db.users == old(db.users) && db.events == old(db.events) && db.tickets == old(db.tickets)
    ensures db.friendRequests == old(db.friendRequests) && db.friendships == old(db.friendships)
    ensures db.nextUserId == old(db.nextUserId) && db.nextEventId == old(db.nextEventId)
    ensures db.nextSavedEventId == old(db.nextSavedEventId) && db.nextTicketId == old(db.nextTicketId)
    ensures db.nextRequestId == old(db.nextRequestId) && db.nextFriendshipId == old(db.nextFriendshipId)
  {
    var x := db.savedEvents[k];
    var rest := RemoveAt(db.savedEvents, k);
    forall i | 0 <= i < |rest| ensures !SavedBy(x.UserId, x.EventId)(rest[i]) {
      if i < k {
        assert DistinctSave(db.savedEvents[i], x);
      } else {
        assert rest[i] == db.savedEvents[i + 1];
        assert DistinctSave(x, db.savedEvents[i + 1]);
      }
    }
    forall s | !SavedBy(x.UserId, x.EventId)(s) ensures s in rest <==> s in db.savedEvents {
      if s in db.savedEvents {
        var i :| 0 <= i < |db.savedEvents| && db.savedEvents[i] == s;
        assert i != k;
        assert s == rest[if i < k then i else i - 1];
      }
    }
    RemoveAtPairwise(db.savedEvents, k, DistinctSave);
    KeyedRemoveAt(db.savedEvents, SavedEventKey, db.nextSavedEventId, k);
    db.savedEvents := rest;
  }

  /** Toggling twice restores whether the pair is saved and every other pair's rows. */
  method ToggleTwice(db: EventbuddyDb, eventId: int, userId: int, now: int, later: int)
    returns (first: Response<()>, second: Response<()>)
    requires db.Valid()
    modifies db
    ensures db.Valid()
    ensures IsSaved(db.savedEvents, userId, eventId) == old(IsSaved(db.savedEvents, userId, eventId))
    ensures forall s :: !SavedBy(userId, eventId)(s) ==> (s in db.savedEvents <==> s in old(db.savedEvents))
    ensures first.info != second.info
    ensures db.nextUserId == old(db.nextUserId) && db.nextEventId == old(db.nextEventId)
    ensures db.nextTicketId == old(db.nextTicketId) && db.nextRequestId == old(db.nextRequestId)
    ensures db.nextFriendshipId == old(db.nextFriendshipId)
  {
    first := ChangeSavedStatus(db, eventId, userId, now);
    second := ChangeSavedStatus(db, eventId, userId, later);
  }

  /** One entry of a user's saved-event list. */
  datatype SavedEntry = SavedEntry(
    Id: int, Title: Option<string>, ImageUrl: Option<string>, Description: Option<string>,
    StartDate: int, EndDate: int, Longitude: Option<real>, Latitude: Option<real>, OrganizerId: int,
    EventSaved: bool, SavedAmount: nat)

  function ForEvent(eventId: int): SavedEvent -> bool {
    (s: SavedEvent) => s.EventId == eventId
  }

  /** The projected event with its EventSaved flag and its save count over all users. */
  function EntryOf(e: Event, saved: seq<SavedEvent>, userId: int): SavedEntry {
    SavedEntry(e.Id, e.Title, e.ImageUrl, e.Description, e.StartDate, e.EndDate, e.Longitude, e.Latitude,
               e.OrganizerId, IsSaved(saved, userId, e.Id), Count(saved, ForEvent(e.Id)))
  }

  /** The join rows of one event: one entry per saved row of the user for it. */
  function JoinRows(saved: seq<SavedEvent>, userId: int): Event -> seq<SavedEntry> {
    (e: Event) => MapSeq(Filter(saved, SavedBy(userId, e.Id)), (_: SavedEvent) => EntryOf(e, saved, userId))
  }

  /** Every joined row is the entry of an event the user saved. */
  lemma JoinRowsSound(events: seq<Event>, saved: seq<SavedEvent>, userId: int)
    ensures forall v :: v in FlatMap(events, JoinRows(saved, userId)) ==>
              exists e :: e in events && IsSaved(saved, userId, e.Id) && v == EntryOf(e, saved, userId)
  {
    var rows := FlatMap(events, JoinRows(saved, userId));
    forall v | v in rows
      ensures exists e :: e in events && IsSaved(saved, userId, e.Id) && v == EntryOf(e, saved, userId)
    {
      var i :| 0 <= i < |events| && v in JoinRows(saved, userId)(events[i]);
      var kept := Filter(saved, SavedBy(userId, events[i].Id));
      var j :| 0 <= j < |kept| && v == EntryOf(events[i], saved, userId);
      assert kept[j] in saved;
    }
  }

  /** Every event the user saved has its entry among the joined rows. */
  lemma JoinRowsComplete(events: seq<Event>, saved: seq<SavedEvent>, userId: int)
    ensures forall e :: e in events && IsSaved(saved, userId, e.Id) ==>
              EntryOf(e, saved, userId) in FlatMap(events, JoinRows(saved, userId))
  {
    forall e | e in events && IsSaved(saved, userId, e.Id)
      ensures EntryOf(e, saved, userId) in FlatMap(events, JoinRows(saved, userId))
    {
      var i :| 0 <= i < |events| && events[i] == e;
      var j :| 0 <= j < |saved| && SavedBy(userId, e.Id)(saved[j]);
      var kept := Filter(saved, SavedBy(userId, e.Id));
      assert saved[j] in kept;
      assert JoinRows(saved, userId)(e)[0] == EntryOf(e, saved, userId);
    }
  }

  /** The size of the join: for each event, the number of the user's saved rows for it. */
  function JoinSize(events: seq<Event>, saved: seq<SavedEvent>, userId: int): nat {
    if events == [] then 0
    else Count(saved, SavedBy(userId, events[0].Id)) + JoinSize(events[1..], saved, userId)
  }

  /** The join has one row per pair of an event and a saved row of the user for it. */
  lemma {:induction false} JoinRowsSize(events: seq<Event>, saved: seq<SavedEvent>, userId: int)
    ensures |FlatMap(events, JoinRows(saved, userId))| == JoinSize(events, saved, userId)
  {
    if events != [] {
      JoinRowsSize(events[1..], saved, userId);
      CountIsFilterLength(saved, SavedBy(userId, events[0].Id));
    }
  }

  function SavedByUser(saved: seq<SavedEvent>, userId: int): Event -> bool {
    (e: Event) => IsSaved(saved, userId, e.Id)
  }

  /** With at most one saved row per (user, event) pair, a pair's rows number one when it is saved and none otherwise. */
  lemma {:induction false} AtMostOneSave(saved: seq<SavedEvent>, userId: int, eventId: int)
    requires Pairwise(saved, DistinctSave)
    ensures Count(saved, SavedBy(userId, eventId)) == if IsSaved(saved, userId, eventId) then 1 else 0
  {
    if saved != [] {
      var tail := saved[1..];
      assert Pairwise(tail, DistinctSave) by {
        forall i, j | 0 <= i < j < |tail| ensures DistinctSave(tail[i], tail[j]) {
          assert tail[i] == saved[i + 1] && tail[j] == saved[j + 1];
        }
      }
      AtMostOneSave(tail, userId, eventId);
      if SavedBy(userId, eventId)(saved[0]) {
        forall i | 0 <= i < |tail| ensures !SavedBy(userId, eventId)(tail[i]) {
          assert DistinctSave(saved[0], saved[i + 1]);
        }
      } else if IsSaved(saved, userId, eventId) {
        var i :| 0 <= i < |saved| && SavedBy(userId, eventId)(saved[i]);
        assert tail[i - 1] == saved[i];
      } else {
        assert forall i :: 0 <= i < |tail| ==> tail[i] == saved[i + 1];
      }
    }
  }

  /**
   * Under the table's one-row-per-pair invariant, the join has exactly one
   * row per event the user saved.
   */
  lemma {:induction false} OneEntryPerSavedEvent(events: seq<Event>, saved: seq<SavedEvent>, userId: int)
    requires Pairwise(saved, DistinctSave)
    ensures JoinSize(events, saved, userId) == Count(events, SavedByUser(saved, userId))
  {
    if events != [] {
      AtMostOneSave(saved, userId, events[0].Id);
      OneEntryPerSavedEvent(events[1..], saved, userId);
    }
  }

  /**
   * GetSavedEventsByUser: the join of events with the user's saved rows. It
   * always answers Ok (an empty list when nothing is saved); every entry is
   * flagged as saved and carries the event's save count over all users.
   */
  function GetSavedEventsByUser(events: seq<Event>, saved: seq<SavedEvent>, userId: int): (r: Response<seq<SavedEntry>>)
    ensures r.Ok? && r.info == ""
    ensures forall v :: v in r.payload ==> v.EventSaved
    ensures forall v :: v in r.payload ==>
              exists e :: e in events && IsSaved(saved, userId, e.Id) && v == EntryOf(e, saved, userId)
    ensures forall e :: e in events && IsSaved(saved, userId, e.Id) ==> EntryOf(e, saved, userId) in r.payload
    ensures forall v :: v in r.payload ==> v.SavedAmount == Count(saved, ForEvent(v.Id))
    ensures |r.payload| == JoinSize(events, saved, userId)
    ensures Pairwise(saved, DistinctSave) ==> |r.payload| == Count(events, SavedByUser(saved, userId))
  {
    var rows := FlatMap(events, JoinRows(saved, userId));
    JoinRowsSound(events, saved, userId);
    JoinRowsComplete(events, saved, userId);
    JoinRowsSize(events, saved, userId);
    assert Pairwise(saved, DistinctSave) ==> |rows| == Count(events, SavedByUser(saved, userId)) by {
      if Pairwise(saved, DistinctSave) {
        OneEntryPerSavedEvent(events, saved, userId);
      }
    }
    Ok("", rows)
  }
}
