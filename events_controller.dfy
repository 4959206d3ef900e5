/**
 * EventsController: the personalised event list (future events ranked by a
 * match score, at most 50), the discrete terms of the match score, lookup by
 * id, and posting an event. The float terms of the score — the four
 * (1 - |a - b|) * 10 comparisons and the activity and social weights — are one
 * function parameter `continuous`.
 */
module EventsController {
  import opened Wrappers
  import opened Http
  import opened Seqs
  import opened Sorting
  import opened Data
  import SavedEventsController

  /** Enumerable.Intersect: the distinct elements of `a` that occur in `b`, in `a`'s order, skipping `seen`. */
  function IntersectFrom(a: seq<string>, b: seq<string>, seen: set<string>): (r: seq<string>)
    ensures forall x :: x in r <==> x in a && x in b && x !in seen
    ensures forall i, j :: 0 <= i < j < |r| ==> r[i] != r[j]
  {
    if a == [] then []
    else if a[0] in b && a[0] !in seen then
      var rest := IntersectFrom(a[1..], b, seen + {a[0]});
      assert forall x :: x in a <==> x == a[0] || x in a[1..];
      [a[0]] + rest
    else
      assert forall x :: x in a && x !in seen ==> x == a[0] || x in a[1..];
      IntersectFrom(a[1..], b, seen)
  }

  function Intersect(a: seq<string>, b: seq<string>): (r: seq<string>)
    ensures forall x :: x in r <==> x in a && x in b
  {
    IntersectFrom(a, b, {})
  }

  /** A sequence without repetitions has as many elements as its set. */
  lemma {:induction false} DistinctCardinality(s: seq<string>)
    requires forall i, j :: 0 <= i < j < |s| ==> s[i] != s[j]
    ensures |set x | x in s| == |s|
  {
    if s != [] {
      var tail := s[1..];
      DistinctCardinality(tail);
      assert s[0] !in tail by {
        forall j | 0 <= j < |tail| ensures tail[j] != s[0] {
          assert tail[j] == s[j + 1];
        }
      }
      assert (set x | x in s) == (set x | x in tail) + {s[0]};
    }
  }

  /** The music term: 5 points per distinct style the event and the user share. */
  function MusicTerm(e: Event, u: User): (n: nat)
    ensures n == 5 * |(set x | x in e.MusicStyles) * (set x | x in u.PreferredMusicStyles)|
  {
    var shared := Intersect(e.MusicStyles, u.PreferredMusicStyles);
    DistinctCardinality(shared);
    assert (set x | x in shared) == (set x | x in e.MusicStyles) * (set x | x in u.PreferredMusicStyles);
    5 * |shared|
  }

  /** The event-type term: 20 when the user prefers the event's type, else 0. */
  function TypeTerm(e: Event, u: User): (n: nat)
    ensures n == 20 <==> e.EventType.Some? && e.EventType.value in u.PreferredEventTypes
    ensures n == 0 || n == 20
  {
    if e.EventType.Some? && e.EventType.value in u.PreferredEventTypes then 20 else 0
  }

  /** The attendance term: Math.Min(EventsAttended, 10) * 2. */
  function AttendanceTerm(u: User): (n: int)
    ensures n <= 20
    ensures u.EventsAttended >= 10 ==> n == 20
    ensures u.EventsAttended <= 10 ==> n == 2 * u.EventsAttended
  {
    (if u.EventsAttended < 10 then u.EventsAttended else 10) * 2
  }

  /** CalculateMatchScore: the float terms plus the three discrete terms. */
  function MatchScore(e: Event, u: User, continuous: (Event, User) -> real): (s: real)
    ensures s <= continuous(e, u) + (5 * |(set x | x in e.MusicStyles) * (set x | x in u.PreferredMusicStyles)| + 40) as real
  {
    continuous(e, u) + (MusicTerm(e, u) + TypeTerm(e, u) + AttendanceTerm(u)) as real
  }

  /** An event with its score. */
  datatype Scored = Scored(event: Event, score: real)

  function ScoredBy(u: User, continuous: (Event, User) -> real): Event -> Scored {
    (e: Event) => Scored(e, MatchScore(e, u, continuous))
  }

  function StartsAfter(now: int): Event -> bool {
    (e: Event) => e.StartDate > now
  }

  /** OrderByDescending(MatchScore): a may precede b when its score is at least b's. */
  function ByScoreDescending(): (Scored, Scored) -> bool {
    (a: Scored, b: Scored) => a.score >= b.score
  }

  lemma ByScoreDescendingIsPreorder()
    ensures TotalPreorder(ByScoreDescending())
  {
  }

  /** The scored future events, before ordering. */
  function Candidates(events: seq<Event>, u: User, now: int, continuous: (Event, User) -> real): (c: seq<Scored>)
    ensures forall x :: x in c ==> x.event in events && x.event.StartDate > now && x.score == MatchScore(x.event, u, continuous)
    ensures forall e :: e in events && e.StartDate > now ==> Scored(e, MatchScore(e, u, continuous)) in c
    ensures |c| == Count(events, StartsAfter(now))
  {
    MapFilter(events, StartsAfter(now), ScoredBy(u, continuous))
  }

  /**
   * The ranking: future events by score, highest first, at most 50. Every
   * future event that is left out scores no higher than any that is kept.
   */
  function Ranking(events: seq<Event>, u: User, now: int, continuous: (Event, User) -> real): (r: seq<Scored>)
    ensures |r| <= 50
    ensures |r| == if Count(events, StartsAfter(now)) < 50 then Count(events, StartsAfter(now)) else 50
    ensures forall i, j :: 0 <= i < j < |r| ==> r[i].score >= r[j].score
    ensures forall x :: x in r ==> x in Candidates(events, u, now, continuous)
    ensures forall x :: x in Candidates(events, u, now, continuous) && x !in r ==>
              forall i :: 0 <= i < |r| ==> r[i].score >= x.score
  {
    var c := Candidates(events, u, now, continuous);
    ByScoreDescendingIsPreorder();
    TopBy(c, ByScoreDescending(), 50)
  }

  /** One entry of the personalised list. */
  datatype RankedEvent = RankedEvent(
    Id: int, Title: Option<string>, Description: Option<string>, StartDate: int, EndDate: int,
    EventSaved: bool, SavedAmount: nat, MatchScore: real)

  function Listed(saved: seq<SavedEvent>, userId: int): Scored -> RankedEvent {
    (x: Scored) =>
      RankedEvent(x.event.Id, x.event.Title, x.event.Description, x.event.StartDate, x.event.EndDate,
                  SavedEventsController.IsSaved(saved, userId, x.event.Id),
                  Count(saved, SavedEventsController.ForEvent(x.event.Id)), x.score)
  }

  /** The ranking as listed for the user: at most 50 future events, by score, highest first. */
  function RankedList(events: seq<Event>, u: User, saved: seq<SavedEvent>, userId: int, now: int,
                      continuous: (Event, User) -> real): (l: seq<RankedEvent>)
    ensures |l| == |Ranking(events, u, now, continuous)| <= 50
    ensures forall i, j :: 0 <= i < j < |l| ==> l[i].MatchScore >= l[j].MatchScore
    ensures forall i :: 0 <= i < |l| ==> l[i].StartDate > now
    ensures forall i :: 0 <= i < |l| ==> l[i].EventSaved == SavedEventsController.IsSaved(saved, userId, l[i].Id)
    ensures forall i :: 0 <= i < |l| ==> l[i] == Listed(saved, userId)(Ranking(events, u, now, continuous)[i])
  {
    var ranked := Ranking(events, u, now, continuous);
    assert forall i :: 0 <= i < |ranked| ==> ranked[i] in ranked;
    MapSeq(ranked, Listed(saved, userId))
  }

  /**
   * GetEventsForUserID: NotFound "User not found" for an unknown user,
   * NotFound "No events found" when no event lies in the future, otherwise the
   * ranked list with each event's saved flag for this user and its save count.
   */
  function GetEventsForUserID(users: seq<User>, events: seq<Event>, saved: seq<SavedEvent>, userId: int, now: int,
                              continuous: (Event, User) -> real): (r: Response<seq<RankedEvent>>)
    ensures FindUser(users, userId).None? ==> r == NotFound("User not found")
    ensures FindUser(users, userId).Some? ==>
              var list := RankedList(events, users[FindUser(users, userId).value], saved, userId, now, continuous);
              r == if list == [] then NotFound("No events found") else Ok("", list)
    ensures FindUser(users, userId).Some? ==> (r.NotFound? <==> Count(events, StartsAfter(now)) == 0)
  {
    match FindUser(users, userId)
    case None => NotFound("User not found")
    case Some(k) =>
      var list := RankedList(events, users[k], saved, userId, now, continuous);
      if list == [] then NotFound("No events found") else Ok("", list)
  }

  function WithId(id: int): Event -> bool {
    (e: Event) => e.Id == id
  }

  /** GetEventByID: the first event with that id, or NotFound. */
  function GetEventByID(events: seq<Event>, id: int): (r: Response<Event>)
    ensures r.NotFound? <==> forall i :: 0 <= i < |events| ==> events[i].Id != id
    ensures r.Ok? ==> r.payload in events && r.payload.Id == id
    ensures r.Ok? || r.NotFound?
  {
    match IndexWhere(events, WithId(id))
    case None => NotFound("")
    case Some(k) => Ok("", events[k])
  }

  /** PostEvent: stores the posted event under the next identity key. */
  method PostEvent(db: EventbuddyDb, e: Event) returns (r: Response<()>)
    requires db.Valid()
    modifies db
    ensures db.Valid()
    ensures r == Ok("Event created", ())
    ensures db.events == old(db.events) + [e.(Id := old(db.nextEventId))]
    ensures db.nextEventId == old(db.nextEventId) + 1
    ensures old(WithinCapacity(db.events)) && !(e.MaxTickets.Some? && e.SoldTickets > e.MaxTickets.value) ==>
              WithinCapacity(db.events)
    ensures db.users == old(db.users) && db.savedEvents == old(db.savedEvents) && db.tickets == old(db.tickets)
    ensures db.friendRequests == old(db.friendRequests) && db.friendships == old(db.friendships)
    ensures db.nextUserId == old(db.nextUserId) && db.nextSavedEventId == old(db.nextSavedEventId)
    ensures db.nextTicketId == old(db.nextTicketId) && db.nextRequestId == old(db.nextRequestId)
    ensures db.nextFriendshipId == old(db.nextFriendshipId)
  {
    var row := e.(Id := db.nextEventId);
    KeyedAppend(db.events, EventKey, db.nextEventId, row);
    EventsExistGrow(db.tickets, db.events, [row]);
    db.events := db.events + [row];
    db.nextEventId := db.nextEventId + 1;
    r := Ok("Event created", ());
  }
}
