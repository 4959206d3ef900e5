/**
 * FeedSectionService: the home feed, made of a spotlight event, the
 * personalised feed and the events near the user.
 */
module FeedSectionService {
  import opened Wrappers
  import opened Seqs
  import opened Sorting
  import opened Data
  import RecommendationService

  /** The squared (lat, lon) distance between event and user, a missing coordinate read as 0. */
  function SquaredDistance(e: Event, u: User): (d: real)
    ensures d >= 0.0
  {
    var dLat := e.Latitude.GetOr(0.0) - u.Latitude.GetOr(0.0);
    var dLon := e.Longitude.GetOr(0.0) - u.Longitude.GetOr(0.0);
    dLat * dLat + dLon * dLon
  }

  /**
   * Math.Sqrt(d) <= user.Radius. A null radius makes the lifted comparison
   * false; otherwise, as d is not negative, the square root is within the
   * radius exactly when the radius is not negative and d is within its square.
   */
  predicate WithinRadius(e: Event, u: User) {
    u.Radius.Some? && u.Radius.value >= 0 &&
    SquaredDistance(e, u) <= (u.Radius.value * u.Radius.value) as real
  }

  function Nearby(u: User, now: int): Event -> bool {
    (e: Event) => e.EndDate > now && WithinRadius(e, u)
  }

  /** OrderBy(squared distance): nearer events first. */
  function Nearer(u: User): (Event, Event) -> bool {
    (a: Event, b: Event) => SquaredDistance(a, u) <= SquaredDistance(b, u)
  }

  lemma NearerIsPreorder(u: User)
    ensures TotalPreorder(Nearer(u))
  {
  }

  /**
   * GetNearbyEvents: nothing for an unknown user; otherwise the events that
   * have not ended and lie within the user's radius, nearest first, as many as
   * there are up to ten. Such an event is left out only when ten are kept, and
   * then it is at least as far as every one that is kept.
   */
  function GetNearbyEvents(users: seq<User>, events: seq<Event>, userId: int, now: int): (r: seq<Event>)
    ensures FindUser(users, userId).None? ==> r == []
    ensures |r| <= 10
    ensures FindUser(users, userId).Some? ==>
              var u := users[FindUser(users, userId).value];
              && (forall e :: e in r ==> e in events && e.EndDate > now && WithinRadius(e, u))
              && (forall i, j :: 0 <= i < j < |r| ==> SquaredDistance(r[i], u) <= SquaredDistance(r[j], u))
              && |r| == (if Count(events, Nearby(u, now)) < 10 then Count(events, Nearby(u, now)) else 10)
              && (forall e :: e in events && Nearby(u, now)(e) && e !in r ==>
                    |r| == 10 && forall i :: 0 <= i < |r| ==> SquaredDistance(r[i], u) <= SquaredDistance(e, u))
    ensures FindUser(users, userId).Some? && users[FindUser(users, userId).value].Radius.None? ==> r == []
  {
    match FindUser(users, userId)
    case None => []
    case Some(k) =>
      var u := users[k];
      var candidates := Filter(events, Nearby(u, now));
      CountIsFilterLength(events, Nearby(u, now));
      NearerIsPreorder(u);
      assert u.Radius.None? ==> candidates == [];
      TopBy(candidates, Nearer(u), 10)
  }

  /** The event with the largest Id. */
  function LatestEvent(events: seq<Event>): (e: Event)
    requires events != []
    ensures e in events
    ensures forall i :: 0 <= i < |events| ==> events[i].Id <= e.Id
  {
    if |events| == 1 then events[0]
    else
      var rest := LatestEvent(events[1..]);
      assert forall i :: 1 <= i < |events| ==> events[i] == events[1..][i - 1];
      if events[0].Id >= rest.Id then events[0] else rest
  }

  /** GetSpotlightEvent: the event with the largest Id, or a default event when there is none. */
  function GetSpotlightEvent(events: seq<Event>): (e: Event)
    ensures events == [] ==> e == DefaultEvent()
    ensures events != [] ==> e in events && forall i :: 0 <= i < |events| ==> events[i].Id <= e.Id
  {
    if events == [] then DefaultEvent() else LatestEvent(events)
  }

  const SpotlightKey := "Im Spotlight"
  const ForYouKey := "Für dich"
  const NearbyKey := "In deiner Nähe"

  /** GetFeed: fills the three sections one key at a time. */
  method GetFeed(db: EventbuddyDb, userId: int, now: int) returns (feed: map<string, seq<Event>>)
    ensures feed.Keys == {SpotlightKey, ForYouKey, NearbyKey}
    ensures feed[SpotlightKey] == [GetSpotlightEvent(db.events)]
    ensures feed[ForYouKey] == RecommendationService.GetPersonalizedFeed(db.users, db.events, userId, now)
    ensures feed[NearbyKey] == GetNearbyEvents(db.users, db.events, userId, now)
    ensures |feed[SpotlightKey]| == 1 && |feed[ForYouKey]| <= 10 && |feed[NearbyKey]| <= 10
  {
    feed := map[];
    feed := feed[SpotlightKey := [GetSpotlightEvent(db.events)]];
    feed := feed[ForYouKey := RecommendationService.GetPersonalizedFeed(db.users, db.events, userId, now)];
    feed := feed[NearbyKey := GetNearbyEvents(db.users, db.events, userId, now)];
  }
}
