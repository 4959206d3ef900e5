/**
 * RecommendationService.GetPersonalizedFeed: the first ten events, in table
 * order, that start at or after `now`. The user is looked up but never used.
 */
module RecommendationService {
  import opened Seqs
  import opened Data

  function StartsFrom(now: int): Event -> bool {
    (e: Event) => e.StartDate >= now
  }

  function GetPersonalizedFeed(users: seq<User>, events: seq<Event>, userId: int, now: int): (r: seq<Event>)
    ensures |r| <= 10
    ensures forall e :: e in r ==> e in events && e.StartDate >= now
    ensures |r| == if Count(events, StartsFrom(now)) < 10 then Count(events, StartsFrom(now)) else 10
    ensures |r| <= |Filter(events, StartsFrom(now))| && r == Filter(events, StartsFrom(now))[..|r|]
  {
    var user := FindUser(users, userId);
    CountIsFilterLength(events, StartsFrom(now));
    Take(Filter(events, StartsFrom(now)), 10)
  }

  /** The feed is the same for every user id, known or unknown. */
  lemma FeedIgnoresUser(users: seq<User>, events: seq<Event>, a: int, b: int, now: int)
    ensures GetPersonalizedFeed(users, events, a, now) == GetPersonalizedFeed(users, events, b, now)
  {
  }
}
