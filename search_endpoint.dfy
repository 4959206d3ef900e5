/**
 * The search endpoint (GET /api/v1/search): guard clauses on the caller and
 * the query text, then at most 25 users whose username contains the query and
 * at most 25 events whose title contains it, each list ordered by the position
 * of the first match, latest first. Each user hit carries the relationship
 * flags between the caller and that user. Texts are compared under the
 * database's collation, given as the character folding `fold`.
 */
module SearchEndpoint {
  import opened Wrappers
  import opened Http
  import opened Seqs
  import opened Sorting
  import opened Text
  import opened Data

  /** A user in the result with the caller's relationship to them. */
  datatype UserHit = UserHit(User: User, IsFriend: bool, HasSentRequest: bool, HasReceivedRequest: bool)

  datatype SearchResult = SearchResult(users: seq<UserHit>, events: seq<Event>)

  /**
   * The text as the collation compares it: every character replaced by its
   * folded form (for a case-insensitive collation, its upper-case form).
   */
  function Folded(s: string, fold: char -> char): string {
    MapSeq(s, fold)
  }

  /** The query occurs in the text under the collation; a null text never matches (SQL LIKE against NULL). */
  predicate Matches(text: Option<string>, q: string, fold: char -> char) {
    text.Some? && Contains(Folded(text.value, fold), Folded(q, fold))
  }

  /** The position of the match under the collation, used for ordering; -1 for a null text. */
  function MatchPosition(text: Option<string>, q: string, fold: char -> char): int {
    if text.Some? then IndexOf(Folded(text.value, fold), Folded(q, fold)) else -1
  }

  /** A friendship links `a` and `b` in either orientation. */
  predicate AreFriends(friendships: seq<Friendship>, a: int, b: int) {
    exists i :: 0 <= i < |friendships| &&
      ((friendships[i].UserId1 == a && friendships[i].UserId2 == b) ||
       (friendships[i].UserId2 == a && friendships[i].UserId1 == b))
  }

  /** A pending request from `a` to `b`. */
  predicate PendingRequest(requests: seq<FriendRequest>, a: int, b: int) {
    exists i :: 0 <= i < |requests| &&
      requests[i].FromUserId == a && requests[i].ToUserId == b && requests[i].Status == "pending"
  }

  function HitFor(friendships: seq<Friendship>, requests: seq<FriendRequest>, callerId: int): User -> UserHit {
    (u: User) => UserHit(u, AreFriends(friendships, callerId, u.Id),
                         PendingRequest(requests, callerId, u.Id), PendingRequest(requests, u.Id, callerId))
  }

  function UsernameMatches(q: string, fold: char -> char): User -> bool {
    (u: User) => Matches(u.Username, q, fold)
  }

  function TitleMatches(q: string, fold: char -> char): Event -> bool {
    (e: Event) => Matches(e.Title, q, fold)
  }

  /** OrderByDescending(IndexOf): a later match may come first. */
  function LaterUserMatch(q: string, fold: char -> char): (User, User) -> bool {
    (a: User, b: User) => MatchPosition(a.Username, q, fold) >= MatchPosition(b.Username, q, fold)
  }

  function LaterTitleMatch(q: string, fold: char -> char): (Event, Event) -> bool {
    (a: Event, b: Event) => MatchPosition(a.Title, q, fold) >= MatchPosition(b.Title, q, fold)
  }

  lemma LaterUserMatchIsPreorder(q: string, fold: char -> char)
    ensures TotalPreorder(LaterUserMatch(q, fold))
  {
  }

  lemma LaterTitleMatchIsPreorder(q: string, fold: char -> char)
    ensures TotalPreorder(LaterTitleMatch(q, fold))
  {
  }

  /**
   * The matching users, latest match first, capped at 25: every match that
   * is left out matches no later than any user kept, and matches are left
   * out only when all 25 places are taken.
   */
  function FoundUsers(users: seq<User>, q: string, fold: char -> char): (r: seq<User>)
    ensures |r| == if Count(users, UsernameMatches(q, fold)) < 25 then Count(users, UsernameMatches(q, fold)) else 25
    ensures forall u :: u in r ==> u in users && Matches(u.Username, q, fold)
    ensures forall i, j :: 0 <= i < j < |r| ==>
              MatchPosition(r[i].Username, q, fold) >= MatchPosition(r[j].Username, q, fold)
    ensures forall u :: u in users && Matches(u.Username, q, fold) && u !in r ==>
              |r| == 25 && forall i :: 0 <= i < |r| ==> MatchPosition(r[i].Username, q, fold) >= MatchPosition(u.Username, q, fold)
  {
    var matching := Filter(users, UsernameMatches(q, fold));
    CountIsFilterLength(users, UsernameMatches(q, fold));
    LaterUserMatchIsPreorder(q, fold);
    TopBy(matching, LaterUserMatch(q, fold), 25)
  }

  /**
   * The matching events, latest match first, capped at 25: every match that
   * is left out matches no later than any event kept, and matches are left
   * out only when all 25 places are taken.
   */
  function FoundEvents(events: seq<Event>, q: string, fold: char -> char): (r: seq<Event>)
    ensures |r| == if Count(events, TitleMatches(q, fold)) < 25 then Count(events, TitleMatches(q, fold)) else 25
    ensures forall e :: e in r ==> e in events && Matches(e.Title, q, fold)
    ensures forall i, j :: 0 <= i < j < |r| ==>
              MatchPosition(r[i].Title, q, fold) >= MatchPosition(r[j].Title, q, fold)
    ensures forall e :: e in events && Matches(e.Title, q, fold) && e !in r ==>
              |r| == 25 && forall i :: 0 <= i < |r| ==> MatchPosition(r[i].Title, q, fold) >= MatchPosition(e.Title, q, fold)
  {
    var matching := Filter(events, TitleMatches(q, fold));
    CountIsFilterLength(events, TitleMatches(q, fold));
    LaterTitleMatchIsPreorder(q, fold);
    TopBy(matching, LaterTitleMatch(q, fold), 25)
  }

  /** Every hit is the hit of one of the users found. */
  lemma HitsOfFound(found: seq<User>, friendships: seq<Friendship>, requests: seq<FriendRequest>, callerId: int)
    ensures forall h :: h in MapSeq(found, HitFor(friendships, requests, callerId)) ==>
              exists u :: u in found && h == HitFor(friendships, requests, callerId)(u)
  {
    var hits := MapSeq(found, HitFor(friendships, requests, callerId));
    forall h | h in hits ensures exists u :: u in found && h == HitFor(friendships, requests, callerId)(u) {
      var i :| 0 <= i < |hits| && hits[i] == h;
      assert found[i] in found;
    }
  }

  /**
   * Search: BadRequest "No user" for an unknown caller, checked before the
   * query; Ok "Nothing searched" for an empty query and Ok "Query too short"
   * below three characters, both without results; otherwise the hits.
   */
  function Search(users: seq<User>, events: seq<Event>, friendships: seq<Friendship>, requests: seq<FriendRequest>,
                  userId: int, q: string, fold: char -> char): (r: Response<SearchResult>)
    ensures r == BadRequest("No user") <==> FindUser(users, userId).None?
    ensures FindUser(users, userId).Some? && q == [] ==> r == Ok("Nothing searched", SearchResult([], []))
    ensures FindUser(users, userId).Some? && 0 < |q| < 3 ==> r == Ok("Query too short", SearchResult([], []))
    ensures r.Ok? ==> |r.payload.users| <= 25 && |r.payload.events| <= 25
    ensures r.Ok? ==> forall h :: h in r.payload.users ==> h.User in users && Matches(h.User.Username, q, fold)
    ensures r.Ok? ==> forall e :: e in r.payload.events ==> e in events && Matches(e.Title, q, fold)
    ensures r.Ok? ==> forall h :: h in r.payload.users ==>
              && (h.IsFriend <==> AreFriends(friendships, userId, h.User.Id))
              && (h.HasSentRequest <==> PendingRequest(requests, userId, h.User.Id))
              && (h.HasReceivedRequest <==> PendingRequest(requests, h.User.Id, userId))
    ensures r.Ok? && |q| >= 3 ==>
              && |r.payload.users| == (if Count(users, UsernameMatches(q, fold)) < 25 then Count(users, UsernameMatches(q, fold)) else 25)
              && |r.payload.events| == (if Count(events, TitleMatches(q, fold)) < 25 then Count(events, TitleMatches(q, fold)) else 25)
    ensures r.Ok? && |q| >= 3 ==>
              && r.info == ""
              && r.payload.users == MapSeq(FoundUsers(users, q, fold), HitFor(friendships, requests, userId))
              && r.payload.events == FoundEvents(events, q, fold)
  {
    if FindUser(users, userId).None? then BadRequest("No user")
    else if q == [] then Ok("Nothing searched", SearchResult([], []))
    else if |q| < 3 then Ok("Query too short", SearchResult([], []))
    else
      var found := FoundUsers(users, q, fold);
      var hits := MapSeq(found, HitFor(friendships, requests, userId));
      HitsOfFound(found, friendships, requests, userId);
      Ok("", SearchResult(hits, FoundEvents(events, q, fold)))
  }
}
