/**
 * FriendRequestsController: sending a friend request, answering it, and
 * listing every request. A request starts as "pending"; accepting it records
 * a Friendship, declining it deletes it.
 */
module FriendRequestsController {
  import opened Wrappers
  import opened Http
  import opened Seqs
  import opened Data

  const ExistsInfo := "A pending or accepted friend request already exists between these users."
  const InvalidInfo := "Invalid status or user is not authorized to respond to this request."

  function LinksPair(x: int, y: int): FriendRequest -> bool {
    (r: FriendRequest) => Between(r, x, y)
  }

  /**
   * SendFriendRequest: refused when any request, of any status, already links
   * the two users in either direction; otherwise one pending request is added.
   */
  method SendFriendRequest(db: EventbuddyDb, fromUserId: int, toUserId: int, now: int) returns (r: Response<()>)
    requires db.Valid()
    modifies db
    ensures db.Valid()
    ensures r.BadRequest? <==> Any(old(db.friendRequests), LinksPair(fromUserId, toUserId))
    ensures r.BadRequest? ==> r.info == ExistsInfo && db.friendRequests == old(db.friendRequests)
    ensures r.BadRequest? || r == Ok("Friend request sent", ())
    ensures r.Ok? ==>
              && db.friendRequests == old(db.friendRequests) + [FriendRequest(old(db.nextRequestId), fromUserId, toUserId, "pending", now)]
              && db.nextRequestId == old(db.nextRequestId) + 1
    ensures r.BadRequest? ==> db.nextRequestId == old(db.nextRequestId)
    ensures db.users == old(db.users) && db.events == old(db.events) && db.savedEvents == old(db.savedEvents)
    ensures db.tickets == old(db.tickets) && db.friendships == old(db.friendships)
    ensures db.nextUserId == old(db.nextUserId) && db.nextEventId == old(db.nextEventId)
    ensures db.nextSavedEventId == old(db.nextSavedEventId) && db.nextTicketId == old(db.nextTicketId)
    ensures db.nextFriendshipId == old(db.nextFriendshipId)
  {
    var existing := IndexWhere(db.friendRequests, LinksPair(fromUserId, toUserId));
    if existing.Some? {
      return BadRequest(ExistsInfo);
    }
    var request := FriendRequest(db.nextRequestId, fromUserId, toUserId, "pending", now);
    AppendPairwise(db.friendRequests, request, DistinctPair);
    KeyedAppend(db.friendRequests, RequestKey, db.nextRequestId, request);
    db.friendRequests := db.friendRequests + [request];
    db.nextRequestId := db.nextRequestId + 1;
    r := Ok("Friend request sent", ());
  }

  function FindRequest(requests: seq<FriendRequest>, id: int): (r: Option<nat>)
    ensures r.Some? ==> r.value < |requests| && requests[r.value].Id == id
    ensures r.None? <==> forall i :: 0 <= i < |requests| ==> requests[i].Id != id
  {
    IndexWhere(requests, (q: FriendRequest) => q.Id == id)
  }

  /**
   * RespondFriendRequest: only the recipient may answer. "accepted" marks the
   * request accepted and records a friendship from sender to recipient;
   * "declined" deletes the request; anything else is refused unchanged.
   */
  method RespondFriendRequest(db: EventbuddyDb, userId: int, requestId: int, status: string, now: int)
    returns (r: Response<()>)
    requires db.Valid()
    modifies db
    ensures db.Valid()
    ensures FindRequest(old(db.friendRequests), requestId).None? ==>
              r == NotFound("") && db.friendRequests == old(db.friendRequests) && db.friendships == old(db.friendships)
    ensures FindRequest(old(db.friendRequests), requestId).Some? ==>
              var k := FindRequest(old(db.friendRequests), requestId).value;
              var q := old(db.friendRequests)[k];
              if status == "accepted" && userId == q.ToUserId then
                && r == Ok("Successfully responded", ())
                && db.friendRequests == old(db.friendRequests)[k := q.(Status := "accepted")]
                && db.friendships == old(db.friendships) + [Friendship(old(db.nextFriendshipId), q.FromUserId, q.ToUserId, now)]
                && db.nextFriendshipId == old(db.nextFriendshipId) + 1
              else if status == "declined" && userId == q.ToUserId then
                && r == Ok("Successfully responded", ())
                && db.friendRequests == RemoveAt(old(db.friendRequests), k)
                && db.friendships == old(db.friendships)
              else
                r == BadRequest(InvalidInfo) && db.friendRequests == old(db.friendRequests) && db.friendships == old(db.friendships)
    ensures !(r.Ok? && status == "accepted") ==> db.nextFriendshipId == old(db.nextFriendshipId)
    ensures db.users == old(db.users) && db.events == old(db.events) && db.savedEvents == old(db.savedEvents)
    ensures db.tickets == old(db.tickets)
    ensures db.nextUserId == old(db.nextUserId) && db.nextEventId == old(db.nextEventId)
    ensures db.nextSavedEventId == old(db.nextSavedEventId) && db.nextTicketId == old(db.nextTicketId)
    ensures db.nextRequestId == old(db.nextRequestId)
  {
    var found := FindRequest(db.friendRequests, requestId);
    if found.None? {
      return NotFound("");
    }
    var k := found.value;
    var q := db.friendRequests[k];
    if status == "accepted" && userId == q.ToUserId {
      Accept(db, k, now);
    } else if status == "declined" && userId == q.ToUserId {
      Decline(db, k);
    } else {
      return BadRequest(InvalidInfo);
    }
    r := Ok("Successfully responded", ());
  }

  /** The accepting branch: the request is marked accepted and a friendship is recorded. */
  method Accept(db: EventbuddyDb, k: nat, now: int)
    requires db.Valid() && k < |db.friendRequests|
    modifies db
    ensures db.Valid()
    ensures var q := old(db.friendRequests)[k];
            && db.friendRequests == old(db.friendRequests)[k := q.(Status := "accepted")]
            && db.friendships == old(db.friendships) + [Friendship(old(db.nextFriendshipId), q.FromUserId, q.ToUserId, now)]
    ensures db.nextFriendshipId == old(db.nextFriendshipId) + 1
    ensures db.users == old(db.users) && db.events == old(db.events) && db.savedEvents == old(db.savedEvents)
    ensures db.tickets == old(db.tickets)
    ensures db.nextUserId == old(db.nextUserId) && db.nextEventId == old(db.nextEventId)
    ensures db.nextSavedEventId == old(db.nextSavedEventId) && db.nextTicketId == old(db.nextTicketId)
    ensures db.nextRequestId == old(db.nextRequestId)
  {
    var q := db.friendRequests[k];
    var accepted := q.(Status := "accepted");
    var friendship := Friendship(db.nextFriendshipId, q.FromUserId, q.ToUserId, now);
    UpdatePairwise(db.friendRequests, k, accepted, DistinctPair);
    KeyedUpdate(db.friendRequests, RequestKey, db.nextRequestId, k, accepted);
    KeyedAppend(db.friendships, FriendshipKey, db.nextFriendshipId, friendship);
    db.friendRequests := db.friendRequests[k := accepted];
    db.friendships := db.friendships + [friendship];
    db.nextFriendshipId := db.nextFriendshipId + 1;
  }

  /** The declining branch: the request is deleted. */
  method Decline(db: EventbuddyDb, k: nat)
    requires db.Valid() && k < |db.friendRequests|
    modifies db
    ensures db.Valid()
    ensures db.friendRequests == RemoveAt(old(db.friendRequests), k)
    ensures db.friendships == old(db.friendships) && db.nextFriendshipId == old(db.nextFriendshipId)
    ensures db.users == old(db.users) && db.events == old(db.events) && db.savedEvents == old(db.savedEvents)
    ensures db.tickets == old(db.tickets)
    ensures db.nextUserId == old(db.nextUserId) && db.nextEventId == old(db.nextEventId)
    ensures db.nextSavedEventId == old(db.nextSavedEventId) && db.nextTicketId == old(db.nextTicketId)
    ensures db.nextRequestId == old(db.nextRequestId)
  {
    RemoveAtPairwise(db.friendRequests, k, DistinctPair);
    KeyedRemoveAt(db.friendRequests, RequestKey, db.nextRequestId, k);
    db.friendRequests := RemoveAt(db.friendRequests, k);
  }

  /** Under the one-request-per-pair invariant, only the request itself links its two users. */
  lemma OnlyRequestOfPair(requests: seq<FriendRequest>, k: nat)
    requires Pairwise(requests, DistinctPair) && k < |requests|
    ensures forall j :: 0 <= j < |requests| && j != k ==>
              !Between(requests[j], requests[k].FromUserId, requests[k].ToUserId)
  {
    forall j | 0 <= j < |requests| && j != k
      ensures !Between(requests[j], requests[k].FromUserId, requests[k].ToUserId)
    {
      if j < k {
        assert DistinctPair(requests[j], requests[k]);
      } else {
        assert DistinctPair(requests[k], requests[j]);
      }
    }
  }

  /** Once the recipient declines, the sender may send a new request. */
  method DeclineThenResend(db: EventbuddyDb, requestId: int, now: int)
    returns (declined: Response<()>, resent: Response<()>)
    requires db.Valid() && FindRequest(db.friendRequests, requestId).Some?
    modifies db
    ensures resent.Ok? || !declined.Ok?
    ensures db.nextUserId == old(db.nextUserId) && db.nextEventId == old(db.nextEventId)
    ensures db.nextSavedEventId == old(db.nextSavedEventId) && db.nextTicketId == old(db.nextTicketId)
    ensures db.nextFriendshipId == old(db.nextFriendshipId)
  {
    var k := FindRequest(db.friendRequests, requestId).value;
    var q := db.friendRequests[k];
    OnlyRequestOfPair(db.friendRequests, k);
    declined := RespondFriendRequest(db, q.ToUserId, requestId, "declined", now);
    assert db.friendRequests == RemoveAt(old(db.friendRequests), k);
    assert !Any(db.friendRequests, LinksPair(q.FromUserId, q.ToUserId)) by {
      forall i | 0 <= i < |db.friendRequests| ensures !Between(db.friendRequests[i], q.FromUserId, q.ToUserId) {
        if i < k {
          assert db.friendRequests[i] == old(db.friendRequests)[i];
        } else {
          assert db.friendRequests[i] == old(db.friendRequests)[i + 1];
        }
      }
    }
    resent := SendFriendRequest(db, q.FromUserId, q.ToUserId, now);
  }

  /** GetFriendRequests: the whole request table; only the message depends on emptiness. */
  function GetFriendRequests(requests: seq<FriendRequest>): (r: Response<seq<FriendRequest>>)
    ensures r.Ok? && r.payload == requests
    ensures r.info == "No friend requests found" <==> requests == []
  {
    if requests == [] then Ok("No friend requests found", requests)
    else Ok("Friend requests found", requests)
  }
}
