/**
 * UsersController: account registration, login, password change and
 * deletion, preference updates, and the queries over a user's friendships and
 * received friend requests. Passwords are stored as the lowercase hex SHA-256
 * digest built by Hash.BuildSHA256.
 */
module UsersController {
  import opened Wrappers
  import opened Http
  import opened Seqs
  import opened Data
  import Hash

  /** Hash.Verify against a stored password that may be null: a null never matches. */
  predicate PasswordMatches(password: string, stored: Option<string>, sha256: string -> Hash.Digest) {
    stored.Some? && Hash.Verify(password, stored.value, sha256)
  }

  /** The request body of UpdateUserPreferences. */
  datatype UserPreferences = UserPreferences(
    PreferredEventSize: real, PreferredInteractivity: real, PreferredNoisiness: real,
    PreferredCrowdedness: real, Latitude: real, Longitude: real, Radius: int)

  /** `u` with the seven preference and location fields taken from `p`. */
  function WithPreferences(u: User, p: UserPreferences): (v: User)
    ensures v.Id == u.Id && v.Username == u.Username && v.Password == u.Password && v.Email == u.Email
    ensures v.Radius == Some(p.Radius) && v.Latitude == Some(p.Latitude) && v.Longitude == Some(p.Longitude)
    ensures v.PreferredEventSize == p.PreferredEventSize && v.PreferredInteractivity == p.PreferredInteractivity
    ensures v.PreferredNoisiness == p.PreferredNoisiness && v.PreferredCrowdedness == p.PreferredCrowdedness
    ensures v.LastActiveDate == u.LastActiveDate && v.EventsAttended == u.EventsAttended
    ensures v.UserActivityLevel == u.UserActivityLevel && v.SocialScore == u.SocialScore
    ensures v.PreferredMusicStyles == u.PreferredMusicStyles && v.PreferredEventTypes == u.PreferredEventTypes
  {
    u.(PreferredEventSize := p.PreferredEventSize, PreferredInteractivity := p.PreferredInteractivity,
       PreferredNoisiness := p.PreferredNoisiness, PreferredCrowdedness := p.PreferredCrowdedness,
       Latitude := Some(p.Latitude), Longitude := Some(p.Longitude), Radius := Some(p.Radius))
  }

  /** UpdateUserPreferences: NotFound for an unknown user, otherwise only that user's preferences change. */
  method UpdateUserPreferences(db: EventbuddyDb, userId: int, preferences: UserPreferences) returns (r: Response<()>)
    requires db.Valid()
    modifies db
    ensures db.Valid()
    ensures FindUser(old(db.users), userId).None? ==> r == NotFound("User not found") && db.users == old(db.users)
    ensures FindUser(old(db.users), userId).Some? ==>
              var k := FindUser(old(db.users), userId).value;
              && r == Ok("Preferences updated successfully", ())
              && db.users == old(db.users)[k := WithPreferences(old(db.users)[k], preferences)]
    ensures db.events == old(db.events) && db.savedEvents == old(db.savedEvents) && db.tickets == old(db.tickets)
    ensures db.friendRequests == old(db.friendRequests) && db.friendships == old(db.friendships)
    ensures db.nextUserId == old(db.nextUserId)
    ensures db.nextEventId == old(db.nextEventId) && db.nextSavedEventId == old(db.nextSavedEventId)
    ensures db.nextTicketId == old(db.nextTicketId) && db.nextRequestId == old(db.nextRequestId)
    ensures db.nextFriendshipId == old(db.nextFriendshipId)
  {
    var found := FindUser(db.users, userId);
    if found.None? {
      return NotFound("User not found");
    }
    var k := found.value;
    var updated := WithPreferences(db.users[k], preferences);
    KeyedUpdate(db.users, UserKey, db.nextUserId, k, updated);
    db.users := db.users[k := updated];
    r := Ok("Preferences updated successfully", ());
  }

  /** One received request as listed, with the sender's username. */
  datatype ReceivedRequest = ReceivedRequest(Id: int, FromUserId: int, FromUsername: Option<string>, ToUserId: int)

  /** The username of the user with that id (None for a missing user or a null name). */
  function UsernameOf(users: seq<User>, id: int): Option<string> {
    match FindUser(users, id)
    case None => None
    case Some(i) => users[i].Username
  }

  function SentTo(userId: int): FriendRequest -> bool {
    (q: FriendRequest) => q.ToUserId == userId
  }

  function PendingFor(userId: int): FriendRequest -> bool {
    (q: FriendRequest) => q.ToUserId == userId && q.Status == "pending"
  }

  function ReceivedView(users: seq<User>): FriendRequest -> ReceivedRequest {
    (q: FriendRequest) => ReceivedRequest(q.Id, q.FromUserId, UsernameOf(users, q.FromUserId), q.ToUserId)
  }

  /**
   * GetUserReceivedFriendRequests: an unknown user is NotFound; a user who has
   * received no request at all gets the "No friend requests received" message;
   * otherwise the payload lists exactly the pending requests sent to the user.
   */
  function GetUserReceivedFriendRequests(users: seq<User>, requests: seq<FriendRequest>, userId: int)
    : (r: Response<seq<ReceivedRequest>>)
    ensures r.NotFound? <==> FindUser(users, userId).None?
    ensures r.NotFound? ==> r.info == "User does not exist"
    ensures r.Ok? && r.info == "No friend requests received" <==>
              FindUser(users, userId).Some? && !Any(requests, SentTo(userId))
    ensures r.Ok? ==> |r.payload| == Count(requests, PendingFor(userId))
    ensures r.Ok? ==> forall q :: q in requests && q.ToUserId == userId && q.Status == "pending" ==>
              ReceivedView(users)(q) in r.payload
    ensures r.Ok? ==> forall v :: v in r.payload ==> exists q :: q in requests && PendingFor(userId)(q) && v == ReceivedView(users)(q)
  {
    if FindUser(users, userId).None? then NotFound("User does not exist")
    else if !Any(requests, SentTo(userId)) then
      assert Count(requests, PendingFor(userId)) == 0;
      Ok("No friend requests received", [])
    else Ok("Received friend requests", MapFilter(requests, PendingFor(userId), ReceivedView(users)))
  }

  /** One friend as listed. */
  datatype FriendView = FriendView(Id: int, Username: Option<string>)

  function Touches(userId: int): Friendship -> bool {
    (f: Friendship) => f.UserId1 == userId || f.UserId2 == userId
  }

  /** The other endpoint of a friendship of `userId`. */
  function OtherEnd(users: seq<User>, userId: int): Friendship -> FriendView {
    (f: Friendship) =>
      var other := if f.UserId1 == userId then f.UserId2 else f.UserId1;
      FriendView(other, UsernameOf(users, other))
  }

  /** GetUserFriends: NotFound for an unknown user, otherwise the other endpoint of every friendship touching the user. */
  function GetUserFriends(users: seq<User>, friendships: seq<Friendship>, userId: int): (r: Response<seq<FriendView>>)
    ensures r.NotFound? <==> FindUser(users, userId).None?
    ensures r.Ok? ==> r.info == "Retrieved friends" && |r.payload| == Count(friendships, Touches(userId))
    ensures r.Ok? ==> forall f :: f in friendships && f.UserId1 == userId ==> FriendView(f.UserId2, UsernameOf(users, f.UserId2)) in r.payload
    ensures r.Ok? ==> forall f :: f in friendships && f.UserId2 == userId && f.UserId1 != userId ==>
              FriendView(f.UserId1, UsernameOf(users, f.UserId1)) in r.payload
    ensures r.Ok? ==> forall v :: v in r.payload ==>
              exists f :: f in friendships && ((f.UserId1 == userId && v.Id == f.UserId2) || (f.UserId2 == userId && v.Id == f.UserId1))
  {
    if FindUser(users, userId).None? then NotFound("")
    else
      var friends := MapFilter(friendships, Touches(userId), OtherEnd(users, userId));
      assert forall f :: f in friendships && Touches(userId)(f) ==> OtherEnd(users, userId)(f) in friends;
      Ok("Retrieved friends", friends)
  }

  function Befriends(userId: int, friendId: int): Friendship -> bool {
    (f: Friendship) => (f.UserId1 == userId && f.UserId2 == friendId) || (f.UserId1 == friendId && f.UserId2 == userId)
  }

  function NotBetween(x: int, y: int): FriendRequest -> bool {
    (q: FriendRequest) => !Between(q, x, y)
  }

  /**
   * RemoveUserFriend: NotFound and no change when no friendship links the two
   * users in either orientation; otherwise that friendship and every request
   * between them, in both directions, are deleted.
   */
  method RemoveUserFriend(db: EventbuddyDb, userId: int, friendId: int) returns (r: Response<()>)
    requires db.Valid()
    modifies db
    ensures db.Valid()
    ensures IndexWhere(old(db.friendships), Befriends(userId, friendId)).None? ==>
              && r == NotFound("Friendship not found.")
              && db.friendships == old(db.friendships) && db.friendRequests == old(db.friendRequests)
    ensures IndexWhere(old(db.friendships), Befriends(userId, friendId)).Some? ==>
              && r == Ok("Friend removed successfully.", ())
              && db.friendships == RemoveAt(old(db.friendships), IndexWhere(old(db.friendships), Befriends(userId, friendId)).value)
              && db.friendRequests == Filter(old(db.friendRequests), NotBetween(userId, friendId))
    ensures r.Ok? ==> forall q :: q in db.friendRequests ==> !Between(q, userId, friendId)
    ensures forall q :: q in old(db.friendRequests) && !Between(q, userId, friendId) ==> q in db.friendRequests
    ensures db.users == old(db.users) && db.events == old(db.events) && db.savedEvents == old(db.savedEvents)
    ensures db.tickets == old(db.tickets)
    ensures db.nextUserId == old(db.nextUserId) && db.nextEventId == old(db.nextEventId)
    ensures db.nextSavedEventId == old(db.nextSavedEventId) && db.nextTicketId == old(db.nextTicketId)
    ensures db.nextRequestId == old(db.nextRequestId) && db.nextFriendshipId == old(db.nextFriendshipId)
  {
    var found := IndexWhere(db.friendships, Befriends(userId, friendId));
    if found.None? {
      return NotFound("Friendship not found.");
    }
    KeyedRemoveAt(db.friendships, FriendshipKey, db.nextFriendshipId, found.value);
    KeyedFilter(db.friendRequests, RequestKey, db.nextRequestId, NotBetween(userId, friendId));
    FilterPairwise(db.friendRequests, NotBetween(userId, friendId), DistinctPair);
    db.friendships := RemoveAt(db.friendships, found.value);
    db.friendRequests := Filter(db.friendRequests, NotBetween(userId, friendId));
    r := Ok("Friend removed successfully.", ());
  }

  /** The row RegisterUser stores for the posted user. */
  function Registered(u: User, id: int, hash: string, now: int): (v: User)
    ensures v.Id == id && v.Password == Some(hash) && v.LastActiveDate == now
    ensures v.EventsAttended == 0 && v.UserActivityLevel == 0.0 && v.SocialScore == 0.0
    ensures v.Username == u.Username && v.Email == u.Email
  {
    u.(Id := id, Password := Some(hash), LastActiveDate := now, EventsAttended := 0,
       UserActivityLevel := 0.0, SocialScore := 0.0)
  }

  /**
   * RegisterUser: stores the posted user with its password replaced by the
   * SHA-256 hex digest and the activity counters reset. A null password makes
   * the hashing throw, so the request fails and nothing is stored. Usernames
   * are not checked for duplicates.
   */
  method RegisterUser(db: EventbuddyDb, u: User, now: int, sha256: string -> Hash.Digest) returns (r: Response<()>)
    requires db.Valid()
    modifies db
    ensures db.Valid()
    ensures u.Password.None? ==> r.Fault? && db.users == old(db.users) && db.nextUserId == old(db.nextUserId)
    ensures u.Password.Some? ==>
              && r == Ok("User registered", ())
              && db.users == old(db.users) + [Registered(u, old(db.nextUserId), Hash.Sha256Hex(u.Password.value, sha256), now)]
              && db.nextUserId == old(db.nextUserId) + 1
              && PasswordMatches(u.Password.value, db.users[|db.users| - 1].Password, sha256)
    ensures db.events == old(db.events) && db.savedEvents == old(db.savedEvents) && db.tickets == old(db.tickets)
    ensures db.friendRequests == old(db.friendRequests) && db.friendships == old(db.friendships)
    ensures db.nextEventId == old(db.nextEventId) && db.nextSavedEventId == old(db.nextSavedEventId)
    ensures db.nextTicketId == old(db.nextTicketId) && db.nextRequestId == old(db.nextRequestId)
    ensures db.nextFriendshipId == old(db.nextFriendshipId)
  {
    if u.Password.None? {
      return Fault("Value cannot be null. (Parameter 's')");
    }
    var hash := Hash.BuildSHA256(u.Password.value, sha256);
    var row := Registered(u, db.nextUserId, hash, now);
    KeyedAppend(db.users, UserKey, db.nextUserId, row);
    db.users := db.users + [row];
    db.nextUserId := db.nextUserId + 1;
    r := Ok("User registered", ());
  }

  /** RemoveUser: NotFound for an unknown user, BadRequest for a wrong password, otherwise the user and all their links go. */
  method RemoveUser(db: EventbuddyDb, userId: int, password: string, sha256: string -> Hash.Digest) returns (r: Response<()>)
    requires db.Valid()
    modifies db
    ensures db.Valid()
    ensures FindUser(old(db.users), userId).None? ==> r == NotFound("")
    ensures FindUser(old(db.users), userId).Some? &&
            !PasswordMatches(password, old(db.users)[FindUser(old(db.users), userId).value].Password, sha256) ==>
              r == BadRequest("No valid password")
    ensures !r.Ok? ==>
              db.users == old(db.users) && db.friendRequests == old(db.friendRequests) && db.friendships == old(db.friendships)
    ensures r.Ok? <==> (FindUser(old(db.users), userId).Some? &&
                        PasswordMatches(password, old(db.users)[FindUser(old(db.users), userId).value].Password, sha256))
    ensures r.Ok? ==>
              && r.info == "User deleted"
              && db.users == RemoveAt(old(db.users), FindUser(old(db.users), userId).value)
              && (forall i :: 0 <= i < |db.users| ==> db.users[i].Id != userId)
              && (forall q :: q in db.friendRequests ==> q.FromUserId != userId && q.ToUserId != userId)
              && (forall f :: f in db.friendships ==> f.UserId1 != userId && f.UserId2 != userId)
              && (forall q :: q in old(db.friendRequests) && q.FromUserId != userId && q.ToUserId != userId ==> q in db.friendRequests)
              && (forall f :: f in old(db.friendships) && f.UserId1 != userId && f.UserId2 != userId ==> f in db.friendships)
    ensures db.events == old(db.events) && db.savedEvents == old(db.savedEvents) && db.tickets == old(db.tickets)
    ensures db.nextUserId == old(db.nextUserId) && db.nextEventId == old(db.nextEventId)
    ensures db.nextSavedEventId == old(db.nextSavedEventId) && db.nextTicketId == old(db.nextTicketId)
    ensures db.nextRequestId == old(db.nextRequestId) && db.nextFriendshipId == old(db.nextFriendshipId)
  {
    var found := FindUser(db.users, userId);
    if found.None? {
      return NotFound("");
    }
    var k := found.value;
    if !PasswordMatches(password, db.users[k].Password, sha256) {
      return BadRequest("No valid password");
    }
    Unlink(db, userId);
    Forget(db, k);
    r := Ok("User deleted", ());
  }

  /** The request and friendship rows RemoveUser deletes: every row that mentions the user. */
  method Unlink(db: EventbuddyDb, userId: int)
    requires db.Valid()
    modifies db
    ensures db.Valid()
    ensures db.friendRequests == Filter(old(db.friendRequests), (q: FriendRequest) => q.FromUserId != userId && q.ToUserId != userId)
    ensures db.friendships == Filter(old(db.friendships), (f: Friendship) => f.UserId1 != userId && f.UserId2 != userId)
    ensures db.users == old(db.users) && db.nextUserId == old(db.nextUserId)
    ensures db.events == old(db.events) && db.savedEvents == old(db.savedEvents) && db.tickets == old(db.tickets)
    ensures db.nextEventId == old(db.nextEventId) && db.nextSavedEventId == old(db.nextSavedEventId)
    ensures db.nextTicketId == old(db.nextTicketId) && db.nextRequestId == old(db.nextRequestId)
    ensures db.nextFriendshipId == old(db.nextFriendshipId)
  {
    var keepRequest := (q: FriendRequest) => q.FromUserId != userId && q.ToUserId != userId;
    var keepFriendship := (f: Friendship) => f.UserId1 != userId && f.UserId2 != userId;
    KeyedFilter(db.friendRequests, RequestKey, db.nextRequestId, keepRequest);
    FilterPairwise(db.friendRequests, keepRequest, DistinctPair);
    KeyedFilter(db.friendships, FriendshipKey, db.nextFriendshipId, keepFriendship);
    db.friendRequests := Filter(db.friendRequests, keepRequest);
    db.friendships := Filter(db.friendships, keepFriendship);
  }

  /** The user row RemoveUser deletes; its key occurs nowhere else in the table. */
  method Forget(db: EventbuddyDb, k: nat)
    requires db.Valid() && k < |db.users|
    modifies db
    ensures db.Valid()
    ensures db.users == RemoveAt(old(db.users), k)
    ensures forall i :: 0 <= i < |db.users| ==> db.users[i].Id != old(db.users)[k].Id
    ensures db.friendRequests == old(db.friendRequests) && db.friendships == old(db.friendships)
    ensures db.events == old(db.events) && db.savedEvents == old(db.savedEvents) && db.tickets == old(db.tickets)
    ensures db.nextUserId == old(db.nextUserId) && db.nextEventId == old(db.nextEventId)
    ensures db.nextSavedEventId == old(db.nextSavedEventId) && db.nextTicketId == old(db.nextTicketId)
    ensures db.nextRequestId == old(db.nextRequestId) && db.nextFriendshipId == old(db.nextFriendshipId)
  {
    var gone := RemoveAt(db.users, k);
    forall i | 0 <= i < |gone| ensures gone[i].Id != db.users[k].Id {
      var j := if i < k then i else i + 1;
      assert gone[i] == db.users[j];
      if gone[i].Id == db.users[k].Id {
        KeyedUnique(db.users, UserKey, db.nextUserId, j, k);
      }
    }
    KeyedRemoveAt(db.users, UserKey, db.nextUserId, k);
    db.users := gone;
  }

  /** ChangeUserPassword: the new password's hash is stored only when the current password verifies. */
  method ChangeUserPassword(db: EventbuddyDb, userId: int, currentPassword: string, newPassword: string,
                            sha256: string -> Hash.Digest)
    returns (r: Response<()>)
    requires db.Valid()
    modifies db
    ensures db.Valid()
    ensures FindUser(old(db.users), userId).None? ==> r == NotFound("") && db.users == old(db.users)
    ensures FindUser(old(db.users), userId).Some? ==>
              var k := FindUser(old(db.users), userId).value;
              if PasswordMatches(currentPassword, old(db.users)[k].Password, sha256) then
                && r == Ok("Password changed", ())
                && db.users == old(db.users)[k := old(db.users)[k].(Password := Some(Hash.Sha256Hex(newPassword, sha256)))]
                && PasswordMatches(newPassword, db.users[k].Password, sha256)
              else
                r == BadRequest("Password is not valid") && db.users == old(db.users)
    ensures db.events == old(db.events) && db.savedEvents == old(db.savedEvents) && db.tickets == old(db.tickets)
    ensures db.friendRequests == old(db.friendRequests) && db.friendships == old(db.friendships)
    ensures db.nextUserId == old(db.nextUserId) && db.nextEventId == old(db.nextEventId)
    ensures db.nextSavedEventId == old(db.nextSavedEventId) && db.nextTicketId == old(db.nextTicketId)
    ensures db.nextRequestId == old(db.nextRequestId) && db.nextFriendshipId == old(db.nextFriendshipId)
  {
    var found := FindUser(db.users, userId);
    if found.None? {
      return NotFound("");
    }
    var k := found.value;
    if !PasswordMatches(currentPassword, db.users[k].Password, sha256) {
      return BadRequest("Password is not valid");
    }
    var hash := Hash.BuildSHA256(newPassword, sha256);
    var updated := db.users[k].(Password := Some(hash));
    KeyedUpdate(db.users, UserKey, db.nextUserId, k, updated);
    db.users := db.users[k := updated];
    r := Ok("Password changed", ());
  }

  /** What a successful login answers with. */
  datatype LoginPayload = LoginPayload(user_id: int, access_token: string)

  function Named(username: string): User -> bool {
    (u: User) => u.Username == Some(username)
  }

  /**
   * LoginUser: takes the first user with that username. An unknown username
   * and a wrong password are both NotFound; only a successful login records
   * `now` as LastActiveDate and issues a token for the updated user.
   */
  method LoginUser(db: EventbuddyDb, username: string, password: string, now: int,
                   sha256: string -> Hash.Digest, generateToken: User -> string)
    returns (r: Response<LoginPayload>)
    requires db.Valid()
    modifies db
    ensures db.Valid()
    ensures IndexWhere(old(db.users), Named(username)).None? ==>
              r == NotFound("Username is not valid") && db.users == old(db.users)
    ensures IndexWhere(old(db.users), Named(username)).Some? ==>
              var k := IndexWhere(old(db.users), Named(username)).value;
              var u := old(db.users)[k];
              if PasswordMatches(password, u.Password, sha256) then
                && r == Ok("Logged in", LoginPayload(u.Id, generateToken(u.(LastActiveDate := now))))
                && db.users == old(db.users)[k := u.(LastActiveDate := now)]
              else
                r == NotFound("Password is not valid") && db.users == old(db.users)
    ensures db.events == old(db.events) && db.savedEvents == old(db.savedEvents) && db.tickets == old(db.tickets)
    ensures db.friendRequests == old(db.friendRequests) && db.friendships == old(db.friendships)
    ensures db.nextUserId == old(db.nextUserId) && db.nextEventId == old(db.nextEventId)
    ensures db.nextSavedEventId == old(db.nextSavedEventId) && db.nextTicketId == old(db.nextTicketId)
    ensures db.nextRequestId == old(db.nextRequestId) && db.nextFriendshipId == old(db.nextFriendshipId)
  {
    var found := IndexWhere(db.users, Named(username));
    if found.None? {
      return NotFound("Username is not valid");
    }
    var k := found.value;
    var u := db.users[k];
    if !PasswordMatches(password, u.Password, sha256) {
      return NotFound("Password is not valid");
    }
    var active := u.(LastActiveDate := now);
    KeyedUpdate(db.users, UserKey, db.nextUserId, k, active);
    db.users := db.users[k := active];
    r := Ok("Logged in", LoginPayload(u.Id, generateToken(active)));
  }
}
