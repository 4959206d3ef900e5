/**
 * The Flask service's request handlers (api/app.py): register, login, the
 * saved-event toggle, the "for you" list and the category list. Each handler
 * answers a JSON body with an HTTP status; each request is one atomic step on
 * the `user` and `saved_event` tables, with the ids of the `event` table read
 * for the foreign keys of `saved_event`. Access and refresh tokens come from
 * function parameters.
 */
module FlaskApi {
  import opened Wrappers
  import opened Seqs
  import Hash
  import opened FlaskQueries

  /** A row of `user` (api/app.py:103-114). */
  datatype FlaskUser = FlaskUser(
    id: int, username: Option<string>, password: Option<string>, first_name: Option<string>,
    last_name: Option<string>, email: Option<string>, profile_image_url: Option<string>)

  /** The JSON bodies the handlers answer with. */
  datatype Body<+T> =
    | Message(message: string)
    | Error(error: string)
    | Registered(message: string, user_id: int)
    | Tokens(access_token: string, refresh_token: string, user_id: int, message: string)
    | Json(value: T)

  datatype Reply<+T> = Reply(status: int, body: Body<T>)

  /** verify_password: the password's lowercase hex SHA-256 digest equals the stored text. */
  predicate VerifyPassword(password: string, hashed: Option<string>, sha256: string -> Hash.Digest) {
    hashed.Some? && Hash.Sha256Hex(password, sha256) == hashed.value
  }

  /**
   * A stored text verifies a password exactly when it is 64 lowercase hex
   * digits spelling the password's digest.
   */
  lemma VerifyPasswordDecodes(password: string, hashed: Option<string>, sha256: string -> Hash.Digest)
    ensures VerifyPassword(password, hashed, sha256) <==>
              && hashed.Some? && |hashed.value| == 64
              && (forall i :: 0 <= i < 64 ==> Hash.IsHexDigit(hashed.value[i]))
              && Hash.HexDecode(hashed.value) == sha256(password)
  {
    if hashed.Some? && VerifyPassword(password, hashed, sha256) {
      Hash.HexRoundTrip(sha256(password));
    }
    if && hashed.Some? && |hashed.value| == 64
       && (forall i :: 0 <= i < 64 ==> Hash.IsHexDigit(hashed.value[i]))
       && Hash.HexDecode(hashed.value) == sha256(password) {
      Hash.DecodeRoundTrip(hashed.value);
    }
  }

  /** `not value` on a JSON field: absent, null or the empty string. */
  predicate Missing(v: Option<string>) {
    v.None? || v.value == ""
  }

  function WithUsername(username: string): FlaskUser -> bool {
    (u: FlaskUser) => u.username == Some(username)
  }

  /** get_user_by_username: the first row with that username. */
  function UserByUsername(users: seq<FlaskUser>, username: string): (u: Option<FlaskUser>)
    ensures u.None? <==> forall i :: 0 <= i < |users| ==> users[i].username != Some(username)
    ensures u.Some? ==> u.value in users && u.value.username == Some(username)
  {
    match IndexWhere(users, WithUsername(username))
    case None => None
    case Some(k) => Some(users[k])
  }

  predicate SavedPair(s: SavedRow, userId: int, eventId: int) {
    s.user_id == userId && s.event_id == eventId
  }

  function OtherPair(userId: int, eventId: int): SavedRow -> bool {
    (s: SavedRow) => !SavedPair(s, userId, eventId)
  }

  /** isSaved: some saved_event row holds the pair. */
  predicate IsSaved(saved: seq<SavedRow>, userId: int, eventId: int) {
    exists i :: 0 <= i < |saved| && SavedPair(saved[i], userId, eventId)
  }

  /** Some `user` row has the id. */
  predicate HasUser(users: seq<FlaskUser>, id: int) {
    exists i :: 0 <= i < |users| && users[i].id == id
  }

  /**
   * The FOREIGN KEYs of saved_event (api/app.py:40-41): the user id names a
   * `user` row and the event id an `event` row.
   */
  predicate References(users: seq<FlaskUser>, eventIds: seq<int>, userId: int, eventId: int) {
    HasUser(users, userId) && eventId in eventIds
  }

  /**
   * The `user` and `saved_event` tables, with their AUTO_INCREMENT counters,
   * and the ids of the `event` table, which these handlers only read.
   */
  class FlaskDb {
    var users: seq<FlaskUser>
    var savedEvents: seq<SavedRow>
    var eventIds: seq<int>
    var nextUserId: int
    var nextSavedId: int

    /**
     * Ids start at 1, no two users share a username (register refuses a
     * username that is already taken), and every saved row satisfies the
     * foreign keys.
     */
    ghost predicate Valid()
      reads this
    {
      && nextUserId >= 1
      && (forall i, j :: 0 <= i < j < |users| && users[i].username.Some? ==> users[i].username != users[j].username)
      && (forall i :: 0 <= i < |savedEvents| ==>
            References(users, eventIds, savedEvents[i].user_id, savedEvents[i].event_id))
    }

    /** Empty `user` and `saved_event` tables beside the given event rows. */
    constructor(eventIds: seq<int>)
      ensures users == [] && savedEvents == [] && this.eventIds == eventIds
      ensures nextUserId == 1 && nextSavedId == 1
      ensures Valid()
    {
      users := [];
      savedEvents := [];
      this.eventIds := eventIds;
      nextUserId := 1;
      nextSavedId := 1;
    }
  }

  // ---------------------------------------------------------------------------
  // api_set_saved_event (api/app.py:955-967)
  // ---------------------------------------------------------------------------

  /**
   * insert_saved_event: one new row for the pair when both ids exist. A
   * dangling id fails a foreign key; the error is caught and printed, and
   * nothing is stored. The AUTO_INCREMENT value is used up either way.
   */
  method InsertSavedEvent(db: FlaskDb, userId: int, eventId: int)
    modifies db
    ensures References(old(db.users), old(db.eventIds), userId, eventId) ==>
              db.savedEvents == old(db.savedEvents) + [SavedRow(old(db.nextSavedId), userId, eventId)]
    ensures !References(old(db.users), old(db.eventIds), userId, eventId) ==> db.savedEvents == old(db.savedEvents)
    ensures db.nextSavedId == old(db.nextSavedId) + 1
    ensures db.users == old(db.users) && db.eventIds == old(db.eventIds) && db.nextUserId == old(db.nextUserId)
  {
    if References(db.users, db.eventIds, userId, eventId) {
      db.savedEvents := db.savedEvents + [SavedRow(db.nextSavedId, userId, eventId)];
    }
    db.nextSavedId := db.nextSavedId + 1;
  }

  /** remove_saved_event: DELETE every row of the pair. */
  method RemoveSavedEvent(db: FlaskDb, userId: int, eventId: int)
    modifies db
    ensures db.savedEvents == Filter(old(db.savedEvents), OtherPair(userId, eventId))
    ensures !IsSaved(db.savedEvents, userId, eventId)
    ensures db.users == old(db.users) && db.eventIds == old(db.eventIds)
    ensures db.nextUserId == old(db.nextUserId) && db.nextSavedId == old(db.nextSavedId)
  {
    db.savedEvents := Filter(db.savedEvents, OtherPair(userId, eventId));
  }

  /**
   * api_set_saved_event: a saved pair is removed (200), an unsaved one is
   * added (201). The pair's saved state flips, except that an insert with a
   * dangling user or event id stores nothing and is still answered 201.
   * Other pairs' rows stay.
   */
  method ApiSetSavedEvent(db: FlaskDb, userId: int, eventId: int) returns (r: Reply<()>)
    requires db.Valid()
    modifies db
    ensures db.Valid()
    ensures IsSaved(db.savedEvents, userId, eventId) <==>
              !old(IsSaved(db.savedEvents, userId, eventId)) && References(old(db.users), old(db.eventIds), userId, eventId)
    ensures old(IsSaved(db.savedEvents, userId, eventId)) ==>
              r == Reply(200, Message("Event removed from saved events"))
              && db.savedEvents == Filter(old(db.savedEvents), OtherPair(userId, eventId))
    ensures !old(IsSaved(db.savedEvents, userId, eventId)) ==>
              && r == Reply(201, Message("Event added to saved events"))
              && db.savedEvents == if References(old(db.users), old(db.eventIds), userId, eventId)
                                   then old(db.savedEvents) + [SavedRow(old(db.nextSavedId), userId, eventId)]
                                   else old(db.savedEvents)
    ensures forall s :: !SavedPair(s, userId, eventId) ==> (s in db.savedEvents <==> s in old(db.savedEvents))
    ensures db.users == old(db.users) && db.eventIds == old(db.eventIds) && db.nextUserId == old(db.nextUserId)
  {
    if IsSaved(db.savedEvents, userId, eventId) {
      RemoveSavedEvent(db, userId, eventId);
      r := Reply(200, Message("Event removed from saved events"));
    } else {
      InsertSavedEvent(db, userId, eventId);
      if References(db.users, db.eventIds, userId, eventId) {
        assert db.savedEvents[|db.savedEvents| - 1] == SavedRow(old(db.nextSavedId), userId, eventId);
      }
      r := Reply(201, Message("Event added to saved events"));
    }
  }

  /** A saved pair satisfies the foreign keys. */
  lemma SavedReferences(db: FlaskDb, userId: int, eventId: int)
    requires db.Valid() && IsSaved(db.savedEvents, userId, eventId)
    ensures References(db.users, db.eventIds, userId, eventId)
  {
    var i :| 0 <= i < |db.savedEvents| && SavedPair(db.savedEvents[i], userId, eventId);
  }

  /**
   * Two requests for the same pair restore its saved state. When both ids
   * exist they answer 200 and 201 in some order; with a dangling id both
   * answer 201 and nothing is stored.
   */
  method SetSavedTwice(db: FlaskDb, userId: int, eventId: int) returns (first: Reply<()>, second: Reply<()>)
    requires db.Valid()
    modifies db
    ensures db.Valid()
    ensures IsSaved(db.savedEvents, userId, eventId) == old(IsSaved(db.savedEvents, userId, eventId))
    ensures forall s :: !SavedPair(s, userId, eventId) ==> (s in db.savedEvents <==> s in old(db.savedEvents))
    ensures References(old(db.users), old(db.eventIds), userId, eventId) ==> {first.status, second.status} == {200, 201}
    ensures !References(old(db.users), old(db.eventIds), userId, eventId) ==>
              && first == Reply(201, Message("Event added to saved events")) && second == first
              && db.savedEvents == old(db.savedEvents)
  {
    if IsSaved(db.savedEvents, userId, eventId) {
      SavedReferences(db, userId, eventId);
    }
    first := ApiSetSavedEvent(db, userId, eventId);
    second := ApiSetSavedEvent(db, userId, eventId);
  }

  // ---------------------------------------------------------------------------
  // register (api/app.py:770-787) and login (api/app.py:789-804)
  // ---------------------------------------------------------------------------

  /** The row insert_user stores for a registration. */
  function NewUser(id: int, username: string, hashed: string, email: string): FlaskUser {
    FlaskUser(id, Some(username), Some(hashed), None, None, Some(email), None)
  }

  /**
   * insert_user as written: it stores the row and, having no return
   * statement, hands back None instead of the new id.
   */
  method InsertUser(db: FlaskDb, username: string, hashed: string, email: string) returns (userId: Option<int>)
    modifies db
    ensures db.users == old(db.users) + [NewUser(old(db.nextUserId), username, hashed, email)]
    ensures db.nextUserId == old(db.nextUserId) + 1
    ensures db.savedEvents == old(db.savedEvents) && db.nextSavedId == old(db.nextSavedId)
    ensures db.eventIds == old(db.eventIds)
    ensures userId.None?
  {
    db.users := db.users + [NewUser(db.nextUserId, username, hashed, email)];
    db.nextUserId := db.nextUserId + 1;
    userId := None;
  }

  /** insert_user returning cursor.lastrowid, the id of the row it stored. */
  method InsertUserReturningId(db: FlaskDb, username: string, hashed: string, email: string) returns (userId: Option<int>)
    modifies db
    ensures db.users == old(db.users) + [NewUser(old(db.nextUserId), username, hashed, email)]
    ensures db.nextUserId == old(db.nextUserId) + 1
    ensures db.savedEvents == old(db.savedEvents) && db.nextSavedId == old(db.nextSavedId)
    ensures db.eventIds == old(db.eventIds)
    ensures userId == Some(old(db.nextUserId))
  {
    userId := Some(db.nextUserId);
    db.users := db.users + [NewUser(db.nextUserId, username, hashed, email)];
    db.nextUserId := db.nextUserId + 1;
  }

  /** The new row keeps usernames unique when its username is not taken. */
  lemma AppendKeepsUsernamesUnique(users: seq<FlaskUser>, u: FlaskUser)
    requires forall i, j :: 0 <= i < j < |users| && users[i].username.Some? ==> users[i].username != users[j].username
    requires u.username.Some? && forall i :: 0 <= i < |users| ==> users[i].username != u.username
    ensures forall i, j :: 0 <= i < j < |users + [u]| && (users + [u])[i].username.Some? ==>
              (users + [u])[i].username != (users + [u])[j].username
  {
  }

  /** Adding a user keeps every saved row's foreign keys satisfied. */
  lemma AppendKeepsReferences(users: seq<FlaskUser>, eventIds: seq<int>, saved: seq<SavedRow>, u: FlaskUser)
    requires forall i :: 0 <= i < |saved| ==> References(users, eventIds, saved[i].user_id, saved[i].event_id)
    ensures forall i :: 0 <= i < |saved| ==> References(users + [u], eventIds, saved[i].user_id, saved[i].event_id)
  {
    forall i | 0 <= i < |saved| ensures References(users + [u], eventIds, saved[i].user_id, saved[i].event_id) {
      var j :| 0 <= j < |users| && users[j].id == saved[i].user_id;
      assert (users + [u])[j] == users[j];
    }
  }

  /**
   * register as written: 400 for a missing field or a taken username;
   * otherwise the user is stored with the hex digest of the password, and the
   * answer is still 500, because insert_user returns no id.
   */
  method Register(db: FlaskDb, username: Option<string>, password: Option<string>, email: Option<string>,
                  sha256: string -> Hash.Digest) returns (r: Reply<()>)
    requires db.Valid()
    modifies db
    ensures db.Valid()
    ensures Missing(username) || Missing(password) || Missing(email) ==>
              r == Reply(400, Error("Missing parameters")) && db.users == old(db.users) && db.nextUserId == old(db.nextUserId)
    ensures !(Missing(username) || Missing(password) || Missing(email))
            && UserByUsername(old(db.users), username.value).Some? ==>
              r == Reply(400, Error("Username already exists")) && db.users == old(db.users) && db.nextUserId == old(db.nextUserId)
    ensures !(Missing(username) || Missing(password) || Missing(email))
            && UserByUsername(old(db.users), username.value).None? ==>
              && db.users == old(db.users) + [NewUser(old(db.nextUserId), username.value,
                                                      Hash.Sha256Hex(password.value, sha256), email.value)]
              && db.nextUserId == old(db.nextUserId) + 1
              && r == Reply(500, Error("Failed to register user"))
    ensures db.savedEvents == old(db.savedEvents) && db.nextSavedId == old(db.nextSavedId)
    ensures db.eventIds == old(db.eventIds)
  {
    if Missing(username) || Missing(password) || Missing(email) {
      return Reply(400, Error("Missing parameters"));
    }
    if UserByUsername(db.users, username.value).Some? {
      return Reply(400, Error("Username already exists"));
    }
    var hashed := Hash.BuildSHA256(password.value, sha256);
    AppendKeepsUsernamesUnique(db.users, NewUser(db.nextUserId, username.value, hashed, email.value));
    AppendKeepsReferences(db.users, db.eventIds, db.savedEvents, NewUser(db.nextUserId, username.value, hashed, email.value));
    var userId := InsertUser(db, username.value, hashed, email.value);
    // `if user_id:` holds for a present, non-zero id
    if userId.GetOr(0) != 0 {
      r := Reply(201, Registered("User registered successfully", userId.GetOr(0)));
    } else {
      r := Reply(500, Error("Failed to register user"));
    }
  }

  /** register with insert_user returning the new id: a stored user is answered 201 with that id. */
  method RegisterFixed(db: FlaskDb, username: Option<string>, password: Option<string>, email: Option<string>,
                       sha256: string -> Hash.Digest) returns (r: Reply<()>)
    requires db.Valid()
    modifies db
    ensures db.Valid()
    ensures Missing(username) || Missing(password) || Missing(email) ==>
              r == Reply(400, Error("Missing parameters")) && db.users == old(db.users) && db.nextUserId == old(db.nextUserId)
    ensures !(Missing(username) || Missing(password) || Missing(email))
            && UserByUsername(old(db.users), username.value).Some? ==>
              r == Reply(400, Error("Username already exists")) && db.users == old(db.users) && db.nextUserId == old(db.nextUserId)
    ensures !(Missing(username) || Missing(password) || Missing(email))
            && UserByUsername(old(db.users), username.value).None? ==>
              && db.users == old(db.users) + [NewUser(old(db.nextUserId), username.value,
                                                      Hash.Sha256Hex(password.value, sha256), email.value)]
              && db.nextUserId == old(db.nextUserId) + 1
              && r == Reply(201, Registered("User registered successfully", old(db.nextUserId)))
    ensures db.savedEvents == old(db.savedEvents) && db.nextSavedId == old(db.nextSavedId)
    ensures db.eventIds == old(db.eventIds)
  {
    if Missing(username) || Missing(password) || Missing(email) {
      return Reply(400, Error("Missing parameters"));
    }
    if UserByUsername(db.users, username.value).Some? {
      return Reply(400, Error("Username already exists"));
    }
    var hashed := Hash.BuildSHA256(password.value, sha256);
    AppendKeepsUsernamesUnique(db.users, NewUser(db.nextUserId, username.value, hashed, email.value));
    AppendKeepsReferences(db.users, db.eventIds, db.savedEvents, NewUser(db.nextUserId, username.value, hashed, email.value));
    var userId := InsertUserReturningId(db, username.value, hashed, email.value);
    // `if user_id:` holds for a present, non-zero id
    if userId.GetOr(0) != 0 {
      r := Reply(201, Registered("User registered successfully", userId.GetOr(0)));
    } else {
      r := Reply(500, Error("Failed to register user"));
    }
  }

  /**
   * login: 400 for a missing field; 200 with tokens for the user's id when a
   * user has that username and the password verifies; 401 otherwise.
   */
  function Login(users: seq<FlaskUser>, username: Option<string>, password: Option<string>,
                 sha256: string -> Hash.Digest, accessToken: int -> string, refreshToken: int -> string): (r: Reply<()>)
    ensures Missing(username) || Missing(password) ==> r == Reply(400, Error("Missing parameters"))
    ensures r.status == 200 <==>
              && !Missing(username) && !Missing(password)
              && UserByUsername(users, username.value).Some?
              && VerifyPassword(password.value, UserByUsername(users, username.value).value.password, sha256)
    ensures r.status == 200 ==>
              var id := UserByUsername(users, username.value).value.id;
              r.body == Tokens(accessToken(id), refreshToken(id), id, "Login successful")
    ensures !Missing(username) && !Missing(password) && r.status != 200 ==> r == Reply(401, Error("Invalid credentials"))
  {
    if Missing(username) || Missing(password) then Reply(400, Error("Missing parameters"))
    else
      match UserByUsername(users, username.value)
      case Some(user) =>
        if VerifyPassword(password.value, user.password, sha256) then
          Reply(200, Tokens(accessToken(user.id), refreshToken(user.id), user.id, "Login successful"))
        else Reply(401, Error("Invalid credentials"))
      case None => Reply(401, Error("Invalid credentials"))
  }

  /**
   * A registration that register answers with 500 has nevertheless stored the
   * user: logging in with the same username and password succeeds.
   */
  method RegisterThenLogin(db: FlaskDb, username: string, password: string, email: string,
                           sha256: string -> Hash.Digest, accessToken: int -> string, refreshToken: int -> string)
    returns (registered: Reply<()>, login: Reply<()>)
    requires db.Valid()
    requires username != "" && password != "" && email != ""
    requires UserByUsername(db.users, username).None?
    modifies db
    ensures registered == Reply(500, Error("Failed to register user"))
    ensures login == Reply(200, Tokens(accessToken(old(db.nextUserId)), refreshToken(old(db.nextUserId)),
                                       old(db.nextUserId), "Login successful"))
  {
    var before := db.users;
    registered := Register(db, Some(username), Some(password), Some(email), sha256);
    var row := NewUser(old(db.nextUserId), username, Hash.Sha256Hex(password, sha256), email);
    IndexWhereAppend(before, WithUsername(username), row);
    login := Login(db.users, Some(username), Some(password), sha256, accessToken, refreshToken);
  }

  // ---------------------------------------------------------------------------
  // api_get_foryou (api/app.py:982-988) and api_get_categories (api/app.py:990-993)
  // ---------------------------------------------------------------------------

  /**
   * api_get_foryou as written: user id 0 is refused with 404; any other id
   * gets what get_foryou returns, which as written is always the empty list
   * (the query names columns the schema lacks, and the error is caught).
   */
  function ApiGetForYou(events: seq<FlaskEvent>, saved: seq<SavedRow>, links: seq<EventCategory>,
                        categories: seq<Category>, settings: seq<UserSettings>,
                        haversine: (real, real, real, real) -> Option<real>,
                        networking: (FlaskEvent, UserSettings) -> bool,
                        userId: nat, now: int): (r: Reply<seq<ForYouRow>>)
    ensures userId == 0 <==> r == Reply(404, Error("User not found"))
    ensures userId != 0 <==> r == Reply(200, Json([]))
  {
    if userId == 0 then Reply(404, Error("User not found"))
    else
      ForYouAsWrittenIsEmpty(events, saved, links, categories, settings, haversine, networking, userId, now);
      Reply(200, Json(GetForYouAsWritten(events, saved, links, categories, settings, haversine, networking, userId, now)))
  }

  /**
   * api_get_foryou over the corrected query: user id 0 is refused with 404;
   * any other id gets the ranked list, which is empty for a user without
   * settings.
   */
  function ApiGetForYouFixed(events: seq<FlaskEvent>, saved: seq<SavedRow>, links: seq<EventCategory>,
                             categories: seq<Category>, settings: seq<UserSettings>,
                             haversine: (real, real, real, real) -> Option<real>,
                             userId: nat, now: int): (r: Reply<seq<ForYouRow>>)
    ensures userId == 0 <==> r == Reply(404, Error("User not found"))
    ensures userId != 0 ==> r.status == 200 && r.body.Json? && |r.body.value| <= 50
    ensures userId != 0 && SettingsFor(settings, userId).None? ==> r == Reply(200, Json([]))
    ensures r.status == 200 ==> r.body.Json? && r.body.value == GetForYou(events, saved, links, categories, settings, haversine, userId, now)
  {
    if userId == 0 then Reply(404, Error("User not found"))
    else Reply(200, Json(GetForYou(events, saved, links, categories, settings, haversine, userId, now)))
  }

  function NameOf(c: Category): Option<string> {
    c.name
  }

  /** api_get_categories: every category's name, in the order get_all_categories returns them. */
  function ApiGetCategories(categories: seq<Category>): (r: Reply<seq<Option<string>>>)
    ensures r.status == 200 && r.body.Json?
    ensures |r.body.value| == |categories|
    ensures forall c :: c in categories ==> c.name in r.body.value
    ensures forall i :: 0 <= i < |r.body.value| ==>
              r.body.value[i] == GetAllCategories(categories)[i].name
  {
    var sorted := GetAllCategories(categories);
    var names := MapSeq(sorted, NameOf);
    forall c | c in categories ensures c.name in names {
      assert c in multiset(sorted);
      var k :| 0 <= k < |sorted| && sorted[k] == c;
      assert names[k] == c.name;
    }
    Reply(200, Json(names))
  }
}
