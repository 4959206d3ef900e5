/**
 * The Flask service's event queries (api/app.py), with their SQL restated over
 * in-memory rows: get_events, get_foryou and get_all_categories.
 *
 * SQL NULL is `None`. A comparison with NULL on either side is not true, so a
 * CASE WHEN on it takes the ELSE branch and a WHERE or HAVING on it drops the
 * row. The haversine expression is floating point; it is a parameter, applied
 * only when all four coordinates are present (`SqlDistance`).
 */
module FlaskQueries {
  import opened Wrappers
  import opened Seqs
  import opened Sorting

  /** A row of `event`, with the columns these queries read. */
  datatype FlaskEvent = FlaskEvent(
    id: int, title: Option<string>, latitude: Option<real>, longitude: Option<real>,
    start_time: Option<int>, language: Option<string>, event_size: Option<int>,
    age_restriction: Option<int>, indoor_outdoor: Option<int>, interactivity_level: Option<int>,
    expected_crowd_size: Option<int>, novelty_factor: Option<int>, skill_level_required: Option<int>)

  /** A row of `usersettings`, with the columns get_foryou reads. */
  datatype UserSettings = UserSettings(
    user_id: int, latitude: Option<real>, longitude: Option<real>, radius: Option<int>,
    preferred_languages: Option<string>, preferred_event_size: Option<int>,
    age_preference: Option<int>, indoor_outdoor_preference: Option<int>,
    interactivity_preference: Option<int>, crowding_preference: Option<int>,
    novelty_preference: Option<int>, skill_level_preference: Option<int>)

  datatype SavedRow = SavedRow(id: int, user_id: int, event_id: int)
  datatype EventCategory = EventCategory(event_id: Option<int>, category_id: Option<int>)
  datatype Category = Category(id: int, name: Option<string>, order_index: Option<int>)

  /** The columns the schema creates for `event` (api/app.py:170-196). */
  const EventColumns: set<string> := {
    "id", "title", "description", "image_url", "latitude", "longitude", "organizer_id",
    "start_time", "end_time", "price_structure", "category", "language", "event_size",
    "accessibility_features", "age_restriction", "indoor_outdoor", "interactivity_level",
    "expected_crowd_size", "novelty_factor", "skill_level_required", "created_at", "updated_at"}

  /** The columns the schema creates for `usersettings` (api/app.py:128-157). */
  const UserSettingsColumns: set<string> := {
    "id", "user_id", "selected_categories", "latitude", "longitude", "radius",
    "include_international", "notifications_enabled", "preferred_languages",
    "preferred_event_size", "price_range", "preferred_times", "accessibility_needs",
    "age_preference", "transport_preference", "indoor_outdoor_preference", "social_preference",
    "mood_preference", "weather_preference", "spontaneity_level", "interactivity_preference",
    "crowding_preference", "novelty_preference", "skill_level_preference"}

  /** The great-circle distance in km, NULL when a coordinate is NULL or acos leaves its domain. */
  function SqlDistance(haversine: (real, real, real, real) -> Option<real>,
                       lat1: Option<real>, lon1: Option<real>,
                       lat2: Option<real>, lon2: Option<real>): (d: Option<real>)
    ensures d.Some? ==> lat1.Some? && lon1.Some? && lat2.Some? && lon2.Some?
  {
    if lat1.Some? && lon1.Some? && lat2.Some? && lon2.Some? then
      haversine(lat1.value, lon1.value, lat2.value, lon2.value)
    else None
  }

  // ---------------------------------------------------------------------------
  // The joins shared by both queries
  // ---------------------------------------------------------------------------

  /** LEFT JOIN category c ON ec.category_id = c.id: the names joined, or one NULL. */
  function NamesOfCategory(categories: seq<Category>, categoryId: Option<int>): (names: seq<Option<string>>)
    ensures |names| >= 1
    ensures None !in names ==> forall n :: n in names ==> exists c :: c in categories && Some(c.id) == categoryId && n == c.name
  {
    var joined := Filter(categories, (c: Category) => categoryId == Some(c.id));
    if joined == [] then [None]
    else MapSeq(joined, (c: Category) => c.name)
  }

  function LinksTo(eventId: int): EventCategory -> bool {
    (ec: EventCategory) => ec.event_id == Some(eventId)
  }

  /**
   * GROUP BY e.id, c.name after the category LEFT JOINs: the distinct category
   * names of the event, or the single NULL group when it has no category row.
   */
  function CategoryGroups(eventId: int, links: seq<EventCategory>, categories: seq<Category>): (groups: seq<Option<string>>)
    ensures |groups| >= 1
    ensures forall i, j :: 0 <= i < j < |groups| ==> groups[i] != groups[j]
    ensures (forall ec :: ec in links ==> !LinksTo(eventId)(ec)) ==> groups == [None]
  {
    var joined := FlatMap(Filter(links, LinksTo(eventId)), (ec: EventCategory) => NamesOfCategory(categories, ec.category_id));
    if joined == [] then [None] else Distinct(joined)
  }

  function ForEvent(eventId: int): SavedRow -> bool {
    (s: SavedRow) => s.event_id == eventId
  }

  /** CASE WHEN se.event_id IS NOT NULL: the event is saved by some user, whoever asks. */
  predicate SavedByAnyone(saved: seq<SavedRow>, eventId: int) {
    Any(saved, ForEvent(eventId))
  }

  /**
   * COUNT(DISTINCT se.id) over the saved rows joined to the event; the saved
   * rows' ids are their primary key, so this is the number of those rows.
   */
  function AmountSaved(saved: seq<SavedRow>, eventId: int): (n: nat)
    ensures n <= |saved|
    ensures n == 0 <==> !SavedByAnyone(saved, eventId)
  {
    Count(saved, ForEvent(eventId))
  }

  // ---------------------------------------------------------------------------
  // get_events (api/app.py:504-524)
  // ---------------------------------------------------------------------------

  /** One result row of get_events. */
  datatype EventsRow = EventsRow(event: FlaskEvent, category: Option<string>, distance: real,
                                 is_saved: bool, amount_saved: nat)

  /** WHERE e.start_time >= start_date AND e.start_time <= end_date. */
  predicate InWindow(e: FlaskEvent, startDate: int, endDate: int) {
    e.start_time.Some? && startDate <= e.start_time.value <= endDate
  }

  function Within(startDate: int, endDate: int): FlaskEvent -> bool {
    (e: FlaskEvent) => InWindow(e, startDate, endDate)
  }

  /** The distance of the event from the given point, as the query computes it. */
  function DistanceFrom(haversine: (real, real, real, real) -> Option<real>,
                        latitude: real, longitude: real, e: FlaskEvent): Option<real> {
    SqlDistance(haversine, Some(latitude), Some(longitude), e.latitude, e.longitude)
  }

  /** `row` is a group the query forms for its event, with the values it computes. */
  predicate IsEventsRow(saved: seq<SavedRow>, links: seq<EventCategory>, categories: seq<Category>,
                        haversine: (real, real, real, real) -> Option<real>,
                        latitude: real, longitude: real, radius: real, row: EventsRow) {
    && DistanceFrom(haversine, latitude, longitude, row.event) == Some(row.distance)
    && row.distance <= radius
    && row.category in CategoryGroups(row.event.id, links, categories)
    && row.is_saved == SavedByAnyone(saved, row.event.id)
    && row.amount_saved == AmountSaved(saved, row.event.id)
  }

  /** The groups of one event that survive HAVING distance <= radius. */
  function EventsRowsOf(saved: seq<SavedRow>, links: seq<EventCategory>, categories: seq<Category>,
                        haversine: (real, real, real, real) -> Option<real>,
                        latitude: real, longitude: real, radius: real, e: FlaskEvent): (rows: seq<EventsRow>)
    ensures forall row :: row in rows <==>
              row.event == e && IsEventsRow(saved, links, categories, haversine, latitude, longitude, radius, row)
  {
    var d := DistanceFrom(haversine, latitude, longitude, e);
    if d.None? || d.value > radius then []
    else
      var groups := CategoryGroups(e.id, links, categories);
      var rows := MapSeq(groups, (c: Option<string>) => EventsRow(e, c, d.value, SavedByAnyone(saved, e.id), AmountSaved(saved, e.id)));
      forall row: EventsRow | row.event == e && IsEventsRow(saved, links, categories, haversine, latitude, longitude, radius, row)
        ensures row in rows
      {
        var k :| 0 <= k < |groups| && groups[k] == row.category;
        assert rows[k] == row;
      }
      rows
  }

  /** ORDER BY e.start_time. */
  function ByStartTime(): (EventsRow, EventsRow) -> bool {
    (a: EventsRow, b: EventsRow) => a.event.start_time.GetOr(0) <= b.event.start_time.GetOr(0)
  }

  lemma ByStartTimeIsPreorder()
    ensures TotalPreorder(ByStartTime())
  {
  }

  /** The groups of the events in the window and the radius, before ordering. */
  function EventsCandidates(events: seq<FlaskEvent>, saved: seq<SavedRow>, links: seq<EventCategory>,
                            categories: seq<Category>, haversine: (real, real, real, real) -> Option<real>,
                            latitude: real, longitude: real, radius: real,
                            startDate: int, endDate: int): (c: seq<EventsRow>)
    ensures forall row :: row in c <==>
              && row.event in events
              && InWindow(row.event, startDate, endDate)
              && IsEventsRow(saved, links, categories, haversine, latitude, longitude, radius, row)
  {
    var window := Filter(events, Within(startDate, endDate));
    var f := (e: FlaskEvent) => EventsRowsOf(saved, links, categories, haversine, latitude, longitude, radius, e);
    var c := FlatMap(window, f);
    forall row: EventsRow | row.event in events && InWindow(row.event, startDate, endDate)
                 && IsEventsRow(saved, links, categories, haversine, latitude, longitude, radius, row)
      ensures row in c
    {
      var i :| 0 <= i < |window| && window[i] == row.event;
      assert row in f(window[i]);
    }
    c
  }

  /**
   * get_events: the events starting inside [start_date, end_date] and within
   * `radius` km of the point, one row per category name, earliest first. The
   * user id plays no part, so is_saved and amount_saved count every user's saves.
   */
  function GetEvents(events: seq<FlaskEvent>, saved: seq<SavedRow>, links: seq<EventCategory>,
                     categories: seq<Category>, haversine: (real, real, real, real) -> Option<real>,
                     latitude: real, longitude: real, radius: real,
                     startDate: int, endDate: int): (rows: seq<EventsRow>)
    ensures multiset(rows) == multiset(EventsCandidates(events, saved, links, categories, haversine,
                                                        latitude, longitude, radius, startDate, endDate))
    ensures forall i, j :: 0 <= i < j < |rows| ==>
              rows[i].event.start_time.GetOr(0) <= rows[j].event.start_time.GetOr(0)
  {
    var c := EventsCandidates(events, saved, links, categories, haversine, latitude, longitude, radius, startDate, endDate);
    ByStartTimeIsPreorder();
    SortBySorted(c, ByStartTime());
    SortBy(c, ByStartTime())
  }

  /** A row is in the result of get_events exactly when it is one of the groups the query keeps. */
  lemma GetEventsRows(events: seq<FlaskEvent>, saved: seq<SavedRow>, links: seq<EventCategory>,
                      categories: seq<Category>, haversine: (real, real, real, real) -> Option<real>,
                      latitude: real, longitude: real, radius: real,
                      startDate: int, endDate: int, row: EventsRow)
    ensures row in GetEvents(events, saved, links, categories, haversine, latitude, longitude, radius, startDate, endDate)
            <==> row in EventsCandidates(events, saved, links, categories, haversine, latitude, longitude, radius, startDate, endDate)
  {
    var rows := GetEvents(events, saved, links, categories, haversine, latitude, longitude, radius, startDate, endDate);
    assert row in rows <==> row in multiset(rows);
  }

  // ---------------------------------------------------------------------------
  // get_foryou (api/app.py:559-633)
  // ---------------------------------------------------------------------------

  /** `a = b` inside CASE WHEN: true only when both sides are present and equal. */
  predicate SqlEq<T(==)>(a: Option<T>, b: Option<T>) {
    a.Some? && b.Some? && a.value == b.value
  }

  /** The eight equality terms whose columns exist in the schema. */
  predicate SizeMatch(e: FlaskEvent, us: UserSettings) { SqlEq(e.event_size, us.preferred_event_size) }
  predicate LanguageMatch(e: FlaskEvent, us: UserSettings) { SqlEq(e.language, us.preferred_languages) }
  predicate AgeMatch(e: FlaskEvent, us: UserSettings) { SqlEq(e.age_restriction, us.age_preference) }
  predicate SettingMatch(e: FlaskEvent, us: UserSettings) { SqlEq(e.indoor_outdoor, us.indoor_outdoor_preference) }
  predicate InteractivityMatch(e: FlaskEvent, us: UserSettings) { SqlEq(e.interactivity_level, us.interactivity_preference) }
  predicate CrowdMatch(e: FlaskEvent, us: UserSettings) { SqlEq(e.expected_crowd_size, us.crowding_preference) }
  predicate NoveltyMatch(e: FlaskEvent, us: UserSettings) { SqlEq(e.novelty_factor, us.novelty_preference) }
  predicate SkillMatch(e: FlaskEvent, us: UserSettings) { SqlEq(e.skill_level_required, us.skill_level_preference) }

  predicate AnyPreferenceMatch(e: FlaskEvent, us: UserSettings) {
    SizeMatch(e, us) || LanguageMatch(e, us) || AgeMatch(e, us) || SettingMatch(e, us)
    || InteractivityMatch(e, us) || CrowdMatch(e, us) || NoveltyMatch(e, us) || SkillMatch(e, us)
  }

  function Points(matches: bool, points: nat): nat {
    if matches then points else 0
  }

  /** The eight existing equality terms, ten points each. */
  function PreferencePoints(e: FlaskEvent, us: UserSettings): (p: nat)
    ensures p <= 80
    ensures p > 0 <==> AnyPreferenceMatch(e, us)
  {
    Points(SizeMatch(e, us), 10) + Points(LanguageMatch(e, us), 10) + Points(AgeMatch(e, us), 10)
    + Points(SettingMatch(e, us), 10) + Points(InteractivityMatch(e, us), 10)
    + Points(CrowdMatch(e, us), 10) + Points(NoveltyMatch(e, us), 10) + Points(SkillMatch(e, us), 10)
  }

  /** distance <= us.radius, with NULL on either side failing. */
  predicate InRadius(haversine: (real, real, real, real) -> Option<real>, e: FlaskEvent, us: UserSettings) {
    var d := SqlDistance(haversine, us.latitude, us.longitude, e.latitude, e.longitude);
    d.Some? && us.radius.Some? && d.value <= us.radius.value as real
  }

  /**
   * compatibility_score: ten points per equal preference pair, ten more when the
   * `networking` term holds, and fifteen when the event lies within the radius.
   */
  function CompatibilityScore(haversine: (real, real, real, real) -> Option<real>,
                              networking: (FlaskEvent, UserSettings) -> bool,
                              e: FlaskEvent, us: UserSettings): (score: nat)
    ensures score <= 105
    ensures score > 0 <==> AnyPreferenceMatch(e, us) || networking(e, us) || InRadius(haversine, e, us)
    ensures !networking(e, us) ==> score <= 95
  {
    PreferencePoints(e, us) + Points(networking(e, us), 10) + Points(InRadius(haversine, e, us), 15)
  }

  /** One result row of get_foryou. */
  datatype ForYouRow = ForYouRow(event: FlaskEvent, category: Option<string>, is_saved: bool,
                                 amount_saved: nat, compatibility_score: nat)

  /** WHERE e.start_time >= UNIX_TIMESTAMP(). */
  function Upcoming(now: int): FlaskEvent -> bool {
    (e: FlaskEvent) => e.start_time.Some? && e.start_time.value >= now
  }

  /** `row` is a group the query forms for its event against settings `us`, with the values it computes. */
  predicate IsForYouRow(saved: seq<SavedRow>, links: seq<EventCategory>, categories: seq<Category>,
                        haversine: (real, real, real, real) -> Option<real>,
                        networking: (FlaskEvent, UserSettings) -> bool,
                        us: UserSettings, row: ForYouRow) {
    && row.compatibility_score == CompatibilityScore(haversine, networking, row.event, us)
    && row.compatibility_score > 0
    && row.category in CategoryGroups(row.event.id, links, categories)
    && row.is_saved == SavedByAnyone(saved, row.event.id)
    && row.amount_saved == AmountSaved(saved, row.event.id)
  }

  /** The scored groups of one event that survive HAVING compatibility_score > 0. */
  function ForYouRowsOf(saved: seq<SavedRow>, links: seq<EventCategory>, categories: seq<Category>,
                        haversine: (real, real, real, real) -> Option<real>,
                        networking: (FlaskEvent, UserSettings) -> bool,
                        us: UserSettings, e: FlaskEvent): (rows: seq<ForYouRow>)
    ensures forall row :: row in rows <==>
              row.event == e && IsForYouRow(saved, links, categories, haversine, networking, us, row)
  {
    var score := CompatibilityScore(haversine, networking, e, us);
    if score == 0 then []
    else
      var groups := CategoryGroups(e.id, links, categories);
      var rows := MapSeq(groups, (c: Option<string>) => ForYouRow(e, c, SavedByAnyone(saved, e.id), AmountSaved(saved, e.id), score));
      forall row: ForYouRow | row.event == e && IsForYouRow(saved, links, categories, haversine, networking, us, row)
        ensures row in rows
      {
        var k :| 0 <= k < |groups| && groups[k] == row.category;
        assert rows[k] == row;
      }
      rows
  }

  /** ORDER BY compatibility_score DESC, e.start_time. */
  function BestFirst(): (ForYouRow, ForYouRow) -> bool {
    (a: ForYouRow, b: ForYouRow) =>
      a.compatibility_score > b.compatibility_score
      || (a.compatibility_score == b.compatibility_score
          && a.event.start_time.GetOr(0) <= b.event.start_time.GetOr(0))
  }

  lemma BestFirstIsPreorder()
    ensures TotalPreorder(BestFirst())
  {
  }

  /** The candidates of the ranking: every upcoming event with a positive score, per category group. */
  function ForYouCandidates(events: seq<FlaskEvent>, saved: seq<SavedRow>, links: seq<EventCategory>,
                            categories: seq<Category>, haversine: (real, real, real, real) -> Option<real>,
                            networking: (FlaskEvent, UserSettings) -> bool,
                            us: UserSettings, now: int): (c: seq<ForYouRow>)
    ensures forall row :: row in c <==>
              row.event in events && Upcoming(now)(row.event)
              && IsForYouRow(saved, links, categories, haversine, networking, us, row)
  {
    var upcoming := Filter(events, Upcoming(now));
    var f := (e: FlaskEvent) => ForYouRowsOf(saved, links, categories, haversine, networking, us, e);
    var c := FlatMap(upcoming, f);
    forall row: ForYouRow | row.event in events && Upcoming(now)(row.event)
                 && IsForYouRow(saved, links, categories, haversine, networking, us, row)
      ensures row in c
    {
      var i :| 0 <= i < |upcoming| && upcoming[i] == row.event;
      assert row in f(upcoming[i]);
    }
    c
  }

  /**
   * The ranked result for one settings row: at most 50 candidates, highest
   * score first and earlier start first among equal scores; every candidate
   * left out ranks no better than every row kept.
   */
  function RankForYou(events: seq<FlaskEvent>, saved: seq<SavedRow>, links: seq<EventCategory>,
                      categories: seq<Category>, haversine: (real, real, real, real) -> Option<real>,
                      networking: (FlaskEvent, UserSettings) -> bool,
                      us: UserSettings, now: int): (r: seq<ForYouRow>)
    ensures |r| <= 50
    ensures forall row :: row in r ==> row in ForYouCandidates(events, saved, links, categories, haversine, networking, us, now)
    ensures forall i, j :: 0 <= i < j < |r| ==> BestFirst()(r[i], r[j])
    ensures forall x :: x in ForYouCandidates(events, saved, links, categories, haversine, networking, us, now) && x !in r ==>
              |r| == 50 && forall i :: 0 <= i < |r| ==> BestFirst()(r[i], x)
  {
    BestFirstIsPreorder();
    TopBy(ForYouCandidates(events, saved, links, categories, haversine, networking, us, now), BestFirst(), 50)
  }

  function SettingsOf(userId: int): UserSettings -> bool {
    (us: UserSettings) => us.user_id == userId
  }

  /** JOIN usersettings us ON us.user_id = %s: the user's settings row, if there is one. */
  function SettingsFor(settings: seq<UserSettings>, userId: int): (us: Option<UserSettings>)
    ensures us.None? <==> forall i :: 0 <= i < |settings| ==> settings[i].user_id != userId
    ensures us.Some? ==> us.value in settings && us.value.user_id == userId
  {
    match IndexWhere(settings, SettingsOf(userId))
    case None => None
    case Some(k) => Some(settings[k])
  }

  /** The outcome of running a query: its rows, or the error for a column the schema lacks. */
  datatype QueryResult<+T> = Rows(rows: seq<T>) | UnknownColumn(column: string)

  /**
   * The get_foryou query as written: its ninth term compares
   * e.networking_opportunities with us.networking_interest, and `networking`
   * stands for that comparison. A query naming a column the table lacks fails
   * before it reads any row.
   */
  function ForYouQuery(eventColumns: set<string>, settingsColumns: set<string>,
                       events: seq<FlaskEvent>, saved: seq<SavedRow>, links: seq<EventCategory>,
                       categories: seq<Category>, settings: seq<UserSettings>,
                       haversine: (real, real, real, real) -> Option<real>,
                       networking: (FlaskEvent, UserSettings) -> bool,
                       userId: int, now: int): (q: QueryResult<ForYouRow>)
    ensures q.UnknownColumn? <==> "networking_opportunities" !in eventColumns || "networking_interest" !in settingsColumns
    ensures q.Rows? ==> |q.rows| <= 50 && forall row :: row in q.rows ==> row.compatibility_score <= 105
  {
    if "networking_opportunities" !in eventColumns then UnknownColumn("e.networking_opportunities")
    else if "networking_interest" !in settingsColumns then UnknownColumn("us.networking_interest")
    else match SettingsFor(settings, userId)
      case None => Rows([])
      case Some(us) => Rows(RankForYou(events, saved, links, categories, haversine, networking, us, now))
  }

  /** get_foryou as written: a database error is caught and turned into an empty list. */
  function GetForYouAsWritten(events: seq<FlaskEvent>, saved: seq<SavedRow>, links: seq<EventCategory>,
                              categories: seq<Category>, settings: seq<UserSettings>,
                              haversine: (real, real, real, real) -> Option<real>,
                              networking: (FlaskEvent, UserSettings) -> bool,
                              userId: int, now: int): (r: seq<ForYouRow>)
    ensures |r| <= 50
  {
    match ForYouQuery(EventColumns, UserSettingsColumns, events, saved, links, categories, settings,
                      haversine, networking, userId, now)
    case UnknownColumn(_) => []
    case Rows(rows) => rows
  }

  /** Neither column of the ninth term exists in the schema the service creates. */
  lemma NetworkingColumnsMissing()
    ensures "networking_opportunities" !in EventColumns
    ensures "networking_interest" !in UserSettingsColumns
  {
  }

  /** Against the schema the service creates, get_foryou never returns a row. */
  lemma ForYouAsWrittenIsEmpty(events: seq<FlaskEvent>, saved: seq<SavedRow>, links: seq<EventCategory>,
                               categories: seq<Category>, settings: seq<UserSettings>,
                               haversine: (real, real, real, real) -> Option<real>,
                               networking: (FlaskEvent, UserSettings) -> bool,
                               userId: int, now: int)
    ensures GetForYouAsWritten(events, saved, links, categories, settings, haversine, networking, userId, now) == []
  {
    NetworkingColumnsMissing();
  }

  /** No settings row has a networking column, so the corrected score drops the ninth term. */
  function NoNetworking(): (FlaskEvent, UserSettings) -> bool {
    (e: FlaskEvent, us: UserSettings) => false
  }

  /**
   * get_foryou with the ninth term removed: nothing for a user without a
   * settings row, otherwise the ranked upcoming events with a positive score;
   * such an event is left out only when 50 rows are kept, none ranking below it.
   */
  function GetForYou(events: seq<FlaskEvent>, saved: seq<SavedRow>, links: seq<EventCategory>,
                     categories: seq<Category>, settings: seq<UserSettings>,
                     haversine: (real, real, real, real) -> Option<real>,
                     userId: int, now: int): (r: seq<ForYouRow>)
    ensures SettingsFor(settings, userId).None? ==> r == []
    ensures |r| <= 50
    ensures forall row :: row in r ==>
              && row.event in events
              && row.event.start_time.Some? && row.event.start_time.value >= now
              && 0 < row.compatibility_score <= 95
              && row.compatibility_score == CompatibilityScore(haversine, NoNetworking(), row.event, SettingsFor(settings, userId).value)
    ensures forall i, j :: 0 <= i < j < |r| ==>
              || r[i].compatibility_score > r[j].compatibility_score
              || (r[i].compatibility_score == r[j].compatibility_score
                  && r[i].event.start_time.GetOr(0) <= r[j].event.start_time.GetOr(0))
    ensures SettingsFor(settings, userId).Some? ==>
              var us := SettingsFor(settings, userId).value;
              forall x :: x in ForYouCandidates(events, saved, links, categories, haversine, NoNetworking(), us, now) && x !in r ==>
                |r| == 50 && forall i :: 0 <= i < |r| ==> BestFirst()(r[i], x)
    ensures SettingsFor(settings, userId).Some? ==>
              r == RankForYou(events, saved, links, categories, haversine, NoNetworking(), SettingsFor(settings, userId).value, now)
  {
    match SettingsFor(settings, userId)
    case None => []
    case Some(us) =>
      var r := RankForYou(events, saved, links, categories, haversine, NoNetworking(), us, now);
      assert forall i, j :: 0 <= i < j < |r| ==> BestFirst()(r[i], r[j]);
      r
  }

  // ---------------------------------------------------------------------------
  // get_all_categories (api/app.py:268-280)
  // ---------------------------------------------------------------------------

  /** ORDER BY order_index ASC, where NULL sorts before every number. */
  function ByOrderIndex(): (Category, Category) -> bool {
    (a: Category, b: Category) =>
      a.order_index.None? || (b.order_index.Some? && a.order_index.value <= b.order_index.value)
  }

  lemma ByOrderIndexIsPreorder()
    ensures TotalPreorder(ByOrderIndex())
  {
    var le := ByOrderIndex();
    forall a, b ensures le(a, b) || le(b, a) {
      if a.order_index.Some? && b.order_index.Some? {
        assert a.order_index.value <= b.order_index.value || b.order_index.value <= a.order_index.value;
      }
    }
  }

  /** All categories, unnumbered ones first, then by ascending order_index. */
  function GetAllCategories(categories: seq<Category>): (r: seq<Category>)
    ensures multiset(r) == multiset(categories)
    ensures forall i, j :: 0 <= i < j < |r| && r[j].order_index.None? ==> r[i].order_index.None?
    ensures forall i, j :: 0 <= i < j < |r| && r[i].order_index.Some? && r[j].order_index.Some? ==>
              r[i].order_index.value <= r[j].order_index.value
  {
    ByOrderIndexIsPreorder();
    SortBySorted(categories, ByOrderIndex());
    SortBy(categories, ByOrderIndex())
  }
}
