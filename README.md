# EventBuddy core in Dafny

This project models the behaviour of EventBuddy, an event-discovery app. It covers three parts:

- **The .NET API.** Tickets, friend requests, user accounts, saved events, the personalised event ranking, the home feed, the search endpoint and the SHA-256 password hex encoder.
- **The Flask API.** The register, login, saved-event, "for you" and category handlers, with the SQL of `get_events` and `get_foryou` restated over in-memory rows.
- **Front-end state helpers of the React Native app.** The search bar's tags and parameters, the date-range calendar picker, and the registration and personalisation wizards.

How the model is laid out:

- **Tables.** Each database table is a sequence of rows in primary-key order, and each identity column has a counter. The .NET database context is the class `Data.EventbuddyDb`, and the Flask `user` and `saved_event` tables are the class `FlaskApi.FlaskDb`.
- **Endpoints.** An endpoint that writes is a method that `modifies` the context. It states what it answers and the whole new state. An endpoint that only reads is a function over the tables.
- **Foreign calls are parameters.** This covers SHA-256, HMAC, Base64, GUIDs, clocks, token generators, the haversine distance and the float terms of the .NET match score.
- **Front-end components.** Each component with React state is a class whose fields are the state variables. Its handlers are methods. The router, `signUp` and `onDateChange` are recorded as sequences of calls.

Module map:

- Shared building blocks:
  - `Wrappers` (Option) and `Http` (Ok / NotFound / BadRequest responses);
  - `Seqs` (Where, FirstOrDefault, Count, Take);
  - `Sorting` (a stable sort by a total preorder, and `TopBy`, which is ORDER BY … LIMIT);
  - `Text` (Contains and IndexOf).
- The .NET API: `Data`, `TicketModel`, `TicketsController`, `FriendRequestsController`, `UsersController`, `SavedEventsController`, `EventsController`, `FeedSectionService`, `RecommendationService`, `SearchEndpoint` and `Hash`.
- The Flask API: `FlaskQueries` and `FlaskApi`.
- The front end: `ListToggle`, `SearchBarComponent`, `CalendarPickerComponent`, `RegisterWizard` and `PersonalizationWizard`.

## Model

| member | source | states |
|---|---|---|
| TicketModel.FreshTicket | eventbuddy_api/Models/TicketModel.cs:11-24 | a new ticket is valid, with no UsedAt, ResoldAt, PreviousOwnerId, QR code or hash, for the given owner and event |
| TicketModel.WithQRCode | eventbuddy_api/Models/TicketModel.cs:25-34 | the QR code is derived from id, owner, event, identifier and ticks; the seal is taken over the fields including the new code; nothing else changes |
| TicketModel.Resold | eventbuddy_api/Models/TicketModel.cs:36-44 | the previous owner is recorded, the new owner set, the ticket revalidated with a new identifier and QR code; Id, EventId, CreatedAt and UsedAt are kept |
| TicketModel.GeneratedVerifiesIffValid | eventbuddy_api/Models/TicketModel.cs:25-59 | right after GenerateQRCode, VerifyTicket answers exactly IsValid |
| TicketModel.InvalidNeverVerifies | eventbuddy_api/Models/TicketModel.cs:56-59 | an invalid ticket never verifies, whatever its hash |
| TicketModel.ResoldVerifies | eventbuddy_api/Models/TicketModel.cs:36-59 | a resold ticket verifies and still carries its old UsedAt |
| TicketModel.Ticket.constructor | eventbuddy_api/Models/TicketModel.cs:11-24 | the new ticket object holds FreshTicket: valid, unused, unsold, without code or hash |
| TicketModel.Ticket.UpdateSecurityHash | eventbuddy_api/Models/TicketModel.cs:46-54 | the seal of the object's current fields |
| TicketModel.Ticket.VerifyTicket | eventbuddy_api/Models/TicketModel.cs:56-59 | the stored hash equals the seal of the current fields and the ticket is valid |
| TicketModel.Ticket.GenerateQRCode | eventbuddy_api/Models/TicketModel.cs:25-34 | the object's fields become WithQRCode of the old ones, after which VerifyTicket equals IsValid |
| TicketModel.Ticket.Resell | eventbuddy_api/Models/TicketModel.cs:36-44 | the object's fields become Resold of the old ones, and the ticket verifies |
| TicketsController.GetUserTickets | eventbuddy_api/Controller/TicketsController.cs:20-45 | always Ok; exactly the user's tickets, one view each, with their events; the info text depends only on emptiness |
| TicketsController.PurchaseTicket | eventbuddy_api/Controller/TicketsController.cs:48-75 | guard order: ticket already bought, user not found, event not found, sold out (a null limit never sells out), each answer given exactly when its guard is the first to fire; the purchase succeeds exactly when none fires; a rejection changes nothing; a purchase appends one ticket of the user for the event and adds one to that event's SoldTickets only; capacity and one-ticket-per-pair invariants are kept |
| TicketsController.SellKeepsCapacity | eventbuddy_api/Controller/TicketsController.cs:61-72 | selling one more ticket of an event that is not sold out keeps every event within its capacity |
| TicketsController.Issue | eventbuddy_api/Controller/TicketsController.cs:64-74 | the stored ticket is the fresh sealed ticket under the next key; the event's SoldTickets grows by one; every other table is unchanged |
| TicketsController.Admission | eventbuddy_api/Controller/TicketsController.cs:85-89 | a ticket is admitted exactly when it is valid and unused |
| TicketsController.ResoldUsedTicketRejected | eventbuddy_api/Controller/TicketsController.cs:88-89 | a used ticket that is resold is valid again yet refused as already used |
| TicketsController.VerifyTicket | eventbuddy_api/Controller/TicketsController.cs:78-96 | an unknown code gives NotFound; otherwise the first ticket with it is checked for validity, then use; admission sets UsedAt and clears IsValid on that ticket only |
| TicketsController.VerifyTwice | eventbuddy_api/Controller/TicketsController.cs:85-92 | after an admission, the same code is refused as no longer valid |
| FriendRequestsController.SendFriendRequest | eventbuddy_api/Controller/FriendRequestsController.cs:17-35 | BadRequest exactly when any request already links the pair in either direction, and then nothing changes; otherwise one pending request is appended; at most one request per unordered pair is kept |
| FriendRequestsController.FindRequest | eventbuddy_api/Controller/FriendRequestsController.cs:40-41 | the position of the request with that id, or none when no request has it |
| FriendRequestsController.RespondFriendRequest | eventbuddy_api/Controller/FriendRequestsController.cs:38-62 | an unknown id gives NotFound; "accepted" by the recipient marks it accepted and records one friendship from sender to recipient; "declined" by the recipient deletes it; anything else is BadRequest with no change |
| FriendRequestsController.Accept | eventbuddy_api/Controller/FriendRequestsController.cs:43-51 | the request's status becomes "accepted" and one friendship (sender, recipient) is appended |
| FriendRequestsController.Decline | eventbuddy_api/Controller/FriendRequestsController.cs:52-55 | the request is deleted and nothing else changes |
| FriendRequestsController.OnlyRequestOfPair | eventbuddy_api/Controller/FriendRequestsController.cs:19-34 | under one-request-per-pair, no other request links the same two users |
| FriendRequestsController.DeclineThenResend | eventbuddy_api/Controller/FriendRequestsController.cs:52-55 | once the recipient declines, the sender can send again |
| FriendRequestsController.GetFriendRequests | eventbuddy_api/Controller/FriendRequestsController.cs:65-71 | always Ok with the whole table; the "none found" text exactly when it is empty |
| UsersController.WithPreferences | eventbuddy_api/Controller/UsersController.cs:32-40 | the seven preference and location fields come from the request and every other field, identity, credentials, activity, scores, music styles and event types, is kept |
| UsersController.UpdateUserPreferences | eventbuddy_api/Controller/UsersController.cs:28-44 | NotFound for an unknown user with no change; otherwise only that user's row changes, to WithPreferences |
| UsersController.GetUserReceivedFriendRequests | eventbuddy_api/Controller/UsersController.cs:58-82 | NotFound exactly for an unknown user; otherwise exactly the pending requests addressed to the user, one entry each, with the sender's name |
| UsersController.GetUserFriends | eventbuddy_api/Controller/UsersController.cs:85-100 | NotFound exactly for an unknown user; otherwise one entry per friendship touching the user, naming the other end |
| UsersController.RemoveUserFriend | eventbuddy_api/Controller/UsersController.cs:103-135 | NotFound with no change when no friendship links the pair; otherwise that friendship goes and no request between the pair remains, while every other request stays |
| UsersController.Registered | eventbuddy_api/Controller/UsersController.cs:141-145 | the stored row has the hashed password, LastActiveDate now, and zero attendance, activity and social score |
| UsersController.RegisterUser | eventbuddy_api/Controller/UsersController.cs:139-150 | a null password faults with no change; otherwise the Registered row is appended under the next key |
| UsersController.RemoveUser | eventbuddy_api/Controller/UsersController.cs:153-175 | NotFound for an unknown user, BadRequest for a wrong password, each with no change; on success the user row is gone and no request or friendship mentions the user |
| UsersController.Unlink | eventbuddy_api/Controller/UsersController.cs:161-170 | exactly the requests and friendships that mention the user are removed |
| UsersController.Forget | eventbuddy_api/Controller/UsersController.cs:172 | the user row is removed and its key occurs nowhere else in the table |
| UsersController.ChangeUserPassword | eventbuddy_api/Controller/UsersController.cs:179-189 | NotFound for an unknown user; the new hash is stored only when the current password verifies, otherwise BadRequest with no change |
| UsersController.LoginUser | eventbuddy_api/Controller/UsersController.cs:193-203 | NotFound for an unknown username and for a wrong password, with no change; only a successful login updates LastActiveDate |
| SavedEventsController.ChangeSavedStatus | eventbuddy_api/Controller/SavedEventsController.cs:40-60 | flips whether the pair is saved and answers "Unsaved" or "Saved" accordingly; rows of other pairs are untouched; a save appends exactly one row |
| SavedEventsController.Unsave | eventbuddy_api/Controller/SavedEventsController.cs:42-48 | removes the one row of the pair, after which the pair is unsaved |
| SavedEventsController.ToggleTwice | eventbuddy_api/Controller/SavedEventsController.cs:42-60 | two toggles restore whether the pair is saved and every other pair's rows, and answer differently |
| SavedEventsController.JoinRowsSound | eventbuddy_api/Controller/SavedEventsController.cs:19-35 | every row of the join is the entry of an event the user saved |
| SavedEventsController.JoinRowsComplete | eventbuddy_api/Controller/SavedEventsController.cs:19-35 | every event the user saved has its entry in the join |
| SavedEventsController.GetSavedEventsByUser | eventbuddy_api/Controller/SavedEventsController.cs:17-37 | always Ok; the entries are exactly the entries of the events the user saved, one per saved row of the pair (JoinSize), so one per saved event while the table keeps one row per pair; each has EventSaved true and SavedAmount the event's save count over all users |
| SavedEventsController.JoinRowsSize | eventbuddy_api/Controller/SavedEventsController.cs:19-35 | the join has one row per pair of an event and a saved row of the user for it |
| SavedEventsController.AtMostOneSave | eventbuddy_api/Controller/SavedEventsController.cs:40-60 | with one saved row per (user, event) pair, a pair has one row when saved and none otherwise |
| SavedEventsController.OneEntryPerSavedEvent | eventbuddy_api/Controller/SavedEventsController.cs:19-35 | with one saved row per pair, the join has exactly one row per event the user saved |
| EventsController.Intersect | eventbuddy_api/Controller/EventsController.cs:69 | Enumerable.Intersect: the distinct shared styles |
| EventsController.MusicTerm | eventbuddy_api/Controller/EventsController.cs:69 | 5 points per distinct shared music style |
| EventsController.TypeTerm | eventbuddy_api/Controller/EventsController.cs:72-75 | 20 exactly when the user prefers the event's type, otherwise 0 |
| EventsController.AttendanceTerm | eventbuddy_api/Controller/EventsController.cs:82 | twice the attendance, capped at 20 |
| EventsController.MatchScore | eventbuddy_api/Controller/EventsController.cs:58-85 | the score is bounded by the float terms plus the music term plus 40 |
| EventsController.ByScoreDescendingIsPreorder | eventbuddy_api/Controller/EventsController.cs:36 | ordering by descending score is a total preorder |
| EventsController.Candidates | eventbuddy_api/Controller/EventsController.cs:26-35 | exactly the events starting after now, each with its score |
| EventsController.Ranking | eventbuddy_api/Controller/EventsController.cs:30-37 | at most 50 candidates, as many as there are up to 50, scores non-increasing, and no left-out candidate scores higher than the last kept one |
| EventsController.RankedList | eventbuddy_api/Controller/EventsController.cs:38-49 | the ranking as listed: future events, scores non-increasing, EventSaved exactly when the user saved the event |
| EventsController.GetEventsForUserID | eventbuddy_api/Controller/EventsController.cs:18-56 | NotFound "User not found" for an unknown user; NotFound "No events found" exactly when no event is in the future; otherwise the ranked list |
| EventsController.GetEventByID | eventbuddy_api/Controller/EventsController.cs:88-96 | NotFound exactly when no event has the id; otherwise an event with that id |
| EventsController.PostEvent | eventbuddy_api/Controller/EventsController.cs:99-104 | appends the posted event under the next key and answers "Event created" |
| FeedSectionService.SquaredDistance | eventbuddy_api/Services/FeedSectionService.cs:28-31 | the squared coordinate distance, with a missing coordinate read as 0, is never negative |
| FeedSectionService.GetNearbyEvents | eventbuddy_api/Services/FeedSectionService.cs:20-36 | empty for an unknown user or a null radius; otherwise min(n, 10) of the n events that have not ended and lie within the radius, nearest first; a candidate is left out only when ten are kept, none farther than it |
| FeedSectionService.NearerIsPreorder | eventbuddy_api/Services/FeedSectionService.cs:30-31 | ordering by squared distance is a total preorder |
| FeedSectionService.LatestEvent | eventbuddy_api/Services/FeedSectionService.cs:37 | an event of the table whose Id is the largest |
| FeedSectionService.GetSpotlightEvent | eventbuddy_api/Services/FeedSectionService.cs:37 | the event with the largest Id, or a default event for an empty table |
| FeedSectionService.GetFeed | eventbuddy_api/Services/FeedSectionService.cs:10-18 | exactly the three section keys; one spotlight event; at most 10 personalised and 10 nearby events |
| RecommendationService.GetPersonalizedFeed | eventbuddy_api/Services/RecommendationService.cs:11-16 | min(n, 10) of the n events that start at or after now, taken in table order (see Left out) |
| RecommendationService.FeedIgnoresUser | eventbuddy_api/Services/RecommendationService.cs:13-15 | the feed is the same for every user id, known or unknown |
| SearchEndpoint.FoundUsers | eventbuddy_api/Program.cs:64-67 | users whose username contains the query under the collation, as many as match up to 25, later matches first; a matching user is left out only when all 25 places are taken by users matching no earlier |
| SearchEndpoint.FoundEvents | eventbuddy_api/Program.cs:81-84 | events whose title contains the query under the collation, as many as match up to 25, later matches first; a matching event is left out only when all 25 places are taken by events matching no earlier |
| SearchEndpoint.Search | eventbuddy_api/Program.cs:54-87 | BadRequest "No user" exactly for an unknown caller; then "Nothing searched" and "Query too short"; otherwise FoundUsers and FoundEvents, min(matches, 25) of each, with friendship and pending-request flags in each direction on every user hit |
| SearchEndpoint.LaterUserMatchIsPreorder | eventbuddy_api/Program.cs:66 | ordering by descending match position is a total preorder |
| SearchEndpoint.LaterTitleMatchIsPreorder | eventbuddy_api/Program.cs:82 | ordering by descending match position is a total preorder |
| SearchEndpoint.HitsOfFound | eventbuddy_api/Program.cs:67-75 | every projected hit is the hit of one of the users found |
| Hash.HexOf | eventbuddy_api/Hash.cs:15-19 | two lowercase hex digits per byte |
| Hash.ByteHex | eventbuddy_api/Hash.cs:18 | the "x2" format: two hex digits, high nibble first, whose value is the byte |
| Hash.HexRoundTrip | eventbuddy_api/Hash.cs:15-20 | decoding the hex text gives back the digest |
| Hash.DecodeRoundTrip | eventbuddy_api/Hash.cs:15-20 | every even-length lowercase hex text is the encoding of its decoding |
| Hash.HexInjective | eventbuddy_api/Hash.cs:15-20 | different digests give different hex texts |
| Hash.Sha256Hex | eventbuddy_api/Hash.cs:9-21 | 64 lowercase hex digits |
| Hash.BuildSHA256 | eventbuddy_api/Hash.cs:9-21 | the StringBuilder loop yields the hex text of the digest, which decodes back to it and verifies |
| Hash.VerifyDeterminesDigest | eventbuddy_api/Hash.cs:22 | two passwords that verify against one hash have the same digest |
| FlaskQueries.SqlDistance | api/app.py:507-510 | the distance exists only when all four coordinates are present |
| FlaskQueries.CategoryGroups | api/app.py:513-517 | the LEFT JOIN gives at least one category group per event, distinct ones, and a single NULL group for an event with no category |
| FlaskQueries.AmountSaved | api/app.py:505-506 | no more than the number of saved rows, and zero exactly when nobody saved the event |
| FlaskQueries.EventsRowsOf | api/app.py:504-524 | a row is produced for an event exactly when it is one of the event's category groups with its save flag and count |
| FlaskQueries.ByStartTimeIsPreorder | api/app.py:519 | ORDER BY start_time is a total preorder |
| FlaskQueries.EventsCandidates | api/app.py:504-524 | exactly the rows of events within the date window and radius, both bounds inclusive |
| FlaskQueries.GetEvents | api/app.py:504-524 | a permutation of the candidates, ordered by start time |
| FlaskQueries.GetEventsRows | api/app.py:504-524 | a row is returned exactly when its event lies in the window and radius, whichever user asked |
| FlaskQueries.PreferencePoints | api/app.py:566-598 | at most 80, and positive exactly when some preference pair is equal and non-NULL |
| FlaskQueries.CompatibilityScore | api/app.py:566-613 | at most 105; positive exactly when a preference pair matches, the networking pair matches or the event is within the radius; at most 95 without the networking pair |
| FlaskQueries.ForYouRowsOf | api/app.py:559-633 | a row is produced for an upcoming event exactly when it is a category group with a positive score |
| FlaskQueries.BestFirstIsPreorder | api/app.py:630 | score descending then start time ascending is a total preorder |
| FlaskQueries.ForYouCandidates | api/app.py:614-629 | exactly the rows of events starting at or after now with a positive score |
| FlaskQueries.RankForYou | api/app.py:630-631 | at most 50 candidate rows, best first, and no left-out candidate is better than a kept one |
| FlaskQueries.SettingsFor | api/app.py:622-623 | a settings row of the user, or none when the user has none |
| FlaskQueries.ForYouQuery | api/app.py:559-647 | the query fails on an unknown column exactly when a networking column is absent from the schema; otherwise at most 50 rows scoring at most 105 |
| FlaskQueries.GetForYouAsWritten | api/app.py:559-647 | an unknown-column failure is caught and answered with an empty list; never more than 50 rows |
| FlaskQueries.NetworkingColumnsMissing | api/app.py:128-196 | neither networking column is created by the schema |
| FlaskQueries.ForYouAsWrittenIsEmpty | api/app.py:599-602 | as written, get_foryou returns the empty list for every database |
| FlaskQueries.GetForYou | api/app.py:566-633 | without the networking pair: empty for a user without settings; otherwise RankForYou of the user's settings, so at most 50 upcoming rows with 0 < score <= 95, best first, and a qualifying row is left out only when 50 are kept, none ranking below it |
| FlaskQueries.ByOrderIndexIsPreorder | api/app.py:268-280 | ORDER BY order_index, NULLs first, is a total preorder |
| FlaskQueries.GetAllCategories | api/app.py:268-280 | a permutation of the categories, NULL indices first, then non-decreasing order_index |
| FlaskApi.VerifyPasswordDecodes | api/app.py:356-357 | verify_password holds exactly when the stored text is 64 lowercase hex digits that decode to the password's digest |
| FlaskApi.UserByUsername | api/app.py:339-354 | the first user with that username, or none when there is none |
| FlaskApi.InsertSavedEvent | api/app.py:359-373 | one new row for the pair under the next key when both foreign keys (api/app.py:40-41) resolve; otherwise the refused insert is swallowed and the table is unchanged; the key counter advances either way |
| FlaskApi.RemoveSavedEvent | api/app.py:392-406 | every row of the pair is deleted and no other |
| FlaskApi.ApiSetSavedEvent | api/app.py:955-967 | the pair is saved afterwards exactly when it was not and both its user and event exist; 200 "Event removed from saved events" when it was saved; 201 "Event added to saved events" otherwise, even when the foreign keys refuse the row and nothing is stored; other pairs untouched |
| FlaskApi.SetSavedTwice | api/app.py:955-967 | two requests restore the saved state; with both foreign keys resolving they answer 200 and 201 in some order, otherwise 201 twice with nothing stored |
| FlaskApi.SavedReferences | api/app.py:33-43 | in a valid database every saved pair names an existing user and event |
| FlaskApi.AppendKeepsReferences | api/app.py:33-43 | adding a user keeps every saved row's foreign keys resolving |
| FlaskApi.FlaskDb.constructor | api/app.py:33-43 | empty user and saved-event tables over the given event keys, both counters at 1 |
| FlaskApi.InsertUser | api/app.py:284-298 | stores the new user row and returns nothing |
| FlaskApi.InsertUserReturningId | api/app.py:284-298 | stores the new user row and returns its key |
| FlaskApi.AppendKeepsUsernamesUnique | api/app.py:779-780 | a user with an untaken name keeps usernames unique |
| FlaskApi.Register | api/app.py:770-787 | 400 "Missing parameters", then 400 "Username already exists", each with no change to the users or their counter; otherwise the user is stored under the next key with the hex SHA-256 of the password, the counter advances, and the answer is 500 "Failed to register user"; saved events, their counter and the event keys never change |
| FlaskApi.RegisterThenLogin | api/app.py:770-804 | a registration answered 500 has nevertheless stored the user, who can then log in with status 200 |
| FlaskApi.RegisterFixed | api/app.py:770-787 | as register, with the same frame, but a stored user is answered 201 with its new id |
| FlaskApi.Login | api/app.py:789-804 | 400 for a missing field; 200 with tokens and the id exactly when the user exists and the password verifies; 401 "Invalid credentials" otherwise |
| FlaskApi.ApiGetForYou | api/app.py:982-988 | built on get_foryou as written: 404 exactly for user id 0, and 200 with the empty list for every other id |
| FlaskApi.ApiGetForYouFixed | api/app.py:982-988 | on the corrected query (api/app.py:566-633): 404 exactly for user id 0; otherwise 200 with the "for you" rows, at most 50 and empty for a user without settings |
| FlaskApi.ApiGetCategories | api/app.py:990-993 | 200 with one name per category, in order_index order |
| ListToggle.Toggle | eventbuddy_app/components/SearchBar.tsx:128-130 | the element's membership flips, no other element's does, and an absent one is appended at the end |
| ListToggle.ToggleKeepsOthersInOrder | eventbuddy_app/components/SearchBar.tsx:126-133 | with the toggled element taken out, the list before and after is the same |
| ListToggle.ToggleAbsentTwice | eventbuddy_app/components/SearchBar.tsx:126-133 | toggling an absent element twice restores the list |
| ListToggle.TogglePresentTwice | eventbuddy_app/components/SearchBar.tsx:126-133 | toggling a present element twice moves it, once, to the end |
| SearchBarComponent.Get | eventbuddy_app/components/SearchBar.tsx:35-42 | the tag list reads as tags, every other key as a number |
| SearchBarComponent.GetDetermines | eventbuddy_app/components/SearchBar.tsx:35-42 | parameters that agree on every key are equal |
| SearchBarComponent.Set | eventbuddy_app/components/SearchBar.tsx:101-104 | the key takes the value and every other key keeps its own |
| SearchBarComponent.Unselected | eventbuddy_app/components/SearchBar.tsx:137 | exactly the tags of the list that are not selected |
| SearchBarComponent.CollapsedLimit | eventbuddy_app/components/SearchBar.tsx:138 | tops the selection up to five, or zero once five are selected |
| SearchBarComponent.TagsToShow | eventbuddy_app/components/SearchBar.tsx:135-138 | the selected tags first, then unselected tags in list order: all of them when expanded, up to the collapsed limit otherwise |
| SearchBarComponent.CollapsedShowsAtMostFive | eventbuddy_app/components/SearchBar.tsx:138 | collapsed, no more than five tags unless more are selected |
| SearchBarComponent.MoreOfferedWhileFewSelected | eventbuddy_app/components/SearchBar.tsx:156-170 | with at most five selected, the collapsed bar offers "Mehr..." and not "Weniger..." |
| SearchBarComponent.SearchBar.constructor | eventbuddy_app/components/SearchBar.tsx:30-45 | no tags, central Berlin, radius 10, both dates today, tags collapsed, empty text, no results |
| SearchBarComponent.SearchBar.TagsShown | eventbuddy_app/components/SearchBar.tsx:135-138 | the selection leads the tags shown |
| SearchBarComponent.SearchBar.ToggleTag | eventbuddy_app/components/SearchBar.tsx:126-133 | the tag's membership flips, the other tags keep their order, nothing else changes |
| SearchBarComponent.SearchBar.PressMore | eventbuddy_app/components/SearchBar.tsx:156-162 | expands the tag list and nothing else |
| SearchBarComponent.SearchBar.PressLess | eventbuddy_app/components/SearchBar.tsx:164-170 | collapses the tag list and nothing else |
| SearchBarComponent.SearchBar.HandleTextSearch | eventbuddy_app/components/SearchBar.tsx:48-57 | results are shown exactly when the new text is not empty |
| SearchBarComponent.SearchBar.HandleParamChange | eventbuddy_app/components/SearchBar.tsx:100-104 | only the given key of the parameters changes |
| CalendarPickerComponent.Pressed | event/components/CalendarPicker.tsx:43-53 | with no start or a complete range, a press starts over; with only a start, a later day ends the range and another restarts it; a well-formed range stays well formed |
| CalendarPickerComponent.TwoPressesMakeRange | event/components/CalendarPicker.tsx:43-53 | from an empty or complete range, two presses on increasing days select exactly that range |
| CalendarPickerComponent.SelectedNotInRange | event/components/CalendarPicker.tsx:62-64 | no day is both selected and in range; a day in range lies in a complete, well-formed range |
| CalendarPickerComponent.MonthCells | event/components/CalendarPicker.tsx:26-41 | one empty cell per weekday before the 1st, then every day in order; the length is their sum |
| CalendarPickerComponent.GetMonthData | event/components/CalendarPicker.tsx:26-41 | the two push loops build exactly MonthCells |
| CalendarPickerComponent.CalendarPicker.constructor | event/components/CalendarPicker.tsx:16-17 | no start and no end; the mount effect reports the empty range |
| CalendarPickerComponent.CalendarPicker.HandleDatePress | event/components/CalendarPicker.tsx:43-57 | the range becomes Pressed of the old one, stays well formed, and the new range is reported to onDateChange |
| RegisterWizard.RenderStep | eventbuddy_app/app/register.tsx:70-219 | a screen for each step 0 to 5 and nothing otherwise; step 0 is the account form and step 5 the welcome screen |
| RegisterWizard.RenderStepInjective | eventbuddy_app/app/register.tsx:70-219 | different steps draw different screens |
| RegisterWizard.Buttons | eventbuddy_app/app/register.tsx:230-256 | below step 5, "Weiter" runs nextStep and "Zurück zum Anmelden" goes back; at step 5 only "Loslegen" is shown |
| RegisterWizard.HandleRegisterUnreachable | eventbuddy_app/app/register.tsx:230-239 | no step shows a button running handleRegister |
| RegisterWizard.ButtonsFixed | eventbuddy_app/app/register.tsx:230-256 | step 4 offers "Account erstellen"; the other buttons are unchanged |
| RegisterWizard.HandleRegisterReachableFixed | eventbuddy_app/app/register.tsx:230-239 | with the fix, a step offers handleRegister exactly when it is step 4 |
| RegisterWizard.RegisterScreen.constructor | eventbuddy_app/app/register.tsx:13-25 | empty form fields, every preference 0.5, no music styles or event types, step 0, nothing sent |
| RegisterWizard.RegisterScreen.EnterAccount | eventbuddy_app/app/register.tsx:74-126 | the six text inputs set their fields; step, preferences, signUp calls and navigation are unchanged |
| RegisterWizard.RegisterScreen.DoNextStep | eventbuddy_app/app/register.tsx:65-68 | the step grows by exactly one and nothing is sent |
| RegisterWizard.RegisterScreen.DoHandleRegister | eventbuddy_app/app/register.tsx:47-63 | nothing is sent when the passwords differ; otherwise one signUp with the whole form, then home unless signUp throws |
| RegisterWizard.RegisterScreen.Perform | eventbuddy_app/app/register.tsx:233-252 | nextStep advances by one; "/" is pushed for Loslegen and back is called for the back button, each leaving the step; only handleRegister can call signUp, once with the whole form when the passwords match |
| RegisterWizard.RegisterScreen.PressShown | eventbuddy_app/app/register.tsx:230-256 | a press keeps the step within 0..5, never calls signUp, and advances only on "Weiter" |
| RegisterWizard.RegisterScreen.PressShownFixed | eventbuddy_app/app/register.tsx:230-256 | with the fix, pressing "Account erstellen" with matching passwords calls signUp once |
| RegisterWizard.AsWrittenNeverSignsUp | eventbuddy_app/app/register.tsx:47-256 | any sequence of presses on shown buttons never reaches signUp |
| RegisterWizard.FixedSignsUp | eventbuddy_app/app/register.tsx:47-256 | with the fix, filling in the form and pressing forward five times sends the form to signUp once |
| PersonalizationWizard.RenderStep | eventbuddy_app/app/personalization.tsx:180-336 | a screen for each step 0 to 6, nothing at step 7 |
| PersonalizationWizard.ButtonLabel | eventbuddy_app/app/personalization.tsx:360 | "Weiter" exactly below seven steps, "Fertig" otherwise |
| PersonalizationWizard.ProgressDots | eventbuddy_app/app/personalization.tsx:342-350 | eight dots, dot s lit exactly when s <= step |
| PersonalizationWizard.LitDotsCountSteps | eventbuddy_app/app/personalization.tsx:342-350 | on step s of 0..7, exactly s + 1 dots are lit |
| PersonalizationWizard.Grid | eventbuddy_app/app/personalization.tsx:150-166 | ceil(n / numColumns) rows, each non-empty with at most numColumns items |
| PersonalizationWizard.GridConcat | eventbuddy_app/app/personalization.tsx:150-166 | the rows laid end to end are the items in order |
| PersonalizationWizard.CategoryGridShape | eventbuddy_app/app/personalization.tsx:53-66 | the twelve categories fill six rows of two |
| PersonalizationWizard.PersonalizationScreen.constructor | eventbuddy_app/app/personalization.tsx:28-39 | step 0, no categories, no languages, no navigation |
| PersonalizationWizard.PersonalizationScreen.HandleNext | eventbuddy_app/app/personalization.tsx:101-119 | below seven the step grows by one; at seven it stays and the router goes home; the step stays within 0..7 |
| PersonalizationWizard.PersonalizationScreen.ToggleCategory | eventbuddy_app/app/personalization.tsx:81-86 | the category's membership flips, the others keep their order, nothing else changes |
| PersonalizationWizard.PersonalizationScreen.ToggleLanguage | eventbuddy_app/app/personalization.tsx:88-93 | the language's membership flips, the others keep their order, nothing else changes |
| PersonalizationWizard.PressNext | eventbuddy_app/app/personalization.tsx:101-119 | after n presses the step is min(n, 7), step 7 draws nothing under "Fertig", and every press past seven goes home once |

## Left out

**Infrastructure and foreign calls**

- Persistence and transport are left out: Flask routing, connections, the DDL runners, EF Core `SaveChangesAsync`, JWT setup and token generation. Each request is one atomic step on in-memory tables. A database error, and the 500 answers it causes, are not modelled; the one exception is the saved_event foreign keys, modelled in FlaskApi.InsertSavedEvent.
- EventsController.PostEvent and UsersController.RegisterUser store the row under the next key even when the request carries a non-zero Id. EF Core would try to insert that Id into the IDENTITY column and fail with a database error, which is not modelled.
- FlaskApi.FlaskDb keeps only the keys of the `event` table, the part the saved_event foreign key needs. A refused insert is taken to consume an AUTO_INCREMENT value, as InnoDB does.
- Concurrency is left out: check-then-insert races between simultaneous requests are outside the model.
- These foreign calls are function or method parameters, with no properties assumed:
  - SHA-256, HMAC-SHA512, Base64 and `Guid.NewGuid`;
  - `DateTime.Now` and `UtcNow` ticks;
  - `create_access_token` and `create_refresh_token`.

**Floating point**

- The haversine `acos` distance is a parameter. The (1 - |a - b|) * 10 terms and the activity and social weights of the .NET match score are a parameter too.
- `Math.Sqrt` in the nearby filter is replaced by the equivalent squared comparison over reals. Rounding is not modelled.
- UsersController.WithPreferences stores the request's preference values unchanged. The `(float)` casts (eventbuddy_api/Controller/UsersController.cs:33-38) are not modelled.
- Slider rounding, `EventSizeSelector` and the map-delta arithmetic are not modelled.

**SQL and database details**

- FlaskQueries.AmountSaved: COUNT(DISTINCT se.id) is the number of joined saved rows, because `id` is the key.
- FlaskQueries.SettingsFor takes the first `usersettings` row of the user. MySQL may pick any row when there are several.
- SearchEndpoint.FoundUsers, SearchEndpoint.FoundEvents and SearchEndpoint.Search compare texts under a per-character folding `fold`, a parameter standing for SQL Server's SQL_Latin1_General_CP1_CI_AS. The ORDER BY applies that collation explicitly (eventbuddy_api/Program.cs:66,82), and the WHERE's column collation is taken to be the same. Multi-character collation equivalences are not modelled.
- UsersController.LoginUser compares usernames exactly. Under a case-insensitive column collation, SQL Server would also accept a username differing only in case.
- The Flask handlers compare usernames exactly. MySQL's case-insensitive default collation is not modelled there.
- The order of rows that tie under ORDER BY is the stable order of the tables here. In the database it is unspecified.
- TicketsController.VerifyTicket, UsersController.LoginUser, UsersController.RemoveUserFriend and FlaskApi.UserByUsername take the first matching row in table order. The source uses FirstOrDefault or fetchone without ORDER BY (eventbuddy_api/Controller/TicketsController.cs:80, eventbuddy_api/Controller/UsersController.cs:108,195, api/app.py:348), so with several matching rows the database may return any of them.
- RecommendationService.GetPersonalizedFeed takes the first ten qualifying events in table order. The query has no ORDER BY (eventbuddy_api/Services/RecommendationService.cs:14), so the database may return any ten of them; only the count and the filter are promised by the source.
- Event start times are `Option<int>`. A NULL start time is read as 0 for ordering and fails every comparison in WHERE.
- Data.EventbuddyDb holds Ticket, FriendRequest and Friendship tables, which the controllers use. The context class does not declare them.

**Handlers and UI outside the model**

- These Flask handlers are not part of this model: `get_entries`, `api_get_entries`, `api_post_user_settings`, search, statistics and profile.
- GetUserByID and GetUserSentFriendRequests in UsersController are not part of this model.
- Front-end code that is not modelled:
  - `updateMapRegion`, `handleDateFilterChange` and the location lookups;
  - the month navigation of the calendar (`changeMonth`, `getDaysInMonth`), whose results are inputs here;
  - animations and styling.
- The older copies of the search bar, personalisation wizard and profile toggle under `event/` are not modelled separately. They repeat the same toggle.

**JavaScript semantics**

- Dates in the front end are integer timestamps.
- CalendarPickerComponent.CalendarPicker.HandleDatePress reports after every press. In React, onDateChange fires when the start or end state changes identity, and every press stores a freshly created `Date`, so every press changes it.
- SearchBarComponent: JavaScript numbers are `real`. A key of the parameters must carry a value of its own kind (`Fits`), since the model has no untyped values.

## Findings

| source | as written | input that shows it | evidently intended | confidence | as-written member | corrected member |
|---|---|---|---|---|---|---|
| api/app.py:599-602 | the score compares `e.networking_opportunities` with `us.networking_interest`, and neither column exists in the schema (api/app.py:128-196), so the query fails and the handler returns an empty list | any database built by the schema; `get_foryou(u)` for a user with settings and matching upcoming events returns [] | score the eight existing preference pairs plus the radius bonus | high, not executed | FlaskQueries.ForYouAsWrittenIsEmpty, FlaskApi.ApiGetForYou | FlaskQueries.GetForYou, FlaskApi.ApiGetForYouFixed |
| api/app.py:770-787 | `insert_user` returns nothing, so `if user_id` fails and register answers 500 after storing the user | a fresh username, password and email: the answer is 500, yet a login with them answers 200 | answer 201 with the new user's id | high, not executed | FlaskApi.RegisterThenLogin | FlaskApi.RegisterFixed |
| eventbuddy_app/app/register.tsx:230-239 | the forward button is shown only while `currentStep < 5` but runs `handleRegister` only when `currentStep === 5`, so signUp is never called | fill in the form with matching passwords and press "Weiter" five times: step 5 is reached and no account is created | offer "Account erstellen" with `handleRegister` on the last form step (4) | high, not executed | RegisterWizard.AsWrittenNeverSignsUp | RegisterWizard.FixedSignsUp |
