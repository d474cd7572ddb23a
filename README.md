# Mind-Ease, modelled in Dafny

Mind-Ease is a student well-being web application. It has two parts:

- An Express server keeps users and counselling bookings in SQLite. It offers registration and login routes that sign JSON Web Tokens.
- A React client offers:
  - a pomodoro timer and a paced-breathing exercise;
  - a mood journal with weekly statistics;
  - a keyword-driven support chatbot;
  - a meditation video library;
  - two versions of the counselor dashboard;
  - the sign-in / sign-up page;
  - two `fetch` helpers that talk to the server.

This project models the logic of those pieces. It also proves what they promise.

What each module covers:

- `Store` (server/src/db.js) models the two tables as sequences of rows:
  - the CHECK and UNIQUE constraints;
  - the `||` defaults of `createUser` and `createBooking`;
  - the status update;
  - the join-and-sort listings;
  - the column migration and the administrator seed.

  The mutating statements are methods of a `Database` class, which keeps the AUTOINCREMENT counters and the table contents.
- `Auth` (server/src/routes/auth.js) gives each route as a function from the request and the table to the status code and body. The register handler is also a method that inserts through `Database`.
- `Pomodoro`, `Breathe`, `Videos`, `CounselorDashboard` and `AuthPage` each model their component's state hooks as the fields of a class. Each handler and effect step becomes a method whose contract gives the whole new state. The pure helpers (`formatTime`, `getPhaseColor`, `filteredBookings`, `getActionButtons`, `getDifficultyColor`, the query-string rules) are functions with lemmas beside them.
- `Journal` models the mood entries as an association list keyed by date, and the statistics over it:
  - `getChartData` and `getMoodStats` are loops in the source, so they are methods proved against specification functions.
  - The counting, the most-common label and the rounded percentages are proved about those functions.
- `Chatbot` models the category selection of `getResponse` and the message log of `handleSendMessage`.
- `SampleDashboard` models the earlier dashboard with its six fixed bookings.
- `Http`, `Api` and `PlainApi` model the two `request` helpers:
  - the header and option spreading;
  - `encodeURIComponent`;
  - the classification of a response into a returned value or a thrown error;
  - every exported wrapper.
- `Text`, `Seqs` and `Wrappers` are small shared libraries:
  - JavaScript truthiness of optional strings, lower-casing, `trim`, decimal digits and lexicographic order;
  - filtering and subsequences;
  - `Option` and `Result`.

Network calls, timers, clocks, randomness and the browser's storage are parameters:

- what the server answered, and whether an update succeeded;
- the index of the randomly picked reply;
- the date key of a day;
- whether the user confirmed a dialog.

## Model

| member | source | states |
|---|---|---|
| Store.ParseRole | server/src/db.js:22 | the `user_type` CHECK accepts exactly 'student', 'counselor' and 'admin', and maps each to the role of that name |
| Store.ParseStatus | server/src/db.js:44 | the `status` CHECK accepts exactly the four booking statuses |
| Store.GetUserByEmail | server/src/db.js:81-83 | a found user is in the table with that email; none is found exactly when no row has that email |
| Store.GetUserById | server/src/db.js:162-164 | a found user is in the table with that id; none exactly when no row has that id |
| Store.LookupAfterAppend | server/src/db.js:19 | with email UNIQUE, a user appended under a new email is what the lookup then finds, and every other email's lookup is unchanged |
| Store.IdLookupAfterAppend | server/src/db.js:162-164 | appending a user does not change the lookup of any other id |
| Store.GetCounselorsByInstitution | server/src/db.js:85-87 | one summary (id, name, email) per user who is a counselor at that institution, in table order |
| Store.CreateUserError | server/src/db.js:19-22 | the INSERT fails exactly when the role (defaulted to 'student') fails the CHECK or the email is taken, and the error says which constraint |
| Store.UserRow | server/src/db.js:66-79 | the inserted row keeps id, email and hash; role is 'student' when no type is given; name, emergency contact and institution are stored as given when truthy and as NULL otherwise |
| Store.CreateBookingError | server/src/db.js:89-119 | the booking INSERT fails exactly when a NOT NULL column is missing or the status (defaulted to 'pending') fails the CHECK |
| Store.BookingRow | server/src/db.js:106-114 | the inserted booking has the given student, counselor, date, time, session type and reason; its status is the given one, or 'pending' when none is given; its survey is `SurveyRow` of the request |
| Store.SurveyRow | server/src/db.js:107-114 | each of the eight survey answers is stored as given when truthy and as NULL otherwise |
| Store.SetStatus | server/src/db.js:157-160 | the UPDATE keeps the table length, sets the status (a value, or NULL) of the rows with that id and leaves every other row unchanged |
| Store.SetStatusIdempotent | server/src/db.js:157-160 | setting the same status twice equals setting it once |
| Store.CountWithId | server/src/db.js:157-160 | the number of changed rows is zero exactly when no booking has that id |
| Store.Joined | server/src/db.js:121-137 | one joined row per booking whose student and counselor exist and that matches the WHERE clause, in table order; each row is that booking with its student and counselor columns |
| Store.PrecedesTotal | server/src/db.js:133 | the ORDER BY on date then time, both descending, relates every pair of rows |
| Store.PrecedesTransitive | server/src/db.js:133 | that order is transitive |
| Store.Insert | server/src/db.js:133 | inserting into a sorted listing keeps it sorted and adds exactly that row |
| Store.SortDesc | server/src/db.js:133 | the sorted listing is in descending date/time order and is a permutation of its input |
| Store.SameElements | server/src/db.js:133 | two permutations hold the same rows |
| Store.GetBookingsByCounselor | server/src/db.js:121-137 | sorted descending; a permutation of the joined rows of that counselor id, so each matching booking appears exactly once |
| Store.GetBookingsByCounselorName | server/src/db.js:139-155 | sorted descending; a permutation of the joined rows whose counselor has that name, so each matching booking appears exactly once |
| Store.ListingsAgree | server/src/db.js:121-155 | when exactly one user carries the name, the by-id and by-name listings are equal |
| Store.JoinedAgree | server/src/db.js:121-155 | under the same condition the two joins give the same rows |
| Store.MigratedColumns | server/src/db.js:52-64 | the migration keeps the existing columns in order, appends exactly the missing ones of `emergency_contact` and `institution` (both, in that order, when neither exists) and changes nothing when both exist |
| Store.MigrationIdempotent | server/src/db.js:52-64 | running the migration twice is the same as once |
| Store.Database.Open | server/src/db.js:17-48 | a new database has empty tables, counters at 1, and keeps an existing `users` column list |
| Store.Database.MigrateUserColumns | server/src/db.js:52-64 | the column list becomes the migrated list and the rows are untouched |
| Store.Database.CreateUser | server/src/db.js:66-79 | fails exactly as `CreateUserError` says and then changes nothing; otherwise appends `UserRow` under a fresh id that the email lookup then finds |
| Store.Database.CreateBooking | server/src/db.js:89-119 | fails exactly as `CreateBookingError` says; otherwise appends `BookingRow` under the next id |
| Store.Database.UpdateBookingStatus | server/src/db.js:157-160 | a missing status sets NULL; a status outside the CHECK fails exactly when a row would change, leaving the table as it was; otherwise the table becomes `SetStatus` and the result is the number of changed rows |
| Store.Database.EnsureAdminSeed | server/src/db.js:179-185 | afterwards a user with the seed email exists; when none did, the administrator row is appended with role admin, otherwise nothing changes |
| Auth.SignToken | server/src/routes/auth.js:8-15 | the token claims carry the user's id, email and type and expire in seven days |
| Auth.RegisterResponse | server/src/routes/auth.js:17-37 | 400 exactly when email or password is falsy; 409 exactly when the email is taken; 500 exactly when the insert fails otherwise; else 201 with the new user and a token for that user |
| Auth.Register | server/src/routes/auth.js:17-37 | the handler answers as `RegisterResponse`; on 201 it appends the user and advances the user id counter by one; otherwise both stay as they were; bookings, the booking counter and the column list never change |
| Auth.LoginResponse | server/src/routes/auth.js:39-66 | 400 for missing fields; 401 exactly when the email is unknown or the password does not match; 403 exactly when a requested type differs from the stored one; else 200 with the stored user and a token |
| Auth.UnknownEmailLooksLikeWrongPassword | server/src/routes/auth.js:45-52 | an unknown email and a wrong password give identical responses |
| Auth.RegisterThenLogin | server/src/routes/auth.js:17-60 | after a 201 registration, logging in with the same credentials and type answers 200 |
| Auth.RegisterTwice | server/src/routes/auth.js:23-26 | registering the same email again answers 409 |
| Auth.AdminSeedCanLogIn | server/src/db.js:179-185 | the seeded administrator can log in as an admin with the seeded password |
| Pomodoro.Duration | client/src/pomodoro.jsx:11-15 | focus lasts 25 minutes, a short break 5 and a long break 15, all whole minutes |
| Pomodoro.BreakAfter | client/src/pomodoro.jsx:26-30 | the period after focus is always a break |
| Pomodoro.LongBreakEveryFourth | client/src/pomodoro.jsx:26-30 | the break is long exactly when the new count of completed focus periods is a multiple of four |
| Pomodoro.OneLongBreakInFour | client/src/pomodoro.jsx:26-30 | every four consecutive focus periods are followed by exactly one long break |
| Pomodoro.FormatTime | client/src/pomodoro.jsx:58-62 | the display is digits, a colon, then two digits, five characters below 100 minutes |
| Pomodoro.FormatTimeRoundTrip | client/src/pomodoro.jsx:58-62 | reading the display back gives the seconds left, with the seconds field below 60 |
| Pomodoro.Timer.constructor | client/src/pomodoro.jsx:5-8 | starts paused in focus with 25 minutes and no sessions |
| Pomodoro.Timer.Tick | client/src/pomodoro.jsx:17-41 | a running timer loses a second; at zero it stops, and after focus counts a session and starts the matching break, after a break starts focus; the time never exceeds the mode's length |
| Pomodoro.Timer.Toggle | client/src/pomodoro.jsx:43-45 | flips running and changes nothing else |
| Pomodoro.Timer.Reset | client/src/pomodoro.jsx:47-50 | stops and refills the current mode |
| Pomodoro.Timer.SwitchMode | client/src/pomodoro.jsx:52-56 | stops, enters the mode and fills it, and keeps the session count |
| Breathe.PhaseDuration | client/src/Breathe.jsx:12-25 | every phase lasts 2 to 8 seconds; box breathing is 4 throughout, quick relief 3, and the inhale length follows the technique |
| Breathe.RoundLengths | client/src/Breathe.jsx:12-17 | one round lasts 16, 21, 16 and 12 seconds for the four techniques |
| Breathe.Next | client/src/Breathe.jsx:20-25 | the next phase differs from the current one, and is inhale exactly after pause |
| Breathe.NextAdvances | client/src/Breathe.jsx:20-25 | the phases cycle inhale, hold, exhale, pause |
| Breathe.PhaseColor | client/src/Breathe.jsx:86-99 | each phase has a seven-character colour: '#' and six lower-case hexadecimal digits |
| Breathe.PhaseColorsDistinct | client/src/Breathe.jsx:86-99 | different phases have different colours |
| Breathe.Breathing.constructor | client/src/Breathe.jsx:5-9 | starts paused at a 4-second inhale of box breathing with no cycles |
| Breathe.Breathing.Tick | client/src/Breathe.jsx:27-47 | a running countdown loses a second; at zero it enters the next phase at full length and counts a cycle on reaching inhale; a paused one is unchanged |
| Breathe.Breathing.Toggle | client/src/Breathe.jsx:49-51 | flips running only |
| Breathe.Breathing.Reset | client/src/Breathe.jsx:53-58 | stops at a full inhale with no cycles, same technique |
| Breathe.Breathing.ChangeTechnique | client/src/Breathe.jsx:60-66 | stops and restarts the chosen technique at a full inhale with no cycles |
| Journal.MoodOptionsShape | src/journal.jsx:16-22 | the five moods have values 1 to 5 and distinct values and labels |
| Journal.Lookup | src/journal.jsx:108-111 | an entry is found exactly when its date key is present, and it is the stored entry |
| Journal.Put | src/journal.jsx:72-105 | after the spread update the key maps to the new entry, every other key is unchanged, and a new key is appended |
| Journal.PutWellFormed | src/journal.jsx:72-105 | updates keep keys distinct and moods among the options |
| Journal.CurrentEntry | src/journal.jsx:108-111 | the stored entry for the day, or the empty entry when there is none |
| Journal.SelectMood | src/journal.jsx:72-89 | the day's entry gets the mood, date and timestamp and keeps its journal text; other days are unchanged |
| Journal.SaveJournal | src/journal.jsx:92-105 | the day's entry gets the text, date and timestamp and keeps its mood; other days are unchanged |
| Journal.MoodAndJournalCommute | src/journal.jsx:72-105 | choosing a mood and then saving text leaves both in the day's entry |
| Journal.PointFor | src/journal.jsx:121-127 | the weekday label; the day's mood value, or 0 when the day has no mood; the mood's label, or 'No entry' when there is no mood or its label is empty |
| Journal.GetChartData | src/journal.jsx:114-129 | seven points, oldest day first, each the point of its day |
| Journal.MoodsOf | src/journal.jsx:133 | exactly the moods of the entries that have one, one per such entry, in property order; empty exactly when no entry has a mood |
| Journal.Bump | src/journal.jsx:139-143 | counting one more label adds one to that label's count only, appending it when new |
| Journal.BumpTotal | src/journal.jsx:139-143 | one more label adds one to the total and keeps every count positive |
| Journal.TallyFacts | src/journal.jsx:136-143 | the tally lists each label once, its count is the label's number of occurrences, the counts are positive and sum to the number of entries |
| Journal.LastMaxIndex | src/journal.jsx:146-148 | the chosen count is the largest, and a tie goes to the later entry |
| Journal.RoundPercent | src/journal.jsx:157 | the percentage is the exact count/total*100 rounded half up, at most 100 when count ≤ total |
| Journal.Distribution | src/journal.jsx:154-158 | one share per label, with its count and rounded percentage |
| Journal.GetMoodStats | src/journal.jsx:132-160 | none exactly when no entry has a mood; otherwise the number of moods, their total, a most common label whose count no other label exceeds, and percentages in 0..100 |
| Journal.StatsFacts | src/journal.jsx:146-158 | every share has a positive count and a percentage of at most 100, and the most common label is maximal |
| Chatbot.Responses | src/MentalHealthChatbot.jsx:262-318 | every category has three replies |
| Chatbot.FirstMatch | src/MentalHealthChatbot.jsx:364-369 | the first non-crisis category in keyword order whose keywords occur in the message |
| Chatbot.SelectCategory | src/MentalHealthChatbot.jsx:355-378 | crisis exactly when a crisis keyword occurs; otherwise the first matching category in order; greetings exactly when nothing matches and a greeting occurs; default otherwise |
| Chatbot.CategoryOfCrisis | src/MentalHealthChatbot.jsx:359-361 | crisis is chosen exactly when a crisis keyword occurs |
| Chatbot.CategoryOfKeyword | src/MentalHealthChatbot.jsx:364-369 | a keyword category is the first in order that matches |
| Chatbot.CategoryOfFallback | src/MentalHealthChatbot.jsx:372-377 | greetings and default are chosen exactly when no keyword matches, split by whether a greeting occurs |
| Chatbot.GetResponse | src/MentalHealthChatbot.jsx:355-378 | the reply is one of the selected category's replies |
| Chatbot.CaseInsensitive | src/MentalHealthChatbot.jsx:356 | the selection ignores letter case |
| Chatbot.SelfCareNeverByTiredness | src/MentalHealthChatbot.jsx:321-331 | a self-care reply never answers a message mentioning 'tired' or 'exhausted' |
| Chatbot.ChatLog.constructor | src/MentalHealthChatbot.jsx:335-344 | the log holds only the welcome message, the input is empty, not typing |
| Chatbot.ChatLog.SetInput | src/MentalHealthChatbot.jsx:343 | the input changes and nothing else |
| Chatbot.ChatLog.SendMessage | src/MentalHealthChatbot.jsx:380-394 | blank input sends nothing; otherwise the input is appended as a user message, cleared, and typing starts |
| Chatbot.ChatLog.DeliverReply | src/MentalHealthChatbot.jsx:395-405 | the reply to the sent text is appended after the existing messages and typing ends |
| CounselorDashboard.FilteredBookings | client/src/CounselorDashboard.jsx:536-538 | everything under 'all'; otherwise exactly the bookings of that status, in order and with their multiplicities |
| Seqs.FilterMultiplicity | client/src/CounselorDashboard.jsx:536-538 | `filter` keeps each passing element exactly as often as it occurs and drops every other |
| CounselorDashboard.ConfirmedOnlyUnderAll | client/src/CounselorDashboard.jsx:728-761 | a confirmed booking appears under no tab but 'all' |
| CounselorDashboard.UpcomingCount | client/src/CounselorDashboard.jsx:653 | the number of pending plus confirmed bookings |
| CounselorDashboard.CompletedCount | client/src/CounselorDashboard.jsx:654 | the number of completed bookings, regardless of date |
| CounselorDashboard.CountsPartition | client/src/CounselorDashboard.jsx:653-654 | with valid statuses, upcoming + completed + cancelled equals all bookings |
| CounselorDashboard.ActionButtons | client/src/CounselorDashboard.jsx:540-585 | Start Session, Reschedule, Contact, Cancel for pending or confirmed; View Notes, Follow Up for completed; Reschedule, View Details for cancelled; nothing for any other status |
| CounselorDashboard.RequestedStatus | client/src/CounselorDashboard.jsx:588-627 | start requests 'confirmed'; cancel requests 'cancelled' only once confirmed; nothing else requests a status |
| CounselorDashboard.ShouldFetch | client/src/CounselorDashboard.jsx:471-474 | bookings are fetched exactly for a non-empty name other than the placeholder |
| CounselorDashboard.Dashboard.constructor | client/src/CounselorDashboard.jsx:441-446 | 'all' tab, placeholder name, no id, no bookings, loading |
| CounselorDashboard.Dashboard.LoadUser | client/src/CounselorDashboard.jsx:448-467 | a stored user with a non-empty name sets the name and id; otherwise both are unchanged |
| CounselorDashboard.Dashboard.FetchBookings | client/src/CounselorDashboard.jsx:469-496 | skipped for the placeholder; otherwise returned bookings replace the list, a missing list keeps it, an error empties it, and loading ends |
| CounselorDashboard.Dashboard.Refresh | client/src/CounselorDashboard.jsx:695-711 | skipped for the placeholder; otherwise returned bookings replace the list, while a missing list or an error keeps it, and loading ends |
| CounselorDashboard.Dashboard.SetFilter | client/src/CounselorDashboard.jsx:728-761 | the tab changes and nothing else |
| CounselorDashboard.Dashboard.AfterStatusUpdate | client/src/CounselorDashboard.jsx:588-627 | after a successful update a refreshed list replaces the bookings; otherwise they stay; the tab, counselor and loading flag are kept |
| SampleDashboard.FilteredBookings | src/CounselorDashboard.jsx:492-494 | all six under 'all'; otherwise exactly the sample bookings of that status, in order |
| SampleDashboard.UpcomingCount | src/CounselorDashboard.jsx:586 | the size of the 'upcoming' tab |
| SampleDashboard.CompletedCount | src/CounselorDashboard.jsx:587 | the size of the 'completed' tab |
| SampleDashboard.SampleCounts | src/CounselorDashboard.jsx:395-462 | the sample data has three upcoming, two completed and one cancelled booking |
| SampleDashboard.OneTabEach | src/CounselorDashboard.jsx:634-667 | a sample booking is listed under only one tab besides 'all' |
| SampleDashboard.EveryBookingHasATab | src/CounselorDashboard.jsx:634-667 | every sample booking is listed under some tab besides 'all' |
| SampleDashboard.ActionButtons | src/CounselorDashboard.jsx:496-540 | Start Session, Reschedule, Contact, Cancel for upcoming; View Notes, Follow Up for completed; Reschedule, View Details for cancelled; nothing for any other status |
| SampleDashboard.ButtonsAgreeWithServerDashboard | src/CounselorDashboard.jsx:496-540 | an upcoming sample booking gets the buttons the server-backed dashboard gives pending and confirmed bookings; completed and cancelled get the same buttons in both |
| SampleDashboard.ActionNotice | src/CounselorDashboard.jsx:543-572 | every action shows its notice except an unconfirmed cancel; start and confirmed cancel name the booking id |
| SampleDashboard.DistinctIds | src/CounselorDashboard.jsx:395-462 | the sample ids are distinct |
| Videos.FilteredVideos | client/src/videos.jsx:523-526 | the whole catalogue under 'all'; otherwise exactly the videos of that category, in order |
| Videos.CatalogueCategoriesListed | client/src/videos.jsx:432-521 | every video's category is a listed category other than 'all' |
| Videos.OneCategoryEach | client/src/videos.jsx:513-526 | a video appears under exactly its own category besides 'all' |
| Videos.EveryVideoHasACategory | client/src/videos.jsx:513-526 | every video appears under some category besides 'all' |
| Videos.DistinctIds | client/src/videos.jsx:432-511 | the video ids are distinct |
| Videos.Toggled | client/src/videos.jsx:528-536 | toggling flips membership of that id and keeps every other id's |
| Videos.ToggleTwice | client/src/videos.jsx:528-536 | toggling twice restores the favourites |
| Videos.TogglesCommute | client/src/videos.jsx:528-536 | toggles of two ids commute |
| Videos.DifficultyColor | client/src/videos.jsx:547-554 | the three levels get seven-character colours; the fallback colour exactly for any other level |
| Videos.CatalogueDifficultiesColoured | client/src/videos.jsx:432-554 | no catalogue video gets the fallback colour |
| Videos.Library.constructor | client/src/videos.jsx:425-428 | no open video, 'all', no favourites, windowed |
| Videos.Library.SelectCategory | client/src/videos.jsx:587 | the category changes and nothing else |
| Videos.Library.ToggleFavorite | client/src/videos.jsx:528-536 | the favourites become the toggled copy and nothing else changes |
| Videos.Library.OpenVideoModal | client/src/videos.jsx:538-540 | that video is open |
| Videos.Library.CloseVideoModal | client/src/videos.jsx:542-545 | no video is open and fullscreen is off |
| Videos.Library.ToggleFullscreen | client/src/videos.jsx:696 | fullscreen flips and nothing else changes |
| Http.Get | client/src/api.js:9 | a property is absent exactly when no pair has its key; a present one comes from some pair |
| Http.GetIsLast | client/src/api.js:9 | a present property reads the value of the member at `LastIndex`, and no later member has its key |
| Http.LastIndex | client/src/api.js:9 | the position of a member named by the key, present whenever the key is |
| Http.Assign | client/src/api.js:9-11 | after assigning, the key holds the value, other keys read as before, and a new key is appended |
| Http.Spread | client/src/api.js:9-11 | a key of the spread reads as in the later object when present there, otherwise as in the earlier one |
| Http.FetchInit | client/src/api.js:9-11 | as written: headers are the defaults when none are passed and exactly the caller's headers otherwise; credentials default to 'include'; method and body pass through |
| Http.CallerHeadersDropContentType | client/src/api.js:9-11 | a POST with only an Authorization header is sent with no Content-Type |
| Http.MergedFetchInit | client/src/api.js:9-11 | the headers read as the caller's where given and as the defaults otherwise |
| Http.MergedKeepsContentType | client/src/api.js:3-11 | the merged headers always carry the JSON Content-Type unless the caller sets one |
| Http.InitsAgreeWithoutHeaders | client/src/api.js:9-11 | without caller headers the as-written and merged inits are equal |
| Http.Utf8 | client/src/api.js:54 | one to four bytes below 256 per code point, one exactly for ASCII; `Utf8RoundTrip` is its inverse |
| Http.EncodeChar | client/src/api.js:54 | unreserved characters stay; any other character becomes the percent escapes of its UTF-8 bytes |
| Http.EncodeURIComponent | client/src/api.js:54 | the encoding is no shorter, uses only unreserved characters and upper-case escapes, has no '/', '?' or '#', and leaves unreserved text unchanged |
| Http.EncodeSpace | client/src/api.js:54 | a space becomes '%20' |
| Http.HexValue | client/src/api.js:54 | reading an upper-case hex digit gives back the digit value it was written from |
| Http.Utf8RoundTrip | client/src/api.js:54 | the lead byte of an encoded code point tells its length, and decoding the bytes gives the code point back |
| Http.PercentByteRoundTrip | client/src/api.js:54 | a `%XY` escape reads back as its byte |
| Http.ReadPercentBytes | client/src/api.js:54 | a run of escapes reads back as its bytes, whatever follows |
| Http.DecodeEncode | client/src/api.js:54 | percent-decoding the encoding of any string gives the string back |
| Http.EncodeInjective | client/src/api.js:54 | different strings have different encodings |
| Http.ErrorField | client/src/api.js:29 | a present error comes from the body's `error` property |
| Http.Prefix | client/src/api.js:20 | the first 200 characters, or the whole text when shorter |
| Http.Classify | client/src/api.js:14-34 | returned exactly when ok; an empty ok body gives {}, an unparsable one {raw}, otherwise the parsed value; a failure throws the status with the `error` field, the first 200 characters of an unparsable body, or 'Request failed'; a `null` error body reads a property of null |
| Http.ErrorWithoutMessage | client/src/api.js:28-32 | a JSON error body without `error` throws 'Request failed' |
| Http.RawIsIndistinguishable | client/src/api.js:25 | an unparsable ok body and a JSON body `{raw: text}` give the same value |
| Api.StripTrailingSlash | client/src/api.js:8 | removes one trailing slash and nothing else |
| Api.OnlyOneSlashRemoved | client/src/api.js:8 | a base ending in two slashes keeps one |
| Api.RequestUrl | client/src/api.js:1-8 | the URL is the base, less exactly one trailing slash when it has one, followed by the path; the default base when the environment value is falsy |
| Api.Request | client/src/api.js:7-35 | fetches that URL with the as-written init `FetchInit`: the default headers only when the caller passes none, credentials defaulting to 'include'; the outcome is `Classify` of the response |
| Api.CallerHeadersReachFetch | client/src/api.js:7-35 | a POST with only an Authorization header reaches fetch without a Content-Type and differs from the merged init; a POST without headers is sent as the merged init |
| Api.RegisterUser | client/src/api.js:38-43 | POSTs the payload to the register route |
| Api.LoginUser | client/src/api.js:45-50 | POSTs the payload to the login route |
| Api.CounselorsByInstitution | client/src/api.js:53-55 | the institution is encoded after the counselors prefix, so it adds no path segment and decodes back to the institution; unreserved names are kept as is |
| Api.CreateBooking | client/src/api.js:58-63 | POSTs the booking to the bookings route |
| Api.BookingsByCounselor | client/src/api.js:65-67 | the id is appended verbatim, so a '/' in it adds a path segment |
| Api.BookingsByCounselorName | client/src/api.js:69-73 | the encoded name adds no path segment and decodes back to the name |
| Api.UpdateBookingStatus | client/src/api.js:75-80 | PUTs the status body to the booking's status route |
| Api.EncodedVersusVerbatim | client/src/api.js:53-67 | 'A/B' as an institution stays one segment while '1/2' as a counselor id becomes two |
| PlainApi.Request | src/api.js:5-32 | fetches the path itself with the as-written init `FetchInit` (default headers only when none are passed) and the same classification |
| PlainApi.ClientAddsDefaultBase | src/api.js:5-32 | the client helper without an environment base differs only by the default origin in front of the URL |
| PlainApi.WrappersSendDefaultHeaders | src/api.js:34-50 | register, login and the counselor listing send the JSON Content-Type |
| AuthPage.QueryMode | client/src/AuthPage.jsx:173-176 | 'signup' selects sign-up, 'login' selects login, anything else keeps the mode |
| AuthPage.QueryType | client/src/AuthPage.jsx:177 | a listed type from the query replaces the type; anything else keeps it |
| AuthPage.VisibleTypes | client/src/AuthPage.jsx:244-245 | student and counselor always show; admin shows exactly in login mode |
| AuthPage.ChooseCall | client/src/AuthPage.jsx:197-207 | registers exactly in sign-up mode for a non-admin type; logs in otherwise |
| AuthPage.AdminNeverRegisters | client/src/AuthPage.jsx:197-207 | an admin always logs in, and every type shown in sign-up mode registers |
| AuthPage.RouteFor | client/src/AuthPage.jsx:210-216 | each of the three types has its own dashboard route; others have none |
| AuthPage.RoutesDistinct | client/src/AuthPage.jsx:210-216 | different types go to different dashboards |
| AuthPage.FormFields | client/src/AuthPage.jsx:274-315 | email and password always; name and institution exactly when registering; emergency contact only for a student signing up |
| AuthPage.ToggleShown | client/src/AuthPage.jsx:325-332 | the mode toggle shows exactly for non-admin types |
| AuthPage.ErrorMessage | client/src/AuthPage.jsx:217-220 | the shown error is never empty and is the thrown message when there is one |
| AuthPage.Persist | client/src/AuthPage.jsx:199-205 | a truthy token is stored under 'authToken' and a returned user under 'authUser'; nothing else in storage changes |
| AuthPage.EmptyAnswerStoresNothing | client/src/AuthPage.jsx:199-205 | an answer without a token or user leaves storage as it was |
| AuthPage.Page.constructor | client/src/AuthPage.jsx:156-159 | login mode, student, no message, no route |
| AuthPage.Page.ApplyQuery | client/src/AuthPage.jsx:171-178 | mode and type follow `QueryMode` and `QueryType`; the message, storage and route are kept |
| AuthPage.Page.SelectType | client/src/AuthPage.jsx:244-245 | a shown type becomes the type; everything else is kept |
| AuthPage.Page.ToggleMode | client/src/AuthPage.jsx:325-332 | flips the mode; everything else is kept |
| AuthPage.Page.Submit | client/src/AuthPage.jsx:187-221 | makes the call `ChooseCall` picks; on an answer stores token and user, shows the success message and routes to the dashboard; on an error shows it and stays |
| AuthPage.Page.ClearMessage | client/src/AuthPage.jsx:180-185 | the message is cleared |
| Text.OrNull | server/src/db.js:73-76 | `value \|\| null` keeps a truthy string and gives NULL otherwise |
| Text.TrimEmptyIffBlank | src/MentalHealthChatbot.jsx:381 | the trimmed input is empty exactly when it is all white space |
| Text.LowerIdempotent | src/MentalHealthChatbot.jsx:356 | lower-casing twice is lower-casing once |

## Left out

- Password hashing (bcrypt) and token signing (JWT) are not modelled.
  - The login route's password check is a parameter `compare`.
  - A token is the claims it signs.
  - The hash is an input to `Register` and `AdminRequest`.
- SQLite itself is not modelled:
  - foreign keys are not enforced, since the source never enables them;
  - `created_at` timestamps are left out;
  - the order of rows that tie on date and time is unspecified in the source, so `SortDesc` promises only sortedness and a permutation;
  - the server's booking routes are not part of this model. `Store.BookingRow` stores the supplied status, or 'pending' when it is falsy, subject to the CHECK constraint.
- `Auth.Register`: a concurrent registration that wins the race between the lookup and the insert would be caught by the 500 branch. Concurrency is not modelled.
- Timers, dates and randomness are left to the caller:
  - `setInterval` and `setTimeout` are modelled by the caller invoking `Tick`, `DeliverReply` or `ClearMessage`;
  - the date keys and weekday names of the journal are functions passed in;
  - the random reply or quote is an index passed in.
- Floating point is not modelled:
  - `averageMood` is kept as the exact total of mood values, without the division and `toFixed(1)`;
  - the breathing scale and the progress ring are left out.
- Journal.RoundPercent: rounds the exact rational count/total*100, half up. `Math.round` on the double-precision product can differ when the exact value is a half. For 23 of 40 the source shows 57 and the model 58; for 57 of 200 the source shows 28 and the model 29.
- `Text.Lower` lower-cases ASCII letters only. Unicode case mapping is not modelled.
- `Http.Classify`:
  - JSON numbers are integers;
  - `JSON.parse` and `JSON.stringify` are inputs: the parsed value, or none when parsing throws, and the payload string;
  - `new Error(message)` converts a non-string message to a string, which is not modelled. The thrown value carries the JSON value itself.
- Http.Prefix: takes the first 200 characters as Unicode scalar values. `String.prototype.slice` counts UTF-16 code units, so a body with characters outside the Basic Multilingual Plane keeps fewer characters in the source, and may end in half a surrogate pair.
- Http.Decode: accepts only the upper-case escapes that `EncodeURIComponent` writes. It is the partner of the encoder, not a model of `decodeURIComponent`.
- `fetch` and the network are not modelled. The server's answer is an input to `Api.Request` and `PlainApi.Request`.
- The dashboards do not model:
  - alert-only actions (reminders, reports, meeting scheduling);
  - the client dashboard's reschedule, notes, follow-up and details notices;
  - `contactStudent` of the client dashboard.

  Each of these only shows text and changes no state.
- Dashboard scrolling is not modelled: the `showScrollToTop` flag follows the page's scroll position.
- Dashboard logout is not modelled: after the user confirms, it removes `authToken` and `authUser` from storage and navigates to '/'.
- Videos: the ratings, thumbnails and video URLs of the catalogue are left out, because no logic reads them.
- `Videos.DifficultyColor` models the fallback colour, although no catalogue video reaches it.
- Styling, animations and layout of every component are left out.
- The background music player (music.jsx) is not part of this model.
- The booking modal is not part of this model.
- The `src/AuthPage.jsx` placeholder is not part of this model.

## Findings

| source | as written | input that shows it | evidently intended | confidence | as-written member | corrected member |
|---|---|---|---|---|---|---|
| client/src/api.js:9-11 (and src/api.js:7-9) | `...options` is spread after the merged `headers`, so any `options.headers` replaces the merge and the default `Content-Type: application/json` is lost | `request(path, {method: "POST", body: "{}", headers: {Authorization: "Bearer t"}})` sends no Content-Type | the caller's headers are added to the defaults | not executed | Http.CallerHeadersDropContentType | Http.MergedKeepsContentType |
