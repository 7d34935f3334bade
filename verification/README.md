# A verified model of the project-management tracker's core

The tracker is a Flask application with a few browser scripts. Users keep projects, and each project holds epics, stories, cards (issues), comments, sprints and notifications. Every request handler loads the whole data set, changes it in place and saves it. This project models the deterministic logic under the HTTP, template and database calls, and proves what that logic promises.

How the source becomes Dafny:

- **Records.** Each kind of stored dictionary (user, project, epic, story, card, comment, sprint, notification) is a datatype (`records.dfy`). A key a record may lack is an `Option`. The audit stamps (`created_at`, `updated_by`, ...) form a map of opaque strings.
- **Handlers.** The loaded data set is the `Records.Store` class, with one sequence field per collection. A handler that changes it is a method with `modifies st`. Its `ensures` gives the whole new state through `st.Snapshot()`, and its answer is a `Reply` (success or an error code with its message). Read-only pages are functions over `Records.Data`.
- **Loops.** A loop in the source is a `while` loop with invariants. It is proved equal to a specification function, and the lemmas about that function state what the source promises.
- **Browser scripts.** The mind-map editor and the sprint planner keep state between calls, so each is a class whose fields are the ones the script updates. The analytics page only computes from the values on the page, so it is functions. The registration form's strength meter scans the password in loops, so those scans are methods proved against the scoring function; its other checks are functions.
- **Outside the core.** The wall clock ("today", "now"), the password-hash check and the document database's answers are parameters. The document database that `load_data`/`save_data` talk to is modelled as a list of documents under their paths (`data_service.dfy`).

Files, their modules and the source they model:

- `common.dfy` (Common): optional values, Python truthiness, list helpers shared by all handlers
- `numerals.dfy` (Numerals): `str(n)` and `int(s)` on request arguments and document names
- `dates.dfy` (Dates): `datetime.date`, `strptime('%Y-%m-%d')`, `date.fromisoformat`
- `iso_times.dfy` (IsoTimes): `datetime.fromisoformat` and `datetime.isoformat()` for naive date-times
- `timestamps.dfy` (Timestamps): date-time parsing and `strftime` of the helpers
- `records.dfy` (Records): the stored dictionaries and the loaded data set
- `users.dfy` (UserModel, ModuleUsers): app/models/user.py, app_modules/models/user.py
- `helpers.dfy` (Helpers, DateHelpers): app/utils/helpers.py, app_modules/utils/date_helpers.py and the predefined labels of app/__init__.py
- `sorting.dfy` (Sorting): Python string order and `sorted(..., reverse=True)`
- `admin.dfy` (Admin): app/routes/admin.py
- `auth.dfy` (Auth, ModulesAuth): app/routes/auth.py, app_modules/routes/auth.py
- `dashboard.dfy` (Dashboard): app/routes/dashboard.py
- `projects.dfy` (Projects): app/routes/projects.py
- `issues.dfy` (Issues): app/routes/issues.py
- `api.dfy` (Api): app/routes/api.py
- `sprint_routes.dfy` (SprintRoutes): app/routes/sprints.py
- `app_cards.dfy` and `app_sprints.dfy` (AppCards, AppSprints): app.py
- `sprint_model.dfy` (SprintModel): app_modules/models/sprint.py
- `sprint_service.dfy` (SprintService): app_modules/services/sprint_service.py
- `user_service.dfy` (UserService): app_modules/services/user_service.py
- `modules_main.dfy` (ModulesMain): app_modules/routes/main.py
- `analytics.dfy` (Analytics): app/services/analytics_service.py
- `notifications.dfy` (Notifications): app/services/notification_service.py
- `data_service.dfy` (DataService): app/services/data_service.py
- `migration.dfy` (Migration): migrate_to_hierarchical.py
- `test_app.dfy` (TestApp): testing_env/test_app.py
- `mindmap.dfy` (MindMapEditor): static/js/mindmap.js
- `sprint_planner.dfy` (SprintPlanner): testing_env/static/js/sprints.js
- `registration.dfy` (Registration): static/js/registration.js
- `gantt_analytics.dfy` (GanttAnalytics): testing_env/static/js/gantt_analytics.js

## Model

| member | source | states |
|---|---|---|
| Admin.FilterUsersIsOneFilter | app/routes/admin.py:35-42 | the three successive comprehensions keep, in stored order, exactly the users that pass every given filter (status, role, case-insensitive username/display-name search) |
| Admin.UserStats | app/routes/admin.py:45-51 | the total is the number of users; the active and pending counts together, and the admin count, never exceed it |
| Admin.AdminUsers | app/routes/admin.py:18-58 | refused exactly when the caller is not an administrator; the statistics always cover all users whatever the filters; the list is never longer than the users |
| Admin.UpdateStatus | app/routes/admin.py:63-81 | denied (store untouched) exactly for a non-administrator; otherwise only the first user with the id takes the new status and the reply is a success even when no user matches |
| Admin.UpdateRole | app/routes/admin.py:86-104 | as UpdateStatus, for the role |
| Admin.SetStatusOfEffect | app/routes/admin.py:120-127 | exactly the listed users take the status, every other field and user is unchanged, and repeating the update changes nothing more |
| Admin.BulkUpdate | app/routes/admin.py:109-130 | denied exactly for a non-administrator; 'activate'/'suspend' set status 'active'/'suspended' on the listed users; any other action changes nothing yet succeeds |
| Dashboard.ActiveProjects | app/routes/dashboard.py:27 | exactly the projects not marked archived, each taken from the project list |
| Dashboard.ArchivedProjects | app/routes/dashboard.py:146 | exactly the archived projects |
| Dashboard.ActiveArchivedPartition | app/routes/dashboard.py:27-146 | the dashboard and the archive page split the projects: their sizes add up to the number of projects and no project is on both |
| Dashboard.DashboardStats | app/routes/dashboard.py:24-35 | the todo, in-progress and done counts together never exceed the total, which is the number of cards |
| Dashboard.IssuesList | app/routes/dashboard.py:40-64 | with a truthy project id only that project's cards, epics and stories (and its project); without one everything; the project list never shows an archived project |
| Dashboard.Stories | app/routes/dashboard.py:79-100 | the same project filter for stories and epics; everything when no project id is given |
| Dashboard.Epics | app/routes/dashboard.py:105-124 | the epics of the given project, or all epics |
| Dashboard.Backlog | app/routes/dashboard.py:69-74 | exactly the cards whose status is 'todo', in stored order |
| Projects.KanbanBoard | app/routes/projects.py:18-38 | 404 exactly when no project has the id; otherwise the board of that project |
| Projects.BoardColumns | app/routes/projects.py:24-30 | the three columns hold only cards of the project in the column of their status, no card is in two columns, and every card of the project with one of the three statuses is shown |
| Projects.ProjectProgress | app/routes/projects.py:50-55 | done never exceeds total, and the total is 0 exactly when the project has no card |
| Projects.ProgressFacts | app/routes/projects.py:50-55 | the progress lies between 0 and 100 percent, is 0 without cards, and is 100 percent exactly when the project has cards and all are done |
| Projects.Gantt | app/routes/projects.py:43-61 | the loop gives every non-archived project, and only those, its progress, keeping their order |
| Sorting.LexLeTotal | app/routes/issues.py:233-235 | Python's string order on the timestamps is total |
| Sorting.LexLeTrans | app/routes/issues.py:233-235 | Python's string order on the timestamps is transitive |
| Sorting.Insert | app/routes/issues.py:265 | inserting into a newest-first list keeps it newest-first and adds exactly the element |
| Sorting.InsertStable | app/routes/issues.py:265 | among the elements of one key, the inserted one comes after those already there, which keep their order |
| Sorting.SortDesc | app/routes/issues.py:233-265 | `sorted(..., reverse=True)` gives a permutation of its input ordered newest first |
| Sorting.SortStable | app/routes/issues.py:233-265 | `sorted(..., reverse=True)` is stable: the elements of each key come out in their input order |
| Sorting.TakeSorted | app/routes/issues.py:235 | a `[:n]` prefix of a newest-first list is newest-first and drawn from the list |
| Records.Store.constructor | app/services/data_service.py:8-183 | a store holds exactly the loaded data |
| Records.FindUser | app/routes/admin.py:76-79 | the `for user in users: if user['id'] == user_id: ... break` loop stops at the first user with the id, or finds none |
| Records.SetFirstEffect | app/routes/admin.py:76-79 | only the first user with the id changes; the users before and after it keep their records, and with no such user nothing changes |
| UserModel.NewUser | app/models/user.py:7-14 | an empty or missing display name falls back to the username; the other fields are stored as given |
| UserModel.GetId | app/models/user.py:16-17 | `get_id` is the decimal text of the id, which parses back to the id |
| UserModel.GetIdInjective | app/models/user.py:16-17 | different ids never give the same text |
| UserModel.AdminPowers | app/models/user.py:19-36 | every permission, user management and the admin role go together; an active user is one whose status is 'active' |
| ModuleUsers.RoleLadder | app_modules/models/user.py:26-33 | admins are managers, only admins manage users, and a manager who is not an admin has role 'manager' |
| ModuleUsers.SeedAdmin | app_modules/models/user.py:79-91 | the seeded administrator has id 1, username 'admin', role 'admin' and status 'active' |
| ModuleUsers.LoadData | app_modules/models/user.py:74-124 | a file without users gets the one administrator, a file without comments an empty list, other sections are kept, and no file gives the sample data |
| ModuleUsers.FallbackWellFormed | app_modules/models/user.py:97-124 | the sample data has one active administrator with id 1 and every sample comment is on a sample card |
| Notifications.CreateMentionNotifications | app/services/notification_service.py:6-28 | the loop over the mentions appends exactly the notifications the specification function describes and changes nothing else |
| Notifications.Recipients | app/services/notification_service.py:10-13 | one recipient per mentioned username that some user has |
| Notifications.MentionedRecipients | app/services/notification_service.py:10-26 | old notifications stay in front untouched; after them exactly one notification per known username, addressed to the first user with that name, in mention order |
| Notifications.MentionedFields | app/services/notification_service.py:14-22 | every added notification is an unread mention of this card by the author, with an id above every id before it |
| Issues.CardFor | app/routes/issues.py:25 | the first card whose id equals the requested card_id, or none exactly when no card has it |
| Issues.EditedKeeps | app/routes/issues.py:30-41 | only title, description, priority, assignee, labels and updated_at can change; status, ids and the rest stay; editing twice equals editing once |
| Issues.UpdateCard | app/routes/issues.py:20-48 | 'Card not found' with the store untouched when no card has the id; otherwise only the first such card is edited as EditedKeeps describes |
| Issues.CardDetails | app/routes/issues.py:53-65 | found exactly when a card has the id, and then it is that card |
| Issues.CardComments | app/routes/issues.py:74-76 | exactly the comments on the card, in stored order |
| Issues.AddComment | app/routes/issues.py:78-109 | refused (store untouched) exactly when the content is missing or empty; otherwise one comment by the caller is appended with an id above every existing one, and the mention notifications built for the comment are not kept, so the stored notifications are unchanged |
| Issues.MentionLost | app/routes/issues.py:99-107 | for a comment '@admin' while a user 'admin' exists, the mention loop adds one notification, which AddComment does not keep |
| Issues.AddCommentNotifying | app/routes/issues.py:78-109 | as intended: the same comment is appended and the notifications gain exactly the mention notifications for the names in the comment |
| Issues.UpdateDueDate | app/routes/issues.py:118-135 | the first card with the id takes the due date (possibly none) and a new updated_at; 'Card not found' otherwise |
| Issues.MoveToBacklog | app/routes/issues.py:140-156 | the first card with the id goes back to 'todo'; 'Card not found' otherwise |
| Issues.PopRemovesOne | app/routes/issues.py:169 | `pop(k)` removes exactly the element at k and keeps the order of the rest |
| Issues.DeleteCard | app/routes/issues.py:161-181 | 'Card not found' exactly when no card has the id; otherwise only the first such card is popped and every comment on that id goes |
| Issues.OwnNotification | app/routes/issues.py:208-209 | the first notification with the id that belongs to the caller, or none exactly when there is no such notification |
| Issues.MarkNotificationRead | app/routes/issues.py:203-220 | only the caller's own notification with the id is marked read; anything else is 'Notification not found' with the store untouched |
| Issues.Prefix | app/routes/issues.py:235-267 | `s[:n]` is the first min(n, len) elements |
| Issues.CardActivities | app/routes/issues.py:237-245 | one entry per card, in order |
| Issues.CommentActivities | app/routes/issues.py:252-262 | one entry per comment whose card still exists, naming that card; a comment without created_at raises |
| Issues.RecentCards | app/routes/issues.py:233-235 | at most ten cards |
| Issues.RecentComments | app/routes/issues.py:248-250 | at most five comments |
| Issues.EntryCounts | app/routes/issues.py:265 | reordering the card entries and comment entries keeps how many of each there are |
| Issues.FeedProperties | app/routes/issues.py:225-267 | the feed has at most fifteen entries, newest first, at most ten about cards and five about comments, and every comment entry names an existing card |
| Issues.CommentEntriesNameCards | app/routes/issues.py:253-254 | after reordering, every comment entry still names an existing card |
| Issues.ActivityFeed | app/routes/issues.py:225-271 | the two loops, the sort and the cut compute exactly the feed the specification function describes, including the failure when a comment lacks created_at |
| Issues.CardLoop | app/routes/issues.py:237-245 | the card loop yields one feed entry per recent card, in the sorted order |
| Issues.CommentLoop | app/routes/issues.py:252-262 | the comment loop yields one entry per recent comment whose card exists, in order, and fails exactly when such a comment has no created_at |
| Issues.FailureSticks | app/routes/issues.py:252-262 | once a comment has raised, the rest of the loop cannot undo it |
| Helpers.DueDate | app/utils/helpers.py:12 | a due date is produced only when `strptime(_, '%Y-%m-%d')` reads the text, and then it is a real calendar date |
| Helpers.DueClassesByDays | app/utils/helpers.py:7-38 | the text class is empty exactly for an absent or unreadable date, overdue exactly before today, today exactly on today, upcoming exactly after; the status text agrees with the class and adds '(SOON)' for one to three days ahead (the same two functions are repeated in testing_env/test_app.py:305-337) |
| Helpers.CommentCount | app/utils/helpers.py:41-49 | the count never exceeds the comments and is 0 exactly when no comment is on the card |
| Helpers.CommentCountAdd | app/utils/helpers.py:49 | a new comment raises its own card's count by one and leaves every other card's count |
| Helpers.LabelById | app/utils/helpers.py:90-92 | the first label with the id, or none exactly when no label has it |
| Helpers.PredefinedLookup | app/__init__.py:15-20 | the predefined labels answer to 'bug', 'feature', 'urgent', 'enhancement' with their names and colours, and to nothing else |
| Helpers.WordRun | app/utils/helpers.py:86 | the `\w+` run at the start of a text is the longest prefix of word characters |
| Helpers.MentionShift | app/utils/helpers.py:86 | a mention found in a suffix is a mention of the whole text |
| Helpers.MentionsSound | app/utils/helpers.py:84-87 | every name found is a non-empty word written right after an '@' and ending where the word ends |
| Helpers.NoAtNoMentions | app/utils/helpers.py:86 | a text without an '@' mentions nobody |
| Helpers.Distinct | app/utils/helpers.py:87 | `list(set(...))` keeps exactly the names found, each once |
| Helpers.ExtractMentions | app/utils/helpers.py:84-87 | the distinct names `@(\w+)` finds, without duplicates |
| Helpers.MentionsComplete | app/utils/helpers.py:86 | every '@' followed by a word character yields its whole word run among the names found |
| Helpers.ExtractMentionsSpec | app/utils/helpers.py:84-87 | the names are exactly the non-empty words written right after an '@' and ending where the word ends, each once |
| Helpers.MentionOfName | app/utils/helpers.py:86 | '@name' alone mentions exactly that name |
| Helpers.FormatTimestamp | app/utils/helpers.py:52-68 | a missing or empty timestamp shows '-', a ten-character text is kept as it is |
| Helpers.FormatTimestampIdempotent | app/utils/helpers.py:52-68 | formatting a formatted timestamp changes nothing |
| Helpers.FormatTimestampDropsFraction | app/utils/helpers.py:60-63 | a date-time with a fraction of a second is shown to the second |
| Helpers.FormatTimestampOfShortDate | app/utils/helpers.py:60-63 | a bare date not written in ten characters is shown at midnight |
| Helpers.ParseDateNoTime | app/utils/helpers.py:60-63 | a text read as a bare date is refused by both date-time formats, so the format order cannot change the result |
| Helpers.FormatDate | app/utils/helpers.py:71-81 | no date shows '', a ten-character text is kept |
| Helpers.FormatDateFacts | app/utils/helpers.py:71-81 | formatting a formatted date changes nothing, and a strftime date-time is cut to its date |
| DateHelpers.ClassFollowsStatus | app_modules/utils/date_helpers.py:3-53 | the card class agrees with the status text: overdue, today, soon or nothing |
| Timestamps.SplitAt | app/utils/helpers.py:62 | the text before and after the first separator, which put back together give the text |
| Timestamps.SplitJoined | app/utils/helpers.py:62 | splitting a text joined at its first separator gives the two halves back |
| Timestamps.TrimLeft | app/utils/helpers.py:62 | strptime's skipping of white space leaves a text that is empty or starts with a non-space |
| Timestamps.ParseDateTime | app/utils/helpers.py:60-63 | a date-time is read only when it is a real calendar date and time of day |
| Timestamps.Canonical | app/utils/helpers.py:63 | strftime('%Y-%m-%d %H:%M:%S') writes nineteen characters |
| Timestamps.FirstParse | app/utils/helpers.py:60-65 | the first of the three formats that reads the text gives a valid date-time |
| Timestamps.HourPad | app/utils/helpers.py:62 | a two-digit hour reads back as itself |
| Timestamps.MinutePad | app/utils/helpers.py:62 | a two-digit minute or second reads back as itself |
| Timestamps.TimeRoundTrip | app/utils/helpers.py:60-63 | a written time of day reads back under the seconds format and is refused by the fraction format |
| Timestamps.CanonicalLayout | app/utils/helpers.py:63 | the date part of a written date-time and where its only space lies |
| Timestamps.ParseCanonical | app/utils/helpers.py:60-63 | what strftime writes the seconds format reads back; the fraction format refuses it |
| Timestamps.ParseFraction | app/utils/helpers.py:60-63 | one to six digits of fraction after the seconds are read and dropped |
| Timestamps.FractionTime | app/utils/helpers.py:60-63 | the time of day with a fraction reads back under the fraction format |
| Timestamps.FirstParseCanonical | app/utils/helpers.py:60-63 | reading a written date-time in format_timestamp's order gives it back |
| Dates.OrderAgrees | app/utils/helpers.py:14-17 | comparing dates field by field and comparing their day ordinals agree, in both directions, so `due_date < today` and `(due_date - today).days` tell the same story |
| Dates.ParseDate | app/utils/helpers.py:12 | strptime('%Y-%m-%d') gives a date only when it is a real calendar date |
| Dates.ParseDateIso | app_modules/models/sprint.py:23-24 | what isoformat writes, strptime('%Y-%m-%d') reads back |
| Dates.ParseIsoRoundTrip | app_modules/models/sprint.py:38 | what a date's isoformat writes, the date part of fromisoformat reads back |
| Dates.ParseIsoCanonical | app_modules/models/sprint.py:38 | a ten-character date the date part of fromisoformat accepts is the isoformat of what it read |
| IsoTimes.ParseTime | app_modules/models/sprint.py:44 | a time part is read only as HH, HH:MM, HH:MM:SS, HH:MM:SS.fff or HH:MM:SS.ffffff with every field in range |
| IsoTimes.FromIsoFormat | app_modules/models/sprint.py:38-44 | the first ten characters are the date; a date alone is midnight; a longer text is read as the date, any one separator character and the time |
| IsoTimes.TimeFormat | app_modules/models/sprint.py:28 | isoformat writes the time as HH:MM:SS, with six fraction digits only when the microseconds are not zero |
| IsoTimes.IsoFormatStamp | app_modules/models/sprint.py:28 | isoformat writes 19 characters, or 26 with microseconds |
| IsoTimes.TimeRoundTrip | app_modules/models/sprint.py:28-44 | the time isoformat writes is read back as the same time |
| IsoTimes.SeparatorRoundTrip | app_modules/models/sprint.py:28-44 | a date, any separator character and an isoformat time read back as that date and time |
| IsoTimes.IsoRoundTrip | app_modules/models/sprint.py:28-44 | `fromisoformat(t.isoformat()) == t` for every datetime |
| IsoTimes.DateRoundTrip | app_modules/models/sprint.py:23-38 | a date's isoformat is read as that date at midnight |
| IsoTimes.LayoutOfFormat | app_modules/models/sprint.py:28 | every isoformat text has a 'T' at position 10 and either no fraction or six digits that are not all zero |
| IsoTimes.IsoCanonical | app_modules/models/sprint.py:28-44 | writing back a parsed text gives the same text exactly when it already has the isoformat layout |
| IsoTimes.IsoAccepts | app_modules/models/sprint.py:38 | "2024-01-05" is midnight of that day and "2024-01-05T09:00" is nine o'clock |
| IsoTimes.IsoMilliseconds | app_modules/models/sprint.py:44 | three fraction digits are milliseconds: ".250" is 250000 microseconds |
| IsoTimes.IsoRefuses | app_modules/models/sprint.py:38 | a bare separator, hour 24, a single fraction digit and an unpadded date are refused |
| Numerals.IntRoundTrip | app/services/data_service.py:205 | `int(str(n)) == n` for the ids used as document names |
| Numerals.ParseDigits | app.py:923 | `int()` reads plain digits as their decimal value |
| Numerals.ParseIntBlank | app.py:923 | whitespace before or after the text changes nothing `int()` reads |
| Numerals.IntAcceptsBlanks | app.py:923 | " 3" and "3\n" read as 3 |
| Numerals.IntAcceptsSigns | app.py:923 | "+3" reads as 3 and "-3" as -3 |
| Numerals.IntAcceptsGroups | app.py:923 | single underscores between digits are allowed: "1_0" is 10 |
| Numerals.IntAcceptsZeros | app.py:923 | leading zeros are read: "007" is 7 |
| Numerals.IntRefuses | app.py:923 | the empty text, blanks alone, a lone sign, doubled, leading or trailing underscores, letters and a decimal point are refused |
| Numerals.Pad6Value | app_modules/models/sprint.py:28 | the six digits written for the microseconds read back as their value |
| Numerals.IntToStringInjective | app/services/data_service.py:205 | distinct ids give distinct document names |
| Common.NextId | app/routes/issues.py:84 | `max(ids, default=0) + 1` is above every existing id |
| Common.RemoveFirst | app.py:1414 | `list.remove(x)` drops one occurrence of x and changes nothing when x is absent |
| Common.RemoveFirstAt | app.py:1414 | the occurrence dropped is the first one: the result is the list without the element at the first index holding x |
| AppSprints.Lifecycle | app.py:1226-1266 | the lifecycle runs planning, active, completed and never backwards: a started sprint can be completed and not started again, a completed one neither |
| AppSprints.CreateSprint | app.py:1180-1208 | succeeds exactly when name, project_id, start_date and end_date are given; the new sprint is exactly the request's name, project and dates with goal defaulting to '', story points to 0, status 'planning', no issues and the creation stamps, under an id above every sprint id; a failure changes nothing |
| AppSprints.StartSprint | app.py:1212-1244 | 404 for an unknown sprint, 400 'Can only start sprints in planning status' unless it is 'planning', an error when its start date does not parse, 400 'Cannot start sprint with past start date' when that date is before today; otherwise only that sprint becomes 'active' |
| AppSprints.CompleteSprint | app.py:1248-1274 | 404 for an unknown sprint, 400 unless it is 'active'; otherwise only that sprint becomes 'completed' |
| AppSprints.MergeProperties | app.py:1370-1388 | the old list stays an unchanged prefix, every requested id ends up present, only requested ids are added, and no duplicate is introduced |
| AppSprints.AppendMissing | app.py:1378-1380 | the `for id in ids: if id not in lst: lst.append(id)` loop computes the merge |
| AppSprints.AddIssueToSprint | app.py:1278-1307 | 404 for an unknown sprint, 400 for a falsy issue id; otherwise the sprint's issue list exists and holds the id |
| AppSprints.AddItemsToSprint | app.py:1351-1394 | 404 for an unknown sprint; otherwise the three lists exist and each gains the requested ids it lacked, nothing else changes |
| AppSprints.AddItemsCovers | app.py:1370-1388 | after adding, every requested id is in its list and nothing was lost |
| AppSprints.RemoveItemEffect | app.py:1413-1418 | removal touches only the list named by the item type, shortens it by one when the item was there, and is a no-op for an unknown type or an absent id |
| AppSprints.RemoveItemFromSprint | app.py:1398-1424 | 404 for an unknown sprint, otherwise success with the removal above |
| AppSprints.EditedKeeps | app.py:1443-1455 | an edit keeps the sprint's id, project, status and item lists; a field the request leaves out keeps its value |
| AppSprints.UpdateSprint | app.py:1428-1461 | 404 for an unknown sprint, otherwise only that sprint takes the given fields |
| AppSprints.MapAll | app.py:1555-1568 | one pass over a list rewrites every element in place and keeps its length |
| AppSprints.StripIdsRemovesReference | app.py:1556-1568 | stripping a sprint id from a list without duplicates leaves no reference to it and keeps every other id |
| AppSprints.DeleteSprint | app.py:1534-1579 | refused for an unknown or an active sprint; otherwise the sprints with that id are removed and the id is struck from every epic, story and card `sprint_ids` list |
| AppSprints.GetSprintItems | app.py:1311-1347 | fails exactly for an unknown sprint; otherwise exactly the epics, stories and cards whose ids the sprint lists |
| AppCards.DeriveParents | app.py:813-825 | an existing story decides both project_id and epic_id; otherwise an existing epic decides project_id; otherwise the request's values stand |
| AppCards.AddCard | app.py:804-845 | fails (store untouched) exactly when the title is missing; otherwise one card is appended under the derived parents with an id above every card id, the given title, status (default 'todo'), priority (default 'Medium'), story points and story, description, assignee, due date and labels defaulting to empty, and the creation stamp |
| AppCards.DeleteCard | app.py:969-986 | 404 (store untouched) exactly when no card has the id; otherwise no card with the id remains and exactly the comments with that card_id are removed |
| AppCards.DeleteKeepsOtherComments | app.py:978-980 | a comment on any other card is kept |
| AppCards.SearchCards | app.py:909-945 | fails exactly when a project_id is given that `int()` rejects and there is at least one card, since `int()` runs once per card inside the comprehension; the result is never longer than the cards |
| AppCards.NarrowStep | app.py:920-944 | each comprehension of the chain keeps the cards that also pass the next test |
| AppCards.SearchIsOneFilter | app.py:920-944 | the chain returns exactly the subsequence of cards satisfying every non-empty filter (assignee case-insensitively, label membership, query in lowercase title or description) |
| AppCards.SearchStages | app.py:920-944 | the chain's result is the cards passing all six tests |
| AppCards.PassingAllIsMatching | app.py:920-944 | passing the six tests in turn is matching every given filter |
| AppCards.StoryNodes | app.py:1477-1478 | one node per story with that story's cards |
| AppCards.EpicNodes | app.py:1473-1478 | one node per epic with its stories |
| AppCards.ProjectHierarchy | app.py:1465-1499 | the epics listed are exactly the project's; orphaned stories are exactly the project's stories whose epic is not one of the project's epics; orphaned issues are exactly the project's cards whose story matches no story |
| AppCards.HierarchyCoversStories | app.py:1470-1483 | each story of the project is either under one of its epics or among the orphans |
| Api.SaveMindmap | app/routes/api.py:18-41 | always reports success; the first project with the id gets the given nodes and connections (missing ones become empty lists) and an update stamp, and an unknown id leaves the store untouched |
| Api.LoadMindmap | app/routes/api.py:43-62 | an error exactly when no project has the id; otherwise the project's stored nodes and connections, each empty when never saved |
| Api.LoadAfterSave | app/routes/api.py:18-62 | loading a project's mind map after saving it returns exactly what was saved |
| Api.AddProject | app/routes/api.py:320-354 | succeeds exactly when a non-empty name is given; a refusal leaves the store untouched; the new project is exactly the name, the description (default ''), not archived, and the creation stamps, appended with an id above every existing project id |
| Api.AddEpic | app/routes/api.py:64-99 | succeeds exactly when a name and a non-zero project id are given; a refusal leaves the store untouched; the new epic is exactly the name, project, description (default '') and creation stamps, appended with an id above every existing epic id (1 for the first) |
| Api.AddStory | app/routes/api.py:101-142 | succeeds exactly when a name and an existing epic are given, answering 'Epic not found' for a missing epic; the new story is exactly the name, that epic and its project, the description (default '') and the creation stamps, appended with an id above every existing story id; a refusal changes nothing |
| Api.AddCard | app/routes/api.py:144-191 | succeeds exactly when a title is given; the new card is always 'todo', unassigned and without due date, keeps the given parents, description (default '') and labels (default none), carries the creation stamps, and is appended with an id above every existing card id; a refusal changes nothing |
| Api.UpdateCardStatus | app/routes/api.py:193-213 | an error, with no change, exactly when no card has the id; otherwise only the first such card's status and update stamp change |
| Api.ArchiveRestore | app/routes/api.py:401-441 | archiving makes a project count as archived, restoring makes it active again, and the round trip changes nothing but the flag and the audit stamps |
| Api.ArchiveProject | app/routes/api.py:401-421 | an error, with no change, exactly when no project has the id; otherwise only the first such project is archived and stamped |
| Api.RestoreProject | app/routes/api.py:423-441 | an error, with no change, exactly when no project has the id; otherwise only the first such project is restored and stamped |
| Api.TeamMembers | app/routes/api.py:306-318 | every member listed is an active user, with the display name falling back to the username, and every active user is listed |
| Api.CollectProperties | app/routes/api.py:252-283 | one search loop keeps exactly the hits of the records that match, never more entries than records |
| Api.Pass | app/routes/api.py:252-283 | one search loop raises exactly when some matching record lacks the key the hit reads; otherwise it returns the hits of all matching records in order |
| Api.Search | app/routes/api.py:241-290 | the handler as written: the three loops in turn, with any raised error turning the whole reply into a failure |
| Api.ResultsOrdered | app/routes/api.py:252-283 | every description is cut to at most 100 characters, and cards come before epics, epics before stories |
| Api.ResultsExact | app/routes/api.py:252-283 | every hit comes from a card, epic or story whose name/title or description contains the lower-cased query, and every such record is found |
| Api.AsWrittenAgrees | app/routes/api.py:241-290 | for a non-empty query and no matching epic or story without a name, the handler returns exactly the intended results |
| Api.NamelessEpicBreaksSearch | app/routes/api.py:264-272 | one epic with a title but no name, whose description contains the query, makes the whole search fail although it should be found |
| Analytics.OverdueCases | app/services/analytics_service.py:314-323 | a done card, a missing or empty due date and an unparseable one are never overdue; otherwise a card is overdue exactly when its due date (midnight) lies before the given moment |
| Analytics.HealthOfSpec | app/services/analytics_service.py:52-72 | a project is skipped exactly when no card carries its id; otherwise its entry keeps the project's id and name, its total is the number of the project's cards, its completed and overdue counts are the numbers of the project's done and overdue cards, and its status is the precedence applied to these counts |
| Analytics.ProjectHealth | app/services/analytics_service.py:46-86 | never more entries than projects; every entry has a positive total, completed and overdue tasks within it, and the status the precedence gives |
| Analytics.ProjectHealthSomes | app/services/analytics_service.py:50-84 | the report is the per-project entries with the skipped projects left out, in project order |
| Analytics.ProjectHealthSpec | app/services/analytics_service.py:46-86 | the report lists, once each and in project order, the health of exactly the projects that have cards: entry k is the health of project idx[k], the indices increase, and a project's index is among them exactly when it has a card |
| Analytics.HealthPrecedence | app/services/analytics_service.py:52-72 | read against the project's own cards: the project is overdue exactly when one of its cards is overdue, completed exactly when every one of its cards is done, and at risk exactly when none of its cards is overdue and under 30 percent of them are done |
| Analytics.StatusCases | app/services/analytics_service.py:64-72 | the status is one of the four; overdue exactly with an overdue count; otherwise at-risk below 30 percent done, completed exactly when all are done, on-track in between |
| Analytics.HealthReportAddsUp | app/services/analytics_service.py:201-216 | the on-track, at-risk, overdue and completed counts add up to the number of projects reported |
| Analytics.Resources | app/services/analytics_service.py:117-133 | one resource per workload, in the same order |
| Analytics.ResourceUtilization | app/services/analytics_service.py:88-134 | the tally loop and the conversion loop compute exactly the resources of the workloads of the cards |
| Analytics.TallyEffect | app/services/analytics_service.py:94-114 | one tally turn keeps every existing entry in place under its name, adds one task to the card's assignee only, appends a one-task entry exactly for a new real assignee, and keeps the workloads sound |
| Analytics.WorkloadsSound | app/services/analytics_service.py:94-114 | after the loop the entries have distinct real assignee names, each with at least one task and completed plus in-progress, and overdue, within the total |
| Analytics.WorkloadsListAll | app/services/analytics_service.py:94-114 | every card with a present, non-empty assignee other than 'Unassigned' has that assignee's entry |
| Analytics.WorkloadsCount | app/services/analytics_service.py:94-114 | each entry's total is exactly the number of cards assigned to its name |
| Analytics.WorkloadFacts | app/services/analytics_service.py:88-114 | the workloads list each distinct real assignee once, each counting exactly that assignee's cards, with the counters within the total |
| Analytics.NewNameUnused | app/services/analytics_service.py:98-106 | a name no entry carries yet belongs to no card already tallied, so a new entry starts from the card that creates it |
| Analytics.UtilizationBounds | app/services/analytics_service.py:117-122 | every resource's utilisation, min(100, 10 per task), lies between 10 and 100, with capacity 40 |
| Analytics.ResourceBucketsPartition | app/services/analytics_service.py:218-232 | the over, high and normal counts of the resource report add up to the number of resources |
| Analytics.NoBudgetOverrun | app/services/analytics_service.py:180-183 | no project spends more than its mock budget, so the budget variance never exceeds 10 percent and no budget risk is raised |
| Analytics.ProjectRiskCounts | app/services/analytics_service.py:269-282 | one high risk per overdue project, one medium risk per project at risk, and no other project risk |
| Analytics.ResourceRiskCounts | app/services/analytics_service.py:284-291 | one high risk per resource above 90 percent utilisation and no other resource risk |
| Analytics.RiskReportCounts | app/services/analytics_service.py:261-312 | the high count is the overdue projects plus the over-utilised resources, the medium count the projects at risk, the low count zero, and the total their sum |
| Auth.SessionUser | app/routes/auth.py:43-51 | the session user keeps the record's id, username, hash and e-mail, and takes role 'user' and status 'active' where the record has none |
| Auth.LoginGate | app/routes/auth.py:26-41 | a login succeeds exactly when the first user with the name exists, its password checks and its status is 'active'; it is refused as invalid exactly when no such user's password checks; an inactive account is turned away even with the right password |
| Auth.StatusMessage | app/routes/auth.py:35-40 | the message for an inactive account is never empty, with its own text for pending, suspended and inactive accounts |
| Auth.NotActiveFlash | app/routes/auth.py:40 | the flash of an inactive account starts with 'Account status: ' followed by the status and the message |
| Auth.Login | app/routes/auth.py:20-65 | the outcome is the one LoginGate describes; a refused login changes nothing, and a successful one only stamps the last login of the first user with that id |
| Auth.LoginTouchesOnlyLastLogin | app/routes/auth.py:53-58 | the list keeps its length, every user keeps every field but the last-login stamp, and only the first user with the id gets the time |
| Auth.Register | app/routes/auth.py:68-96 | the mismatch message exactly for differing passwords, the length message exactly for matching passwords under 6 characters, and otherwise only a notice: this register adds no user |
| Auth.ProfileEditKeeps | app/routes/auth.py:116-120 | the profile form sets only the e-mail and the notification choice, and saving it twice is the same as once |
| Auth.Profile | app/routes/auth.py:109-110 | the current user's record when some user has the id, and nothing exactly when none has |
| Auth.UpdateProfile | app/routes/auth.py:112-124 | only the first user with the current user's id takes the new e-mail and notification choice; nothing else in the store changes |
| ModulesAuth.NotActiveFlash | app_modules/routes/auth.py:20-28 | the flash for an inactive account is the bare, non-empty status message, unlike the other login's |
| ModulesAuth.Register | app_modules/routes/auth.py:55-82 | a mismatch, then a short password, is refused with no change; only a form passing both reaches create_user, which refuses a taken username or e-mail and otherwise appends a pending account with role 'user' |
| ModulesAuth.AdminUsers | app_modules/routes/auth.py:114-135 | refused exactly when the caller cannot manage users; otherwise the users passing every filter, in stored order, with statistics over all users |
| ModulesAuth.AdminUserStats | app_modules/routes/auth.py:173-179 | refused exactly when the caller cannot manage users; otherwise statistics whose total is the number of users |
| ModulesAuth.AdminUpdateStatus | app_modules/routes/auth.py:137-147 | denied with nothing changed to a caller who cannot manage users; otherwise an error with no change for an unknown id, else only the first user with the id takes the status and the caller's audit stamps |
| ModulesAuth.AdminUpdateRole | app_modules/routes/auth.py:149-159 | as AdminUpdateStatus, for the role |
| ModulesAuth.AdminBulkUpdate | app_modules/routes/auth.py:161-171 | denied with nothing changed to a caller who cannot manage users; otherwise the service's bulk update, replying with the number of listed ids that named a user |
| ModulesMain.AllOf | app_modules/routes/main.py:19-32 | the rewritten list has one rewritten element per element, in order, and there is none exactly when some element's rewrite raises |
| ModulesMain.Rewrite | app_modules/routes/main.py:19-32 | the rewrite loop, changing the list in place, ends with exactly the rewritten list, or stops when an element raises |
| ModulesMain.FailureSpreads | app_modules/routes/main.py:43-45 | once some element fails to rewrite, the whole load falls back, however the rest would rewrite |
| ModulesMain.LoadFirebaseData | app_modules/routes/main.py:7-45 | with a store whose projects and cards all rewrite, exactly the rewritten lists; with no store, or when a rewrite raises, the JSON file's data |
| ModulesMain.PrefixedIdsBecomeNumbers | app_modules/routes/main.py:20-30 | a 'PROJ-' project id, a 'CARD-' card id and a 'PROJ-' card project id become the number between the first and the second '-', whatever follows |
| ModulesMain.PlainProjectIdParsed | app_modules/routes/main.py:31-32 | a card's project id given as a plain digit string is read as that number |
| ModulesMain.OtherIdsUnchanged | app_modules/routes/main.py:20-28 | numbers, missing keys and strings without the prefix keep their value |
| ModulesMain.UpTo | app_modules/routes/main.py:22 | the text before the first separator: a prefix of the input holding no separator, followed in the input by the separator unless it is all of it |
| ModulesMain.DashboardStats | app_modules/routes/main.py:57-62 | the to-do, in-progress and done counts add up to at most the total, which is the number of cards |
| ModulesMain.ProjectNamed | app_modules/routes/main.py:73 | the first project with the id, drawn from the list, and none exactly when no project has the id |
| ModulesMain.IssuesList | app_modules/routes/main.py:67-78 | with a non-zero project id, exactly the cards carrying it and the project of that id; otherwise all cards and no project |
| ModulesMain.KanbanBoard | app_modules/routes/main.py:82-97 | a 404 exactly when no project has the id; otherwise the board of that project |
| ModulesMain.BoardColumns | app_modules/routes/main.py:88-91 | each column holds only the project's cards of its own status, so the columns are disjoint, and every card of the project with status 'todo', 'in_progress' or 'done' is in its column |
| ModulesMain.Backlog | app_modules/routes/main.py:101-113 | only to-do cards from the data; with a non-zero project id exactly that project's to-do cards, otherwise all to-do cards and no project |
| UserService.NewUserId | app_modules/services/user_service.py:19-24 | the new id is at least 1 and above every existing (non-negative) user id |
| UserService.CreateUser | app_modules/services/user_service.py:8-47 | refused with 'Username already exists', then 'Email already exists', exactly when the name, then the e-mail, is taken, with nothing changed; otherwise exactly one user with the given fields and an id above every existing id is appended |
| UserService.CreatedIsNew | app_modules/services/user_service.py:13-17 | an account that passes both checks shares its username and e-mail with no existing user |
| UserService.UpdateUserStatus | app_modules/services/user_service.py:62-80 | 'User not found', with nothing changed, exactly when no user has the id; otherwise only the first such user takes the status and the admin's audit stamps |
| UserService.UpdateUserRole | app_modules/services/user_service.py:83-96 | as UpdateUserStatus, for the role |
| UserService.ChangesKeepIdentity | app_modules/services/user_service.py:66-91 | a status or role change sets that field and the stamps and keeps every other field |
| UserService.BulkKeepsIds | app_modules/services/user_service.py:104-117 | the bulk update keeps the list's length and every user's id and username |
| UserService.BulkPass | app_modules/services/user_service.py:104-117 | the nested loops compute exactly the bulk update, and the updated count is the number of listed ids that name a user (an id listed twice counts twice), never more than the ids given |
| UserService.BulkUpdateUsers | app_modules/services/user_service.py:99-126 | the store's users become the bulk update of the old users, and the reply counts the listed ids that named a user |
| UserService.FoundIffKnown | app_modules/services/user_service.py:105-106 | after earlier updates the inner loop still finds an id exactly when an original user had it, since updates keep ids |
| UserService.BulkNext | app_modules/services/user_service.py:104-117 | one more listed id changes the user the lookup finds and adds one to the count exactly when it names an original user |
| UserService.BulkEffect | app_modules/services/user_service.py:107-112 | with approve, reject or suspend, a user ends with active, inactive or suspended exactly when it is the first user holding one of the listed ids, and keeps its status otherwise |
| UserService.SameFirst | app_modules/services/user_service.py:105-106 | lists with the same ids have the same first holder of each id |
| UserService.UserStats | app_modules/services/user_service.py:129-144 | the total is the number of users; the active, pending and suspended counts, and the admin, manager and regular counts, each add up to at most the total |
| UserService.PendingUsers | app_modules/services/user_service.py:56-59 | exactly the users whose status is 'pending', drawn from the list |
| UserService.SearchUsersIsOneFilter | app_modules/services/user_service.py:147-166 | the three successive filters keep, in stored order, exactly the users passing every given filter: status, role and a case-insensitive query on username, e-mail or display name |
| SprintRoutes.CreateSprint | app/routes/sprints.py:41-83 | succeeds exactly with a non-empty name and a non-zero project id; a refusal answers 'Name and project are required' and changes nothing; the new sprint is exactly the name, project, dates and description (default '') in 'planning' with no items and the creation stamps, appended with an id above every existing sprint id |
| SprintRoutes.StartKeepsOneActive | app/routes/sprints.py:91-107 | starting a sprint that passes the guard keeps at most one active sprint per project |
| SprintRoutes.CompleteKeepsOneActive | app/routes/sprints.py:122-145 | completing a sprint keeps at most one active sprint per project |
| SprintRoutes.StartSprint | app/routes/sprints.py:85-118 | succeeds exactly for an existing, non-active sprint whose project has no active sprint, so a completed sprint may start again; a refusal changes nothing; success starts only that sprint, and one active sprint per project is preserved |
| SprintRoutes.CompleteSprint | app/routes/sprints.py:120-145 | succeeds exactly for an existing active sprint; a refusal changes nothing; success completes only that sprint and keeps one active sprint per project |
| SprintRoutes.EnrichSpec | app/routes/sprints.py:158-177 | the entries are drawn, in order, from the items whose record exists and whose type is known, each such item is present, and there are never more entries than items |
| SprintRoutes.GetSprintItems | app/routes/sprints.py:147-184 | an error exactly for an unknown sprint; otherwise the sprint's items resolved in order |
| SprintRoutes.AppendKeepsUnique | app/routes/sprints.py:218-228 | appending a (type, id) pair that is absent keeps the pairs unique |
| SprintRoutes.AddSprintItem | app/routes/sprints.py:186-238 | succeeds exactly for an existing sprint, a non-empty type, a non-zero id, an existing item of a known type and a pair not yet present; a refusal changes nothing; success appends exactly one stamped entry and keeps the pairs unique |
| SprintModel.Create | app_modules/models/sprint.py:5-16 | a new sprint object starts with an empty issue list and the current time as its creation time |
| SprintModel.ToDict | app_modules/models/sprint.py:18-31 | every key is written, and the dates in the ten-character ISO form |
| SprintModel.DayOf | app_modules/models/sprint.py:38-39 | a day exactly when `datetime.fromisoformat` reads the text, and then the date part of what it read |
| SprintModel.FromDict | app_modules/models/sprint.py:32-46 | fails exactly when `datetime.fromisoformat` rejects the start date, the end date or created_at; the dates are the date parts and the creation time the datetime read; missing goal, status, story points and issues take the defaults '', 'planning', 0 and [] |
| SprintModel.FromToDict | app_modules/models/sprint.py:18-46 | reading back what to_dict wrote gives the same sprint when its creation time is a datetime; a creation time held as text comes back as the datetime it reads as, or the read fails |
| SprintModel.ToFromDict | app_modules/models/sprint.py:18-46 | writing out a sprint read from a dictionary with every key rewrites both dates as YYYY-MM-DD and created_at as isoformat text, and so gives the dictionary back exactly when the dates are plain dates and created_at already has the isoformat layout |
| SprintModel.DateCanonical | app_modules/models/sprint.py:23-39 | the date part of a parsed text is written back as the text exactly when the text is a date alone |
| SprintModel.DurationFacts | app_modules/models/sprint.py:48-49 | a sprint lasts one day exactly when it starts and ends the same day, and at least one day exactly when it does not end before it starts |
| SprintModel.IsActiveMeans | app_modules/models/sprint.py:51-53 | active exactly when the status is 'active' and today lies between the start and end days, both included |
| SprintService.OnlyExistingAttributes | app_modules/services/sprint_service.py:60-74 | keyword arguments naming no attribute of the sprint change nothing |
| SprintService.UpdateKeepsIdAndIssues | app_modules/services/sprint_service.py:60-74 | an update that names neither id nor issues keeps both |
| SprintService.BadDateFails | app_modules/services/sprint_service.py:60-74 | a date text that `datetime.fromisoformat` rejects makes the whole update fail |
| SprintService.DateTextSetsDay | app_modules/services/sprint_service.py:67-68 | a date text `datetime.fromisoformat` reads sets the date to its day, whatever time of day follows it |
| SprintService.DateTimeTextAccepted | app_modules/services/sprint_service.py:67-68 | the text "2024-01-05T09:00" sets the start date to 5 January 2024 |
| SprintService.Service.constructor | app_modules/services/sprint_service.py:8-24 | the service holds the sprints read from the file |
| SprintService.Service.SprintById | app_modules/services/sprint_service.py:49-51 | a sprint exactly when some sprint has the id, and then one with that id from the list |
| SprintService.Service.SprintsByProject | app_modules/services/sprint_service.py:53-55 | exactly the sprints of the project, drawn from the list |
| SprintService.Service.ActiveSprints | app_modules/services/sprint_service.py:112-114 | exactly the sprints active on the given day, drawn from the list |
| SprintService.Service.CreateSprint | app_modules/services/sprint_service.py:30-47 | exactly one sprint is appended, in 'planning' with no issues, the given fields and the current time as creation time, with an id above every existing one (1 for the first) |
| SprintService.Service.UpdateSprint | app_modules/services/sprint_service.py:60-74 | None and no change for an unknown id; a failed date parse changes nothing; otherwise the first sprint with the id becomes the changed sprint and nothing else changes |
| SprintService.Service.StartSprint | app_modules/services/sprint_service.py:116-117 | true exactly when the sprint exists, which then becomes 'active' whatever its status, with nothing else changed |
| SprintService.Service.CompleteSprint | app_modules/services/sprint_service.py:119-120 | true exactly when the sprint exists, which then becomes 'completed' whatever its status, with nothing else changed |
| SprintService.Service.DeleteSprint | app_modules/services/sprint_service.py:76-84 | true exactly when some sprint had the id; afterwards exactly the other sprints remain, in order |
| SprintService.Service.ReplaceFirst | app_modules/services/sprint_service.py:66-72 | the write-back loop replaces only the first sprint with the id, and changes nothing when there is none |
| SprintService.Service.AssignIssue | app_modules/services/sprint_service.py:86-97 | true exactly when the sprint exists and the issue is not in it yet; then only that sprint gains the issue at the end, otherwise nothing changes |
| SprintService.Service.RemoveIssue | app_modules/services/sprint_service.py:99-110 | true exactly when the sprint exists and holds the issue; then only one occurrence is removed, otherwise nothing changes |
| SprintService.AssignKeepsDistinct | app_modules/services/sprint_service.py:92-95 | assigning only absent issues keeps an issue list free of duplicates |
| SprintService.RemoveLeavesNone | app_modules/services/sprint_service.py:104-107 | removing an issue from a list without duplicates removes it entirely and keeps every other issue |
| DataService.Put | app/services/data_service.py:205 | a document set at a path is stored afterwards; it replaces the document at that path or is added after the existing ones |
| DataService.PutOthers | app/services/data_service.py:205 | setting a document changes only the document at its path |
| DataService.DocStore.Set | app/services/data_service.py:205 | the store's documents become the old ones with the one document set |
| DataService.CommentWrite | app/services/data_service.py:249-259 | a comment is written exactly when some card has its card_id, and then as one document |
| DataService.CardWrites | app/services/data_service.py:231-240 | one issue document per card, in order, at the card's projects/epics/stories/issues path and without its four id fields |
| DataService.StoreAll | app/services/data_service.py:200-259 | the write loops set the documents one by one, in order |
| DataService.SaveData | app/services/data_service.py:186-259 | with a store, the documents become the old ones with users, projects, epics, stories, cards, sprints and the comments of existing cards set in that order |
| DataService.PutAllPaths | app/services/data_service.py:200-259 | saving never removes a document: every path stored before and every path written is stored afterwards, and every stored document was there or was written |
| DataService.PutAllKeeps | app/services/data_service.py:200-259 | a document at a path no write touches stays as it was |
| DataService.PutAllLands | app/services/data_service.py:200-259 | a document whose path no other write shares is in the store afterwards |
| DataService.Stream | app/services/data_service.py:41-44 | a stream loop appends exactly what the reading of its documents gives, up to the first exception |
| DataService.CollectStopped | app/services/data_service.py:39-115 | once a document raises, no later document is read |
| DataService.CollectTakes | app/services/data_service.py:39-115 | a loop that completes read every document without an exception |
| DataService.CollectHas | app/services/data_service.py:39-115 | a completed loop holds every record any document contributed |
| DataService.CollectCompletes | app/services/data_service.py:39-115 | a loop in which no document raises completes |
| DataService.CollectSkips | app/services/data_service.py:46-60 | a document that contributes nothing can be left out of the loop |
| DataService.Distribute | app/services/data_service.py:10-112 | each record goes to its own list, in the order appended, and no notification is ever loaded |
| DataService.LoadFromStore | app/services/data_service.py:39-115 | the store branch's loops load exactly what the reading of the store's documents defines |
| DataService.CardLoaded | app/services/data_service.py:84-102 | an issue document under project, epic and story documents named by numbers is loaded with its id, story_id, epic_id and project_id read from the path |
| DataService.ReadableCards | app/services/data_service.py:84-102 | on a store whose documents are all named by numbers, every card the loops read ends up in the cards loaded |
| DataService.CommentWritesCount | app/services/data_service.py:249-259 | one comment document per comment whose card exists; the other comments are not written |
| DataService.CommentWritesShape | app/services/data_service.py:249-259 | each comment document sits under its card's issue, is named by the comment's id and holds the comment without id and card_id |
| DataService.WriteKinds | app/services/data_service.py:200-259 | users, projects, epics and stories are written before the cards, sprints and comments after them |
| DataService.WritesNumbered | app/services/data_service.py:200-259 | save_data names every document by the decimal text of an id |
| DataService.CardPathOwned | app/services/data_service.py:231-240 | with distinct card ids only the card's own document is written to its path |
| DataService.SaveLoadCard | app/services/data_service.py:8-259 | save then load: a card whose project, epic and story are saved too comes back whole, its four ids rebuilt from the path |
| DataService.LoadedCardsNamed | app/services/data_service.py:40-112 | every card load_data returns carries the number of an issue document of the store |
| DataService.DeletedCardReturns | app/services/data_service.py:200-259 | as written: saving data that lacks a card onto a store holding that card's issue document, under its project, epic and story documents, leaves the document in place, and the next load lists the card again |
| DataService.DeletedCardGone | app/services/data_service.py:200-259 | intended: when the documents at paths the save does not write are deleted first, a card the data lacks is not loaded again |
| DataService.SyncedKeepsCard | app/services/data_service.py:200-259 | intended: the pruning save still loads back whole every card whose project, epic and story are saved |
| DataService.NonNumericProjectSkipped | app/services/data_service.py:46-60 | a project document whose name is not a number changes nothing load_data returns: neither the projects nor anything under it |
| DataService.NoStore | app/services/data_service.py:12-37 | without a store: the local data when it has users, else data.json when it has users, else the eight empty lists, with no seeding |
| DataService.Fallback | app/services/data_service.py:120-142 | a store load with users is kept; with no users, the local data when it has users, or data.json when the local read raised |
| DataService.Seeded | app/services/data_service.py:144-181 | an empty user list gets the administrator with id 1, an empty project list the default project with id 1; everything else is kept |
| DataService.LoadData | app/services/data_service.py:8-183 | without a store the no-store result; with one, the store's data after the fallback and seeding, with the seeded documents written to the store |
| DataService.StoreAlwaysSeeded | app/services/data_service.py:144-181 | with a store, load_data always returns at least one user and one project |
| DataService.DistributeUsers | app/services/data_service.py:41-44 | when only users were read, every other list is empty |
| DataService.BadUserEndsLoad | app/services/data_service.py:41-44 | a user document whose name is not a number raises: the load keeps only the users read before it and nothing else |
| Migration.PlaceSpec | migrate_to_hierarchical.py:50 | the place found holds the id and no earlier place does, and there is none exactly when no project has the id |
| Migration.MigrateData | migrate_to_hierarchical.py:16-128 | the store becomes exactly the migrated data: the loop's epics, stories and cards, everything else unchanged |
| Migration.MigrateProject | migrate_to_hierarchical.py:45-90 | one turn of the loop keeps the relation between the counters and the lists and changes only epics, stories and cards |
| Migration.RetagCards | migrate_to_hierarchical.py:86-89 | the loop over the project's cards moves exactly those cards under the new epic and story |
| Migration.FreshProjects | migrate_to_hierarchical.py:45-56 | the projects that get a new epic are listed projects without an epic, none twice |
| Migration.ClosedAll | migrate_to_hierarchical.py:45-90 | the loop over the projects reaches the closed form over the projects that had no epic |
| Migration.StepClosed | migrate_to_hierarchical.py:45-90 | one more project keeps the closed form, adding the project unless it had an epic or was handled already |
| Migration.PlannedAfter | migrate_to_hierarchical.py:50-67 | after the new epics a project has an epic exactly when it had one or got a new one |
| Migration.NewAt | migrate_to_hierarchical.py:57-82 | the i-th new epic and story have the ids one above the counters plus i, belong to the i-th project without an epic, and the story sits under the epic |
| Migration.RelinkAt | migrate_to_hierarchical.py:85-89 | a card of the i-th project without an epic is linked to the i-th new epic and story; any other card is left alone |
| Migration.FreshCovers | migrate_to_hierarchical.py:45-67 | every listed project had an epic or gets a new one |
| Migration.Closed | migrate_to_hierarchical.py:41-90 | the loop computes the migrated epics, stories and cards in one piece |
| Migration.MigratedPrefix | migrate_to_hierarchical.py:41-90 | the old epics and stories stay in front unchanged, as many new epics as new stories follow, the cards keep their number, and nothing else changes |
| Migration.MigratedNewPairs | migrate_to_hierarchical.py:57-82 | each new story sits under the new epic of the same turn, in the same project, a listed project that had no epic |
| Migration.MigratedNewDistinct | migrate_to_hierarchical.py:42-67 | new epics have increasing ids and distinct projects: at most one per project |
| Migration.MigratedCovers | migrate_to_hierarchical.py:45-67 | every listed project has an epic afterwards |
| Migration.PlannedCardsUntouched | migrate_to_hierarchical.py:49-53 | the cards of a project that already had an epic stay as they were |
| Migration.FreshCardsMoved | migrate_to_hierarchical.py:85-89 | every card of a listed project without an epic is moved under that project's new epic and its story, with nothing else about the card changed |
| Migration.VerifyMigration | migrate_to_hierarchical.py:130-173 | true exactly when every card has a non-zero epic_id and story_id and every story a non-zero epic_id |
| Migration.RelinkLinks | migrate_to_hierarchical.py:85-89 | with counters that are not negative every relinked card ends up linked |
| Migration.MigrationLinksAll | migrate_to_hierarchical.py:16-173 | with ids that are not negative, stories that already have an epic and every card either linked or in a listed project without an epic, the migrated data passes verify_migration |
| MindMapEditor.SavedSpec | static/js/mindmap.js:78-93 | the history after saveState is the snapshots up to the cursor, at most the latest 49 of them, followed by the new one, never more than 50, with the cursor on the new one |
| MindMapEditor.UndoRedo | static/js/mindmap.js:95-114 | an undo that moved the cursor followed by a redo puts it back, and so does a redo followed by an undo; the cursor stays within the history |
| MindMapEditor.MindMap.constructor | static/js/mindmap.js:3-10 | a new editor has an empty history with the cursor before it, an empty clipboard and nothing selected |
| MindMapEditor.MindMap.SaveState | static/js/mindmap.js:78-93 | the history and cursor become what SavedSpec describes for a snapshot of the current map, the history stays within 50, and nothing else changes |
| MindMapEditor.MindMap.Undo | static/js/mindmap.js:95-104 | the cursor moves back one unless at the first snapshot; when it moves, the map becomes that snapshot, otherwise nothing changes |
| MindMapEditor.MindMap.Redo | static/js/mindmap.js:106-114 | the cursor moves on one unless at the last snapshot; when it moves, the map becomes that snapshot, otherwise nothing changes |
| MindMapEditor.MindMap.Copy | static/js/mindmap.js:116-120 | the selected node, if any, becomes the clipboard; nothing else changes |
| MindMapEditor.MindMap.Paste | static/js/mindmap.js:122-133 | without a clipboard nothing changes; with one, a copy under the next id, moved 50 right and 50 down, is appended, selected and saved in the history, and the id counter moves on |
| MindMapEditor.MindMap.GenerateSummary | static/js/mindmap.js:459-492 | the summary counts the nodes, the nodes of each type and the connections, lists the isolated nodes and gives the completion rate of the current map |
| MindMapEditor.TallyNodes | static/js/mindmap.js:469-471 | the counting loop gives exactly the tally of the nodes by type |
| MindMapEditor.TallyCounts | static/js/mindmap.js:469-471 | every type is listed once, the count under each type is the number of nodes of that type, and the counts add up to the number of nodes |
| MindMapEditor.BumpCounts | static/js/mindmap.js:470 | counting one more node adds one to its type and to the sum and leaves the other types |
| MindMapEditor.BumpKeys | static/js/mindmap.js:470 | after counting a node the types listed are the old ones and the node's type |
| MindMapEditor.BumpKeyed | static/js/mindmap.js:470 | counting a node keeps every type listed once |
| MindMapEditor.LinkedSpec | static/js/mindmap.js:484-488 | an id is connected exactly when some connection starts or ends at it |
| MindMapEditor.Touched | static/js/mindmap.js:484-488 | the loop over the connections collects exactly the connected ids |
| MindMapEditor.IsolatedExact | static/js/mindmap.js:490 | a node is isolated exactly when it is on the map and no connection starts or ends at it |
| MindMapEditor.CompletionBounds | static/js/mindmap.js:473-481 | the completion rate is a percentage between 0 and 100: 0 with no to-do, in-progress or done node or with no done node, 100 when every such node is done |
| MindMapEditor.PercentBounds | static/js/mindmap.js:480 | the rounded percentage of done within a positive total is at most 100, 0 for none done and 100 for all done |
| SprintPlanner.FindIn | testing_env/static/js/sprints.js:377-401 | a found item has the id and comes from the list, and none is found exactly when no item has the id |
| SprintPlanner.FindItemSound | testing_env/static/js/sprints.js:377-401 | a found item has the id and comes from the list of its type: the epics; an epic's stories or the orphaned stories; a story's issues or the orphaned issues; nothing is found for another type; a lookup throws exactly when the hierarchy has no epics and the type is known |
| SprintPlanner.IndexOf | testing_env/static/js/sprints.js:321-326 | the first index holding the id, or -1 exactly when the id is absent |
| SprintPlanner.SpliceIsRemoveFirst | testing_env/static/js/sprints.js:321-323 | splicing out the element at indexOf removes exactly the first occurrence |
| SprintPlanner.RemoveFirstNoDuplicates | testing_env/static/js/sprints.js:321-323 | removing one id keeps a selection free of duplicates |
| SprintPlanner.ToggledSpec | testing_env/static/js/sprints.js:319-345 | toggling puts the id in exactly when it was out, leaves every other id as it was, and never makes a duplicate |
| SprintPlanner.ToggleTwice | testing_env/static/js/sprints.js:319-345 | toggling twice selects the same ids as before, and from an unselected id gives back the very same list |
| SprintPlanner.IndicatorSpec | testing_env/static/js/sprints.js:428-471 | the bar never passes 100% and is empty without capacity; the warning shows exactly when the total passes a positive capacity, and then the bar is full |
| SprintPlanner.PointsAppend | testing_env/static/js/sprints.js:432-451 | adding an id to a selection adds the truthy points of its item to the total, or nothing when the item is not found |
| SprintPlanner.Planner.constructor | testing_env/static/js/sprints.js:6-10 | the page starts with no sprint, empty selections and no hierarchy |
| SprintPlanner.Planner.PopulateSelection | testing_env/static/js/sprints.js:154-193 | the sprint being edited and its epic, story and issue ids become the selection |
| SprintPlanner.Planner.HierarchyLoaded | testing_env/static/js/sprints.js:196-218 | the loaded hierarchy is stored and the selection is kept |
| SprintPlanner.Planner.ToggleItemSelection | testing_env/static/js/sprints.js:319-345 | only the selection of the item's type is toggled; an unknown type changes nothing |
| SprintPlanner.Planner.UpdateCapacityIndicator | testing_env/static/js/sprints.js:428-471 | the totals are the truthy points of the selected items, and the bar and warning are those IndicatorSpec describes; nothing is shown when a lookup throws |
| SprintPlanner.Planner.ResetSprintPlanning | testing_env/static/js/sprints.js:604-615 | no sprint, nothing selected and no hierarchy remain |
| SprintPlanner.Toggle | testing_env/static/js/sprints.js:321-326 | indexOf followed by splice or push computes exactly the toggled list |
| SprintPlanner.SumPoints | testing_env/static/js/sprints.js:432-451 | the forEach loop adds up exactly the truthy points of the found items, and throws exactly when a lookup throws |
| SprintPlanner.PointsStayNone | testing_env/static/js/sprints.js:432-451 | once a lookup throws, the whole total throws |
| SprintPlanner.RefusesDatesSpec | testing_env/static/js/sprints.js:47-50 | two readable dates pass exactly when the end falls on a later day; the same day twice is refused, and an unreadable date is never refused |
| Registration.ScoreUnfolds | static/js/registration.js:20-25 | the score counts each of the five criteria once: length of at least 6, a lower-case letter, an upper-case letter, a digit, any other character |
| Registration.PasswordStrength | static/js/registration.js:20-25 | the counter computes exactly the score, which is at most 5 |
| Registration.Scan | static/js/registration.js:22-25 | a scan finds a character of the class exactly when the text holds one |
| Registration.HasLower | static/js/registration.js:22 | true exactly when the password meets the lower-case criterion |
| Registration.HasUpper | static/js/registration.js:23 | true exactly when the password meets the upper-case criterion |
| Registration.HasDigit | static/js/registration.js:24 | true exactly when the password meets the digit criterion |
| Registration.HasSymbol | static/js/registration.js:25 | true exactly when the password meets the other-character criterion |
| Registration.ScoreBounds | static/js/registration.js:20-25 | the score lies in 0..5, is 5 exactly when every criterion is met and 0 exactly when none is |
| Registration.MetGrows | static/js/registration.js:20-25 | a criterion once met stays met when a character is typed at the end |
| Registration.ScoreGrows | static/js/registration.js:11-33 | typing a character never lowers the score, nor the weak/medium/strong label |
| Registration.StrengthExamples | static/js/registration.js:20-33 | six characters or more with a lower-case letter, an upper-case letter and a digit is labelled strong; a short password of lower-case letters only is labelled weak |
| Registration.TrimSpec | static/js/registration.js:94 | trimming keeps a slice of the text, drops only white space around it, leaves no white space at either end, and changes text without white space not at all |
| Registration.ValidateFirstFailure | static/js/registration.js:76-104 | a form goes through exactly when no check fails; otherwise the refusal reported fails and every check made before it passes |
| Registration.AcceptedPassword | static/js/registration.js:76-104 | a form that goes through has matching passwords of six characters or more and a username of at least three |
| Registration.MatchAgreesWithSubmit | static/js/registration.js:40-104 | the button is disabled exactly when the confirmation is filled in and differs; a disabled button means the submit would stop at the mismatch, and a form that goes through shows the match and leaves the button enabled |
| Registration.EmailFlagAgrees | static/js/registration.js:88-124 | the submit check refuses an e-mail exactly when it is empty or flagged on blur, so a form that goes through never has a flagged e-mail |
| Registration.SanitizeSpec | static/js/registration.js:130-135 | the sanitised username holds only letters, digits, '_' and '-', is the input with characters taken out, keeps every allowed one, leaves an allowed name unchanged, and sanitising twice is sanitising once |
| GanttAnalytics.HealthCountsSum | testing_env/static/js/gantt_analytics.js:46-57 | the on-track, at-risk, overdue and completed counts add up to the projects with one of those statuses, never more than all projects, and to all of them exactly when every project has one; without projects all four are 0 |
| GanttAnalytics.BarColors | testing_env/static/js/gantt_analytics.js:106-109 | one bar colour per resource |
| GanttAnalytics.UtilizationAgrees | testing_env/static/js/gantt_analytics.js:343-353 | badge colour, badge text and bar colour follow one banding: above 90 danger / Over-utilized / red, above 80 warning / High / amber, otherwise success / Normal / green |
| GanttAnalytics.BandMonotone | testing_env/static/js/gantt_analytics.js:343-353 | more utilisation never gives a milder band |
| GanttAnalytics.BarMatchesReport | testing_env/static/js/gantt_analytics.js:106-109 | the bar of each resource has the colour of the same resource's badge |
| GanttAnalytics.StatusColorSpec | testing_env/static/js/gantt_analytics.js:333-341 | each of the four known statuses has its own colour, and every other status is 'secondary' |
| TestApp.LoadData | testing_env/test_app.py:76-112 | the store's users become exactly the seeded users and nothing else changes |
| TestApp.SeededHasTestUser | testing_env/test_app.py:82-112 | after the seeding there is a user and one of them is 'testuser' |
| TestApp.SeededKeepsUsers | testing_env/test_app.py:82-112 | the loaded users stay in front unchanged; at most the admin and the testuser are added, only when needed; from no users the result is the admin with id 1 and the testuser with id 2 |
| TestApp.RegularUserNumbered | testing_env/test_app.py:97-110 | an added testuser is numbered one above the largest existing user id |
| TestApp.SeedingIdempotent | testing_env/test_app.py:82-112 | seeding seeded users adds nothing |
| TestApp.AddCard | testing_env/test_app.py:260-306 | load_data seeds the users first, so the users become the seeded users whether or not the card is added; a missing title then fails with 500 and nothing else changed; otherwise the parents are derived as in the main application, the card carries no story points, defaults to 'todo' and 'Medium' and empty texts, and is appended with an id above every card id (1 for the first) |

## Left out

- Firebase client setup, credentials and the one-off setup and migration scripts other than migrate_to_hierarchical.py: they are calls into a foreign SDK. The document database appears only as the list of documents that `load_data`/`save_data` read and write.
- Reading and writing the JSON data files, and the backup file the migration writes: the file contents are the `Records.Store` the handlers change. There are two exceptions. With the document database, a deleted record is not deleted there (see Findings). The notifications: neither save path writes them, and loading from the document database or through the local data manager starts them empty; only the data.json fallback of `load_data` hands back the notifications that file holds. So a handler's `Records.Store` holds the notifications as loaded and no handler keeps new ones (see Findings).
- Templates, redirects and flash messages: a handler's answer is a `Reply` with its status code and message.
- The e-mails `UserService` sends and the notification senders: they are calls into external services.
- Password hashing (werkzeug) is a function the caller supplies. `datetime.now()` and `date.today()` are parameters, and the stamps they produce are opaque strings, except a sprint's creation time, which is an `IsoTimes.Stamp`.
- Concurrent requests: each handler reads, changes and writes the whole data set, so two requests at once can lose an update or allocate the same `max + 1` id. The model is sequential.
- Floating-point analytics: `get_predictive_analytics`, `get_performance_metrics`, `calculatePredictiveAnalytics`, the mind map's completion-rate rounding and the capacity bar's width. Percentages behind thresholds are compared exactly by cross-multiplication, which agrees with the source except where a float rounding lands on the threshold.
- The DOM, Chart.js and canvas parts of the browser scripts, `fetch` calls, alerts and keyboard handling. What a request returns is a parameter. The base `MindMap` class that `AdvancedMindMap` extends is not part of this model; its node id counter is passed to the constructor.
- static/js/sprints.js, static/js/mobile-enhancements.js and testing_env/static/js/sprint-detail.js are user-interface code (the burndown uses `Math.random`).
- `datetime.fromisoformat` is modelled in its Python 3.7 to 3.10 grammar for naive values. A text with a UTC offset (such as "+01:00") is treated as refused, although Python reads it as an aware datetime. The wider forms Python 3.11 added (basic format, 'Z', week dates) are refused as well.
- Numerals.ParseInt: reads ASCII digits and strips ASCII whitespace, including the separator characters 28 to 31; Python's `int()` also accepts other Unicode decimal digits and strips other Unicode whitespace (such as U+00A0).
- Helpers.ExtractMentions: returns the names in first-seen order; `list(set(...))` in the source returns them in an order Python does not define, so the model fixes one of the possible orders, and the order of the mention notifications follows it.
- MindMapEditor.TallyCounts: a node type that names a property every JavaScript object inherits (such as 'constructor' or 'toString') starts from that inherited function instead of 0, so its count becomes a string; the model counts it like any other type.
- The browser's `new Date(...)` and `parseInt` are modelled only on the ISO date and plain digit inputs the pages produce.
- String lengths in the browser scripts count characters, where JavaScript counts UTF-16 code units; they differ only for characters outside the Basic Multilingual Plane.
- Lower-casing and the `\w` class of regular expressions are modelled on ASCII only.
- `get_progress_percentage` of app_modules/models/sprint.py is a placeholder that always returns 0.0 and is not modelled.
- `get_epics`, `get_stories`, `get_notifications` and `get_project_hierarchy` of app/routes/api.py are plain listings and are not modelled; `get_project_hierarchy` of app.py is (`AppCards`).
- Record fields of JSON types other than the ones the handlers write (for example a string id where an integer is expected) are not modelled, except for the 'PROJ-n'/'CARD-n' ids that `load_firebase_data` rewrites.
- `verify_migration`'s answer for a missing data file (False) and the lists it prints are not modelled; `Migration.VerifyMigration` takes the loaded data.
- The default story that the migration creates has `story_points` 0 in the source. The story record of this model has no story-points field, so that value is not stored.
- The login and profile handlers of app_modules/routes/auth.py are the same code as those of app/routes/auth.py and share `Auth.Login` and `Auth.UpdateProfile`; only the message for an inactive account differs (`ModulesAuth.NotActiveFlash`).
- AppSprints.StripIdsRemovesReference: proved for `sprint_ids` lists without duplicates; on a list that holds the sprint id twice, `list.remove` drops only the first copy and the second one stays.
- AppCards.DeleteCard, Issues.DeleteCard, AppSprints.DeleteSprint: their contracts state the data the handler saves. With the document database set up, `save_data` (app.py:215-294, app/services/data_service.py:186-259) only sets documents, so the removal never reaches the database. The next load reads the card, its comments or the sprint again. DataService.DeletedCardReturns shows this for a card (see Findings).
- Dashboard.IssuesList, Projects.KanbanBoard, ModulesMain.IssuesList, ModulesMain.KanbanBoard, ModulesMain.Backlog: a card without a `project_id` key (and, in app_modules/routes/main.py, a project without an `id` key) is passed over like one whose key is null. The source indexes these keys directly, so such a record raises `KeyError` and the page answers with an error. The records of this model do not tell a missing key from a null one.
- Projects.ProjectProgress: returns the exact counts (done, total); the page's percentage `round((done / total) * 100, 1)` is floating point and is not computed.
- Timestamps.IsSpace: space, 9 to 13 and 28 to 31 only; the `\s` of strptime's pattern also matches other Unicode whitespace (such as U+0085 and U+00A0).
- SprintService.Service: holds the sprints as read objects rather than as the dictionaries of the sprints file. The source reads every sprint back through `Sprint.from_dict` on each call. So a `created_at` that `update_sprint` sets to text is kept as text here, while the source's next call reads it as a datetime ("2024-01-05" becomes midnight of that day), or raises ValueError on every later call when `datetime.fromisoformat` refuses it. What one sprint's trip through the file does is stated by SprintModel.FromToDict and SprintModel.ToFromDict.
- SprintService.Service.UpdateSprint: the updated sprint is returned as the changes leave it, not as the next load of the file would read it (see the line above).
- DataService.DocStore: keeps a collection's documents in the order they were first written, where Firestore's `stream()` returns them ordered by document ID compared as text ("10" before "2"). The lists `load_data` builds hold the same records, but their order can differ from the source's.
- GanttAnalytics.StatusColorSpec: a status that names a property every JavaScript object has (such as 'constructor') gets that property instead of 'secondary'; the model treats it like any other unknown status.

## Findings

| source | as written | input that shows it | evidently intended | confidence | as-written member | corrected member |
|---|---|---|---|---|---|---|
| app/routes/issues.py:99-107 | `add_comment` builds mention notifications through `create_mention_notifications`, but neither `save_data` path (the data files, the document database) writes a notifications collection, and loading from either starts it empty, so the notifications are lost | a comment '@admin' while a user 'admin' exists | the mentioned user finds a 'mention' notification for the card | not executed | Issues.MentionLost | Issues.AddCommentNotifying |
| app/routes/api.py:264-283 | the epic and story loops of `search` test the name with `get('name', '')` but build the hit with `['name']`, so a matching epic or story stored without a name raises `KeyError` and the whole search answers with an error | one epic with a title, no name, and a description containing the query | the matching record is listed, with an empty title, like every other match | not executed | Api.NamelessEpicBreaksSearch | Api.ResultsExact |
| app/services/data_service.py:200-259 | `save_data` sets one document per record and never deletes one, and `load_data` reads the store back, so a card removed by `delete_card` (app.py:969-986, app/routes/issues.py:161-174), with the comments in its sub-collection, and a sprint removed by `delete_sprint` (app.py:1534-1579) come back on the next request | delete card 7 while the store holds projects/1/epics/1/stories/1/issues/7 under stored project 1, epic 1 and story 1, then save and load | a deleted record stays deleted | not executed | DataService.DeletedCardReturns | DataService.DeletedCardGone |
