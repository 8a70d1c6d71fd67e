# College application tracker: a verified model of its rules

The system is a web application. Students use it to track their college
applications, and parents use it to follow their children's applications. It
has:

- a student dashboard and a parent dashboard;
- two university search pages, one of them the "add application" wizard;
- sign-in pages and an auth callback page;
- a session context;
- profile helpers over a hosted Postgres store;
- an applications HTTP endpoint;
- a maintenance script that reads an env file and runs a SQL file.

This project models the parts of that code that follow definite rules:

- the deadline arithmetic and the label tables;
- the search filters, the pagination and the favourites toggle;
- the dashboard counts, the in-place timeline sort and the notes panel;
- the redirect decisions after sign-in and in the auth callback;
- the profile, student and parent rows that creation and updates write;
- the session context's transitions;
- the endpoint's validation, default status and activity log;
- the env-file parser and the SQL statement splitter.

Each source file has its own module. Values become datatypes and functions.
Component state, the store's tables, the session context and `process.env`
become classes whose methods change their fields in place. The parent
timeline's `.sort` is an in-place sort over an `array`. The search page's
effect keeps its five conditional filters as separate narrowing steps of a
local list. Loops stay loops:
- `loadEnv` writes one line at a time;
- `createTables` sends one statement at a time.

Helper modules:
- `Wrappers` holds optional values.
- `Text` holds the JavaScript string operations the code relies on: `trim`,
  `split` on one character, `toLowerCase`, `includes`, `startsWith`, and
  decimal rendering.
- `Seqs` holds `filter`, counts, sums, subsequences and first-occurrence
  deduplication.
- `Sorting` holds an in-place insertion sort by an integer key.
- `Schema` holds the schema's enumerations, and the two roles (student and
  parent) that sign-up and `profiles.create` accept.

Time, the network and the store are parameters:
- a deadline and the current time are integer milliseconds;
- the identity provider's and the store's answers are outcomes passed in;
- the id and the creation time that the store assigns are passed in.

Modelling choices:
- **POST status.** A successful `POST /api/applications` answers with
  status 200, because the route returns `NextResponse.json({ application })`
  without a status. The model follows the code: 200 rather than 201 Created.
- **The empty variable name.** `process.env` is a map that drops an
  assignment to the empty name: Node passes it to `setenv`, which rejects
  an empty name, and ignores the error. So an env line whose key is only
  blanks sets nothing.
- **Acceptance rates** are integers in tenths of a percent. The
  universities page compares them with a whole-percent slider value, so it
  compares with ten times that value.

## Model

| member | source | states |
|---|---|---|
| Deadlines.DaysUntilDeadline | src/lib/utils.ts:23-29 | The day count is the ceiling of the time left over one day: `(d-1)*86400000 < deadline-now <= d*86400000`. |
| Deadlines.DaysUntilDeadlineUnique | src/lib/utils.ts:23-29 | Only one integer satisfies those ceiling bounds, so the day count is fully determined by them. |
| Deadlines.StatusForDays | src/lib/utils.ts:31-38 | Each bucket holds exactly when the day count lies in its range: overdue below 0, urgent 0..7, upcoming 8..30, future above 30. So exactly one bucket applies. |
| Deadlines.GetDeadlineStatus | src/lib/utils.ts:31-38 | The same four buckets stated on the time left in milliseconds. A deadline is overdue only once a full day has passed. |
| Deadlines.StatusMonotone | src/lib/utils.ts:34-37 | More days left never gives a more pressing bucket. |
| Deadlines.DaysMonotone | src/lib/utils.ts:23-29 | A later deadline never has fewer days left. |
| Deadlines.GetStatusColor | src/lib/utils.ts:40-54 | Each of the ten known statuses gets its listed class. Any other string gets the grey default. |
| Deadlines.StatusColorsCoverSchema | src/lib/utils.ts:40-54 | Every application status, decision type and requirement status of the schema has its own entry in the colour table. |
| Deadlines.FormatApplicationType | src/lib/utils.ts:56-64 | The four application types get their labels. Any other string comes back unchanged. |
| Deadlines.FormatApplicationTypeIdempotent | src/lib/utils.ts:56-64 | Formatting an already formatted type changes nothing. |
| Deadlines.FormatRequirementType | src/lib/utils.ts:66-77 | The seven requirement types get their labels. Any other string comes back unchanged. |
| Deadlines.LabelsCoverSchema | src/lib/utils.ts:56-77 | Every schema application type and requirement type is shown with a label that differs from its stored name. |
| AddApplication.Matches | src/app/dashboard/student/add-application/page.tsx:261-281 | The conjunction of the search and the four filter tests. Each test passes when its filter is empty; `FilteredUniversities` and `RankingFilterBounds` state what it selects. |
| AddApplication.FilteredUniversities | src/app/dashboard/student/add-application/page.tsx:260-282 | The list is an order-preserving subsequence of the catalogue. A university is listed exactly when it matches the search and all four filters. |
| AddApplication.NoFiltersKeepAll | src/app/dashboard/student/add-application/page.tsx:261-281 | With an empty search and no filter, the whole catalogue is listed in order. |
| AddApplication.SearchIgnoresCase | src/app/dashboard/student/add-application/page.tsx:261-264 | A search term and its lower-case form select the same universities. |
| AddApplication.RankingFilterBounds | src/app/dashboard/student/add-application/page.tsx:267-270 | `top10`, `top25` and `top50` bound every listed ranking by 10, 25 and 50. Any other non-empty value lists nothing. |
| AddApplication.AcceptanceBucketsPartition | src/app/dashboard/student/add-application/page.tsx:272-275 | Every rate falls in exactly one of the low, medium and high buckets. |
| AddApplication.TotalPages | src/app/dashboard/student/add-application/page.tsx:285 | The page count is the fewest pages of three that hold the list. |
| AddApplication.Page | src/app/dashboard/student/add-application/page.tsx:286-287 | A page holds at most three items: the ones at its positions in the list, and none past the end. |
| AddApplication.PagesConcatenate | src/app/dashboard/student/add-application/page.tsx:285-287 | Pages 1 to the page count, laid end to end, are exactly the filtered list. |
| AddApplication.PagesInRange | src/app/dashboard/student/add-application/page.tsx:285-287 | A page shows something exactly when its number is at most the page count. |
| AddApplication.AddApplicationPage.constructor | src/app/dashboard/student/add-application/page.tsx:239-258 | Initial state: no selection, empty search, browse step, page 1, no filters, blank form. The whole catalogue is listed. |
| AddApplication.AddApplicationPage.Shown | src/app/dashboard/student/add-application/page.tsx:285-287 | At most three cards. Under the page invariant (the page lies between 1 and the page count, or is 1 when nothing matches), some card is shown exactly when some university matches. |
| AddApplication.AddApplicationPage.SetSearchTerm | src/app/dashboard/student/add-application/page.tsx:377-378 | Stores the term and returns to page 1. Nothing else changes. |
| AddApplication.AddApplicationPage.SetStateFilter | src/app/dashboard/student/add-application/page.tsx:405-406 | "all" clears the state filter, any other value sets it, and the page returns to 1. Nothing else changes. |
| AddApplication.AddApplicationPage.SetRankingFilter | src/app/dashboard/student/add-application/page.tsx:423-424 | Same as the state filter, for ranking. |
| AddApplication.AddApplicationPage.SetAcceptanceFilter | src/app/dashboard/student/add-application/page.tsx:440-441 | Same as the state filter, for the acceptance bucket. |
| AddApplication.AddApplicationPage.SetMajorFilter | src/app/dashboard/student/add-application/page.tsx:460-461 | Stores the major as typed and returns to page 1. Nothing else changes. |
| AddApplication.AddApplicationPage.ResetFilters | src/app/dashboard/student/add-application/page.tsx:318-327 | Clears every filter and the search term and returns to page 1. The whole catalogue is then listed. |
| AddApplication.AddApplicationPage.PreviousPage | src/app/dashboard/student/add-application/page.tsx:561 | Moves one page back, never below 1. |
| AddApplication.AddApplicationPage.NextPage | src/app/dashboard/student/add-application/page.tsx:587 | Moves one page on, never past the page count. |
| AddApplication.AddApplicationPage.GoToPage | src/app/dashboard/student/add-application/page.tsx:575 | A numbered button selects its page, and that page is not empty. |
| AddApplication.AddApplicationPage.SelectUniversity | src/app/dashboard/student/add-application/page.tsx:289-292 | Remembers the university and opens the form. Search, filters and page are kept. |
| AddApplication.AddApplicationPage.BackToBrowse | src/app/dashboard/student/add-application/page.tsx:353 | Returns to browsing and keeps the selection. |
| AddApplication.AddApplicationPage.EditForm | src/app/dashboard/student/add-application/page.tsx:764-949 | The form's inputs replace the form data and nothing else. |
| AddApplication.AddApplicationPage.AddApplication | src/app/dashboard/student/add-application/page.tsx:294-316 | Without a selection nothing happens. With one, the form resets to `regular_decision`, priority 1 and empty fields, and the page navigates to the student dashboard. |
| UniversitySearch.SearchResults | src/app/universities/page.tsx:115-143 | The one-pass filter by the search and all five active filters, in catalogue order. `ResultsSound` states what it lists, and `FilterChain` ties it to the effect's loop. |
| UniversitySearch.ResultsSound | src/app/universities/page.tsx:115-143 | The results are an order-preserving subsequence of the catalogue. Each satisfies the search and every active filter, and every university that passes is listed. |
| UniversitySearch.DefaultsListEverything | src/app/universities/page.tsx:106-140 | At the default filters and an empty search every university is listed, including those ranked below 100th or costing more than 100000. |
| UniversitySearch.RankingSentinel | src/app/universities/page.tsx:126-128 | At `rankingMax = 100` a rank above 100 passes like any other rank. |
| UniversitySearch.MajorsNotSearched | src/app/universities/page.tsx:116-120 | Changing a university's majors never changes whether it is listed. |
| UniversitySearch.ChainStep | src/app/universities/page.tsx:122-140 | Each conditional filter narrows the previous result to the next stage of the conjunction. An inactive filter leaves it as it is. |
| UniversitySearch.NarrowBy | src/app/universities/page.tsx:122-140 | One `if (...) filtered = filtered.filter(...)` step takes the result of the first k filters to the result of the first k+1. |
| UniversitySearch.FilterChain | src/app/universities/page.tsx:115-143 | The effect's step-by-step narrowing ends at the one-pass filter by the search and all active filters. |
| UniversitySearch.ToggleFavorite | src/app/universities/page.tsx:145-151 | Afterwards the id is a favourite exactly when it was not before. A new favourite is appended once at the end. The other favourites keep their order. |
| UniversitySearch.ToggleKeepsNoDuplicates | src/app/universities/page.tsx:145-151 | A duplicate-free favourites list stays duplicate-free. |
| UniversitySearch.ToggleTwice | src/app/universities/page.tsx:145-151 | Toggling twice restores the list when the id was absent, or when it was the last favourite. Otherwise the id moves to the end. |
| UniversitySearch.ToggleTwiceReorders | src/app/universities/page.tsx:145-151 | A concrete case: toggling "1" twice in ["1", "2"] gives ["2", "1"]. |
| UniversitySearch.UniqueStates | src/app/universities/page.tsx:158 | Duplicate-free. Holds exactly the catalogue's states, in order of first appearance. |
| UniversitySearch.UniqueApplicationSystems | src/app/universities/page.tsx:159 | Duplicate-free. Holds exactly the catalogue's application systems, in order of first appearance. |
| UniversitySearch.UniversitySearchPage.constructor | src/app/universities/page.tsx:102-112 | Initial state: the full list shown, empty search, no favourites, default filters. The invariant that the shown list is the search result holds. |
| UniversitySearch.UniversitySearchPage.ApplyFilters | src/app/universities/page.tsx:115-143 | The effect stores the search result for the current term and filters. |
| UniversitySearch.UniversitySearchPage.SetSearchTerm | src/app/universities/page.tsx:187 | Stores the term and recomputes the list. Filters and favourites are kept. |
| UniversitySearch.UniversitySearchPage.SetFilters | src/app/universities/page.tsx:213-270 | Stores the filters and recomputes the list. Search and favourites are kept. |
| UniversitySearch.UniversitySearchPage.ResetFilters | src/app/universities/page.tsx:283-289 | Restores the default filters and recomputes the list. The search term is kept. |
| UniversitySearch.UniversitySearchPage.ToggleFavoriteOf | src/app/universities/page.tsx:145-151 | Toggles one favourite and leaves the search, the filters and the list unchanged. |
| ParentDashboard.SubmittedCount | src/app/dashboard/parent/page.tsx:69-70 | At most the total. Equal to it exactly when every application is submitted. |
| ParentDashboard.UrgentCount | src/app/dashboard/parent/page.tsx:72 | At most the total. Equal to it exactly when every deadline is at most seven days away. |
| ParentDashboard.UrgentMeansOverdueOrUrgent | src/app/dashboard/parent/page.tsx:72 | The urgent count is the number of overdue or urgent deadlines, so it is never below the overdue count. |
| ParentDashboard.TotalEstimatedCost | src/app/dashboard/parent/page.tsx:71 | The sum of the estimated costs from 0. `TotalCostBounds` and `FiguresIgnoreOrder` state its bounds and its independence of order. |
| ParentDashboard.TotalCostBounds | src/app/dashboard/parent/page.tsx:71 | With no negative cost, the total is non-negative and at least each single cost. |
| ParentDashboard.FiguresIgnoreOrder | src/app/dashboard/parent/page.tsx:69-72 | Any reordering of the applications gives the same three figures. |
| ParentDashboard.SortTimeline | src/app/dashboard/parent/page.tsx:304-305 | The array is sorted in place by ascending deadline and is a permutation of the original. The summary figures are unchanged. |
| ParentDashboard.DaysBadge | src/app/dashboard/parent/page.tsx:327 | Shows "N days" for N > 0, "Today" for 0 and "Overdue" below 0. |
| ParentDashboard.DaysBadgeDistinguishes | src/app/dashboard/parent/page.tsx:327 | Two future deadlines share a badge only when they share the day count. |
| ParentDashboard.Icon | src/app/dashboard/parent/page.tsx:313-319 | A check when submitted; otherwise an alert within seven days and a clock beyond. |
| ParentDashboard.IconAgreesWithUrgent | src/app/dashboard/parent/page.tsx:313-319 | An unsubmitted application shows the alert exactly when it is counted as urgent. |
| ParentDashboard.ProgressText | src/app/dashboard/parent/page.tsx:330 | "Submitted" exactly for submitted applications, "Pending" for all others. |
| ParentDashboard.NotesPanel.constructor | src/app/dashboard/parent/page.tsx:66-67 | The initial notes and an empty text box. |
| ParentDashboard.NotesPanel.SetNewNote | src/app/dashboard/parent/page.tsx:357 | Stores the typed text and keeps the notes. |
| ParentDashboard.NotesPanel.AddNote | src/app/dashboard/parent/page.tsx:74-85 | Blank text changes nothing. Otherwise exactly one untrimmed "General Note" is prepended, the old notes follow in order, and the box is cleared. |
| StudentDashboard.SubmittedCount | src/app/dashboard/student/page.tsx:95-96 | At most the total. Equal to it exactly when every application is submitted. |
| StudentDashboard.UrgentCount | src/app/dashboard/student/page.tsx:97 | At most the total. Equal to it exactly when every deadline is at most seven days away. |
| StudentDashboard.CountsAreIndependent | src/app/dashboard/student/page.tsx:96-97 | A submitted application a month ahead counts as submitted but not as urgent. |
| StudentDashboard.TypeLabel | src/app/dashboard/student/page.tsx:256-257 | Early action and early decision get their names. Every other type shows as Regular Decision. |
| StudentDashboard.TypeLabelAgainstFormat | src/app/dashboard/student/page.tsx:256-257 | Agrees with `formatApplicationType` on three schema types. Rolling admission is mislabelled as Regular Decision. |
| StudentDashboard.StatusBadgeLabel | src/app/dashboard/student/page.tsx:262-264 | Three named statuses. Any other status is shown as stored. |
| StudentDashboard.TimelineLabel | src/app/dashboard/student/page.tsx:320-321 | Submitted and in progress are named. Every other status shows as Not Started. |
| StudentDashboard.TimelineDot | src/app/dashboard/student/page.tsx:310-313 | Green when submitted, blue when in progress, grey otherwise. |
| StudentDashboard.TimelineAgainstCard | src/app/dashboard/student/page.tsx:310-321 | The dot is grey exactly when the label is Not Started. Timeline and card agree exactly on not started, in progress and submitted. |
| StudentDashboard.TaskTypeLabel | src/app/dashboard/student/page.tsx:355-357 | Three named task types. Any other type is shown as stored. |
| StudentDashboard.TaskTypeAgainstFormat | src/app/dashboard/student/page.tsx:355-357 | Agrees with `formatRequirementType` on essays and test scores only. |
| StudentDashboard.DaysBadge | src/app/dashboard/student/page.tsx:267 | The day count followed by " days", whatever its sign. `DaysBadgeAgainstParent` compares it with the parent timeline's badge. |
| StudentDashboard.DaysBadgeAgainstParent | src/app/dashboard/student/page.tsx:267 | The card's "N days" badge matches the parent timeline's badge exactly for future deadlines. |
| Login.EffectiveRole | src/app/auth/login/page.tsx:60 | A non-empty profile role wins. Otherwise the metadata role is used. |
| Login.LoginRedirect | src/app/auth/login/page.tsx:53-78 | Always one of the two dashboards. The parent dashboard exactly when the effective role is parent, or, after a failed lookup, when the metadata role is parent. |
| Login.ProfileRoleWins | src/app/auth/login/page.tsx:60 | With a non-empty profile role, the metadata role does not matter. |
| Login.MetadataWhenNoProfileRole | src/app/auth/login/page.tsx:60 | With no profile role, or an empty one, the metadata role decides. |
| Login.OtherRolesGoToStudent | src/app/auth/login/page.tsx:62-68 | Teacher, admin, unknown and missing roles go to the student dashboard. |
| Login.HandleSubmit | src/app/auth/login/page.tsx:38-82 | A provider error is shown with no redirect. An exception shows the generic message. A missing user or session does nothing. A redirect happens exactly on a full sign-in. |
| Login.RedirectOnlyToDashboards | src/app/auth/login/page.tsx:62-77 | A redirect never comes with an error and always goes to a dashboard. |
| AuthCallback.HandleAuthCallback | src/app/auth/callback/page.tsx:17-76 | A session error goes to the login page with the auth-error message. No session, or an exception, goes to the login page. With a session, no error and a dashboard, the parent one exactly under the callback's rule. |
| AuthCallback.LoginAndCallbackDisagree | src/app/auth/callback/page.tsx:42-57 | When the profile row is missing or has an empty role, sign-in follows metadata "parent" but the callback stays on the student dashboard. |
| AuthCallback.LoginAndCallbackAgree | src/app/auth/callback/page.tsx:42-48 | With a non-empty profile role both pages choose the same dashboard. |
| Store.NeverBothExtensionRows | src/lib/supabase.ts:115-133 | One call never qualifies for both a students row and a parents row. |
| Store.NewStudentRow | src/lib/supabase.ts:116-125 | The students row holds the id and graduation year, with empty countries and majors and nothing else set. |
| Store.NewParentRow | src/lib/supabase.ts:134-141 | The parents row has a phone exactly when a non-empty phone was given. |
| Store.ApplyStudentUpdates | src/lib/supabase.ts:204-209 | Each supplied field overwrites the stored one, the others stay, and the update time is set. |
| Store.ApplyParentUpdates | src/lib/supabase.ts:234-239 | Each supplied field overwrites the stored one, the others stay, and the update time is set. |
| Store.ApplyProfileUpdates | src/lib/supabase.ts:167-172 | Only the name (when supplied) and the update time change. |
| Store.UpdatesIdempotent | src/lib/supabase.ts:162-244 | Sending the same update twice leaves the row as sending it once. |
| Store.ProfileUpdateIgnoresPhoneAndYear | src/lib/supabase.ts:162-176 | The phone and graduation year passed to `profiles.update` have no effect. |
| Store.Database.constructor | scripts/create-tables.js:37-90 | Empty tables satisfy the key, uniqueness and reference constraints. |
| Store.Database.InsertProfile | src/lib/supabase.ts:96-112 | Refused, with no change, on a failure, a taken id or a taken e-mail. Otherwise the row is stored under its id. The constraints are kept. |
| Store.Database.Create | src/lib/supabase.ts:88-149 | A refused profile insert returns the error and changes no table. Otherwise the profile is stored, plus a students row (student with a truthy year) or a parents row (parent) unless that insert fails, and no error is returned. Never both extension rows. |
| Store.Database.UpdateProfile | src/lib/supabase.ts:162-176 | Rewrites only the matching profile row. Other tables and rows are unchanged. A missing row or a failure changes nothing. |
| Store.Database.UpdateStudent | src/lib/supabase.ts:193-214 | Rewrites only the matching students row. A missing row or a failure changes nothing. |
| Store.Database.UpdateParent | src/lib/supabase.ts:230-244 | Rewrites only the matching parents row. A missing row or a failure changes nothing. |
| AuthContext.AuthProvider.constructor | src/contexts/AuthContext.tsx:42-45 | Loading, with no user, no profile and no session. |
| AuthContext.AuthProvider.GetInitialSession | src/contexts/AuthContext.tsx:138-158 | A found session and its user are adopted, and a fetched profile replaces the old one. Loading ends in every case. |
| AuthContext.AuthProvider.OnAuthStateChange | src/contexts/AuthContext.tsx:163-187 | With no session everything is cleared. With one, session and user are replaced and the profile only when a row is fetched. Loading ends. |
| AuthContext.AuthProvider.SignOut | src/contexts/AuthContext.tsx:126-134 | Success clears user, profile and session. A provider error changes nothing and is returned. |
| AuthContext.AuthProvider.RefreshProfile | src/contexts/AuthContext.tsx:47-59 | Does nothing without a user. The profile is replaced only by a fetch with no error that returns a row. |
| AuthContext.AuthProvider.SignUp | src/contexts/AuthContext.tsx:61-116 | A provider error or an exception is returned with no insert. An accepted user gets one bare profile insert, whose failure does not change the response. No students or parents row is ever written. |
| ApplicationsApi.InitialStatus | src/app/api/applications/route.ts:62 | The body's status when non-empty, else "not_started". Never empty. |
| ApplicationsApi.NewestFirst | src/app/api/applications/route.ts:36 | The sort key for `created_at` descending. `ApplicationsTable.Get` answers rows sorted by it. |
| ApplicationsApi.ApplicationsTable.Get | src/app/api/applications/route.ts:9-49 | A missing or empty id gives 400 before any store access, and a store error gives 500 with its message. Otherwise 200 with exactly the student's rows (as a multiset), newest first. |
| ApplicationsApi.ApplicationsTable.Post | src/app/api/applications/route.ts:51-108 | An unparsable body gives 500. An insert error gives 400 and logs nothing. Success appends exactly one unvalidated row with the default status, then one `created_application` entry unless logging fails, and answers 200 regardless. |
| TestDatabase.ParseEnvLine | scripts/test-database.js:13-15 | A stored entry has a name and a value with no `=` and no surrounding white space. |
| TestDatabase.OnlyFirstValueKept | scripts/test-database.js:13 | `KEY=a=b` stores `a`. |
| TestDatabase.KeyValueLine | scripts/test-database.js:13-15 | A line `key=value` is stored as trimmed key and value, unless the key as written starts with `#`. |
| TestDatabase.IndentedKeyIsStored | scripts/test-database.js:13-15 | The `#` test runs before trimming, so ` #X=1` is stored under `#X`. |
| TestDatabase.BlankKeyIgnored | scripts/test-database.js:13-15 | A key made only of blanks passes the guard and trims to the empty name. `process.env` does not accept the empty name, so the environment is unchanged. |
| TestDatabase.CommentLineSkipped | scripts/test-database.js:14 | A line whose key as written starts with `#` is skipped. |
| TestDatabase.NoSeparatorSkipped | scripts/test-database.js:13-14 | A line without `=` has no value and is skipped. |
| TestDatabase.EmptyKeySkipped | scripts/test-database.js:13-14 | A line starting with `=` has an empty key and is skipped. |
| TestDatabase.EmptyValueSkipped | scripts/test-database.js:13-14 | A line whose first `=` is followed by nothing or by another `=` (`KEY=`, `KEY==x`) has an empty value and is skipped. |
| TestDatabase.ApplyLine | scripts/test-database.js:13-15 | A skipped line, or an entry whose trimmed name is empty (which `process.env` refuses to set), leaves the environment unchanged. Otherwise the entry's trimmed name is bound to its trimmed value, and every other name keeps its binding or stays unbound. |
| TestDatabase.LoadedEnv | scripts/test-database.js:12-16 | The lines applied in file order. No name is ever unbound. |
| TestDatabase.LaterLineWins | scripts/test-database.js:12-16 | A later line for a non-empty key overrides earlier ones. |
| TestDatabase.OtherKeysUnchanged | scripts/test-database.js:12-16 | A key that no line defines keeps its previous value, or stays absent. |
| TestDatabase.Environment.LoadEnv | scripts/test-database.js:7-21 | A file that cannot be read leaves the environment unchanged. Otherwise the lines are applied in order. |
| TestDatabase.Statements | scripts/test-database.js:44-47 | The split on `;`, trimmed, without empty and `--`-prefixed pieces. `StatementsAreClean`, `CommentChunkDropped` and `StatementAfterCommentIsLost` state its properties. |
| TestDatabase.StatementsAreClean | scripts/test-database.js:44-47 | The statements keep file order and are non-empty, trimmed, free of `;` and not `--`-prefixed. |
| TestDatabase.CommentChunkDropped | scripts/test-database.js:44-47 | A chunk that starts with `--` is dropped whole. The statements after it are unaffected. |
| TestDatabase.StatementAfterCommentIsLost | scripts/test-database.js:47 | SQL written after a `--` comment line in the same chunk is never executed. |
| TestDatabase.EachCallOneStatement | scripts/test-database.js:52-59 | Each text sent, split on `;`, is its statement followed by one final `;`. |
| TestDatabase.ExecuteStatements | scripts/test-database.js:52-59 | The loop sends, in order, each statement whose trim is non-empty, with `;` appended. |
| TestDatabase.GuardSkipsNothing | scripts/test-database.js:54 | The blank-statement guard skips none of the statements the splitter returns. |
| TestDatabase.CreateTables | scripts/test-database.js:44-59 | Every statement of the file is sent once, in order, with its `;`. |

## Left out

- Network and provider calls. The identity provider (`signUp`,
  `signInWithPassword`, `signOut`, `getSession`) and the store queries are
  outcomes passed in as parameters.
- Execution results. `rpc('exec_sql')` and the per-statement error handling
  after scripts/test-database.js:59 are I/O; only the text sent is modelled.
- `new Date()` and `Date.now()` are replaced by parameters (integer
  milliseconds, or an ISO string passed in). Date-string parsing is not
  modelled.
- Floating point. The progress percentages and the completion rates on the
  dashboards are not modelled. Acceptance rates are integer tenths of a
  percent. A student's GPA, which is fractional, is an integer in
  `StudentUpdates`; the model only copies it into the row, so its
  fractional part plays no role.
- Text:
  - `toLowerCase` is modelled for ASCII letters only.
  - Prototype keys (`constructor`, `toString`) of the object-literal label
    tables are not modelled; the tables are closed maps.
- `formatDate`, `formatCurrency` and `cn` are library formatting and are not
  part of this model.
- Timing and UI effects. `setTimeout` delays and the interleaving of
  asynchronous auth events are not modelled; each handler is one atomic
  step. The `isLoading`/`isProcessing` flags of the pages, the `showFilters`
  toggles, `console`, `alert` and rendering are not modelled either.
- The context's `signIn` is a plain pass-through to the provider. Its
  outcome is the `SignInResult` parameter of the login handler.
- ApplicationsApi.ApplicationsTable.Get returns the student's rows without
  the joined `universities` columns, which Postgres supplies. Rows with equal
  creation times may come back in any order.
- ApplicationsApi.ApplicationsTable.Post answers the inserted row without
  the joined `universities` columns that its `.select(...)` asks Postgres for;
  the model has no universities table.
- The universities HTTP route, the test routes, the signup and role-select
  pages, and the other scripts (`create-tables.js`, `setup-database.js`,
  `check-database.js`, the deploy scripts) are not part of this model. Their
  env-file readers and splitter are copies of the ones in
  `test-database.js`.
- `profiles.get`, `students.get` and `parents.get` are single-row reads
  that the model's pages receive as outcomes; they are not modelled as
  methods.
