# Synks: a verified model of the link dashboard

Synks shows each user a dashboard of the product links kept on their GitLab ("mint") wiki page.
This project is a Dafny model of the system's core, in two halves.

**The FastAPI backend:**
- the wiki page parser (`#` product headings, `##` environment headings, bullet links);
- the older header/bullet parser of the test script;
- the conversion of a wiki page URL into a GitLab API URL;
- the session-cookie map sent to the wiki;
- the SQLite store of users and sessions (`class Store`) and the wiki content cache (`class WikiCache`);
- the authentication guards;
- the auth, admin, dashboard and status-monitoring routes.

**The React frontend:**
- the request builders and `localStorage` helpers;
- the status-monitoring utilities and component;
- the user and admin dashboards and the admin user table;
- the two application shells (`App`, `AppWithNewUI`);
- the page router;
- the onboarding tour.

How the model is built:
- Pure code becomes functions and lemmas.
- Code that loops over mutable variables becomes methods with loop invariants, proved equal to a specification function.
- A component or database whose state changes becomes a `class`. Its handlers are methods whose `ensures` state the whole new state.
- Everything the code cannot see is a parameter: network replies, the clock, the GitLab sign-in, random tokens, the password hash, user confirmations.
- A network reply is modelled as `Reply<T>`. `Ok(data)` is a 2xx answer with its decoded body. `NotOk(status, detail)` is another status with the body's `detail`. `Thrown(message)` is a rejected promise.

Modules, one per source file plus shared helpers:
- shared helpers: `Wrappers`, `Text` (Python and JavaScript string primitives), `Http`, `Models`, `Js`;
- `LinkPattern`: the link regular expression;
- from `backend/wiki.py`: `WikiParser`, `WikiApiUrl` and `WikiCookies`;
- `LegacyParser`;
- `Database`, `Cache` and `Guards`;
- the routes, one module per router;
- the frontend modules, one per component or utility file.

## Model

| member | source | states |
|---|---|---|
| LinkPattern.MatchAt | backend/wiki.py:118-119 | A match of `\[([^\]]+)\]\(([^\)]+)\)` at the start of a string has non-empty groups free of `]` and `)`, and the string is exactly `[text](url)` followed by the rest |
| LinkPattern.MatchAtShape | backend/wiki.py:118-119 | A string that begins with a well-formed `[text](url)` matches exactly that text and url, and the rest is what follows |
| LinkPattern.MatchAtNoBracket | backend/wiki.py:118-119 | A string that does not begin with `[` does not match |
| LinkPattern.Scan | backend/wiki.py:119 | Every match that `re.findall` returns has valid groups |
| LinkPattern.ScanSkip | backend/wiki.py:119 | Text containing no `[` before the first match contributes no match |
| LinkPattern.ScanNone | backend/wiki.py:117-119 | A string with no `[` has no match |
| LinkPattern.ScanShape | backend/wiki.py:119 | A well-formed link is found, and scanning resumes right after it |
| WikiParser.LinkItems | backend/wiki.py:121-123 | Each match becomes one link item, in order; the count is preserved |
| WikiParser.ParseMarkdownLinks | backend/wiki.py:61-134 | The parsing loop returns exactly the specification `Parse(content)` |
| WikiParser.ReadLine | backend/wiki.py:74-123 | One loop turn updates the four parser variables as the specification step does for that line |
| WikiParser.AppendMatches | backend/wiki.py:121-123 | The matches are appended, stripped, in order, after the existing links |
| WikiParser.ParseLines | backend/wiki.py:67 | A page given as newline-free lines parses line by line |
| WikiParser.ProductHeader | backend/wiki.py:86-99 | A `# ` line emits the pending group iff it is complete; only then are the links and environment reset; the product becomes the stripped title |
| WikiParser.EnvironmentHeader | backend/wiki.py:102-114 | A `## ` line emits a complete pending group and drops the links; the environment becomes the stripped title and the product is kept |
| WikiParser.BulletLine | backend/wiki.py:116-123 | Any other line changes only the links. It appends the stripped matches iff the stripped line is a `*`/`-` bullet holding `[` and `](` |
| WikiParser.InertLines | backend/wiki.py:77-79 | A line is ignored exactly when it is blank, or is neither a heading as written nor a link line |
| WikiParser.DeepHeadingInert | backend/wiki.py:86-117 | `###` and deeper headings are ignored |
| WikiParser.IndentedHeadingInert | backend/wiki.py:74-86 | An indented heading is ignored, because headings are checked on the original line before stripping |
| WikiParser.InertLine | backend/wiki.py:77-79 | Removing an ignored line anywhere in the page leaves the result unchanged |
| WikiParser.RunAppend | backend/wiki.py:73 | Running two chunks of lines is running the first and then the second |
| WikiParser.RunComplete | backend/wiki.py:86-114 | Every step keeps the emitted groups complete |
| WikiParser.GroupsComplete | backend/wiki.py:86-132 | Every group returned has an empty country and a non-empty product, environment and link list |
| WikiParser.ApplyLinks | backend/wiki.py:85-123 | One line neither loses nor reorders links: emitted links plus pending links grow by exactly the line's links |
| WikiParser.FlushLinks | backend/wiki.py:88-95 | Emitting the pending group moves its links without loss |
| WikiParser.RunLinks | backend/wiki.py:73-123 | Over any lines, the emitted links plus the pending links are the initial ones followed by every link of those lines |
| WikiParser.LinksConserved | backend/wiki.py:61-134 | Every link of the page ends up in exactly one place, in page order: in the emitted groups, or among the trailing links dropped for want of a complete group |
| WikiParser.FinishLinks | backend/wiki.py:125-132 | At the end the pending links are emitted iff the group is complete |
| WikiParser.BulletClassify | backend/wiki.py:117-123 | `- [text](url)` is a bullet with exactly that one link |
| WikiParser.HeadingClassify | backend/wiki.py:86-114 | `# name` and `## name` are product and environment headings named `name` |
| WikiParser.CarriedForwardRun | backend/wiki.py:86-99 | Links listed before any heading are not dropped: they are carried into the first complete group |
| WikiParser.CarriedForwardExample | backend/wiki.py:86-99 | On the page `- [a](u)`, `# P`, `## E`, `- [b](v)` that group holds both links |
| WikiApiUrl.Utf8 | backend/wiki.py:153 | One to four bytes below 256; a single byte exactly for characters below 0x80, equal to the code point |
| WikiApiUrl.HexDigit | backend/wiki.py:153 | A value below 16 yields a hex digit |
| WikiApiUrl.HexValue | backend/wiki.py:153 | A hex digit's value is below 16 and maps back to the same digit |
| WikiApiUrl.EncodedAppend | backend/wiki.py:153 | Well-formed encodings concatenate to a well-formed encoding |
| WikiApiUrl.PercentBytesEncoded | backend/wiki.py:153 | `%XX` escapes of bytes are well formed |
| WikiApiUrl.QuoteEncoded | backend/wiki.py:153 | `quote(s, safe='')` yields only unreserved characters and `%` followed by two hex digits |
| WikiApiUrl.EncodedNoSlash | backend/wiki.py:153-156 | A well-formed encoding holds no `/` |
| WikiApiUrl.QuoteNoSlash | backend/wiki.py:150-156 | The encoded project path holds no `/`, so it stays one segment of the API URL |
| WikiApiUrl.QuoteAppend | backend/wiki.py:153 | Encoding works character by character |
| WikiApiUrl.QuoteUnreserved | backend/wiki.py:153 | A string of unreserved characters (section 2.3 of RFC 3986) encodes to itself |
| WikiApiUrl.UnquoteQuote | backend/wiki.py:153 | For text below 0x80, percent-decoding inverts the encoding |
| WikiApiUrl.QuoteSlash | backend/wiki.py:150-153 | `/` encodes as `%2F` |
| WikiApiUrl.Rejects | backend/wiki.py:143-148 | Conversion fails exactly when the URL has fewer than five `/` (fewer than six parts), with a 400 naming the URL |
| WikiApiUrl.FromSegments | backend/wiki.py:150-158 | A URL built from `/`-free segments converts to scheme `//` host, then `/api/v4/projects/`, the encoded `group%2Fproject`, `/wikis/` and the last segment |
| WikiApiUrl.FromParts | backend/wiki.py:143-158 | The same, in terms of the split parts of any accepted URL |
| WikiApiUrl.ProjectPath | backend/wiki.py:150-153 | Parts 3 and 4, rejoined and encoded, are their encodings joined by `%2F` |
| WikiApiUrl.ScriptExample | backend/wiki.py:137-158 | The backend's own example wiki URL converts to the documented API URL |
| WikiApiUrl.ScriptExampleSegments | backend/wiki.py:140-141 | The example's segments are `/`-free and its group and project names are unreserved |
| WikiCookies.ParseCookies | backend/wiki.py:22-32 | The cookie loop builds exactly the specification cookie map |
| WikiCookies.FromPiecesKeys | backend/wiki.py:26-30 | A name is in the map iff some `;`-piece with an `=` carries it, after stripping |
| WikiCookies.FromPiecesLast | backend/wiki.py:26-30 | A name's value comes from the last piece that carries it |
| WikiCookies.WholeSession | backend/wiki.py:31-32 | A session string without `;` is sent whole as `_gitlab_session`, even when it holds `=` |
| LegacyParser.ParseMarkdownLinks | backend/test_parser.py:20-76 | The script's loop returns exactly the specification `Parse(content)` |
| LegacyParser.ReadLine | backend/test_parser.py:33-65 | One loop turn updates the five variables as the specification step does |
| LegacyParser.HeaderLine | backend/test_parser.py:37-52 | A header emits the pending group iff a country is set and links exist. With two or more words it sets the country (two words after the flag) and the rest as product; otherwise both are kept |
| LegacyParser.EnvironmentLine | backend/test_parser.py:37-56 | The environment branch is taken exactly for a stripped line starting with `#` that is upper case |
| LegacyParser.UpperWordIsHeader | backend/test_parser.py:37-56 | An upper-case line such as `PTA` takes the header branch, so it sets no environment and changes neither country nor product |
| LegacyParser.BulletLine | backend/test_parser.py:59-65 | A bullet line appends every stripped match of the line, in order, and changes nothing else |
| LegacyParser.RunReady | backend/test_parser.py:37-46 | Every step keeps the emitted groups ready (country and links present) |
| LegacyParser.GroupsReady | backend/test_parser.py:20-76 | Every group returned has a country and at least one link |
| LegacyParser.BulletClassify | backend/test_parser.py:59-65 | `- [text](url)` and `* - [text](url)` are bullets with exactly that link |
| LegacyParser.HeaderClassify | backend/test_parser.py:37-52 | A line of single-space-separated words not starting with `*`, `-` or `#` is a header with those words |
| LegacyParser.RunReplay | backend/test_parser.py:33 | Running lines equals replaying their classifications |
| LegacyParser.Bullets | backend/test_parser.py:64-65 | A run of one-link bullets appends those links in order |
| LegacyParser.ShapeGroups | backend/test_parser.py:33-76 | A page shaped like the sample (header, one-word header, 5 bullets, blank, header, one-word header, 3 bullets) yields two groups with empty environments |
| LegacyParser.HeaderNames | backend/test_parser.py:49-52 | The sample's headers name countries `<flag> A.Buhler` and `<flag> Another`, and products `Compose 6.0` and `Product System 2.0` |
| LegacyParser.SampleGroups | backend/test_parser.py:79-99 | The bundled sample parses to two groups, of five and three links, with environment `""` because `PTA` and `PROD` are read as headers |
| Database.PatchedUsers | backend/database.py:136-168 | Only the named user changes; its creation time stays; with no field supplied nothing changes |
| Database.SessionsWithout | backend/database.py:243-249 | Exactly the sessions of other users remain, unchanged |
| Database.Store.constructor | backend/database.py:18-45 | `init_db`: both tables empty, with the eight-hour session invariant |
| Database.Store.CreateUser | backend/database.py:56-74 | It succeeds iff the username is new (primary key). The row holds the password's hash, and the new user then verifies with that password |
| Database.Store.VerifyUser | backend/database.py:77-98 | The user's data exactly when the stored hash equals the password's hash |
| Database.Store.UserByUsername | backend/database.py:262-269 | The user's data iff the user exists |
| Database.Store.AllUsers | backend/database.py:113-133 | Every user exactly once, strictly ordered by username |
| Database.Store.UpdateUser | backend/database.py:136-168 | It answers true iff some field is supplied. It sets exactly the supplied fields (the password as its hash) and leaves sessions alone |
| Database.Store.DeleteUser | backend/database.py:173-189 | The user and all their sessions go, always answering true; afterwards no token verifies as that user |
| Database.Store.CreateSession | backend/database.py:192-208 | A session expiring eight hours later under the fresh token. It verifies throughout those eight hours and never after |
| Database.Store.VerifyToken | backend/database.py:211-240 | The session joined with its user, iff the session and user exist and it has not expired |
| Database.Store.DeleteSessions | backend/database.py:243-249 | Every session of the user goes; afterwards no token verifies as that user |
| Database.Store.LatestMintSession | backend/database.py:252-259 | The mint session of one of the user's most recently created sessions, or none when the user has no session |
| Database.TokenLifetime | backend/database.py:198-199 | Under the invariant, a token verifies until exactly eight hours after its creation |
| Database.SameHashSameAnswer | backend/database.py:77-98 | Only hashes are compared: passwords with equal hashes are equally accepted |
| Database.OrderByName | backend/database.py:120 | The names of a set, each once, in strictly ascending order |
| Database.AssignmentsPatch | backend/database.py:144-163 | The SET items collected, applied in order, patch exactly the supplied fields |
| Database.AssignAllAppend | backend/database.py:163 | Applying two lists of assignments is applying one after the other |
| Cache.Lookup | backend/cache.py:10-30 | Content iff a row exists and its age does not exceed the limit in minutes |
| Cache.WikiCache.constructor | backend/database.py:39-45 | The cache table starts empty |
| Cache.WikiCache.GetFresh | backend/cache.py:10-27 | The default limit is 15 minutes (900 seconds) |
| Cache.WikiCache.Put | backend/cache.py:33-46 | INSERT OR REPLACE stamped now: the content reads back for any age limit, and other URLs are unaffected |
| Cache.WikiCache.Clear | backend/cache.py:49-55 | Every entry goes; nothing reads back |
| Guards.CurrentUser | backend/auth.py:106-117 | The token's user, or 401 "Invalid or expired token" precisely when the token does not verify |
| Guards.RequireAdmin | backend/auth.py:120-126 | No error iff the user is an admin, else 403 "Admin access required" |
| Guards.CurrentAdmin | backend/auth.py:106-126 | Success iff the token verifies as an admin; 401 takes precedence over 403 |
| StatusRoutes.GroupLinksFlatten | backend/routes/status_routes.py:61-71 | Each record stands for the link at the same position of the flattened groups: id `username_url`, name from the text, product and environment from its group |
| StatusRoutes.CollectGroupLinks | backend/routes/status_routes.py:29-39 | The nested loop yields exactly the specification records |
| StatusRoutes.CollectAllLinks | backend/routes/status_routes.py:14-43 | All users' records in listing order, a user whose fetch raised contributing nothing |
| StatusRoutes.FailedFetchSkipped | backend/routes/status_routes.py:40-41 | A failed user is skipped without affecting the others |
| StatusRoutes.CollectUserLinks | backend/routes/status_routes.py:46-75 | Nothing for an unknown user or a failed fetch, else the user's records without owner |
| StatusRoutes.Check | backend/routes/status_routes.py:91-117 | Id, name, url, product and environment are copied. A failed probe gives `unknown` with response time 0. Uptime is 100 iff the status is `online` |
| StatusRoutes.CheckAll | backend/routes/status_routes.py:120 | One checked record per link, in order |
| StatusRoutes.AllLinkStatuses | backend/routes/status_routes.py:78-122 | 403 iff the caller is not an admin, else every checked link |
| StatusRoutes.UserLinkStatuses | backend/routes/status_routes.py:127-176 | 403 "Not authorized" iff the caller is neither that user nor an admin |
| StatusRoutes.PingTarget | backend/routes/status_routes.py:192-196 | 400 "Invalid link ID format" iff the id has no `_`; else the url after the first `_` |
| StatusRoutes.Ping | backend/routes/status_routes.py:181-210 | A format error, a probe error as 500, or a response echoing the id it was given |
| StatusRoutes.PingRoundTrip | backend/routes/status_routes.py:192-196 | A collected id pings the link's own url exactly when the username holds no `_`; with a `_` in the username the wrong url is probed |
| AdminRoutes.ListUsers | backend/routes/admin_routes.py:12-19 | The guard's error, or exactly the store's user listing |
| AdminRoutes.UpdateUserEndpoint | backend/routes/admin_routes.py:22-46 | A guard error changes nothing. With no field supplied the answer is 400 "Failed to update user" and nothing changes. Otherwise the supplied fields are patched |
| AdminRoutes.DeleteUserEndpoint | backend/routes/admin_routes.py:49-74 | 400 "Cannot delete your own account" for the caller themself (nothing changes); otherwise the user and their sessions are deleted |
| AuthRoutes.Register | backend/routes/auth_routes.py:13-48 | 400 unless the wiki URL starts with `http`, 409 for an existing name; otherwise the user is created with a session |
| AuthRoutes.Login | backend/routes/auth_routes.py:51-87 | 401 when the GitLab sign-in fails, 404 for an unknown user; otherwise a session holding the mint session, with the stored data |
| AuthRoutes.Logout | backend/routes/auth_routes.py:90-98 | 401 for a bad token; otherwise every session of the caller ends, so the presented token stops verifying |
| DashboardRoutes.Serve | backend/routes/dashboard_routes.py:30-55 | A bad URL fails with no cache write, and so does every failure. On a miss a failed fetch answers its error. A body that cannot be read answers by its error kind. Otherwise the answer is the parsed fetched body, stamped, and that body is stored |
| DashboardRoutes.MissDecodeError | backend/wiki.py:173-179 | Only a JSON syntax error of a fetched body answers "Failed to parse wiki content from GitLab API"; any other error reaches the route's generic 500 |
| DashboardRoutes.HitIgnoresFetch | backend/routes/dashboard_routes.py:34-42 | A fresh non-empty cached body is parsed without fetching, whatever the session, and nothing is stored |
| DashboardRoutes.ServeAgain | backend/routes/dashboard_routes.py:43-50 | After a miss caches a non-empty body, serving again within 15 minutes, with any fetcher, is a hit on it |
| DashboardRoutes.ServeWiki | backend/routes/dashboard_routes.py:97-122 | The cache-or-fetch block answers and updates the cache as the specification does |
| DashboardRoutes.GetDashboard | backend/routes/dashboard_routes.py:15-62 | 401 for a bad token, 400 without a wiki URL, otherwise served with the caller's mint session; a failure leaves the cache alone |
| DashboardRoutes.GetUserDashboard | backend/routes/dashboard_routes.py:65-129 | 403 for another user's dashboard unless admin, 404 for an unknown user, 400 without a wiki URL; otherwise served with that user's latest mint session |
| DashboardRoutes.ClearCache | backend/routes/dashboard_routes.py:132-138 | Success iff the token verifies; the whole cache is emptied |
| Models.LinkTotalFlatten | backend/models.py:29 | The link count of a group list is the length of its flattened links |
| StatusUtils.StatusColor | frontend/src/components/StatusMonitoring/statusUtils.jsx:6-13 | The default colour iff the status is none of online, offline, warning |
| StatusUtils.ColorsDistinct | frontend/src/components/StatusMonitoring/statusUtils.jsx:6-13 | The three known statuses get three different colours |
| StatusUtils.StatusIcon | frontend/src/components/StatusMonitoring/statusUtils.jsx:18-49 | The plain circle iff the status is unknown |
| StatusUtils.Select | frontend/src/components/StatusMonitoring/statusUtils.jsx:54-69 | The links with a product and environment key, in input order |
| StatusUtils.GroupLinksByProductAndEnv | frontend/src/components/StatusMonitoring/statusUtils.jsx:54-69 | The reducer with its accumulator mutated in place equals the specification fold |
| StatusUtils.GroupSelect | frontend/src/components/StatusMonitoring/statusUtils.jsx:54-69 | Each bucket holds exactly the links with its keys, in input order. A bucket exists iff it is non-empty |
| StatusUtils.GroupAll | frontend/src/components/StatusMonitoring/statusUtils.jsx:54-69 | The same for every key pair at once |
| StatusUtils.OwnBucket | frontend/src/components/StatusMonitoring/statusUtils.jsx:56-64 | A link lands in its own bucket; with `Uncategorized`/`Default` fallbacks a bucket holds only links with its keys |
| StatusUtils.BucketSizes | frontend/src/components/StatusMonitoring/statusUtils.jsx:54-69 | Over a duplicate-free list covering the keys, the bucket sizes add up to the number of links: nothing is lost or doubled |
| StatusUtils.WithStatus | frontend/src/components/StatusMonitoring/statusUtils.jsx:76-78 | Exactly the links with that status; never more than all of them |
| StatusUtils.CalculateStatusCounts | frontend/src/components/StatusMonitoring/statusUtils.jsx:74-81 | Exact per-status counts of the list; their sum never exceeds the total |
| StatusUtils.CountsBounded | frontend/src/components/StatusMonitoring/statusUtils.jsx:74-81 | The three status filters together select at most all links |
| StatusUtils.CalculateUptime | frontend/src/components/StatusMonitoring/statusUtils.jsx:86-90 | No figure iff there are no links, else online out of a positive total |
| StatusMonitoring.Patched | frontend/src/components/StatusMonitoring/StatusMonitoring.jsx:78-80 | The same length. Entries with another id are unchanged. Entries with that id take the response's fields |
| StatusMonitoring.PatchKeepsIds | frontend/src/components/StatusMonitoring/StatusMonitoring.jsx:78-80 | With a response echoing the id, ids, uptimes, names and urls stay |
| StatusMonitoring.PatchIdempotent | frontend/src/components/StatusMonitoring/StatusMonitoring.jsx:78-80 | Applying the same echoed response twice equals applying it once |
| StatusMonitoring.BackendPingKeepsIds | frontend/src/components/StatusMonitoring/StatusMonitoring.jsx:75-80 | What the backend's ping route answers keeps every id in the list |
| StatusMonitoring.Filtered | frontend/src/components/StatusMonitoring/StatusMonitoring.jsx:129-132 | `all` keeps the list; any other filter exactly the links with that status |
| StatusMonitoring.StatusMonitor.constructor | frontend/src/components/StatusMonitoring/StatusMonitoring.jsx:6-11 | Empty list, loading, never updated, filter `all` |
| StatusMonitoring.StatusMonitor.Endpoint | frontend/src/components/StatusMonitoring/StatusMonitoring.jsx:48-50 | All links for a truthy admin flag, else the user's own |
| StatusMonitoring.StatusMonitor.FetchStatuses | frontend/src/components/StatusMonitoring/StatusMonitoring.jsx:45-66 | An ok reply replaces the list with `links`, or `[]` when absent, and stamps the time. Anything else leaves both. Loading ends either way |
| StatusMonitoring.StatusMonitor.Mount | frontend/src/components/StatusMonitoring/StatusMonitoring.jsx:14-43 | Without token or username the error view shows and nothing loads; otherwise the first fetch runs |
| StatusMonitoring.StatusMonitor.PingLink | frontend/src/components/StatusMonitoring/StatusMonitoring.jsx:68-85 | An ok reply patches the entries with that id; anything else changes nothing |
| StatusMonitoring.StatusMonitor.SetFilter | frontend/src/components/StatusMonitoring/StatusMonitoring.jsx:11 | Only the filter changes |
| StatusMonitoring.StatusMonitor.Shown | frontend/src/components/StatusMonitoring/StatusMonitoring.jsx:129-148 | Each displayed bucket holds exactly the filtered links with its keys |
| StatusMonitoring.StatusMonitor.Counts | frontend/src/components/StatusMonitoring/StatusMonitoring.jsx:150-155 | Counts are over the whole list, whatever the filter |
| StatusMonitoring.StatusMonitor.TopView | frontend/src/components/StatusMonitoring/StatusMonitoring.jsx:161-168 | The auth error iff props are missing; the spinner iff loading with nothing to show |
| DashboardSearch.FilterGroups | frontend/src/UserDashboard.jsx:60-70 | Exactly the groups whose product, environment or some link text or url contains the term, ignoring case; groups are never narrowed |
| DashboardSearch.FilterConcat | frontend/src/UserDashboard.jsx:60-70 | Filtering keeps input order |
| DashboardSearch.EmptyTermMatches | frontend/src/UserDashboard.jsx:60-70 | Every group matches the empty term |
| DashboardSearch.EmptyTermKeepsAll | frontend/src/UserDashboard.jsx:60-70 | The empty term keeps every group |
| DashboardSearch.FilteredLinkTotal | frontend/src/UserDashboard.jsx:164 | The shown link total never exceeds the dashboard's |
| DashboardSearch.LinkTotalAppend | frontend/src/UserDashboard.jsx:164 | Link totals add over concatenation |
| UserDashboard.LoadError | frontend/src/UserDashboard.jsx:28-37 | A failure shows the response's truthy `detail`, else the fallback; a thrown error shows its message |
| UserDashboard.UserDashboardPage.constructor | frontend/src/UserDashboard.jsx:7-11 | No data, empty search, loading, no error |
| UserDashboard.UserDashboardPage.FetchDashboard | frontend/src/UserDashboard.jsx:18-41 | Loads `/api/dashboard/<username>`. Ok replaces the data and clears the error. A failure keeps the data and sets the error. Loading ends |
| UserDashboard.UserDashboardPage.HandleRefresh | frontend/src/UserDashboard.jsx:43-58 | The cache is cleared and the dashboard reloaded, whatever the clear answered |
| UserDashboard.UserDashboardPage.SetSearchTerm | frontend/src/UserDashboard.jsx:10 | Only the term changes |
| UserDashboard.UserDashboardPage.FilteredGroups | frontend/src/UserDashboard.jsx:60-70 | Nothing without data; else exactly the matching groups, and all of them for an empty term |
| UserDashboard.UserDashboardPage.ShownLinkTotal | frontend/src/UserDashboard.jsx:164 | The kept groups' links, at most all of them |
| AdminDashboard.NormalizeUsers | frontend/src/AdminDashboard.jsx:35-48 | `{users}` and a bare array are both accepted; any other shape gives `[]` and "Invalid data format received from server" |
| AdminDashboard.UsersAfterFetch | frontend/src/AdminDashboard.jsx:19-52 | A failed load leaves the list empty |
| AdminDashboard.ErrorAfterFetch | frontend/src/AdminDashboard.jsx:19-52 | A good shape keeps the previous error; a bad shape, status or throw sets it |
| AdminDashboard.AdminDashboardPage.constructor | frontend/src/AdminDashboard.jsx:8-13 | No users, no preview, loading, no error |
| AdminDashboard.AdminDashboardPage.FetchUsers | frontend/src/AdminDashboard.jsx:19-52 | Users and error as the two functions say; loading ends; the preview is untouched |
| AdminDashboard.AdminDashboardPage.FetchDashboard | frontend/src/AdminDashboard.jsx:54-76 | Success sets data and selection together and clears the error. Failure clears the data, keeps the selection and names the user in the error |
| AdminDashboard.AdminDashboardPage.HandleDeleteUser | frontend/src/AdminDashboard.jsx:78-104 | Nothing is requested unless confirmed. After a delete the list reloads, with the users and the error `fetchUsers` leaves. The preview closes iff it showed the deleted user. Failures alert and change nothing |
| AdminDashboard.AdminDashboardPage.ClosePreview | frontend/src/AdminDashboard.jsx:192-195 | Data and selection clear, nothing else changes |
| AdminDashboard.AdminDashboardPage.HandleClearCache | frontend/src/AdminDashboard.jsx:110-125 | The preview reloads iff a truthy (non-empty) username is selected and the clear did not throw. An ok reload shows the data and clears the error. A failed one clears the data and keeps the selection. The list and loading flag never change |
| AdminDashboard.AdminDashboardPage.PreviewGroups | frontend/src/AdminDashboard.jsx:225-248 | Exactly the matching groups; all of them for an empty term |
| AdminDashboard.PreviewEmptyIff | frontend/src/AdminDashboard.jsx:225-248 | The no-results view appears iff no previewed group matches |
| AdminTable.FilteredUsers | frontend/src/AdminTable.jsx:33-39 | Nothing for a non-array; else exactly the users whose username contains the query, ignoring case, and who match the role |
| AdminTable.Keep | frontend/src/AdminTable.jsx:33-39 | The list filter: membership iff listed, never longer |
| AdminTable.RolesPartition | frontend/src/AdminTable.jsx:33-39 | Under any query the ADMIN and USER filters together list exactly as many users as ALL |
| AdminTable.AdminCount | frontend/src/AdminTable.jsx:25 | The admin count is at most the user count |
| AdminTable.AdminCountIsAdminFilter | frontend/src/AdminTable.jsx:25-39 | The admin stat equals what the ADMIN filter lists with an empty query |
| AdminTable.StatsOf | frontend/src/AdminTable.jsx:17-30 | Total is the user count, everyone counts as active, nobody as new today, and admins never exceed the total |
| AdminTable.Initials | frontend/src/AdminTable.jsx:41-43 | At most the first two UTF-16 code units, each upper-cased |
| AdminTable.InitialsBmp | frontend/src/AdminTable.jsx:41-43 | Without astral characters the initials are the first two characters upper-cased |
| AdminTable.InitialsAstralFirst | frontend/src/AdminTable.jsx:41-43 | An astral first character fills both code units, so the second character is dropped |
| AdminTable.InitialsSplitPair | frontend/src/AdminTable.jsx:41-43 | An astral second character is split, leaving its lone high surrogate |
| AdminTable.FirstCodeUnit | frontend/src/AdminTable.jsx:53 | `charCodeAt(0)` is a UTF-16 code unit, the code point itself below 0x10000 |
| AdminTable.AvatarColor | frontend/src/AdminTable.jsx:45-55 | No colour iff the name is empty (`NaN` index); else one of the five, indexed by the first code unit mod 5 |
| AdminTable.FormatDate | frontend/src/AdminTable.jsx:57-70 | Exactly one bucket per elapsed range (under a minute, an hour, a day, 30 days, else a date), with floored counts inside their ranges |
| AdminTable.Plural | frontend/src/AdminTable.jsx:67-68 | `N unit`, with an `s` iff N is more than one |
| AdminTable.AdminTablePanel.constructor | frontend/src/AdminTable.jsx:5-10 | Empty query, role ALL, zero stats, modal closed, empty form, no error |
| AdminTable.AdminTablePanel.RefreshStats | frontend/src/AdminTable.jsx:17-30 | Recomputed for an array, left as they were otherwise |
| AdminTable.AdminTablePanel.HandleCreateUser | frontend/src/AdminTable.jsx:72-108 | Nothing is sent iff a field is empty ("All fields are required"). Ok closes the modal and resets the form. A failure keeps the form and shows the detail or the fallback |
| App.FilterGroupsAsWritten | frontend/src/App.jsx:276-286 | `filterGroups` as written, reading `link.name` before `link.url` |
| App.NarrowAsWrittenThrows | frontend/src/App.jsx:281-284 | A non-empty link list under a non-empty term throws a TypeError |
| App.NarrowAsWrittenEmpty | frontend/src/App.jsx:281-284 | An empty link list narrows to empty without throwing |
| App.NarrowGroupsThrows | frontend/src/App.jsx:279-285 | Any dashboard with a link throws when narrowed |
| App.FilterGroupsAsWrittenThrows | frontend/src/App.jsx:276-286 | As written, every non-empty search over a dashboard with at least one link throws a TypeError |
| App.AsWrittenExample | frontend/src/App.jsx:282 | Searching `a` over one group with one link throws |
| App.Narrow | frontend/src/App.jsx:281-284 | Corrected: exactly the links whose text or url contains the term, ignoring case |
| App.NarrowGroups | frontend/src/App.jsx:279-285 | Corrected: kept groups are non-empty and hold only matching links |
| App.FilterGroups | frontend/src/App.jsx:276-286 | Corrected: the empty term keeps every group; otherwise every group kept is non-empty and fully matching |
| App.NarrowGroupsSpec | frontend/src/App.jsx:279-285 | A group is kept iff it is an input group (same country, product and environment) whose narrowed links are non-empty, which it then holds |
| App.AgreesWhenNoThrow | frontend/src/App.jsx:276-286 | Where the written code does not throw (an empty term), it agrees with the corrected one |
| App.NoLinksAgree | frontend/src/App.jsx:279-285 | A dashboard without links narrows to nothing in both |
| App.NonAdmins | frontend/src/App.jsx:144 | Exactly the non-admin users |
| App.ClientFilter | frontend/src/App.jsx:361-364 | Exactly the users whose username or wiki URL contains the term, ignoring case |
| App.UpdateBody | frontend/src/App.jsx:238-254 | `new_password` is sent iff a non-empty password was entered; username and wiki URL always |
| App.AppShell.constructor | frontend/src/App.jsx:7-22 | Logged out, no data, empty search |
| App.AppShell.FetchUsers | frontend/src/App.jsx:131-148 | Ok keeps only non-admins. A bad status sets "Failed to fetch users". A throw sets its message |
| App.AppShell.FetchDashboard | frontend/src/App.jsx:150-172 | Ok shows and selects. A bad status shows the detail, or "Failed to fetch dashboard (<status>)" |
| App.AppShell.HandleLogin | frontend/src/App.jsx:44-87 | Success stores token, flag and username, then loads the non-admin users iff the flag is truthy, else the user's own dashboard, with the error each load leaves; failure shows the detail or fallback, stores nothing and leaves users, dashboard, selection, flag and username as they were |
| App.AppShell.StoreLogin | frontend/src/App.jsx:67-73 | The login answer goes into the page state and the three storage keys; nothing else changes |
| App.AppShell.LoadAfterLogin | frontend/src/App.jsx:76-81 | A truthy flag reloads the users (non-admins, or the fetch error), otherwise the user's dashboard and selection (or the detail/status error) |
| App.AppShell.HandleLogout | frontend/src/App.jsx:174-185 | The session state is reset and the three storage keys removed. The displayed username, the error and the search term are kept |
| App.AppShell.HandleDeleteUser | frontend/src/App.jsx:207-235 | Confirmation gates the request. After a delete the list reloads: the non-admins, or the old list with "Failed to fetch users" or the thrown message. The view clears iff it showed the deleted user. Failures alert and change nothing |
| App.AppShell.HandleUpdateUser | frontend/src/App.jsx:237-269 | Nothing is sent for a cancelled or empty URL. Otherwise the body sent and the success or error alert; after an update the list reloads (the non-admins, or the old list with the fetch error) |
| AppWithNewUI.AsUsersProp | frontend/src/AppWithNewUI.jsx:55 | The stored body is an array for the table iff the body is a bare array |
| AppWithNewUI.BackendBodyListsNobody | frontend/src/AppWithNewUI.jsx:55 | Since the backend answers `{users: [...]}`, the admin table lists nobody |
| AppWithNewUI.NewUIShell.constructor | frontend/src/AppWithNewUI.jsx:8-21 | Logged out, no data, empty user array |
| AppWithNewUI.NewUIShell.FetchUsers | frontend/src/AppWithNewUI.jsx:42-59 | Ok stores the whole body; a failure is only logged |
| AppWithNewUI.NewUIShell.FetchDashboard | frontend/src/AppWithNewUI.jsx:61-83 | Success shows, selects and clears the error; failure clears the data and sets "Error: ..." |
| AppWithNewUI.NewUIShell.HandleLogout | frontend/src/AppWithNewUI.jsx:128-140 | The three keys go and so do the typed username and password |
| AppWithNewUI.NewUIShell.HandleDeleteUser | frontend/src/AppWithNewUI.jsx:142-168 | Confirmation gates the request. After a delete the list reloads, or stays as it was when the reload fails. The view clears iff it showed the deleted user. The error and credentials never change |
| AppWithNewUI.DashboardComponent | frontend/src/AppWithNewUI.jsx:273-288 | No results iff no group matches; else exactly the matching groups |
| AppWithNewUI.ShellShowsEverything | frontend/src/AppWithNewUI.jsx:21 | With the never-set term every group is shown, and no results only for an empty dashboard |
| Router.PageRouter.constructor | frontend/src/Router.jsx:8-12 | Landing page, logged out |
| Router.PageRouter.Restore | frontend/src/Router.jsx:14-27 | A stored non-empty token logs in and opens the admin page iff the stored flag is `true`; otherwise nothing changes |
| Router.PageRouter.HandleLoginSuccess | frontend/src/Router.jsx:29-38 | The three keys are stored and the admin page opens iff the flag is truthy |
| Router.PageRouter.HandleLogout | frontend/src/Router.jsx:40-49 | Keys removed, state cleared, landing page |
| Router.PageRouter.NavigateToLogin | frontend/src/Router.jsx:51-53 | Only the page changes |
| Router.PageRouter.NavigateToLanding | frontend/src/Router.jsx:55-57 | Only the page changes |
| Router.PageRouter.Render | frontend/src/Router.jsx:59-93 | The admin dashboard iff the admin page and a truthy flag; the admin page without the flag falls back to landing |
| Router.MissingAdminFlag | frontend/src/Router.jsx:30-35 | A login answer without `is_admin` is not admin, and the stored `undefined` does not read back as admin |
| Onboarding.Steps | frontend/src/components/Onboarding/OnboardingTour.jsx:18-146 | Six steps, the admin tour iff the flag is truthy |
| Onboarding.Tour.constructor | frontend/src/components/Onboarding/OnboardingTour.jsx:6-7 | Not running, at step 0 |
| Onboarding.Tour.Start | frontend/src/components/Onboarding/OnboardingTour.jsx:9-16 | Scheduled iff no non-empty completion flag is stored |
| Onboarding.Tour.HandleCallback | frontend/src/components/Onboarding/OnboardingTour.jsx:148-158 | A step event moves one step back for PREV, else forward, unclamped. Finishing or skipping stops the tour, stores the flag and calls back iff given. Other events change nothing |
| Onboarding.EndedTourStaysOff | frontend/src/components/Onboarding/OnboardingTour.jsx:9-16 | Once ended, mounting again never schedules the tour |
| Storage.LocalStorage.constructor | frontend/src/utils/storage.js:6 | Empty storage |
| Storage.LocalStorage.GetItem | frontend/src/utils/storage.js:8 | The stored string iff the key is present, else `null` |
| Storage.LocalStorage.SetItem | frontend/src/utils/storage.js:9 | Stores `String(value)` under the key |
| Storage.LocalStorage.RemoveItem | frontend/src/utils/storage.js:10 | Only that key goes |
| Storage.SetToken | frontend/src/utils/storage.js:9 | The token key is set |
| Storage.RemoveToken | frontend/src/utils/storage.js:10 | The token key goes |
| Storage.GetIsAdmin | frontend/src/utils/storage.js:13 | Admin iff the stored string is exactly `true` |
| Storage.SetIsAdmin | frontend/src/utils/storage.js:14 | The flag is stored as its string |
| Storage.RemoveIsAdmin | frontend/src/utils/storage.js:15 | The flag goes |
| Storage.SetUsername | frontend/src/utils/storage.js:19 | The username key is set |
| Storage.RemoveUsername | frontend/src/utils/storage.js:20 | The username key goes |
| Storage.ClearAll | frontend/src/utils/storage.js:23-27 | Exactly the three session keys go; reading back gives no session |
| Storage.SetSession | frontend/src/utils/storage.js:37-41 | Reading the session back gives the stored strings, and admin iff the flag's string is `true` |
| Api.ApiRequest | frontend/src/utils/api.js:9-18 | The URL under the API base, the method (GET by default), the caller's headers plus a JSON content type unless the caller gave one |
| Api.AuthenticatedRequest | frontend/src/utils/api.js:31-39 | Also a bearer header set last, overriding any caller Authorization |
| Api.Complete | frontend/src/utils/api.js:20-25 | Resolves iff the reply is ok. Otherwise it rejects with the truthy detail, or `Request failed: <status>`, or the thrown message |
| Api.Login | frontend/src/utils/api.js:43-47 | POST of username and password, without authorization |
| Api.Logout | frontend/src/utils/api.js:49-52 | An authenticated POST without a body |
| Api.Register | frontend/src/utils/api.js:54-63 | POST with the four fields; an omitted admin flag is sent as false |
| Api.GetDashboard | frontend/src/utils/api.js:66-67 | Authenticated GET of the dashboard |
| Api.GetUserDashboard | frontend/src/utils/api.js:69-70 | Authenticated GET of `/dashboard/<username>` |
| Api.ClearCache | frontend/src/utils/api.js:72-75 | Authenticated POST to clear the cache |
| Api.GetUsers | frontend/src/utils/api.js:78-79 | Authenticated GET of the user list |
| Api.UpdateUser | frontend/src/utils/api.js:81-85 | PUT of `{username, ...updates}`: a `username` among the updates wins |
| Api.DeleteUser | frontend/src/utils/api.js:87-90 | Authenticated DELETE of the user |
| Api.GetAllLinkStatuses | frontend/src/utils/api.js:93-94 | Authenticated GET of all link statuses |
| Api.GetUserLinkStatuses | frontend/src/utils/api.js:96-97 | Authenticated GET of one user's statuses |
| Api.PingLink | frontend/src/utils/api.js:99-102 | Authenticated POST to the ping route with the id |
| Api.HealthCheck | frontend/src/utils/api.js:105-106 | GET with only the JSON content type |

## Left out

- Network I/O: the wiki fetch, the GitLab sign-in and the status probes are parameters, as are their results. So are random session tokens, the clock and `window.confirm`/`window.prompt` answers.
- Async concurrency: `asyncio.gather`, React's batched state updates and `setInterval` refresh timers. Each handler is one atomic step here.
- SQL exceptions other than the primary-key conflict of `create_user`; the database is assumed to work.
- `hash_password` (SHA-256) is an uninterpreted function; its collision resistance is not modelled.
- Case-insensitive matching folds ASCII letters only; Unicode case mapping is not modelled.
- Python's `str.isupper` is modelled on ASCII letters only.
- `toFixed` formatting of the uptime, the floating-point ratio itself, and `toLocaleDateString` (the model's `LocaleDate` stands for it).
- JavaScript object key order and rendering markup; only the data each view shows is modelled.
- `StatusUtils.GroupLinksByProductAndEnv` and `StatusMonitoring.StatusMonitor.Shown` do not model keys inherited from `Object.prototype`.
  - The accumulator is a plain `{}`. A product or environment named `constructor`, `toString` or the like finds an inherited property.
  - For an environment, the inherited function is truthy, so the source calls `.push` on it and throws a TypeError.
  - For a product, the link goes onto a property of the inherited object, and `Object.entries` never lists it.
  - The model's map keeps such links in their own bucket.
- react-joyride internals, and the one-second `setTimeout` before the tour starts.
- `window.location.reload` and `window.open`.
- `AuthRoutes.Register` and `AuthRoutes.Login`: require a token not already among the sessions. `secrets.token_urlsafe` is assumed not to collide.
- Replies are assumed to carry JSON bodies. `App.AppShell.FetchUsers` reads the body as the `users` array it expects, and a body of another shape is not modelled.
- Dashboard routes: on a cache miss the source fetches the page twice, once to parse and once to cache. The model fetches once, assuming both fetches return the same page.
- `delete_user` always answers true, so the route's "Failed to delete user" branch is unreachable and is not modelled.
- Not modelled:
  - App's `handleRegister` and session-restore effect;
  - AppWithNewUI's `handleLogin`;
  - the `handleViewDashboard` wrappers (each only calls `fetchDashboard`);
  - the components' own `getStatusColor`/`getStatusIcon` copies, which are the utility functions already modelled.
- `WikiApiUrl.ExtractApiUrl` carries no `ensures` of its own. Its behaviour is stated by `Rejects`, `FromSegments`, `FromParts` and `ScriptExample`.
- `fetch_and_parse_wiki`'s JSON decoding of the GitLab answer is a parameter (`Decode`) of the dashboard routes. It reports only whether it raised a JSON syntax error or some other exception, with its text.
- The sample of `backend/test_parser.py` is proved through its fifteen lines (`SampleGroups`). No lemma parses the joined sample string directly.
- FastAPI's route matching is not modelled: `Ping` takes the `link_id` as already matched. The route `/ping/{link_id}` (backend/routes/status_routes.py:181) matches one path segment only, and every collected id holds the link url with its `/` characters, so such a request from the status page would not reach the route at all.
- The status endpoints' generic 500 handler is not modelled, and neither is `check_link_status`'s probing logic (the probe is a parameter).

## Findings

| source | as written | input that shows it | evidently intended | confidence | as-written member | corrected member |
|---|---|---|---|---|---|---|
| frontend/src/App.jsx:282 | `filterGroups` tests `link.name.toLowerCase()`, but backend links carry `text` and `url` only (backend/models.py:29), so `link.name` is `undefined` and the call throws a TypeError | search term `a` over one group `{country "C", product "P", environment "E", links [{text "a", url "u"}]}`; any non-empty term over any dashboard with a link throws | match the term against `link.text` or `link.url` and keep the groups left with matching links | not executed | App.FilterGroupsAsWrittenThrows | App.NarrowGroupsSpec |
