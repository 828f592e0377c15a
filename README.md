# Employee directory: a Dafny model

This project models the core of a small employee-directory application. It
has a GraphQL back end (Node, Apollo, MongoDB) and a React front end.

Back end:

- `resolvers.js`: the resolvers. The employee listing is paginated, sorted,
  filtered and cached for 60 seconds. Single-employee lookups are cached too.
  The employee mutations (add, update, delete) are admin-only and flush the
  cache. The file also holds the public login and registration, and the
  admin-only user-account management (linking a user to an employee,
  changing a role), which leaves the cache alone.
- `auth.js`: the role check, bearer-token authentication that soft-fails to
  "no user", the password-hashing pre-save hook and the role enum.
- `server.js`: the fixed-window rate limiter (1000 counted calls per IP per
  minute), the middleware that wraps every resolver, and `formatError`, which
  masks internal errors. The limiter is installed as resolver middleware
  (`applyMiddleware`, backend/src/server.js:110), so one counted call is one
  resolver invocation, not one HTTP request.

Front end:

- `HorizontalMenu.jsx`: the tab tables.
- `GridView.jsx` and `TileView.jsx`: the query state of the two list views,
  plus the subject chips of the card view.
- Shared avatar helpers: colour and initials. `TileView.jsx` and
  `EmployeeDetail.jsx` each carry an identical copy. `Avatar` models them
  once and cites both.
- `EmployeeDetail.jsx`: the simulated attendance series and the choice
  between the fetched record and the record passed in.

The form follows the source.

- **Objects updated in place are classes:**
  - the resolver cache: `Cache.ResultCache`, a map of timestamped entries;
  - the rate limiter: `Server.RateLimiter`;
  - a user document with its "password modified" flag: `Auth.UserDocument`;
  - the resolver state: `Resolvers.Api`, which has the employee map, the
    user list and the cache;
  - the two views' React state: `GridView.GridViewState` and
    `TileView.TileViewState`.
- **Each state-changing method is tied to pure functions of the old state.**
  For example, `Api.Employees` yields exactly `ListQuery` of the old cache.
  The properties are proved as lemmas about those functions:
  - cache freshness within the TTL and recomputation after it;
  - the page arithmetic;
  - the allow-list;
  - login's single error message;
  - rate-limit windows over a burst of requests;
  - round trips (tab name and index, bearer header and token, number
    printing in the chip label);
  - colour invariance under reordering;
  - the initials as the word starts of a name.

Things the code reaches but we cannot see become parameters. There are two
kinds.

- **The clock.** `now` is one reading per resolver call: the lookup and the
  store of one call share it.
- **Foreign libraries and the database:**
  - bcrypt becomes `hash` and `compare`;
  - JWT becomes `sign` and `verify`;
  - the regular-expression name filter becomes `matches`;
  - the database's find and sort become `arrange`;
  - `Math.random` becomes `jitter`.

Behaviour of the code that the model makes explicit:

- **The listing's cache key does not identify its arguments.** The key is
  `page_limit_sortBy_sortOrder_filter`, built from the raw strings.
  `Resolvers.ListKeyNotInjective` gives two different argument sets that
  share one key. Every list key starts with a number, so no list key can
  collide with an `employee_<id>` key; `Resolvers.CacheTyped` records this.
- **A failing resolver can run twice.** The middleware re-invokes the
  resolver once on any error that does not mention "Rate limit".
- **Plain errors reach clients as "Internal server error".** Apollo gives a
  plain `Error` the code INTERNAL_SERVER_ERROR, and `formatError` replaces
  every such error. That covers the "not found" messages and "Username or
  email already in use" (`Server.WhatClientsSee`). It also covers the
  middleware's own "Rate limit exceeded" error, a plain `Error` too, so a
  refused client never sees why (`Server.RateLimitMasked`).
- **The cache is invalidated twice.** `updateEmployee` and `deleteEmployee`
  invalidate the `employee_<id>` key and then the whole cache, so the net
  effect is an empty cache.
- **Repeated listings are stable only within the TTL from the store.** A
  repeated listing gives the same answer for up to 60 s after the cache was
  filled. The window is measured from when the page was stored, not from the
  previous request.

## Model

| member | source | states |
|---|---|---|
| Wrappers.Option.GetOr | backend/src/resolvers.js:53 | helper: the value, or the default for an absent argument (parameter defaults such as `page = 1`); no contract |
| Strings.DigitChar | backend/src/resolvers.js:68 | helper of NatToString: the digit character whose code is '0' plus d |
| Strings.IsDigit | backend/src/resolvers.js:68 | helper: the characters '0' to '9' that NatToString prints; no contract |
| Strings.NatToString | backend/src/resolvers.js:68 | the decimal rendering used in template literals is non-empty, made of digits, and has no leading zero except for 0 itself |
| Strings.DigitsValue | frontend/src/components/TileView.jsx:382 | helper: the number a digit string denotes, the inverse used by NatToStringRoundTrip and CountedSubjects; no contract |
| Strings.DigitValue | frontend/src/components/TileView.jsx:382 | helper of DigitsValue: one digit's value, below 10 |
| Strings.NatToStringRoundTrip | frontend/src/components/TileView.jsx:382 | reading the printed digits back gives the number, so the rendering loses nothing |
| Strings.NatToStringInjective | backend/src/resolvers.js:68 | distinct numbers print differently |
| Strings.IntToString | backend/src/resolvers.js:68 | a printed integer starts with '-' or a digit, contains no '_', and is the decimal rendering for non-negative values |
| Strings.StartsWith | backend/src/auth.js:32 | definition of `startsWith`: the string begins with the prefix; BearerRoundTrip and ListKey are stated with it; no contract |
| Strings.Contains | backend/src/server.js:63 | definition of `includes`: the substring starts at the front or occurs in the rest; ContainsAt and ContainsIsOccurrence tie it to OccursAt in both directions; no contract |
| Strings.OccursAt | backend/src/server.js:63 | the independent reference for Contains: the substring sits at position i; no contract |
| Strings.ContainsAt | backend/src/server.js:63 | an occurrence at some position makes `includes` true |
| Strings.ContainsIsOccurrence | backend/src/server.js:63 | `includes` true implies an occurrence at some position (the converse) |
| Strings.IndexOf | frontend/src/components/TileView.jsx:82 | the first occurrence of a character: the character is there and not before |
| Strings.Split | frontend/src/components/TileView.jsx:82 | `split` on one character: at least one part, no part contains the separator, and joining the parts back gives the input |
| Strings.Join | frontend/src/components/TileView.jsx:84 | definition of `join` over one-character separators; Split is proved to join back to its input; no contract |
| Strings.UpperChar | frontend/src/components/TileView.jsx:85 | an ASCII lower-case letter is shifted to upper case; any other character is kept |
| Strings.Upper | frontend/src/components/TileView.jsx:85 | `toUpperCase` keeps the length and maps every character by UpperChar |
| Strings.Prefix | frontend/src/components/TileView.jsx:86 | `substring(0, n)` is the first min(n, length) characters |
| Cache.Fresh | backend/src/resolvers.js:35 | definition of the TTL test: an entry is valid while now minus its timestamp is at most 60000 (the source evicts when it is greater); no contract |
| Cache.Lookup | backend/src/resolvers.js:30-41 | definition of `get`'s answer: the stored value for a present, fresh key, null otherwise; StoreThenLookup and LookupFrame state its properties; no contract |
| Cache.AfterLookup | backend/src/resolvers.js:35-37 | definition of `get`'s lazy delete: a stale entry under the key is removed; LookupFrame and EvictionUnobservable state its properties; no contract |
| Cache.LookupFrame | backend/src/resolvers.js:30-41 | a `get` can only remove its own key, and removes it exactly when it misses |
| Cache.StoreThenLookup | backend/src/resolvers.js:24-41 | after `set` at time t, `get` at `now` returns the value iff now - t <= 60000 |
| Cache.EvictionUnobservable | backend/src/resolvers.js:35-37 | deleting an expired entry changes no later lookup of any key |
| Cache.InvalidateIdempotent | backend/src/resolvers.js:42-44 | invalidating a key twice is the same as once, and other keys keep their entries |
| Cache.ResultCache.constructor | backend/src/resolvers.js:22 | the cache starts empty |
| Cache.ResultCache.Set | backend/src/resolvers.js:24-29 | the key now maps to the value stamped with `now`; every other key is untouched |
| Cache.ResultCache.Get | backend/src/resolvers.js:30-41 | the value iff the key is present and now - timestamp <= ttl; an expired entry is deleted; nothing else changes |
| Cache.ResultCache.Invalidate | backend/src/resolvers.js:42-44 | exactly that key is removed |
| Cache.ResultCache.InvalidateAll | backend/src/resolvers.js:45-47 | the cache is empty |
| Auth.CheckRole | backend/src/auth.js:65-69 | false for no user; true for a user when no roles or an empty list are required; otherwise true iff the user's role is listed |
| Auth.CheckRoleMonotone | backend/src/auth.js:68 | a user accepted for a non-empty role list is accepted for any larger list |
| Auth.ExtractToken | backend/src/auth.js:29-34 | the header minus its first 7 characters when it starts with "Bearer ", otherwise (or when missing) "" |
| Auth.BearerRoundTrip | backend/src/auth.js:32-33 | "Bearer " + token extracts back to the token |
| Auth.FindUser | backend/src/resolvers.js:286-288 | `findOne`: a result is a stored user the query selects; None only when the query selects no stored user |
| Auth.FindById | backend/src/auth.js:46 | `findById`: a stored user with that id, or None only when no user has it |
| Auth.Authenticate | backend/src/auth.js:27-62 | a result is a stored user named by a verified non-empty bearer token; no token, a failed verification or an unknown user id all yield None (never an error) |
| Auth.TokenRoundTrip | backend/src/auth.js:27-57 | a verifiable token for a stored user, sent as a bearer header, authenticates as that user |
| Auth.HashedOnce | backend/src/auth.js:17-22 | a second save without a password change leaves the digest as the first save made it |
| Auth.DigestOnSave | backend/src/auth.js:17-22 | definition of the pre-save hook's effect on the password: hashed when modified, kept otherwise; HashedOnce and UserDocument.PreSave are stated with it; no contract |
| Auth.UserDocument.Create | backend/src/auth.js:7-14 | a new document holds the given fields, no employee link, role defaulting to EMPLOYEE, and counts its password as modified |
| Auth.UserDocument.Record | backend/src/auth.js:7-14 | the document's fields as a user record |
| Auth.UserDocument.SetPassword | backend/src/auth.js:18 | a password assignment marks the password modified and changes nothing else |
| Auth.UserDocument.SetRole | backend/src/auth.js:10 | a role assignment changes only the role, not the modified flag |
| Auth.UserDocument.PreSave | backend/src/auth.js:17-22 | the password is replaced by its hash exactly when it was modified; every other field is kept |
| Auth.UserDocument.Save | backend/src/auth.js:17-22 | the stored record is the document after the hook, and the flag is cleared |
| Resolvers.EmployeeNotFound | backend/src/resolvers.js:219 | the message `Employee with ID ${id} not found` thrown by updateEmployee and deleteEmployee (also line 244); no contract |
| Resolvers.UserNotFound | backend/src/resolvers.js:323 | the message `User with ID ${userId} not found` thrown by assignEmployeeToUser and updateUserRole (also line 341); no contract |
| Resolvers.RequireAuth | backend/src/resolvers.js:7-10 | passes exactly a present user, else the "You must be logged in" authentication error |
| Resolvers.RequireRole | backend/src/resolvers.js:13-18 | passes exactly what checkRole accepts, else the permission error |
| Resolvers.AdminGuard | backend/src/resolvers.js:179-181 | the guard pair passes iff there is a user and it is an ADMIN, with the authentication error for no user and the permission error for a non-admin |
| Resolvers.ListArgs.Page | backend/src/resolvers.js:53 | the default `page = 1` for an absent argument; no contract |
| Resolvers.ListArgs.Limit | backend/src/resolvers.js:53 | the default `limit = 10`; no contract |
| Resolvers.ListArgs.SortBy | backend/src/resolvers.js:53 | the default `sortBy = 'name'`; no contract |
| Resolvers.ListArgs.SortOrder | backend/src/resolvers.js:53 | the default `sortOrder = 'asc'`; no contract |
| Resolvers.ValidListArgs | backend/src/resolvers.js:91-96 | the invariant ListQuery and ComputePage require: page and limit at least 1, where the division and the skip are defined; no contract |
| Resolvers.FieldName | backend/src/resolvers.js:79 | every sort field maps into the allow-list |
| Resolvers.SafeSortField | backend/src/resolvers.js:78-81 | a listed sortBy is kept; anything else becomes name |
| Resolvers.SafeSortFieldRoundTrip | backend/src/resolvers.js:79-81 | the allow-list keeps each of its own entries |
| Resolvers.SortDirection | backend/src/resolvers.js:84 | -1 iff the order is exactly "desc", 1 otherwise |
| Resolvers.FilterText | backend/src/resolvers.js:68 | `filterName \|\| ''`: empty iff absent or empty, else the filter itself |
| Resolvers.EmployeeKey | backend/src/resolvers.js:142 | the single-employee key is "employee_" followed by the id |
| Resolvers.ListKey | backend/src/resolvers.js:68 | the listing key starts with the printed page and never with "employee_", so the two kinds of key cannot collide |
| Resolvers.ListKeyNotInjective | backend/src/resolvers.js:68 | an order "desc" with filter "a_" and an order "desc_a" without a filter share one key |
| Resolvers.CeilDiv | backend/src/resolvers.js:91 | `Math.ceil(a / b)`: the least q with q * b >= a; zero iff a is zero |
| Resolvers.MulMono | backend/src/resolvers.js:91-96 | helper of the page arithmetic: multiplying by a non-negative limit keeps the order |
| Resolvers.Paging | backend/src/resolvers.js:111-120 | totalCount is the count; totalPages is its ceiling quotient by the limit (zero iff there are no items); hasNextPage iff page * limit < totalCount; hasPreviousPage iff page > 1; currentPage is the page |
| Resolvers.BeforeLastPage | backend/src/resolvers.js:91-114 | page < totalPages iff page * limit < totalCount |
| Resolvers.Skip | backend/src/resolvers.js:96 | the skip is (page - 1) * limit, never negative |
| Resolvers.Min | backend/src/resolvers.js:97 | helper of Window: `.limit(limit)` shows at most the remaining items; no contract |
| Resolvers.Window | backend/src/resolvers.js:96-97 | at most limit items, the ones at positions skip, skip+1, … of the ordered result, empty past the end |
| Resolvers.WindowEntry | backend/src/resolvers.js:96-97 | helper of ItemOnItsPage: entry r of the window is item skip + r of the ordered result |
| Resolvers.IndexSplit | backend/src/resolvers.js:96 | helper of ItemOnItsPage: index j is the skip of page j / limit + 1 plus the offset j % limit |
| Resolvers.ItemOnItsPage | backend/src/resolvers.js:91-97 | every item of the ordered result is shown on page j / limit + 1, within the page count, at position j % limit; with PageOfIndex, on that page only |
| Resolvers.PageOfIndex | backend/src/resolvers.js:96 | item j lies in the skip range of page q exactly when q is j / limit + 1, so it is shown on that page and no other |
| Resolvers.Matching | backend/src/resolvers.js:87 | an empty or absent filter selects all employees, otherwise exactly those whose name matches |
| Resolvers.ComputePage | backend/src/resolvers.js:79-120 | totalCount is the number of matches; totalPages is their ceiling quotient; the page holds the window of the sorted matches; hasNextPage iff page * limit < totalCount; hasPreviousPage iff page > 1; currentPage is the page |
| Resolvers.SortFieldInjectionResistance | backend/src/resolvers.js:78-81 | on the storage path, a sort field outside the allow-list computes exactly the page "name" computes (the cache key keeps the raw field, so the two listings are cached under separate keys) |
| Resolvers.ListQuery | backend/src/resolvers.js:53-130 | a fresh hit answers the cached page without touching the cache; a miss computes the page and stores it under the key; the cache stays well typed |
| Resolvers.ListHitIgnoresStorage | backend/src/resolvers.js:69-74 | on a hit, neither the store nor the filter nor the order affects the answer |
| Resolvers.RepeatedListingWithinTtl | backend/src/resolvers.js:68-123 | a listing repeated within 60000 ms of the store is answered identically, even if storage changed |
| Resolvers.StaleListingRecomputed | backend/src/resolvers.js:68-123 | more than 60000 ms after the store, the listing reflects the current storage |
| Resolvers.CacheTyped | backend/src/resolvers.js:68-142 | the cache invariant: employees sit exactly under `employee_` keys, each under its own id's key, and listing pages under the other keys; no contract |
| Resolvers.EmployeeKeyInjective | backend/src/resolvers.js:142 | distinct ids give distinct `employee_${id}` keys |
| Resolvers.EmployeeQuery | backend/src/resolvers.js:133-170 | a fresh hit answers the cached employee without touching the cache; otherwise the stored record, which is then cached under employee_<id>, or None when there is none; any answer has the requested id |
| Resolvers.ListingAfterWriteIsFresh | backend/src/resolvers.js:229-231 | after a mutation has emptied the cache, the next listing is computed from storage |
| Resolvers.UniqueUsers | backend/src/auth.js:7-11 | the invariant of the `unique: true` indexes: ids, usernames and emails are each distinct among stored users; no contract |
| Resolvers.FindByUsername | backend/src/resolvers.js:256 | a match is a stored user with that username; None only when no user has it |
| Resolvers.FindOwnUsername | backend/src/resolvers.js:256 | with unique usernames, looking up a stored user's username finds that user |
| Resolvers.Login | backend/src/resolvers.js:255-274 | every failure is the single "Invalid username or password" error; success is a stored user with that username whose digest verifies, with a token signed for its id; an unknown username fails |
| Resolvers.LoginExactly | backend/src/resolvers.js:255-274 | with unique usernames, login succeeds iff some stored user has the username and a matching digest |
| Resolvers.UsersWithRole | backend/src/resolvers.js:183-184 | the users with the requested role, or all users when none is given |
| Resolvers.ListUsers | backend/src/resolvers.js:179-185 | `Query.users` succeeds exactly for an admin caller, with the guard's error otherwise, and returns the users with the role |
| Resolvers.UserIndex | backend/src/resolvers.js:316-324 | the position of the user with that id, or None only when no user has it |
| Resolvers.ReplaceKeepsUnique | backend/src/resolvers.js:316-338 | updating a user's link or role keeps ids, usernames and emails unique |
| Resolvers.LoginAfterRegister | backend/src/resolvers.js:255-309 | a user just registered (stored with the digest of the password) can log in with that password |
| Resolvers.Keyed | backend/src/resolvers.js:152-157 | the invariant that `findById` finds an employee whose id is the one looked up; no contract |
| Resolvers.NewEmployee | backend/src/resolvers.js:195 | the created record has the new id, the given name, age, class and attendance, the given subjects or an empty list, and creation and update times equal to now |
| Resolvers.ApplyUpdate | backend/src/resolvers.js:212-216 | the given fields replace the old ones, absent ones are kept, id and createdAt never change, updatedAt becomes now |
| Resolvers.Api.constructor | backend/src/resolvers.js:21-22 | no employees, no users, an empty cache |
| Resolvers.Api.Valid | backend/src/resolvers.js:21-48 | the class invariant: CacheTyped of the cache, Keyed employees and UniqueUsers; no contract |
| Resolvers.Api.Employees | backend/src/resolvers.js:53-130 | the answer and the new cache are exactly ListQuery of the old cache; the invariants are kept |
| Resolvers.Api.EmployeeById | backend/src/resolvers.js:133-170 | the answer and the new cache are exactly EmployeeQuery of the old cache, and any answer has the requested id |
| Resolvers.Api.LinkedEmployee | backend/src/resolvers.js:349-353 | `User.employee`: None without a link; with a link, exactly the stored employee with that id, or None when there is none |
| Resolvers.Api.AddEmployee | backend/src/resolvers.js:190-204 | a non-admin caller gets the guard error and nothing changes; otherwise the new record is stored and the cache is emptied |
| Resolvers.Api.UpdateEmployee | backend/src/resolvers.js:207-234 | guard error with no change; for an unknown id the not-found error is raised before any invalidation; otherwise the updated record is stored and the cache is emptied |
| Resolvers.Api.DeleteEmployee | backend/src/resolvers.js:237-252 | guard error with no change; for an unknown id the not-found error with no change; otherwise the record is removed, the cache is emptied and the answer is true |
| Resolvers.Api.Register | backend/src/resolvers.js:277-309 | an ADMIN account without an admin caller is refused; a used username or email is refused; otherwise the user is stored with the hashed password and the role defaulting to EMPLOYEE, and gets a token; it fails iff one of the two conditions holds |
| Resolvers.Api.AssignEmployeeToUser | backend/src/resolvers.js:312-327 | guard error or not-found error with no change; otherwise exactly that user's employeeId is set |
| Resolvers.Api.UpdateUserRole | backend/src/resolvers.js:330-345 | guard error or not-found error with no change; otherwise exactly that user's role changes, and the stored digest is untouched |
| Server.Prior | backend/src/server.js:36 | `this.requests.get(ip)`: the IP's window, or None when it has none; no contract |
| Server.Record | backend/src/server.js:34-46 | definition of the map after one request: the IP's window becomes NextWindow of its prior window, other IPs unchanged; Burst and WindowResets are stated with it; no contract |
| Server.Replay | backend/src/server.js:34-46 | definition of the map after a sequence of requests from one IP, one Record per request in order; Burst is stated with it; no contract |
| Server.NextWindow | backend/src/server.js:36-44 | an unseen IP or a window older than 60000 ms restarts at count 1 and now; inside the window the count grows by 1 and the start stays |
| Server.Burst | backend/src/server.js:34-48 | requests from an unseen IP within one window leave count equal to the number of requests and the window start at the first; other IPs are untouched |
| Server.WindowResets | backend/src/server.js:38-41 | after the reset time the count restarts at 1, under the limit |
| Server.RateLimiter.constructor | backend/src/server.js:30 | no IP has been seen |
| Server.RateLimiter.IsRateLimited | backend/src/server.js:34-48 | the IP's window is advanced as NextWindow says; the answer is true iff the new count exceeds 1000; no other IP's entry changes |
| Server.RateLimiter.Middleware | backend/src/server.js:51-69 | a limited request fails with the rate-limit error without running the resolver; a result or an error mentioning "Rate limit" is passed on after one run; any other error runs the resolver a second time |
| Server.RateLimitErrorIsRethrown | backend/src/server.js:58-64 | the middleware's own error mentions "Rate limit", so it is re-thrown |
| Server.ClientIp | backend/src/server.js:54 | the request IP when present and non-empty, else "127.0.0.1" |
| Server.FormatError | backend/src/server.js:125-134 | an INTERNAL_SERVER_ERROR becomes "Internal server error"; every other error is returned unchanged |
| Server.FormatErrorIdempotent | backend/src/server.js:125-134 | formatting twice is formatting once |
| Server.ToGql | backend/src/resolvers.js:8-15 | an error keeps its message; the code is UNAUTHENTICATED exactly for authentication errors, FORBIDDEN exactly for permission errors and INTERNAL_SERVER_ERROR exactly for plain errors |
| Server.RateLimitMasked | backend/src/server.js:58 | the middleware's rate-limit error, a plain error, reaches the client as "Internal server error" and not as its own message |
| Server.WhatClientsSee | backend/src/server.js:125-134 | clients see the message of authentication and permission errors, and "Internal server error" for every plain error |
| HorizontalMenu.Tabs | frontend/src/components/HorizontalMenu.jsx:53-71 | the two tab tables, admin (six tabs) and employee (five, no "reports"), in position order; no contract |
| HorizontalMenu.TabIndex | frontend/src/components/HorizontalMenu.jsx:27-37 | null only for an employee's "reports" tab; an unknown name gives 0; any index is one of the role's tabs |
| HorizontalMenu.TabName | frontend/src/components/HorizontalMenu.jsx:46-72 | always one of the role's tabs; an index outside the table gives "dashboard" |
| HorizontalMenu.IndexNameRoundTrip | frontend/src/components/HorizontalMenu.jsx:27-72 | every index of the role's table names that tab, and the name maps back to the index |
| HorizontalMenu.NameIndexRoundTrip | frontend/src/components/HorizontalMenu.jsx:27-72 | every tab of the role maps to an index that names it again |
| HorizontalMenu.EmployeePositionsShift | frontend/src/components/HorizontalMenu.jsx:32-34 | for the tabs after "reports", an employee's index is the admin index minus one |
| GridView.QueryVariables | frontend/src/components/GridView.jsx:91-100 | sends page + 1 (at least 1 for page >= 0) and the other fields as they are; an empty filter is not sent |
| GridView.AsListArgs | frontend/src/components/GridView.jsx:91-100 | how the query variables arrive as the listing resolver's arguments, each one given; VariablesReachResolver is stated with it; no contract |
| GridView.VariablesReachResolver | frontend/src/components/GridView.jsx:91-100 | the variables give the resolver a valid page and limit and the view's 1-based page |
| GridView.ToggleSort | frontend/src/components/GridView.jsx:103-107 | the column becomes the clicked one; the order is "desc" iff that column was already ascending, otherwise "asc" |
| GridView.ToggleAlternates | frontend/src/components/GridView.jsx:103-107 | further clicks on the same column alternate between the two orders |
| GridView.TwoClicksFromAscending | frontend/src/components/GridView.jsx:103-107 | a new column starts ascending, and two clicks from ascending return to it |
| GridView.ToggledDirectionReachesResolver | frontend/src/components/GridView.jsx:103-107 | the resolver sorts descending iff the click was on the already-ascending column |
| GridView.GridViewState.constructor | frontend/src/components/GridView.jsx:72-77 | page 0, 10 rows, by name ascending, no filter, empty search box |
| GridView.GridViewState.Variables | frontend/src/components/GridView.jsx:91-100 | the query variables of the current state |
| GridView.GridViewState.SetSearchInput | frontend/src/components/GridView.jsx:254 | typing changes only the search text |
| GridView.GridViewState.HandleSort | frontend/src/components/GridView.jsx:103-107 | the column and order change as ToggleSort says, nothing else |
| GridView.GridViewState.HandleSearch | frontend/src/components/GridView.jsx:110-114 | the filter becomes the search text and the page 0 |
| GridView.GridViewState.HandleChangePage | frontend/src/components/GridView.jsx:117-119 | only the page changes |
| GridView.GridViewState.HandleChangeRowsPerPage | frontend/src/components/GridView.jsx:122-125 | the rows per page change and the page returns to 0 |
| TileView.QueryVariables | frontend/src/components/TileView.jsx:105-114 | the card view sends its 1-based page unchanged; an empty filter is not sent |
| TileView.TileViewState.constructor | frontend/src/components/TileView.jsx:94-99 | page 1, 12 cards, by name ascending, no filter, empty search box |
| TileView.TileViewState.Variables | frontend/src/components/TileView.jsx:105-114 | the query variables of the current state |
| TileView.TileViewState.SetSearchInput | frontend/src/components/TileView.jsx:230 | typing changes only the search text |
| TileView.TileViewState.HandleSearch | frontend/src/components/TileView.jsx:117-121 | the filter becomes the search text and the page 1 |
| TileView.TileViewState.HandlePageChange | frontend/src/components/TileView.jsx:124-126 | only the page changes |
| TileView.SubjectChips | frontend/src/components/TileView.jsx:365-386 | at most three chips, the first three subjects in order; an overflow chip "+(n-3)" iff there are more than three |
| TileView.CountedSubjects | frontend/src/components/TileView.jsx:382 | the number of subjects a chip row stands for: the chips shown plus the number on the `+n` chip; ChipsAccountForAll is stated with it; no contract |
| TileView.ChipsAccountForAll | frontend/src/components/TileView.jsx:371-383 | the shown chips plus the number on the overflow chip add up to all subjects |
| Avatar.CodeSum | frontend/src/components/TileView.jsx:74 | definition of the `reduce` over `charCodeAt`; CodeSumAppend and CodeSumIgnoresOrder state its properties; no contract |
| Avatar.AvatarColor | frontend/src/components/TileView.jsx:67-77 | always a palette entry, the one at the character-code sum mod 8; the empty name gets the first |
| Avatar.CodeSumAppend | frontend/src/components/TileView.jsx:74 | the code sum of a concatenation is the sum of the code sums |
| Avatar.CodeSumIgnoresOrder | frontend/src/components/TileView.jsx:74 | the code sum depends only on the multiset of characters |
| Avatar.ColorIgnoresOrder | frontend/src/components/TileView.jsx:74-76 | any rearrangement of a name gets the same colour |
| Avatar.HeadChars | frontend/src/components/TileView.jsx:82-84 | `map(part => part[0]).join('')` yields at most one character per part |
| Avatar.HeadCharsOfSplit | frontend/src/components/TileView.jsx:81-84 | splitting on spaces and taking first characters picks exactly the non-space characters at the start of a word, in order |
| Avatar.WordStarts | frontend/src/components/TileView.jsx:80-87 | the independent reference for HeadChars of Split: the non-space characters that follow a space or the start; no contract |
| Avatar.WordStartsNoSpace | frontend/src/components/TileView.jsx:82 | a space-free part contributes its first character, if any, after a space |
| Avatar.WordStartsAcrossSpace | frontend/src/components/TileView.jsx:82 | WordStarts splits at a space into the word starts of each side |
| Avatar.Initials | frontend/src/components/TileView.jsx:80-87 | at most two characters, no lower-case ASCII letter, which are the upper-cased first two word starts of the name |
| EmployeeDetail.Clamp | frontend/src/components/EmployeeDetail.jsx:72 | `max(min(x, 100), 75)` lies in [75, 100] and is x when x already does |
| EmployeeDetail.AttendanceData | frontend/src/components/EmployeeDetail.jsx:68-74 | six points labelled Jan to Jun in order, each the base plus that month's jitter, clamped to [75, 100]; a null base counts as 0 |
| EmployeeDetail.MidRangeUnclamped | frontend/src/components/EmployeeDetail.jsx:72 | a base between 80 and 95 with jitter in [-5, 5) is never clamped |
| EmployeeDetail.DisplayedEmployee | frontend/src/components/EmployeeDetail.jsx:89 | the fetched record when there is one, else the record passed in |

## Left out

- **Database.** MongoDB and Mongoose I/O, connection setup and ObjectId
  casting are not modelled. Storage is an in-memory map of employees and a
  sequence of users, and fresh ids are inputs. `models.js`, `seed.js` and
  `debug.js` are not part of this model, except that `Employee` follows the
  employee schema's fields.
- **Mongoose validation and uniqueness.** Mongoose checks required fields and
  unique indexes; the model does not. `Resolvers.Api.AddEmployee` requires a
  name, because the GraphQL schema
  (`addEmployee(name: String!, …)`, backend/src/schema.js:59) rejects a
  request without one before the resolver runs. `Resolvers.Api.Register`
  and `Resolvers.Api.AddEmployee` require a fresh id.
- **Name filter.** The filter is a case-insensitive regular expression; the
  model uses an abstract predicate `matches`.
- Resolvers.ListQuery: assumes every name filter compiles as a regular
  expression. For an invalid pattern such as "(", `new RegExp` throws
  (backend/src/resolvers.js:87), the error is rethrown (line 128) and the
  client sees "Internal server error"; that failure outcome is not modelled.
- **User timestamps.** The user schema has `timestamps: true`
  (backend/src/auth.js:14), so Mongoose keeps `createdAt` and `updatedAt`
  on users. `User` has no timestamps, so `Resolvers.Api.AssignEmployeeToUser`
  and `Resolvers.Api.UpdateUserRole` do not bump an `updatedAt`. Employee
  timestamps are modelled.
- Resolvers.ComputePage: the database sort is the abstract `arrange`. The
  model does not promise that its result is a permutation of the matching
  employees or that it is ordered by the field and direction.
- **Hashing and tokens.** bcrypt hashing and compare, and JWT signing,
  verification and the 7-day expiry, are foreign libraries. They enter as
  the function parameters `hash`, `compare`, `sign` and `verify`. A thrown
  verification is `verify` returning None.
- **Clock.** `Date.now()` is a `now` parameter, read once per resolver call.
- **Concurrency.** The interleaving of concurrent async requests is not
  modelled; each operation is atomic.
- **Logging.** All `console.*` calls are omitted.
- **Server plumbing.** This covers the Express and Apollo setup, CORS,
  helmet, compression, the performance plugin and the start-up code.
- **`if (!context)` check.** The Apollo context always exists, so this
  check in the employees query is omitted.
- Server.ToGql: Apollo assigns the error codes, not code in this
  repository: UNAUTHENTICATED and FORBIDDEN for its own error classes, and
  INTERNAL_SERVER_ERROR for a plain `Error`. `ToGql` encodes that convention.
- Resolvers.ListQuery: requires page >= 1 and limit >= 1. For a zero or
  negative limit, or a page below 1, the source's arithmetic (a division by
  zero, a negative skip) falls to JavaScript floating point and database
  behaviour, which is not modelled.
- Resolvers.ComputePage: requires page >= 1 and limit >= 1, for the same
  reason.
- Resolvers.Api.Employees: requires page >= 1 and limit >= 1, for the same
  reason.
- **Explicit GraphQL nulls.** An argument passed as an explicit null (rather
  than left out) is not distinguished from an absent one.
- Strings.Upper: upper-cases ASCII letters only. JavaScript's `toUpperCase`
  also maps other letters, and can change the length (for example, 'ß'
  becomes "SS").
- Avatar.AvatarColor: characters are Dafny chars, not UTF-16 code units. A
  name outside the Basic Multilingual Plane sums its code points, not its
  surrogates.
- Avatar.Initials: `part[0]` takes one UTF-16 code unit, which for a letter
  outside the Basic Multilingual Plane is half a surrogate pair; the model
  takes one whole Dafny char.
- GridView.GridViewState.HandleChangeRowsPerPage: takes the already-parsed
  integer; `parseInt` of the select's value is not modelled.
- EmployeeDetail.AttendanceData: values are reals, not IEEE doubles, and
  `Math.random` is the `jitter` input. Only a null base (treated as 0) is
  covered; an undefined base, which would give NaN, is not modelled.
- **Other floating-point code.** This covers the attendance colour
  thresholds, `getPerformanceScore`, date formatting and `Math.round` in the
  chart.
- **Rendering.** JSX rendering, dialogs, menus and theming are omitted. So
  are the other components (`HamburgerMenu.jsx`, `Login.jsx`, `App.js`) and
  the client auth context.
- **Delete and edit flows in the views.** These flows in `GridView.jsx` and
  `TileView.jsx` only call the mutations modelled above, so they are
  omitted.
- **`Query.me`.** It is `Resolvers.RequireAuth` followed by returning the
  user, so it has no member of its own.
- **`generateToken`.** It is the `sign` parameter.
