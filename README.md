# splash_api core in Dafny

splash_api is an Express/Prisma service for monitoring water channels. Admins
own channels. Managers run them. Plumbers are assigned to fix their leak
issues. This project models the parts of the service that hold real logic:

- **Aggregation folds**:
  - the manager analytics handler: per-page channel counters, the solve-time average and pagination;
  - the admin analytics handler: global and per-channel issue counters kept side by side;
  - the nightly report job: one `dailyReport` per admin, with counters reset for each admin.
- **Auth gates**:
  - the `verifyToken` and `authenticateUser` middlewares, which map an `Authorization` header to 401/400/403 or to "next with `req.user` set";
  - the `isAdmin`/`isPlumber` role guards;
  - the payloads of the access and refresh tokens.
- **Login and registration**: admin-first role resolution, a uniform error for an unknown email and for a wrong password, and hashed storage.
- **Manager routes**: creation with field validation and email uniqueness, the hash-free listing, and a manager's channel list behind a 404 check.

How the model is built:

- **Tables.** Database tables are sequences of rows. `findMany({ where })` is the `Where` filter, which keeps table order. `findUnique` is `FindFirst`.
- **Crypto.** `jwt.verify` is a parameter `verify: string -> Option<Claims>`. `jwt.sign` is kept as the value it signs: payload, secret and lifetime. `bcrypt.hash` is a parameter `hash`, and `bcrypt.compare(p, stored)` is `hash(p) == stored`.
- **Stateful code.** The loop-based handlers are methods whose loops carry invariants. Each is proved against a specification function: `Tally`, `Fold` over `Flatten`, `StatsAll`, `ReportOf` and `ReportsFor`. What the code promises is proved about those functions as lemmas.
- **Request and tables.** The request object (`Request`), the report table (`ReportStore`) and the manager table (`ManagerTable`) are classes whose methods update their fields.

Modules:

| module | file | models |
|---|---|---|
| `Wrappers` | wrappers.dfy | `Option` |
| `Http` | http.dfy | replies, the request object, `String.prototype.split` on one character |
| `Store` | store.dfy | rows, `where` filters, the per-issue fold, hours, the guarded average |
| `Pagination` | pagination.dfy | `page`/`limit` defaults, `skip`/`take`, `Math.ceil(total / limit)` |
| `ManagerController` | manager_controller.dfy | src/controllers/managerController.js |
| `AnalyticsController` | analytics_controller.dfy | src/controllers/analyticsController.js |
| `ReportService` | report_service.dfy | src/services/reportService.js |
| `AuthMiddleware` | auth_middleware.dfy | src/middlewares/authMiddleware.js |
| `Auth` | auth.dfy | src/middlewares/auth.js |
| `AuthController` | auth_controller.dfy | src/controllers/authController.js |
| `AdminRoutes` | admin_routes.dfy | src/routes/adminRoutes.js |

Behaviour of the code worth knowing before reading the model:

- **Bare token.** Both middlewares verify `header.split(" ")[1]`, so a bare token without a scheme is never verified: `verifyToken` answers 400 and `authenticateUser` answers 401 (`Auth.SchemelessHeader`).
- **Invalid token status.** A token that does not verify gets 400 from `verifyToken` and 403 from `authenticateUser`.
- **Login.** `loginUser` looks up admins, then plumbers, and issues one token `{id, email, role}` signed with `JWT_SECRET`, valid for a day.
- **Plumber's manager.** `registerPlumber` does not pass `managerId` to the store, although the route documentation lists it as required. A registered plumber has no manager.

## Model

| member | source | states |
|---|---|---|
| Http.Split | src/middlewares/authMiddleware.js:8 | `split(" ")` yields at least one piece, no piece contains the separator, and there is exactly one piece iff the header has no separator |
| Http.JoinSplit | src/middlewares/authMiddleware.js:8 | splitting loses nothing: joining the pieces with the separator gives the header back |
| Http.NoSpaceNoPiece | src/middlewares/authMiddleware.js:8 | `split(" ")[1]` is undefined exactly when the header contains no space |
| Http.SecondPiece | src/middlewares/authMiddleware.js:8 | `split(" ")[1]` exists iff the header has a space; it is the space-free text after the first space, up to the next space or the end |
| Http.SchemeTokenPiece | src/middlewares/auth.js:25 | for `"<scheme> <token>"` with no space in either part, `split(" ")[1]` is the token |
| Store.WhereMembers | src/routes/adminRoutes.js:143-144 | a `findMany({ where })` row is selected iff it is in the table and satisfies the filter |
| Store.WhereAppend | src/services/reportService.js:14-17 | filtering distributes over concatenation, so selected rows keep table order |
| Store.FindFirst | src/controllers/authController.js:44-45 | `findUnique` returns a table row that matches, and nothing iff no row matches |
| Store.FindFirstAppend | src/routes/adminRoutes.js:253-270 | a row appended to a table is found by its key iff no earlier row has that key |
| Store.ManagedByMembers | src/routes/adminRoutes.js:143-144 | a manager's channels are exactly the table's channels whose managerId is that manager |
| Store.WholeHours | src/services/reportService.js:29 | moment's `diff(..., "hours")` is the elapsed time in whole hours truncated toward zero, for both signs |
| Store.HoursBracketWholeHours | src/controllers/analyticsController.js:36 | the fractional hours times the milliseconds per hour give the elapsed time back, and they lie within one hour of the truncated whole hours, for both signs |
| Store.Fold | src/controllers/analyticsController.js:30-48 | after the per-issue pass, issues counted = length and solved + unsolved = issues counted |
| Store.FoldAppend | src/controllers/analyticsController.js:23-48 | the counters over a concatenation of issue lists are the sums of the counters of each list |
| Store.SolvedAreStatusSolved | src/controllers/analyticsController.js:33-44 | an issue counts as solved iff its status is "solved"; the counts equal the sizes of the two status filters |
| Store.Average | src/controllers/analyticsController.js:59 | the average is 0 when nothing is resolved, and otherwise average × count = total |
| Pagination.DefaultWindow | src/controllers/managerController.js:13-27 | with no `page` and `limit`, the store is asked for skip 0, take 10 |
| Pagination.PageWindow | src/controllers/managerController.js:26-27 | `take` is the limit, page 1 starts at row 0, and with a positive limit `skip` is non-negative iff the page is at least 1 |
| Pagination.PagesAdjacent | src/controllers/managerController.js:26-27 | each page starts where the previous one ends |
| Pagination.FloorDiv | src/controllers/managerController.js:79 | floor division characterised by its bounds for positive and negative divisors |
| Pagination.CeilDiv | src/controllers/managerController.js:79 | `Math.ceil(x / d)` characterised by its bounds for positive and negative divisors |
| Pagination.TotalPages | src/controllers/managerController.js:76-80 | totalPages is null iff limit is 0; with a positive limit it is non-negative and 0 iff there are no items |
| Pagination.PageHasRowsIff | src/controllers/managerController.js:26-80 | with a positive limit, page p has rows iff p <= totalPages |
| Pagination.RowOnPage | src/controllers/managerController.js:26-80 | every row k lies on page k / limit + 1, and that page is within totalPages |
| Pagination.Slice | src/controllers/managerController.js:16-28 | a window selects consecutive rows from `skip`, at most `take` of them, fewer only at the table's end; a negative skip or take fails |
| ManagerController.Tally | src/controllers/managerController.js:33-53 | solvedChannels + unsolvedChannels equals the number of channels folded |
| ManagerController.TallyByKey | src/controllers/managerController.js:40-53 | the accumulators depend only on each channel's solved flag, defaulted waterLost and (for solved channels) defaulted solveTime |
| ManagerController.SolvedIffStatus | src/controllers/managerController.js:41-51 | solvedChannels counts exactly the channels with status "solved", unsolvedChannels every other status |
| ManagerController.MissingWaterLostIsZero | src/controllers/managerController.js:42-53 | a missing waterLost adds the same as 0 |
| ManagerController.UnsolvedSolveTimeIgnored | src/controllers/managerController.js:43-48 | the solveTime of an unsolved channel does not reach the totals |
| ManagerController.MapChannels | src/controllers/managerController.js:33-65 | the `map` callback over the page leaves the accumulators equal to `Tally` of the page, resolvedCount equal to solvedChannels, and one row per channel in order |
| ManagerController.GetAnalytics | src/controllers/managerController.js:10-87 | Ok iff the page window is valid; the reply's counters, water lost and guarded average are those of `Tally` over the fetched page; channelData has one row per channel in order, with plumber null when absent; pagination carries page, limit, totalPages and the manager's channel count |
| ManagerController.ViewAll | src/controllers/managerController.js:99-114 | one selected view per plumber, in order |
| ManagerController.GetPlumbers | src/controllers/managerController.js:94-134 | Ok iff the window is valid; the reply holds at most `limit` plumbers, fewer only when the manager's plumbers run out, each the view of the plumber at skip + k among the manager's plumbers; pagination is over the manager's plumber count |
| AnalyticsController.StatsOf | src/controllers/analyticsController.js:24-56 | a channel's solved + unsolved equals its number of issues, and its average is 0 when none is solved |
| AnalyticsController.StatsAll | src/controllers/analyticsController.js:23-57 | channelData has exactly one entry per channel, in order |
| AnalyticsController.ForEachIssue | src/controllers/analyticsController.js:24-48 | over one channel's issues, the channel counters end equal to the fold of those issues, its resolved count equals its solved count, and each global counter grows by exactly the channel's amount |
| AnalyticsController.GetAnalytics | src/controllers/analyticsController.js:6-73 | channelData is `StatsAll` of the admin's channels; totalIssues = solved + unsolved = the number of their issues; counters, water lost and guarded average equal the fold over all those issues |
| AnalyticsController.ChannelsAddUp | src/controllers/analyticsController.js:30-57 | global solved, unsolved and waterLost are the sums of the per-channel values |
| AnalyticsController.ReplyAddsUp | src/controllers/analyticsController.js:59-68 | in the reply, the global counters equal the sums over its own channelData |
| ReportService.ReportOf | src/services/reportService.js:19-48 | a report names its admin, solved + unsolved equals the issues of the admin's channels, and the average is 0 when nothing is solved |
| ReportService.ReportsFor | src/services/reportService.js:13-49 | one report per admin, in the order the admins are listed |
| ReportService.ReportIgnoresOtherAdmins | src/services/reportService.js:14-23 | channels of other admins, before or after in the table, do not change an admin's report |
| ReportService.CountAdmin | src/services/reportService.js:19-39 | the nested loops for one admin compute exactly `ReportOf` over that admin's channels |
| ReportService.Completed | src/services/reportService.js:13-55 | the number of admins served: all of them when nothing fails, exactly the k admins before a failure at admin k, and never more than the table holds |
| ReportService.ReportStore.GenerateDailyReport | src/services/reportService.js:7-56 | the report table becomes its old contents plus one report per admin served, in admin order; a failure stops the remaining admins and keeps the reports already appended |
| AuthMiddleware.VerifyTokenGate | src/middlewares/authMiddleware.js:3-13 | 401 "Access denied!" iff the header is absent or empty; 400 "Invalid token!" iff the second piece does not verify (including a header without a space); otherwise admitted with the verified payload |
| AuthMiddleware.BearerAdmitted | src/middlewares/authMiddleware.js:8-9 | `"Bearer <token>"` with a verifying token is admitted with that token's payload |
| AuthMiddleware.VerifyToken | src/middlewares/authMiddleware.js:3-13 | on refusal the reply is sent, `req.user` is unchanged and `next` is not called; on success `req.user` is the payload and `next` is called exactly once |
| AuthMiddleware.RoleGuard | src/middlewares/authMiddleware.js:15-23 | the guard passes iff the user's role equals the required role exactly, otherwise 403 "Access forbidden!"; with no user it throws |
| AuthMiddleware.IsAdmin | src/middlewares/authMiddleware.js:15-18 | passes iff `req.user.role` is exactly "admin", throws when there is no user, and refuses with 403 "Access forbidden!" otherwise |
| AuthMiddleware.IsPlumber | src/middlewares/authMiddleware.js:20-23 | passes iff `req.user.role` is exactly "plumber", throws when there is no user, and refuses with 403 "Access forbidden!" otherwise |
| AuthMiddleware.GuardsExclusive | src/middlewares/authMiddleware.js:15-23 | no payload passes both `isAdmin` and `isPlumber` |
| AuthMiddleware.AdmittedThenGuarded | src/middlewares/authMiddleware.js:8-18 | after `verifyToken` admits, `isAdmin` never throws and passes iff the payload's role is "admin" |
| Auth.VerifyWith | src/middlewares/auth.js:28-29 | a token verifies against a secret iff it was signed with it, and then yields its payload |
| Auth.GenerateAccessToken | src/middlewares/auth.js:6-12 | the access payload is exactly {id, role}, signed with JWT_SECRET, expiring in "1h" |
| Auth.GenerateRefreshToken | src/middlewares/auth.js:15-21 | the refresh payload is exactly {id}, signed with REFRESH_TOKEN_SECRET, expiring in "7d" |
| Auth.AccessTokenRoundTrip | src/middlewares/auth.js:6-12 | an access token verifies with JWT_SECRET to {id, role} and not with the refresh secret |
| Auth.RefreshTokenRefused | src/middlewares/auth.js:15-21 | a refresh token does not verify with JWT_SECRET, and its payload has no role |
| Auth.BearerToken | src/middlewares/auth.js:25-26 | the token is `split(" ")[1]`, present iff the header exists and has a non-empty second piece; it is space-free and exists only when the header has a space |
| Auth.AuthenticateGate | src/middlewares/auth.js:24-33 | 401 "Unauthorized" iff there is no non-empty second piece; 403 "Invalid token" iff it does not verify; no other refusal, and an admission carries the verified payload |
| Auth.AuthenticateUser | src/middlewares/auth.js:24-33 | on refusal the reply is sent and `req.user` and `next` are untouched; on success `req.user` is the payload and `next` is called once |
| Auth.SameAdmissions | src/middlewares/auth.js:24-33 | `authenticateUser` and `verifyToken` admit the same headers with the same user |
| Auth.SchemelessHeader | src/middlewares/auth.js:25-26 | a non-empty header with no space gets 401 from `authenticateUser` but 400 from `verifyToken` |
| Auth.AccessTokenAdmitted | src/middlewares/auth.js:6-12 | `"Bearer " + <access token>` passes `verifyToken` with {id, role} and then `isAdmin` iff the role is "admin"; a refresh token in the same header is refused with 400 |
| AuthController.RegisterAdmin | src/controllers/authController.js:8-21 | 201 iff password and email are present and the email is free; the table gains exactly the new admin with `hash(password)` as its password; otherwise 500 "Error registering admin" and the table is unchanged; email uniqueness is kept |
| AuthController.AdminAppendKeepsUnique | src/controllers/authController.js:13-15 | appending an admin with a free email keeps admin emails unique |
| AuthController.RegisterPlumber | src/controllers/authController.js:24-37 | 201 iff password and email are present and the email is free; the table gains exactly the new plumber with the hashed password and no manager; otherwise 500 "Error registering plumber" and no change |
| AuthController.PlumberAppendKeepsUnique | src/controllers/authController.js:29-31 | appending a plumber with a free email keeps plumber emails unique |
| AuthController.AccountFor | src/controllers/authController.js:44-48 | an account exists iff an admin or a plumber has the email, and it is the admin's (role "admin") iff an admin has it |
| AuthController.LoginUser | src/controllers/authController.js:40-61 | logged in iff the email resolves and `hash(password)` equals the stored hash; 400 "Invalid email or password" iff the email is unknown or the password is wrong; 500 iff the email is missing or the password is missing for a known email; the token is {id, email, role} with JWT_SECRET and "1d", and the reply carries that role |
| AuthController.WrongPasswordLooksUnknown | src/controllers/authController.js:50-53 | a wrong password gets exactly the reply an unknown email gets |
| AuthController.AdminShadowsPlumber | src/controllers/authController.js:44-48 | when an admin has the email, the plumbers do not matter and a login has role "admin" |
| AuthController.RegisterAdminThenLogin | src/controllers/authController.js:8-58 | after a successful admin registration, logging in with the same email and password yields an admin token for the new row |
| AuthController.RegisterPlumberThenLogin | src/controllers/authController.js:24-58 | after a successful plumber registration, logging in yields a plumber token for the new row, provided no admin holds the email |
| AuthController.LoginTokenPassesGuards | src/controllers/authController.js:55-57 | a login token verifies with JWT_SECRET, and `isAdmin`/`isPlumber` pass exactly for admin/plumber logins |
| AdminRoutes.View | src/routes/adminRoutes.js:65-72 | the selected view keeps the manager's id and email |
| AdminRoutes.ViewHidesHash | src/routes/adminRoutes.js:65-72 | the view does not depend on the password hash |
| AdminRoutes.ListManagers | src/routes/adminRoutes.js:63-79 | one view per manager, in table order |
| AdminRoutes.ListingHidesHashes | src/routes/adminRoutes.js:65-74 | two tables that differ only in password hashes produce the same listing |
| AdminRoutes.ManagerChannels | src/routes/adminRoutes.js:131-160 | 404 "Manager not found" iff no manager has the id; otherwise exactly the channels whose managerId matches |
| AdminRoutes.NotFoundBeforeChannels | src/routes/adminRoutes.js:136-141 | an unknown manager gets 404 whatever the channel table holds |
| AdminRoutes.CreatedBodyAsWritten | src/routes/adminRoutes.js:272 | the 201 body as written is the created row, password hash included |
| AdminRoutes.CreatedBodyExposesHash | src/routes/adminRoutes.js:263-272 | the written 201 body distinguishes rows that differ only in their hash; the documented view does not |
| AdminRoutes.Complete | src/routes/adminRoutes.js:246-248 | the body passes the field check iff each of name, email, password and companyName is present and non-empty |
| AdminRoutes.ManagerTable.CreateManager | src/routes/adminRoutes.js:244-277 | a missing or empty field gives 400 with the table unchanged; a taken email gives 400 with the table unchanged; otherwise exactly one manager with `hash(password)` is appended, the reply is its view, the listing gains its view, and email uniqueness is kept |
| AdminRoutes.AppendKeepsUnique | src/routes/adminRoutes.js:253-270 | appending a manager with a free email keeps manager emails unique |
| AdminRoutes.ListingAppend | src/routes/adminRoutes.js:65-72 | the listing of a table with one more row is the old listing plus that row's view |
| AdminRoutes.CreatedIsFound | src/routes/adminRoutes.js:253-270 | after a create, looking up the new email finds the new row, so a second create with it is refused |

## Left out

- Prisma itself: tables are in-memory sequences. The store's internal ids and timestamps are parameters (`freshId`, `now`). Connection failures, timeouts and other database errors are not modelled, except the refusals listed under each member.
- Cryptography: `jwt.sign`, `jwt.verify`, `bcrypt.hash` and `bcrypt.compare` are abstract, so signatures, salts and constant-time comparison are not modelled. The hash is a deterministic function of the password, and the salt is ignored.
- Token expiry and the `iat`/`exp` claims that `jwt.verify` adds to the decoded payload. They are not modelled because there is no clock.
- Dates: the per-issue `solvedAt - createdAt` is the input `elapsedMs`. Date parsing and `moment` itself are not modelled. Only the fractional-hours division and the whole-hours truncation are.
- JavaScript numbers: counters are unbounded integers and water and times are `real`, so floating-point rounding is not modelled.
- Pagination.Slice: a negative `take`, which Prisma reads as paging backwards, is modelled as the handler's 500 branch rather than as a backwards page.
- Query strings: `page` and `limit` are integers or absent. Non-numeric strings, where `parseInt` gives NaN, are not modelled.
- AuthController.RegisterAdmin: the optional profile fields (`nationalId`, `location`, `companyName`, `companyEmail`, and the plumber's `nationalId`) and any schema-level requiredness of `name` are not modelled.
- The 201 replies of `registerAdmin` and `registerPlumber` echo the created row, hash included. They are modelled as status and message only.
- ReportService.ReportStore.GenerateDailyReport: an error thrown by the store is the parameter `failAt`, the index of the admin whose store call fails. The `console.log` lines and the cron schedule are not modelled.
- Error payloads: the `error` objects and `error.message` attached to 500 replies, and all `console.error` logging, are not modelled.
- socket.io rooms and notifications, `reportController.js` (only store aggregates), the channel and plumber CRUD controllers, Swagger, rate limiting, CORS and helmet: these are pass-through or configuration with no logic of their own.
- `getChannels` in src/controllers/managerController.js is not part of this model: it references undefined variables and cannot run.
- src/services/userService.js and src/utils/tokenUtils.js are not part of this model. The first references an undefined client and models that do not exist. The second duplicates the token generators of auth.js.
- Express wiring is not modelled: route mounting, `req.params`/`req.body` parsing, and the order of middlewares on each route. src/routes/adminRoutes.js imports `authenticateUser` from a module that does not export it, so those routes depend on wiring this model does not cover.

## Findings

| source | as written | input that shows it | evidently intended | confidence | as-written member | corrected member |
|---|---|---|---|---|---|---|
| src/routes/adminRoutes.js:272 | `POST /managers` answers 201 with the created row itself, including `passwordHash` | any complete body with an unused email: the reply carries `hash(password)` | the documented 201 body of id, name, email, companyName and createdAt, the same projection `GET /managers` uses | medium, not executed | AdminRoutes.CreatedBodyExposesHash | AdminRoutes.ManagerTable.CreateManager |
