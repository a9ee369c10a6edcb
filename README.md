# PTO tracker — a verified model of its core

The system is a small paid-time-off tracker. A Koa backend keeps two SQLite
tables. `users` holds an id, an email, a password hash, the yearly allotment
(`maxPtoHours`) and the hours used so far (`usedPtoHours`). `pto_requests`
holds an id, a user id, a date, hours, a reason and a status.

The backend offers four endpoints:

- `POST /auth/login` checks the credentials and returns a JWT.
- `GET /pto/balance` returns allotment, used and remaining hours.
- `GET /pto/requests` returns the caller's requests.
- `POST /pto/request` checks the balance, appends one pending request and
  debits the caller.

The leave endpoints sit behind a bearer-token middleware. The repository has
two revisions of the backend. One is controllers over services over a lazily
initialised `db` object. The other is an earlier single-file server with its
own middleware and its own database opener, db.ts.

The browser client keeps the session in an `AuthStore`, mirrored into
localStorage. It keeps the balance and the request list in a `PTOStore`.
View models derive what the pages show.

The model has one Dafny module per source file:

| module | source |
|---|---|
| `Ledger` | the tables and the `db` object |
| `PtoService` | the leave service |
| `PtoController` | the leave controller |
| `AuthController` | the login controller and its service |
| `AuthMiddleware` | the newer middleware |
| `LegacyMiddleware` | the earlier middleware |
| `LegacyServer` | the single-file server |
| `Stores` | both client stores and the axios 401 interceptor |
| `Dashboard` | the dashboard view model |
| `NewRequest` | the new-request view model |
| `LoginView` | the login view model |
| `Header` | the page header |

Three modules are shared:

- `Wrappers` holds Option, Result and Outcome, and the localStorage lookup.
- `Text` holds JavaScript truthiness, `trim`, `replace` with a string
  pattern, `split(c)[0]` and capitalisation.
- `Koa` holds the slice of the request context the handlers touch. Its
  status and body setters follow Koa: a fresh context answers 404, and
  assigning a body gives 200 unless a status was assigned first.

Each operation that changes state is modelled twice:

- as a pure function from the old state to the new one
  (`Ledger.AfterInit`, `PtoService.Submit`, `Stores.SubmitStep`, …), whose
  properties are proved as lemmas;
- as a method of a class with the source's fields, whose `ensures` ties its
  new state and result to that function.

Foreign libraries enter as function parameters:

- `bcrypt.compare` and `jwt.sign` (`compare`, `sign`);
- `jwt.verify` (`verify`, returning `Rejected`, a string payload, or an
  object payload whose `userId` may be absent);
- `new Date(s).getTime()` (`time`);
- date-fns `parse` (`parse`);
- the `AuthService` call inside the controller (`service`).

Replies from the server reach the client stores as values (`Reply`).

## Model

| member | source | states |
|---|---|---|
| Ledger.UserWithId | backend/src/db/index.ts:117-122 | `SELECT … WHERE id = ?`: none exactly when no row has the id; otherwise a row of the table with that id |
| Ledger.UserWithEmail | backend/src/db/index.ts:124-129 | `SELECT … WHERE email = ?`: none exactly when no row has the email; otherwise a row of the table with that email |
| Ledger.UserWithIdFindsRow | backend/src/db/index.ts:117-122 | with primary keys unique, the lookup of a row's id returns that very row |
| Ledger.UserWithEmailFindsRow | backend/src/db/index.ts:124-129 | with the UNIQUE email constraint, the lookup by email matches the one row that carries it |
| Ledger.RequestsOfMembers | backend/src/db/index.ts:140-144 | the selection holds exactly the rows whose userId matches, no others |
| Ledger.RequestsOfAppend | backend/src/db/index.ts:140-144 | the selection keeps table order: selecting from a concatenation concatenates the selections |
| Ledger.StatusOrPending | backend/src/db/index.ts:151 | the stored status is the given one when truthy, else 'pending'; it is never empty |
| Ledger.AfterInit | backend/src/db/index.ts:9-109 | after `initDB` the database is open |
| Ledger.AfterInitIdempotent | backend/src/db/index.ts:9-109 | a second `initDB` changes nothing; an opened database, or one that already has users, is not seeded |
| Ledger.SeededUsedMatchesRequests | backend/src/db/index.ts:45-105 | seeding an empty table gives John (120, 48) and Jane (120, 40) and their seven requests; each user's used hours is the sum of that user's seeded request hours |
| Ledger.AfterInitValid | backend/src/db/index.ts:24-105 | `initDB` keeps the schema's guarantees: unique ids, unique emails, counters ahead of every id |
| Ledger.UpdatedValid | backend/src/db/index.ts:131-138 | an update that passes the email constraint (the UNIQUE email column of line 26) keeps the schema's guarantees |
| Ledger.ReplaceUserFinds | backend/src/db/index.ts:131-138 | after `updateUser(u)`, looking up u's id yields u |
| Ledger.ReplaceUserKeepsOthers | backend/src/db/index.ts:131-138 | `updateUser(u)` leaves every other id's row as it was |
| Ledger.SameEmailNoClash | backend/src/db/index.ts:131-138 | rewriting a row under the same id and email never trips the UNIQUE constraint of line 26 |
| Ledger.InsertedValid | backend/src/db/index.ts:146-152 | an INSERT into pto_requests keeps request ids (the AUTOINCREMENT key of line 35) unique and behind the counter |
| Ledger.Store.InitDB | backend/src/db/index.ts:9-109 | the tables become `AfterInit` of the old ones; consistency is kept |
| Ledger.Store.SeedTables | backend/src/db/index.ts:47-105 | the seeding statements, one insert or update at a time, leave exactly the `Seeded` tables |
| Ledger.Store.Connect | backend/src/db/index.ts:113-115 | `connect()` is `initDB` |
| Ledger.Store.FindUserById | backend/src/db/index.ts:117-122 | initialises, then returns the row with that id, or none |
| Ledger.Store.FindUserByEmail | backend/src/db/index.ts:124-129 | initialises, then returns the row with that email, or none |
| Ledger.Store.UpdateUser | backend/src/db/index.ts:131-138 | initialises; the update is refused exactly when another row holds the new email; otherwise the row with that id is overwritten and consistency is kept |
| Ledger.Store.GetRequestsByUserId | backend/src/db/index.ts:140-144 | initialises, then returns the user's rows in table order |
| Ledger.Store.CreatePtoRequest | backend/src/db/index.ts:146-152 | initialises, then appends one row with the next id (the passed id is ignored) and `status \|\| 'pending'` |
| PtoService.BalanceOf | backend/src/services/PtoService.ts:6-18 | fails with 'User not found' exactly when no row has the id; otherwise max and used of such a row, and remaining = max − used |
| PtoService.BalanceOfRow | backend/src/services/PtoService.ts:6-18 | for a stored row the balance is exactly that row's allotment, used hours and their difference |
| PtoService.SubmitRejectionWritesNothing | backend/src/services/PtoService.ts:31-39 | 'User not found' and 'Insufficient PTO balance' leave both tables unchanged |
| PtoService.SubmitOutcomes | backend/src/services/PtoService.ts:24-55 | in both directions: unknown user iff 'User not found'; hours > max − used iff 'Insufficient PTO balance'; otherwise success, and the store never fails |
| PtoService.SubmitSuccessEffect | backend/src/services/PtoService.ts:41-54 | success appends exactly one row with a fresh id, the given fields and 'pending', adds the hours to that user's used, and changes no other field, user or counter |
| PtoService.SubmitKeepsWithinAllotment | backend/src/services/PtoService.ts:36-54 | if used ≤ max held for every user before a submit, it holds after |
| PtoService.DebitKeepsConsistent | backend/src/services/PtoService.ts:41-54 | appending a pending row and then debiting a stored user passes the email constraint and keeps consistency |
| PtoService.SubmitKeepsConsistent | backend/src/services/PtoService.ts:24-55 | every submit keeps the schema's guarantees |
| PtoService.SubmitPasses | backend/src/services/PtoService.ts:24-55 | a found user with enough balance and no email clash: the submit passes, with the pending row inserted and that user debited |
| PtoService.BalanceAfterDebit | backend/src/services/PtoService.ts:6-18 | after a row's used hours grow by `hours`, its balance shows the grown used total and the remaining shrunk by the same amount |
| PtoService.SubmitThenQuery | backend/src/services/PtoService.ts:6-54 | after a successful submit the user's list is the old list plus the new pending row at the end, and the balance shows used + hours |
| PtoService.NegativeHoursCreditTheBalance | backend/src/services/PtoService.ts:36-54 | nothing rejects negative hours: −8 hours are granted and used drops to −8 |
| PtoService.BalanceScenarios | backend/src/services/PtoService.ts:36-54 | with 120 allotted and 100 used, 30 hours are refused with the tables unchanged, and 10 are granted, giving 110 used |
| PtoService.GetBalance | backend/src/services/PtoService.ts:6-18 | returns `BalanceOf` the initialised tables |
| PtoService.GetRequests | backend/src/services/PtoService.ts:20-22 | returns exactly the user's rows of the initialised table, in order |
| PtoService.SubmitRequest | backend/src/services/PtoService.ts:24-55 | outcome and new tables are `Submit` of the initialised tables; consistency is kept |
| PtoController.BalanceStatuses | backend/src/controllers/PtoController.ts:13-27 | 200 with remaining = max − used iff the user exists; otherwise 404 'User not found'; never 500 |
| PtoController.SubmitStatuses | backend/src/controllers/PtoController.ts:40-66 | a falsy field (0 hours included) gives 400 and leaves the database untouched, not even initialised; otherwise 404 / 400 'Insufficient PTO balance' / 200 each iff its condition on the caller's row; never 500; any non-200 answer leaves the tables as they were |
| PtoController.GetBalance | backend/src/controllers/PtoController.ts:13-27 | the response is `BalanceResponse` of the service's answer; `state.userId` is unchanged |
| PtoController.GetRequests | backend/src/controllers/PtoController.ts:29-38 | 200 with the caller's rows in table order |
| PtoController.SubmitRequest | backend/src/controllers/PtoController.ts:40-66 | response and new tables are `SubmitExchange`; consistency is kept |
| AuthController.ServiceLogin | backend/src/services/AuthService.ts:9-28 | a token is issued only for some row with that email whose hash matches the password, signed for its id with '1m'; every throw is 'Invalid credentials' |
| AuthController.ServiceLoginAccepts | backend/src/services/AuthService.ts:9-28 | with unique emails, a stored user's email gets a token iff the password matches that user's hash |
| AuthController.LoginStatuses | backend/src/controllers/AuthController.ts:12-34 | missing fields give 400 whatever the service would answer; a token gives 200 {token}; 'Invalid credentials' gives 401 with the identical body; any other throw gives 500 'Server error' |
| AuthController.LoginThroughService | backend/src/controllers/AuthController.ts:12-34 | with the service on a consistent database: 200 iff a row has the email and the password matches; otherwise 401 'Invalid credentials', the same for an unknown email as for a wrong password |
| AuthController.Login | backend/src/controllers/AuthController.ts:12-34 | the context ends holding `LoginResponse` |
| AuthMiddleware.BearerTokenOfScheme | backend/src/middleware/authMiddleware.ts:13 | `Bearer <t>` yields exactly t |
| AuthMiddleware.BearerTokenWithoutScheme | backend/src/middleware/authMiddleware.ts:13 | a header without 'Bearer ' passes unchanged |
| AuthMiddleware.BearerTokenRemovesOnlyFirst | backend/src/middleware/authMiddleware.ts:13 | only the first occurrence is removed |
| Text.ReplaceFirstSpec | backend/src/middleware/authMiddleware.ts:13 | `replace` with a string pattern: no occurrence, no change; otherwise only the first occurrence is replaced |
| AuthMiddleware.Decide | backend/src/middleware/authMiddleware.ts:5-32 | each iff: no header ⇔ 'Missing Authorization header'; an unset secret ⇔ a throw; a verify failure ⇔ 'Invalid token'; a string payload or an object payload without a userId ⇔ 'Invalid token payload'; admitted ⇔ an object payload that has a userId, which is then the admitted id; every refusal carries one of those three messages |
| AuthMiddleware.Authenticate | backend/src/middleware/authMiddleware.ts:5-32 | a refusal answers 401 with its message and `next` is not called; a missing secret throws and writes nothing; on admission `state.userId` is the payload's and `next` is called once, and a throw from `next` becomes 401 'Invalid token' |
| LegacyMiddleware.LegacyDecide | backend/src/authMiddleware.ts:6-25 | never throws; no header ⇔ 'Missing Authorization header'; a verify failure against the fixed key ⇔ 'Invalid token'; everything else is admitted |
| LegacyMiddleware.LegacyAdmitsMore | backend/src/authMiddleware.ts:16-20 | configured with the same key, the earlier revision admits whatever the newer admits, with the same id; it also admits the payloads the newer refuses as 'Invalid token payload', with no user id |
| LegacyMiddleware.LegacyAuthenticate | backend/src/authMiddleware.ts:8-25 | a refusal answers 401 and `next` is not called; otherwise `state.userId` is the payload's, unchecked, `next` is called once, and its throw becomes 401 'Invalid token' |
| LegacyServer.LegacyLoginUniformRejection | backend/src/index.ts:47-58 | an unknown email and a wrong password give the identical 401 {error: 'Invalid credentials'} |
| LegacyServer.LegacyLoginMatchesController | backend/src/index.ts:32-69 | same status and same error bodies as the controller over the service; on success both tokens are for the same user, signed with '1h' here and '1m' there |
| LegacyServer.LegacyBalanceMatchesController | backend/src/index.ts:72-94 | the inline balance answer equals the controller's over the service |
| LegacyServer.SetUsedIsUpdate | backend/src/index.ts:153-157 | with unique ids, setting one user's used hours is the service's whole-row update of that user |
| LegacyServer.LegacySubmitMatchesController | backend/src/index.ts:113-165 | on the opened database the inline submit gives the same response and the same tables as the controller over the service |
| LegacyServer.Login | backend/src/index.ts:32-69 | the context ends holding `LegacyLoginResponse` |
| LegacyServer.GetBalance | backend/src/index.ts:72-94 | the context ends holding `LegacyBalanceResponse` |
| LegacyServer.GetRequests | backend/src/index.ts:97-110 | 200 with only the caller's rows |
| LegacyServer.LegacySubmitKeepsConsistent | backend/src/index.ts:113-165 | the inline submit keeps the schema's guarantees on the opened database |
| LegacyServer.SubmitRequest | backend/src/index.ts:113-165 | response and tables are `LegacySubmitExchange`: one INSERT of a pending row and one UPDATE of used hours; consistency is kept |
| Api.ErrorText | frontend/src/stores/PTOStore.ts:50 | the shown message is the server's truthy `error` whenever there is one, and otherwise the fallback; with a non-empty fallback it is never empty |
| Stores.WithTruthyToken | frontend/src/stores/AuthStore.ts:15-19 | a truthy token is stored in the field and under 'token'; the email, the other keys and the other fields are untouched; the store is authenticated |
| Stores.WithFalsyToken | frontend/src/stores/AuthStore.ts:15-23 | a falsy token is kept as the token; both keys are removed and the email is cleared; other keys are untouched |
| Stores.WithUserEmailStorage | frontend/src/stores/AuthStore.ts:26-33 | the field is set; 'userEmail' is written when truthy and removed otherwise; other keys and the token are untouched |
| Stores.LoggedOutState | frontend/src/stores/AuthStore.ts:35-39 | no token, no email, both keys absent, other keys kept, the PTO store reset with its loading flag kept |
| Stores.NoTokenNoRequest | frontend/src/stores/PTOStore.ts:42-73 | without a token the fetches and the submit return at once and change nothing |
| Stores.FetchBalanceOutcome | frontend/src/stores/PTOStore.ts:42-55 | success stores the balance and changes nothing else; failure sets the server's message or the default and rethrows, a 401 also logging out through the interceptor; loading ends false |
| Stores.FetchRequestsOutcome | frontend/src/stores/PTOStore.ts:57-70 | success replaces the list; failure as for the balance; loading ends false |
| Stores.SubmitOutcome | frontend/src/stores/PTOStore.ts:72-91 | true iff the POST and both refreshes succeed, and then it holds the refreshed balance and list; otherwise the first failure is rethrown and sets the error; loading ends false |
| Stores.LoginOutcome | frontend/src/stores/AuthStore.ts:45-60 | returns true iff the server answered; success stores token and email, in the fields and in storage; failure sets the server's error or 'Login failed', and leaves the session as it was unless the answer was 401; loading ends false |
| Stores.PTOStore.Reset | frontend/src/stores/PTOStore.ts:32-36 | balance none, requests empty, error none, loading kept |
| Stores.PTOStore.ClearError | frontend/src/stores/PTOStore.ts:38-40 | only the error changes, to none |
| Stores.PTOStore.Fail | frontend/src/lib/api.ts:17-22 | the interceptor logs out on a 401, then the store's `catch` sets the error and lowers loading |
| Stores.PTOStore.SettleBalance | frontend/src/stores/PTOStore.ts:47-54 | the try/catch/finally once the balance reply arrives is `BalanceSettled`: a reply stores the balance and lowers loading; a rejection runs the interceptor, sets the error ('Failed to fetch balance' unless the server sent one), lowers loading and is rethrown |
| Stores.PTOStore.SettleRequests | frontend/src/stores/PTOStore.ts:62-69 | the same for the request list, `RequestsSettled`, with 'Failed to fetch requests' |
| Stores.PTOStore.FetchBalance | frontend/src/stores/PTOStore.ts:42-55 | the new snapshot of both stores and the rethrown error are `FetchBalanceStep` |
| Stores.PTOStore.FetchRequests | frontend/src/stores/PTOStore.ts:57-70 | the new snapshot and the rethrown error are `FetchRequestsStep` |
| Stores.PTOStore.SubmitRequest | frontend/src/stores/PTOStore.ts:72-91 | the new snapshot and the result are `SubmitStep` |
| Stores.AuthStore.constructor | frontend/src/stores/AuthStore.ts:6-9 | token and userEmail are read from the 'token' and 'userEmail' keys; loading false, no error |
| Stores.AuthStore.SetToken | frontend/src/stores/AuthStore.ts:15-24 | the store becomes `WithToken` of its old state, and is authenticated exactly when `t` is truthy |
| Stores.AuthStore.IsAuthenticated | frontend/src/stores/AuthStore.ts:41-43 | `!!this.token`: true exactly when a non-empty token is held |
| Stores.AuthenticatedAfter | frontend/src/stores/AuthStore.ts:15-43 | authenticated after `setToken(t)` exactly when `t` is truthy, unchanged by `setUserEmail`, and never after `logout` |
| Stores.AuthStore.SetUserEmail | frontend/src/stores/AuthStore.ts:26-33 | the store becomes `WithUserEmail` of its old state |
| Stores.AuthStore.Logout | frontend/src/stores/AuthStore.ts:35-39 | both stores become `LoggedOut` of their old snapshot, and the session is no longer authenticated |
| Stores.AuthStore.Login | frontend/src/stores/AuthStore.ts:45-60 | the new snapshot and the result are `LoginStep` |
| Dashboard.BalanceCardsShape | frontend/src/viewModels/PTO/DashboardViewModel.ts:16-35 | no balance, no cards; otherwise exactly three, Max Hours / Used Hours / Remaining in that order, carrying the balance's three figures |
| Dashboard.SortedRequests | frontend/src/viewModels/PTO/DashboardViewModel.ts:38-42 | the sorted list is a permutation of the store's list, which is a value and is not changed |
| Dashboard.Insert | frontend/src/viewModels/PTO/DashboardViewModel.ts:38-42 | inserting adds exactly that request to the list's multiset |
| Dashboard.InsertNewestFirst | frontend/src/viewModels/PTO/DashboardViewModel.ts:38-42 | inserting into a newest-first list keeps it newest first |
| Dashboard.SortedNewestFirst | frontend/src/viewModels/PTO/DashboardViewModel.ts:39-41 | the sorted list is ordered by date, most recent first |
| Dashboard.InsertNotAfter | frontend/src/viewModels/PTO/DashboardViewModel.ts:39-41 | inserting a request no later than a bound into a list no later than that bound keeps the whole list within it |
| Dashboard.InsertStable | frontend/src/viewModels/PTO/DashboardViewModel.ts:39-41 | for every date, the requests of that date after insertion are those of `[x] + rs` in that order: the new request goes ahead of those that share its date |
| Dashboard.SortedStable | frontend/src/viewModels/PTO/DashboardViewModel.ts:39-41 | requests that share a date keep their original relative order, as `Array.prototype.sort` promises |
| Dashboard.AtConcat | frontend/src/viewModels/PTO/DashboardViewModel.ts:39-41 | selecting one date's requests distributes over concatenation |
| Dashboard.BadgeVariants | frontend/src/viewModels/PTO/DashboardViewModel.ts:56-67 | pending → secondary, approved → default, denied → destructive; 'outline' exactly for every other status, absent included |
| Dashboard.LoadOutcome | frontend/src/viewModels/PTO/DashboardViewModel.ts:69-78 | with a token, loading ends false; each successful reply is stored; with both successful only balance, list and loading change; failures are swallowed |
| Dashboard.DashboardViewModel.ClearError | frontend/src/viewModels/PTO/DashboardViewModel.ts:44-54 | the store's error becomes none and nothing else in it changes; the view model's error mirrors it |
| Dashboard.DashboardViewModel.LoadData | frontend/src/viewModels/PTO/DashboardViewModel.ts:69-78 | both stores become `LoadStep` of their old snapshot; with a token, the view model is no longer loading afterwards |
| Dashboard.DashboardViewModel.IsLoading | frontend/src/viewModels/PTO/DashboardViewModel.ts:44-46 | the view model's `isLoading` is the PTO store's loading flag, read through and never copied |
| Dashboard.DashboardViewModel.Error | frontend/src/viewModels/PTO/DashboardViewModel.ts:48-50 | the view model's `error` is the PTO store's error, read through and never copied |
| NewRequest.ValidateForm | frontend/src/viewModels/PTO/NewRequestViewModel.ts:26-43 | each key is set iff its check fails (empty date; hours < 1; reason blank after trim), with its message; no other key; valid iff no error |
| NewRequest.ShownDatePassesDateCheck | frontend/src/viewModels/PTO/NewRequestViewModel.ts:16-20 | the picker shows no date exactly when the field is empty or the parser rejects it; a field it shows as a date is non-empty, so `ValidateForm`'s `DateKey in errors <==> requestDate == ""` raises no 'Please select a date' for it |
| NewRequest.NewRequestViewModel.SubmitPtoRequest | frontend/src/viewModels/PTO/NewRequestViewModel.ts:45-56 | loading ends false on every path, rethrow included, and the store's outcome passes through unchanged |
| LoginView.LoginViewModel.SetUsername | frontend/src/viewModels/Auth/LoginViewModel.ts:15-17 | only the username changes |
| LoginView.LoginViewModel.SetPassword | frontend/src/viewModels/Auth/LoginViewModel.ts:19-21 | only the password changes |
| LoginView.LoginViewModel.ValidateForm | frontend/src/viewModels/Auth/LoginViewModel.ts:44-58 | username flagged iff blank after trim; password flagged iff empty, untrimmed; no other key; valid iff no error; no field changes |
| LoginView.AsWrittenRejectsSuccessfulLogin | frontend/src/viewModels/Auth/LoginViewModel.ts:28-38 | a login the server accepts authenticates the store, yet the view model as written reports false with a TypeError message |
| LoginView.AsWrittenNeverSucceeds | frontend/src/viewModels/Auth/LoginViewModel.ts:28-38 | as written, `login` never returns true |
| LoginView.IntendedReportsStore | frontend/src/viewModels/Auth/LoginViewModel.ts:23-42 | without the undefined call: true iff the server answered; on failure the store's error is shown, on success none |
| LoginView.LoginViewModel.LoginAsWritten | frontend/src/viewModels/Auth/LoginViewModel.ts:23-42 | the stores end as `LoginStep`; result and error are the as-written outcome; loading ends false; the fields are kept |
| LoginView.LoginViewModel.Login | frontend/src/viewModels/Auth/LoginViewModel.ts:23-42 | the stores end as `LoginStep`; result and error are the intended outcome; loading ends false; the fields are kept |
| Text.TrimEmptyIffBlank | frontend/src/viewModels/PTO/NewRequestViewModel.ts:35 | `!s.trim()` holds exactly when every character is JavaScript whitespace |
| Text.BeforeFirst | frontend/src/components/Header.tsx:33 | `split('@')[0]` is the longest prefix without '@', ending just before the first '@' when there is one |
| Header.DisplayNameSpec | frontend/src/components/Header.tsx:33-34 | the name is the text before the first '@' (all of it when there is none), with its first character upper-cased and the rest unchanged |
| Header.DisplayNameOfAddress | frontend/src/components/Header.tsx:33-34 | for `local@domain` with no '@' in local, the name is local capitalised |
| Header.DisplayNameExample | frontend/src/components/Header.tsx:33-34 | "john@example.com" is shown as "John" |
| Header.NextUserNameCases | frontend/src/components/Header.tsx:25-37 | no token gives 'User'; a token and a stored email give its display name; a token and no email leave the name as it was |
| Header.Page.HandleLogout | frontend/src/components/Header.tsx:39-45 | both keys are removed from storage and the token becomes null |
| Header.HeaderLogoutMatchesStore | frontend/src/components/Header.tsx:39-45 | the header's logout leaves storage and token exactly as the store's logout does |

## Left out

- Password hashing, comparison, token signing and verification are parameters. Expiry is only the label passed to `sign` ('1h' or '1m').
- The SQL engine, the driver, the database path and the environment are not modelled. The tables are sequences in rowid order with explicit AUTOINCREMENT counters. Engine errors other than the UNIQUE email constraint are not modelled, so the 500 branches of `PtoController.getBalance` (PtoController.ts:22-24), of `PtoController.getRequests` and of the single-file server cannot be reached in the model.
- `PtoController.GetRequests`: the 500 'Server error' answer of PtoController.ts:34-37 is not stated, because a read never fails in the model.
- The startup check of the single-file server that throws when `JWT_SECRET_KEY` is unset (index.ts:12-13) is not modelled. Its handlers work on a database already opened at startup.
- Koa's app, router, body parser and CORS are not modelled. The handlers take the parsed body fields and a fresh context, which is why their methods require that no status was set yet.
- server.ts, routes.ts and db.ts are not part of this model. db.ts is the database the single-file server opens: index.ts:6 imports `./db`, which resolves to db.ts before the db/ directory. It seeds John 120/40 and Jane 80/10 with other passwords and no requests, and has no lazy singleton, so the single-file server's startup seed is not `Ledger.Seeded`. The `LegacyServer` handlers and lemmas are stated for any open, consistent database, that one included.
- `SubmitStep`: the two refreshes behind `Promise.all` settle in order, balance first. The submit's `catch` is taken to run after both have settled. In a browser, a balance rejection can reach that `catch` before the list reply arrives, and the later settling of the list then writes its own list, error and loading flag after it.
- `LoadStep`: the two fetches settle in order, balance first. Concurrent submits and a failure between the INSERT and the UPDATE are not modelled either.
- `Stores.LoginOutcome`: a failed login leaves the token unchanged only when the answer is not 401. The axios interceptor logs out on every 401, and that includes a rejected `POST /auth/login`. This follows the code.
- The request fields sent in POST bodies do not appear in the client store methods. Each reply is an input, so what was sent cannot change what is stored.
- `isDateDisabled` depends on the clock and is not modelled. Date parsing and `getTime()` are parameters; invalid dates (NaN) are not modelled.
- `Text.UpperAscii`: `toUpperCase` is modelled for ASCII letters only. Other characters are kept, which differs from JavaScript for letters outside ASCII.
- Hours are integers. The string-to-number coercion that `Number(...)` and bare `+` would perform on a string is not modelled.
- Rendering, routing and navigation are not modelled: the pages, views, Layout, App, main, LoginForm, the Zod schemas, the JSX of Header, and `navigate('/login')`. The duplicate sort and badge mapping in dashboard/page.tsx are covered by the view model.
- RootStore.ts is wiring only: `AuthStore.pto` stands for `rootStore.ptoStore`.
- `authStore.clearError()` has no definition in the store, so no behaviour is given to it. The model only records that calling it throws; see Findings.

## Findings

| source | as written | input that shows it | evidently intended | confidence | as-written member | corrected member |
|---|---|---|---|---|---|---|
| frontend/src/viewModels/Auth/LoginViewModel.ts:28-34 | after a successful `authStore.login`, `login` calls `this.authStore.clearError()`, which `AuthStore` does not define; the call throws a TypeError inside the `try`, so the `catch` sets the error to its message and `login` returns false | any login the server accepts, e.g. `john@example.com` / `password` answered 200 with a token: the store holds the token, and the view model returns false with "this.authStore.clearError is not a function" | return true with no error when the store reports success (clear the view model's own error) | not executed | LoginView.LoginViewModel.LoginAsWritten, LoginView.AsWrittenRejectsSuccessfulLogin | LoginView.LoginViewModel.Login, LoginView.IntendedReportsStore |
