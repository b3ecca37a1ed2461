# Event manager: authorization, registration and session rules in Dafny

This project models the rules of an event-management web application. It has two halves:

- **The Flask backend.** Users have one of three roles: `user`, `publisher` or `admin`. Publishers create events, and users register for published events up to an optional capacity. Admins manage roles.
- **The React client.** It mirrors the role policy, protects routes and computes what the event pages show. It keeps two JWTs in `localStorage`, and its axios client refreshes an expired access token, queueing the requests that fail while a refresh is under way.

The backend is modelled over in-memory tables:

- `Store.Database` is a class whose `users` and `events` maps the route handlers change.
- The route handlers are methods on the database (`EventRoutes`, `UserRoutes`, `AuthRoutes`) or, where they only read, functions over the maps.
- Each handler is its chain of guard checks, and each check ends in the source's own `(status, message)` pair. The contracts state:
  - which error comes first;
  - that a refused request changes nothing;
  - what a successful one changes and what it leaves alone.
- `Database.Valid()` is the invariant every handler keeps:
  - ids are keys;
  - usernames and emails are unique;
  - attendee lists hold stored users, each at most once.

The client is modelled in the same style as the code:

- The role utilities, route guards and page predicates are functions.
- The token store (`TokenStore.Storage`), the interceptor state (`RequestPipeline.Pipeline`), the session (`AuthContext.Session`) and the two pages (`EventDetails.Page`, `MyRegistrations.Page`) are classes whose methods are the source's handlers.
- Each awaited call becomes a parameter saying how that call settled (`ClientCommon.Call`). A promise that suspends becomes a separate step (`OnResponseError`, then `RefreshSucceeded` or `RefreshFailed`).
- The session and the two pages hold the shared API client. Every failed call they make passes its response interceptor (`RequestPipeline.Pipeline.RejectUnmarked`) before their own `catch` runs, so a 401 clears both tokens and redirects to `/login`.
- Lemmas connect the two halves, for example:
  - the client's role tests agree with the backend's on the JSON the backend sends;
  - an enabled register button is a registration the backend accepts;
  - the optimistic attendee count matches the server's.

Modules:

- `Common`, `UserModel`, `EventModel`, `AuthGuards`, `Store`, `EventRoutes`, `AuthRoutes`, `UserRoutes`: the backend. Every reply that carries a user carries its `to_dict` view (`UserModel.UserView`), never the row with its password.
- `RoleUtils`, `ClientCommon`, `AdminRoute`, `HomePage`, `TokenStore`, `RequestPipeline`, `AuthContext`, `EventDetails`, `MyRegistrations`, `LoginLanding`: the client.

How the model represents the source:

- **Callers.** The identity a route takes from its token is a `caller: int` parameter. Routes behind `jwt_required` are called with a stored id. Only login mints tokens, and no handler deletes users. `get_event` needs no token, so there the caller is an `Option<int>`.
- **Times.** Times are integers. Whether an ISO string parses is an input (`TimeInput`).
- **Email validation** is a function parameter that normalises an address or rejects it with a reason.
- **Passwords** are compared as stored strings.
- **Tokens** are opaque strings.
- **Truthiness.** A capacity is truthy when present and non-zero (`Common.Truthy`). A stored string is truthy when present and non-empty (`TokenStore.Present`). `a || b` on messages is `ClientCommon.OrElse`.

## Model

| member | source | states |
|---|---|---|
| `UserModel.NewUser` | app/models/user.py:40-44 | a new user carries the given fields; with no role passed its role is `'user'`, so it is neither admin nor publisher |
| `UserModel.ToView` | app/models/user.py:61-69 | `to_dict`: id, username, email and role; see `UserModel.ViewHidesPassword` |
| `UserModel.ViewHidesPassword` | app/models/user.py:61-69 | two users have the same `to_dict` view iff they differ at most in their password, so no reply reveals it |
| `UserModel.CheckPassword` | app/models/user.py:46-47 | the stored password equals the given one; `AuthRoutes.Login` succeeds exactly for a user for whom it holds |
| `UserModel.IsAdmin` | app/models/user.py:49-50 | the role is `'admin'`; `UserModel.RolesAreExclusive` and `UserModel.CanManagePublishers` relate it to the other role tests |
| `UserModel.IsPublisher` | app/models/user.py:52-53 | every admin is a publisher; a `'user'`-role user is not; a publisher's role is `'publisher'` or `'admin'` |
| `UserModel.CanPublishEvents` | app/models/user.py:55-56 | holds exactly for the roles `'publisher'` and `'admin'`, the same users as `is_publisher()` |
| `UserModel.CanManagePublishers` | app/models/user.py:58-59 | holds exactly for the role `'admin'`, the same users as `is_admin()` |
| `UserModel.RoleConstantsDistinct` | app/models/user.py:7-10 | the three role constants are pairwise distinct |
| `UserModel.RolesAreExclusive` | app/models/user.py:49-53 | a `'user'` is neither admin nor publisher, a `'publisher'` is a publisher but not an admin, an `'admin'` is both |
| `EventModel.IsFull` | app/models/event.py:58-62 | full iff the capacity is truthy and the attendee count has reached it; never full without a capacity |
| `EventModel.CanRegister` | app/models/event.py:24-38 | possible iff the event is published, not full and the user is not yet an attendee; never for a draft |
| `EventModel.WithAttendee` | app/models/event.py:43 | appends the user to the attendee list and changes no other field |
| `EventModel.IndexOf` | app/models/event.py:50 | the position of the first occurrence of an attendee |
| `EventModel.AttendeeCount` | app/models/event.py:54-55 | the attendee list's length; `EventModel.RegisterEffects` and `EventModel.UnregisterEffects` state how it moves |
| `EventModel.RemoveFirst` | app/models/event.py:50 | `list.remove`: drops exactly one occurrence when present (length minus one, multiset minus that id), else the list is unchanged |
| `EventModel.WithoutAttendee` | app/models/event.py:47-52 | removes the user's first occurrence from the attendees and changes no other field |
| `EventModel.ToDict` | app/models/event.py:64-79 | `attendee_count` is the attendee list's length and `is_full` is `is_full()`; id, capacity, publication, publisher and times are copied |
| `EventModel.NoCapacityNeverFull` | app/models/event.py:58-62 | with capacity `None` or `0` the event is never full and capacity never blocks registration |
| `EventModel.RegisterEffects` | app/models/event.py:40-45 | a permitted registration puts the user in the list and grows the count by exactly one; a second one is refused; capacity bound and no-duplicates are kept |
| `EventModel.RemoveFirstNoDuplicates` | app/models/event.py:49-50 | on a duplicate-free list, removing an attendee removes it entirely and keeps every other attendee |
| `EventModel.UnregisterEffects` | app/models/event.py:47-52 | unregistering an attendee removes exactly that user, shrinks the count by one and keeps the capacity bound |
| `EventModel.RemoveAtIndex` | app/models/event.py:50 | removing one position of a duplicate-free list removes exactly that element and keeps the others |
| `Store.Database.RegisterUser` | app/models/event.py:40-45 | `register_user` returns `can_register` and appends the user exactly then; otherwise no table changes |
| `Store.Database.UnregisterUser` | app/models/event.py:47-52 | `unregister_user` returns whether the user attended and removes them exactly then; otherwise no table changes |
| `Store.Database.constructor` | app/__init__.py:10 | the `users` and `events` tables start empty, and the empty tables are valid |
| `AuthGuards.GetCurrentUser` | app/utils/auth.py:48-53 | the user row whose id is the token identity, or none |
| `AuthGuards.AdminRequired` | app/utils/auth.py:6-25 | 404 `User not found` for a missing user before any role check; 403 `Admin privileges required` iff present and not admin; passes exactly admins |
| `AuthGuards.PublisherRequired` | app/utils/auth.py:27-46 | 404 for a missing user first; 403 `Publisher privileges required` iff present and not `is_publisher()`; admins pass |
| `AuthGuards.GuardsAreNested` | app/utils/auth.py:17-42 | whoever passes the admin guard passes the publisher guard; a `'user'` is refused by both with 403 |
| `EventRoutes.Select` | app/routes/events.py:14-15 | the events a query keeps, each as its `to_dict` view |
| `EventRoutes.GetEvents` | app/routes/events.py:11-15 | exactly the published events |
| `EventRoutes.MaySeeDraft` | app/routes/events.py:44-49 | the requester is stored and is the event's publisher or an admin; `EventRoutes.GetEvent` shows a draft exactly then |
| `EventRoutes.GetAllEvents` | app/routes/events.py:17-33 | publisher guard first; all events for an admin; for another publisher exactly its own events and the published ones |
| `EventRoutes.GetEvent` | app/routes/events.py:35-54 | shown iff it exists and is published or the requester is its publisher or an admin; every other case is the same 404 `Event not found` |
| `EventRoutes.ListingsAgreeWithDetail` | app/routes/events.py:11-54 | every event a listing shows, the detail route shows to the same requester |
| `EventRoutes.GetMyEvents` | app/routes/events.py:256-267 | 403 iff the caller is not a publisher; otherwise exactly the caller's events |
| `EventRoutes.GetMyRegistrations` | app/routes/events.py:269-278 | exactly the events whose attendees include the caller |
| `EventRoutes.GetEventAttendees` | app/routes/events.py:233-254 | 404, then 403 unless owner or admin; the owner or an admin always gets the list; `attendee_count` equals the number of rows, which are the attendees' `to_dict` views in order |
| `EventRoutes.AttendeesAreUsers` | app/routes/events.py:247 | every attendee of a stored event is a stored user, so each row has a `to_dict` view |
| `EventRoutes.OwnerOrAdmin` | app/routes/events.py:115 | the caller published the event or is an admin; the update, delete and attendee routes proceed past their 403 exactly then |
| `EventRoutes.Complete` | app/routes/events.py:64-66 | every required key of `create_event` is present; `EventRoutes.CreateEvent` refuses with `Missing required fields` exactly otherwise |
| `EventRoutes.UpdatedTime` | app/routes/events.py:134-144 | a given, parseable time replaces the stored one, a missing key keeps it; `EventRoutes.UpdateEvent` compares these merged times |
| `EventRoutes.Merge` | app/routes/events.py:118-144 | each updatable field takes the payload's value when the key is present and keeps its own otherwise; id, publisher and attendees never change |
| `EventRoutes.EmptyMergeIsIdentity` | app/routes/events.py:118-144 | an update without keys leaves the event as it was |
| `EventRoutes.CreateEvent` | app/routes/events.py:56-100 | guard, then 400 `Missing required fields` for an incomplete payload, then `Invalid datetime format`, then for parseable times success exactly when start is before end and `End time must be after start time` otherwise; a refusal changes nothing; a created event is unpublished unless asked, belongs to the caller and has no attendees |
| `EventRoutes.UpdateEvent` | app/routes/events.py:102-155 | guard, 404, 403 unless owner or admin, `Invalid start time format`, `Invalid end time format`, then success exactly when the merged start is before the merged end, with `End time must be after start time` otherwise; any refusal leaves the table unchanged; success stores the merge and changes no other event |
| `EventRoutes.DeleteEvent` | app/routes/events.py:157-177 | guard, 404, 403 unless owner or admin; success removes exactly that event, after which `get_event` answers 404 to everyone |
| `EventRoutes.RegisterForEvent` | app/routes/events.py:179-208 | missing 404, draft 400, already registered 400, full 400, in that order; succeeds iff `can_register`, appending exactly the caller |
| `EventRoutes.UnregisterFromEvent` | app/routes/events.py:210-231 | 404, then 400 `Not registered for this event` for a non-attendee; otherwise exactly the caller is removed |
| `AuthRoutes.CheckRegistration` | app/routes/auth.py:13-29 | missing field, taken username, invalid email (its reason), taken normalised email, in that order; accepted only when none applies |
| `AuthRoutes.UsernameTaken` | app/routes/auth.py:18 | some stored user has that username; `AuthRoutes.CheckRegistration` refuses with `Username already exists` exactly then, after the field check |
| `AuthRoutes.EmailTaken` | app/routes/auth.py:28 | some stored user has that email; checked on the normalised address by `AuthRoutes.CheckRegistration` |
| `AuthRoutes.UsernameCheckedFirst` | app/routes/auth.py:17-29 | a taken username is reported even when the email is invalid or taken too |
| `AuthRoutes.InsertUser` | app/routes/auth.py:31-39 | the new row takes a fresh id, carries the payload with the normalised email, and keeps the table valid |
| `AuthRoutes.Register` | app/routes/auth.py:9-44 | a refusal is 400 with its message and changes nothing; success is 201 with the `to_dict` view of a new `'user'`-role row, which holds the given password, and the table grows by exactly that row |
| `AuthRoutes.FindByEmail` | app/routes/auth.py:55 | the unique user with that email, if any |
| `AuthRoutes.Login` | app/routes/auth.py:46-70 | 400 for a missing field; an unknown email and a wrong password get the same 401; success iff some user has that email and password, returning that user's `to_dict` view with both tokens |
| `AuthRoutes.GetMe` | app/routes/auth.py:82-91 | the `to_dict` view of the user the token names, or 404 `User not found` exactly when that row is absent |
| `AuthRoutes.LoginThenMe` | app/routes/auth.py:46-91 | after a successful login, `/me` with the logged-in user's identity answers the same user view the login returned |
| `UserRoutes.GetUsers` | app/routes/users.py:20-26 | the admin guard's refusal, or the `to_dict` view of every user, keyed by id |
| `UserRoutes.GetUser` | app/routes/users.py:28-42 | a non-admin asking for another id gets 403 before the existence check; otherwise 404 or the user's `to_dict` view |
| `UserRoutes.GetPublishers` | app/routes/users.py:44-49 | the `to_dict` views of exactly the users whose role is `'publisher'` or `'admin'` |
| `UserRoutes.WithRole` | app/routes/users.py:68 | only that user's role changes |
| `UserRoutes.WithRoleKeepsValid` | app/routes/users.py:68-69 | a role change keeps the tables valid |
| `UserRoutes.MakePublisher` | app/routes/users.py:51-74 | guard, 404, already publisher 400, admin 400; otherwise the role becomes `'publisher'`, nothing else changes and the reply is the updated user's `to_dict` view |
| `UserRoutes.MakeAdmin` | app/routes/users.py:76-95 | guard, 404, already admin 400; otherwise the role becomes `'admin'`, nothing else changes and the reply is the updated user's `to_dict` view |
| `UserRoutes.RevokePrivileges` | app/routes/users.py:97-122 | guard, self-revocation 400 before the existence check, 404, already `'user'` 400; otherwise the role becomes `'user'` and the reply is the updated user's `to_dict` view |
| `UserRoutes.RevokeKeepsCallerAdmin` | app/routes/users.py:104-116 | a revocation never touches the admin who performs it |
| `UserRoutes.RegisterPublisher` | app/routes/users.py:124-164 | admin guard, then the registration checks in order; the created user has role `'publisher'`, a fresh id and the given password, the table grows by exactly that row, and the reply is its `to_dict` view |
| `RoleUtils.FromServer` | app/models/user.py:61-69 | the client sees the id and role of `to_dict` |
| `RoleUtils.HasRole` | frontend/src/utils/roleUtils.js:17-42 | a logged-in user whose `role` field is that role; no user or no role has none |
| `RoleUtils.IsAdmin` | frontend/src/utils/roleUtils.js:17-24 | `HasRole` for `'admin'`; `RoleUtils.AgreesWithServer` shows it equals the backend's `is_admin` on backend users |
| `RoleUtils.IsPublisher` | frontend/src/utils/roleUtils.js:26-33 | `HasRole` for `'publisher'` only; `RoleUtils.AgreesWithServer` shows it is false for admins, unlike the backend's `is_publisher` |
| `RoleUtils.IsRegularUser` | frontend/src/utils/roleUtils.js:35-42 | `HasRole` for `'user'`; `RoleUtils.ExactlyOneRole` shows the three tests exclude each other |
| `RoleUtils.CanManageEvents` | frontend/src/utils/roleUtils.js:44-46 | exactly admins and publishers; never a regular user |
| `RoleUtils.GetHomePageForUser` | frontend/src/utils/roleUtils.js:53-57 | `/admin` iff admin, `/my-events` iff publisher, `/events` otherwise, including no user |
| `RoleUtils.GetRoleName` | frontend/src/utils/roleUtils.js:64-75 | each role constant's display name, `Guest` exactly for any other value |
| `RoleUtils.ExactlyOneRole` | frontend/src/utils/roleUtils.js:6-37 | for a role among the three constants, exactly one of `isAdmin`, `isPublisher`, `isRegularUser` holds |
| `RoleUtils.NoRoleNoPredicate` | frontend/src/utils/roleUtils.js:17-57 | no user, or an unrecognised role, satisfies none of the predicates and lands on `/events` |
| `RoleUtils.AgreesWithServer` | frontend/src/utils/roleUtils.js:17-46 | on a backend user, client and backend agree on admin and on may-manage-events; the client's `isPublisher` is false for admins, where the backend's is true |
| `AdminRoute.Guard` | frontend/src/components/AdminRoute.js:7-25 | spinner while loading; otherwise non-admins, including no user, are redirected to `/`; children iff loaded and admin |
| `AdminRoute.GuardDependsOnlyOnAdmin` | frontend/src/components/AdminRoute.js:7-25 | the outcome depends only on `loading` and `isAdmin(currentUser)` |
| `AdminRoute.GuardAgreesWithServer` | frontend/src/components/AdminRoute.js:20-25 | exactly backend admins get past the guard |
| `HomePage.Landing` | frontend/src/pages/Home.js:9-25 | spinner while loading; a user goes to their home page, no user to `/events` |
| `HomePage.LandingIsHomePage` | frontend/src/pages/Home.js:20-25 | once loaded the target is always `getHomePageForUser(currentUser)`, including the null case |
| `ClientCommon.OrElse` | frontend/src/pages/EventDetails.js:42 | a non-empty message wins; a missing or empty one falls back |
| `TokenStore.Storage.GetItem` | frontend/src/api/axios.js:14 | the stored string, `null` when absent |
| `TokenStore.Storage.SetItem` | frontend/src/api/axios.js:91 | only that key changes |
| `TokenStore.Storage.RemoveItem` | frontend/src/api/axios.js:103 | only that key goes |
| `TokenStore.Storage.ClearTokens` | frontend/src/api/axios.js:103-104 | both tokens go and every other entry stays |
| `TokenStore.Cleared` | frontend/src/api/axios.js:103-104 | neither token remains; every other key keeps its value |
| `TokenStore.ClearedIdempotent` | frontend/src/context/AuthContext.js:81-85 | clearing twice is clearing once, so `logout` is idempotent |
| `RequestPipeline.WithBearer` | frontend/src/api/axios.js:17 | sets `Authorization: Bearer <token>` and leaves every other header and the retry marker alone |
| `RequestPipeline.AttachToken` | frontend/src/api/axios.js:12-26 | a request carries `Bearer <token>` iff a token is stored; otherwise it is sent unchanged |
| `RequestPipeline.IsRefreshable` | frontend/src/api/axios.js:55-57 | a 401 whose body says `token_expired` on a request not yet retried; `RequestPipeline.RetriedIsNotRefreshable` and `RequestPipeline.Pipeline.OnResponseError` use it |
| `RequestPipeline.RetriedIsNotRefreshable` | frontend/src/api/axios.js:55-57 | a request marked `_retry` never takes the refresh branch |
| `RequestPipeline.SettleOne` | frontend/src/api/axios.js:33-39 | with an error a parked promise is rejected with it, otherwise resumed with the new bearer token |
| `RequestPipeline.Settle` | frontend/src/api/axios.js:32-40 | every parked promise is settled, in push order, all rejected with the error or all resumed with the token |
| `RequestPipeline.Pipeline.constructor` | frontend/src/api/axios.js:29-30 | not refreshing, empty queue |
| `RequestPipeline.Pipeline.OnRequest` | frontend/src/api/axios.js:12-22 | the interceptor attaches `Bearer <stored access token>` when one is present and otherwise sends the config unchanged |
| `RequestPipeline.Pipeline.ProcessQueue` | frontend/src/api/axios.js:32-42 | settles the whole queue in order and leaves it empty; nothing else changes |
| `RequestPipeline.Pipeline.OnResponseError` | frontend/src/api/axios.js:48-120 | while refreshing, a refreshable failure is queued and no second refresh starts; otherwise it is marked `_retry` and starts the refresh; with no refresh token it redirects and rejects, with the queue untouched and the tokens kept; any other 401 clears both tokens and redirects; other errors pass unchanged |
| `RequestPipeline.Pipeline.RejectUnmarked` | frontend/src/api/axios.js:112-120 | a failure with no `error_type`, as this backend always sends, is rejected unchanged; a 401 clears both tokens and redirects once, any other status changes nothing; the refresh state is untouched |
| `RequestPipeline.Pipeline.RefreshSucceeded` | frontend/src/api/axios.js:85-109 | stores only the new access token, resumes every queued request with it, retries the original request once with it, and ends not refreshing |
| `RequestPipeline.Pipeline.RefreshFailed` | frontend/src/api/axios.js:100-109 | rejects every queued request with the refresh error, removes both tokens, redirects once, and ends not refreshing |
| `AuthContext.Session.constructor` | frontend/src/context/AuthContext.js:8-10 | no user, loading, no error |
| `AuthContext.Mount` | frontend/src/context/AuthContext.js:13-35 | after mounting loading is over; with no stored token nobody is logged in and nothing is fetched; a successful `/me` sets the user; a failed one clears both tokens, records the session error and redirects once iff it was a 401 |
| `AuthContext.Session.CheckLoggedIn` | frontend/src/context/AuthContext.js:14-32 | no token: nothing fetched or changed; a failed `/me` passes the client's response handler, which on a 401 clears both tokens and redirects once to `/login`, then both tokens are cleared, `Session expired. Please login again.` is set and the user forgotten; loading ends on every path |
| `AuthContext.Session.LoadUser` | frontend/src/context/AuthContext.js:38-52 | as `checkLoggedIn`, including the 401 redirect, but a failure sets no error |
| `AuthContext.Session.Login` | frontend/src/context/AuthContext.js:55-68 | a failed login call passes the response handler (a 401 clears both tokens and redirects) and throws; otherwise both tokens are written before `/me`; a failed `/me` keeps them unless it was a 401, which clears them and redirects; success sets the user and resolves to `true` |
| `AuthContext.Session.Register` | frontend/src/context/AuthContext.js:71-78 | resolves to `true` when the call succeeds, leaving the store and the client untouched; a failure passes the response handler (a 401 clears both tokens and redirects) and throws; the session is not touched |
| `AuthContext.Session.Logout` | frontend/src/context/AuthContext.js:81-85 | both tokens go and the user is forgotten |
| `AuthContext.Session.RefreshToken` | frontend/src/context/AuthContext.js:88-111 | no refresh token: clears both tokens and the user and throws, sending nothing; a failed call passes the response handler (a 401 adds one redirect), then both tokens and the user are cleared and it throws; success replaces only the access token, redirects nowhere and resolves to it |
| `AuthContext.RefreshRequestAsWritten` | frontend/src/context/AuthContext.js:95-99 | the refresh call passes through the request interceptor, which replaces its refresh-token header with the stored access token |
| `AuthContext.RefreshHeaderOverwritten` | frontend/src/context/AuthContext.js:95-99 | with access token `a` and refresh token `r` stored, the refresh call carries `Bearer a`, not `Bearer r` |
| `AuthContext.RefreshRequest` | frontend/src/context/AuthContext.js:95-99 | the intended refresh call carries the refresh token |
| `EventDetails.IsEventFull` | frontend/src/pages/EventDetails.js:136 | full iff the capacity is truthy and the attendee count has reached it |
| `EventDetails.IsRegisteredIn` | frontend/src/pages/EventDetails.js:35 | true iff some registration has the page's event id |
| `EventDetails.CanEdit` | frontend/src/pages/EventDetails.js:131-133 | the user published the event or is an admin; `EventDetails.PredicatesAgreeWithServer` shows it equals the backend's owner-or-admin test |
| `EventDetails.CanRegisterAs` | frontend/src/pages/EventDetails.js:134 | a logged-in user who is neither publisher nor admin; `EventDetails.PredicatesAgreeWithServer` shows it holds exactly for backend `'user'` roles |
| `EventDetails.IsPastEvent` | frontend/src/pages/EventDetails.js:137 | the event ended before `now` |
| `EventDetails.ShowRegistrationPanel` | frontend/src/pages/EventDetails.js:191 | published, `canRegister` and not past; `EventDetails.EnabledButtonIsAccepted` builds on it |
| `EventDetails.RegisterDisabled` | frontend/src/pages/EventDetails.js:205 | a registration is under way or the event is full; an enabled button is accepted by the backend (`EventDetails.EnabledButtonIsAccepted`) |
| `EventDetails.Optimistic` | frontend/src/pages/EventDetails.js:59-62 | the attendee count grows by one and every other field is kept |
| `EventDetails.AfterDelete` | frontend/src/pages/EventDetails.js:90-94 | `/admin` iff admin, `/events` otherwise |
| `EventDetails.PredicatesAgreeWithServer` | frontend/src/pages/EventDetails.js:131-136 | on backend data, `canEdit` is owner-or-admin, `isEventFull` is `is_full()`, and `canRegister` holds exactly for non-publishers |
| `EventDetails.EnabledButtonIsAccepted` | frontend/src/pages/EventDetails.js:191-205 | a shown and enabled register button, for an event the user has not joined, is a registration `can_register` accepts |
| `EventDetails.OptimisticMatchesServer` | frontend/src/pages/EventDetails.js:58-62 | after a successful registration, the page's count and fullness equal the server's |
| `EventDetails.Page.constructor` | frontend/src/pages/EventDetails.js:9-15 | the initial page state |
| `EventDetails.Page.FetchDetails` | frontend/src/pages/EventDetails.js:19-50 | sets the event or the load error; the registration status is fetched only for non-publisher, non-admin users; a failed fetch of either passes the client's response handler with its status (a 401 clears both tokens and redirects), and a failed status fetch changes nothing else |
| `EventDetails.Page.HandleRegistration` | frontend/src/pages/EventDetails.js:52-67 | success: registered, and the count grows by one with all else kept, the client untouched; failure: the response handler runs with its status and only the registration error is set |
| `EventDetails.Page.HandleUnregister` | frontend/src/pages/EventDetails.js:69-83 | success reloads the event and clears the status; failure passes the response handler and sets the error; `registering` is false afterwards |
| `EventDetails.Page.HandleDelete` | frontend/src/pages/EventDetails.js:85-100 | nothing without confirmation; after a delete admins go to `/admin`, others to `/events`; a failed delete passes the response handler and sets the error |
| `MyRegistrations.Filter` | frontend/src/pages/MyRegistrations.js:32 | the filtered list is never longer than the list |
| `MyRegistrations.FilterMembers` | frontend/src/pages/MyRegistrations.js:32 | the filtered list holds exactly the elements of the list that the test accepts |
| `MyRegistrations.FilterCons` | frontend/src/pages/MyRegistrations.js:32 | a list's first element heads the filtered list exactly when the test accepts it, and the filtered rest follows |
| `MyRegistrations.FilterAppend` | frontend/src/pages/MyRegistrations.js:32 | filtering distributes over concatenation, so the kept events stay in order |
| `MyRegistrations.FilterKeepingAll` | frontend/src/pages/MyRegistrations.js:32 | a filter that keeps everything is the identity |
| `MyRegistrations.WithoutEvent` | frontend/src/pages/MyRegistrations.js:32 | every event with the cancelled id is removed and every other one is kept exactly as often as listed; no new row appears |
| `MyRegistrations.FilterCount` | frontend/src/pages/MyRegistrations.js:32 | the filtered list holds each accepted element exactly as often as the list does, and no other element |
| `MyRegistrations.CancelKeepsOrder` | frontend/src/pages/MyRegistrations.js:30-32 | the rows left after a cancel keep their order: cancelling in a concatenation is cancelling in each part |
| `MyRegistrations.CancelAbsentIsIdentity` | frontend/src/pages/MyRegistrations.js:32 | cancelling an id the list does not show leaves the list unchanged |
| `MyRegistrations.Upcoming` | frontend/src/pages/MyRegistrations.js:70 | only events that have not ended |
| `MyRegistrations.Past` | frontend/src/pages/MyRegistrations.js:71 | only events that have ended |
| `MyRegistrations.FilterSplits` | frontend/src/pages/MyRegistrations.js:70-71 | two complementary filters together hold each element as often as the list does |
| `MyRegistrations.UpcomingAndPastPartition` | frontend/src/pages/MyRegistrations.js:69-71 | upcoming and past are disjoint and together contain every registration |
| `MyRegistrations.IsPast` | frontend/src/pages/MyRegistrations.js:47-49 | the event ended before `now`; `MyRegistrations.UpcomingAndPastPartition` shows it splits the list |
| `MyRegistrations.DisabledRowsAreRemoved` | frontend/src/pages/MyRegistrations.js:117-122 | while an event is being cancelled, the disabled rows are exactly those a successful cancel removes |
| `MyRegistrations.CancelDisabled` | frontend/src/pages/MyRegistrations.js:120 | the row's event is the one being cancelled; `MyRegistrations.DisabledRowsAreRemoved` ties it to the rows a cancel removes |
| `MyRegistrations.Page.constructor` | frontend/src/pages/MyRegistrations.js:6-9 | the initial page state |
| `MyRegistrations.Page.Fetch` | frontend/src/pages/MyRegistrations.js:11-25 | sets the list, or passes the response handler and sets the load error; loading ends |
| `MyRegistrations.Page.HandleCancelRegistration` | frontend/src/pages/MyRegistrations.js:27-39 | success removes that event's rows and keeps the rest; failure passes the response handler, keeps the list and sets the error; `cancelling` is reset after every attempt |
| `LoginLanding.LandingAsWritten` | frontend/src/pages/Login.js:27-28 | the form's `getHomePageForUser(true)` is always `/events` |
| `LoginLanding.RoleIgnoredAtLogin` | frontend/src/pages/Login.js:27-28 | admins and publishers land on `/events` after login instead of their own home page |
| `LoginLanding.LandingAfterLogin` | frontend/src/pages/Login.js:27-28 | the intended landing route is the logged-in user's home page, the same one `Home` redirects to |
| `LoginLanding.SubmitLogin` | frontend/src/pages/Login.js:22-35 | navigates iff login and `/me` both succeed, to the logged-in user's home page |

## Left out

- Password hashing (bcrypt) and JWT minting and checking are library calls. Passwords are compared as plain strings, and tokens are opaque strings passed in.
- `email_validator` is a function parameter, and `datetime.fromisoformat` is the `TimeInput` parameter. JavaScript `Date`, `toLocaleString` and the clock are not modelled; integer times and `now` stand in for them.
- SQLAlchemy sessions, commits and migrations are not modelled; the tables are maps. New ids come from counters. SQLite may reuse the id of a deleted newest row, and the model does not capture that.
- Result ordering of the queries is not modelled: list results are maps keyed by id.
- `created_at` and `updated_at` are not modelled.
- HTTP plumbing is not modelled: blueprints, CORS and the OPTIONS handler of `app/routes/users.py`, `app/__init__.py`, `app_routes.py`, axios transport and response objects. The guards' JSON key (`msg`, where the handlers use `message`) is not distinguished.
- `get_event` runs without `jwt_required` and calls `get_current_user` on drafts. The model follows `tests/test_events.py`, in which the draft's publisher sees it. Whether the JWT library yields an identity in a route that never verified the token is outside the model.
- A request body that is JSON `null` makes `update_event` fail in `'title' in data`; this crash path is not modelled.
- `app/__init__.py` registers no expired-token handler, so the backend never sends `error_type: 'token_expired'`. The refresh branch of the client is modelled as written in `RequestPipeline.Pipeline.OnResponseError`, but with this backend it is reachable only in principle. The session and the pages therefore pass their failures through the non-refreshing branch (`RequestPipeline.Pipeline.RejectUnmarked`).
- The `refresh` route of `app/routes/auth.py` only mints a new access token for the token's identity, a library call; it is not modelled beyond the token string the client receives.
- The page's `window.location.href` assignment is a counter of redirects (`RequestPipeline.Pipeline.redirects`); the page reload it causes, which discards the React state, is not modelled.
- `RequestPipeline.Pipeline.RefreshSucceeded` and `RequestPipeline.Pipeline.RefreshFailed`: the order in which the original request and the resumed queued requests reach the network is not stated. In the source this order depends on the event loop.
- The network outcome of the retried requests is not modelled. They go through the raw client, which has no interceptors.
- `RequestPipeline.Pipeline.OnResponseError`: a failure with a response but no `data` (a JavaScript type error in the source) is not modelled; `error_type` is simply absent.
- React rendering, JSX and form state are not modelled. The form pages, `Navbar.js`, `EventsPage.js`, `MyEvents.js` and the router wiring of `App.js` are outside the model.
- `MyRegistrations.Page.HandleCancelRegistration` runs as one step here. In the source, two overlapping cancels each filter the list as it was when their button was pressed, and the `cancelling` marker of the first is cleared by the second. That interleaving is not modelled.
- `EventDetails.Page`: the handlers require a loaded event, because the page renders its buttons only then. The fetch that runs again when `currentUser` changes is modelled as another `FetchDetails` call.

## Findings

| source | as written | input that shows it | evidently intended | confidence | as-written member | corrected member |
|---|---|---|---|---|---|---|
| frontend/src/pages/Login.js:27-28 | `login` resolves to `true` (frontend/src/context/AuthContext.js:64), and the form passes that value to `getHomePageForUser`, whose role tests then see no `role` | an admin, or a publisher, logs in | land on the logged-in user's home page (`/admin` or `/my-events`), as `Home` does | high; not executed | `LoginLanding.LandingAsWritten`, `LoginLanding.RoleIgnoredAtLogin` | `LoginLanding.LandingAfterLogin`, `LoginLanding.SubmitLogin` |
| frontend/src/context/AuthContext.js:95-99 | the refresh call goes through the shared client, whose request interceptor (frontend/src/api/axios.js:14-17) overwrites its `Authorization` header with the stored access token | access token `a` and refresh token `r` stored, then `refreshToken()` | send `Bearer r` to the refresh endpoint, as the interceptor-free refresh in frontend/src/api/axios.js:86-88 does | medium; not executed | `AuthContext.RefreshRequestAsWritten`, `AuthContext.RefreshHeaderOverwritten` | `AuthContext.RefreshRequest`, `AuthContext.Session.RefreshToken` |
