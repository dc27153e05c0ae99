# Session lifecycle and authorized requests of a project-manager client

This Dafny project models the logic of a small React client for managing
projects and their tasks. The logic covers four things:

- the session lifecycle: a bearer token and a user profile kept in browser
  storage, written by login and register and cleared by logout;
- the session context: the single `user` state from which `isAuthenticated`
  is derived;
- the authorized request pipeline: an interceptor that attaches
  `Authorization: Bearer <token>`, read afresh from storage for every
  request, plus one fixed (method, path) per domain operation;
- the route guards and the event handlers of the two pages (dashboard and
  project details), which check their inputs, ask for confirmation, call the
  server and then reload.

How it is modelled:

- Browser storage is a class whose field is a `map<string, string>`. The
  context, the pages and the API client are classes whose fields are the
  component state.
- Requests are recorded as a trace of outgoing request configs (`ApiClient.sent`).
- The server's replies, the user's answer to `window.confirm` and the route
  parameter are method parameters. An alert is returned as a value.
- Each handler runs as one step.

Modules, by source file:

- `wrappers.dfy`, `types.dfy`: `Option`/`Result` and the records of `src/types/index.ts`.
- `user_json.dfy`: the stored profile text (`JSON.stringify` / `JSON.parse`) and its round trip.
- `storage.dfy`: `localStorage`.
- `auth_service.dfy`: `src/services/authService.ts`.
- `auth_context.dfy`: `src/context/AuthContext.tsx`.
- `decimal.dfy`, `api_service.dfy`: `src/services/apiService.ts` (ids printed into paths, interceptor, routes).
- `app.dfy`: `src/App.tsx`.
- `dashboard.dfy`: `src/components/Dashboard.tsx`.
- `project_details.dfy`: `src/components/ProjectDetails.tsx`.
- `scenarios.dfy`: client code that walks through a session using only the contracts above.

Behaviour of the code that the model keeps as written:

- A stored profile that does not parse makes `getCurrentUser` throw (`JSON.parse`). It does not fall back to "absent".
- `login`/`register` return the whole reply, not only the profile.
- The context accepts a reply without a token: it becomes authenticated while
  nothing is stored (see `Scenarios.AuthenticatedWithoutToken`).

## Model

| member | source | states |
|---|---|---|
| `Types.UserOf` | src/services/authService.ts:14-17 | the profile kept from a reply has exactly the reply's `username` and `email` (also `{username, email}` at src/context/AuthContext.tsx:27 and :32) |
| `UserJson.EncodeUser` | src/services/authService.ts:14-17 | the stored profile text opens with `{"username":"` and ends with the closing `}` of the object |
| `UserJson.DecodeUser` | src/services/authService.ts:48 | a text that parses is exactly the encoding of the profile it yields; with `DecodeEncodeUser`, parsing succeeds on a text exactly when it is some profile's encoding |
| `UserJson.DecodeEncodeUser` | src/services/authService.ts:46-49 | parsing the text written for a profile yields exactly that profile (`username`, `email`) |
| `UserJson.EncodeUserInjective` | src/services/authService.ts:14-17 | different profiles are stored as different texts |
| `AuthService.SessionPersisted` | src/services/authService.ts:27-33 | with a non-empty token, `token` holds the token and `user` holds the encoded `{username, email}`; with an empty token storage is unchanged; no other key is touched; the token/user pairing is preserved |
| `AuthService.SessionCleared` | src/services/authService.ts:37-40 | both session keys are absent afterwards, so `getToken` and `getCurrentUser` return null; every other key keeps its value; the pairing holds; clearing again changes nothing (idempotent) |
| `AuthService.TokenOf` | src/services/authService.ts:42-44 | the stored token verbatim, or null exactly when the key is absent |
| `AuthService.CurrentUserOf` | src/services/authService.ts:46-49 | null when `user` is absent or empty; otherwise the parsed profile, or a thrown syntax error when the text does not parse |
| `AuthService.PersistedSessionReadsBack` | src/services/authService.ts:27-33 | after a reply with a token, `getToken` returns that token and `getCurrentUser` returns the reply's `{username, email}` |
| `AuthService.PersistSession` | src/services/authService.ts:27-33 | the two `setItem` calls produce `SessionPersisted` of the old storage |
| `AuthService.Register` | src/services/authService.ts:7-20 | returns the reply; storage is persisted on success and untouched when the request fails |
| `AuthService.Login` | src/services/authService.ts:22-35 | the same contract as `register`, for the login endpoint |
| `AuthService.Logout` | src/services/authService.ts:37-40 | the two `removeItem` calls produce `SessionCleared` of the old storage |
| `Storage.BrowserStorage.SetItem` | src/services/authService.ts:28 | writes one key and keeps every other entry |
| `Storage.BrowserStorage.RemoveItem` | src/services/authService.ts:38 | removes one key and keeps every other entry |
| `AuthContext.AuthProvider.constructor` | src/context/AuthContext.tsx:16 | `user` starts as null |
| `AuthContext.AuthProvider.Value` | src/context/AuthContext.tsx:41 | `isAuthenticated` is true exactly when `user` is non-null |
| `AuthContext.AuthProvider.Init` | src/context/AuthContext.tsx:18-23 | adopts the stored profile when there is one, otherwise keeps `user`; an unparsable stored profile throws and changes nothing |
| `AuthContext.AuthProvider.Login` | src/context/AuthContext.tsx:25-28 | on success `user` is the reply's `{username, email}` (even with an empty token); on failure `user` and storage are unchanged and the error propagates |
| `AuthContext.AuthProvider.Register` | src/context/AuthContext.tsx:30-33 | the same transition as `login` |
| `AuthContext.AuthProvider.Logout` | src/context/AuthContext.tsx:35-38 | storage is cleared, `user` is null and `isAuthenticated` is false, unconditionally |
| `AuthContext.UseAuth` | src/context/AuthContext.tsx:47-53 | outside a provider it raises the "useAuth must be used within AuthProvider" error and never yields a value; inside, it yields the provider's value |
| `Decimal.NatToString` | src/services/apiService.ts:29 | an id is printed as a non-empty string of decimal digits |
| `Decimal.IntToString` | src/services/apiService.ts:29 | a printed id contains only digits and a minus sign |
| `Decimal.ParseIntToString` | src/services/apiService.ts:28-31 | a printed id reads back as the same id |
| `ApiService.ConfigFor` | src/services/apiService.ts:8-10 | every request goes to the single base URL with the call's method, path and body, and carries no header of its own |
| `ApiService.Intercept` | src/services/apiService.ts:13-19 | with a non-empty token, `Authorization` is `Bearer <token>`; with a null or empty token the config is returned unchanged; no other field and no other header changes |
| `ApiService.Outgoing` | src/services/apiService.ts:13-19 | a request carries an `Authorization` header exactly when storage holds a non-empty token, and that header is `Bearer` followed by the stored token |
| `ApiService.MethodOf` | src/services/apiService.ts:23-55 | the two reads use GET, the two creations POST, the task update PUT and the two removals DELETE, and no operation uses another method |
| `ApiService.PathOf` | src/services/apiService.ts:23-55 | `getProjects` and `createProject` use `/projects`; `getProject(id)` and `deleteProject(id)` use `/projects/{id}`; `createTask(pid)` uses `/projects/{pid}/tasks`; `updateTask(tid)` and `deleteTask(tid)` use `/tasks/{tid}` |
| `ApiService.RouteRoundTrip` | src/services/apiService.ts:21-56 | each operation's (method, path) identifies that operation and its ids: GET/POST `/projects`, GET/DELETE `/projects/{id}`, POST `/projects/{pid}/tasks`, PUT/DELETE `/tasks/{tid}` |
| `ApiService.ApiClient.constructor` | src/services/apiService.ts:8-10 | a new client has sent nothing |
| `ApiService.ApiClient.Send` | src/services/apiService.ts:13-19 | appends exactly one request, built with the token that storage holds at the moment of the call |
| `App.PrivateRoute` | src/App.tsx:10-13 | renders its child exactly when authenticated, otherwise redirects to `/login` |
| `App.PublicRoute` | src/App.tsx:15-18 | renders its child exactly when `PrivateRoute` does not, otherwise redirects to `/dashboard` |
| `App.RouteElement` | src/App.tsx:25-57 | `/` always redirects to `/dashboard`; `/login` and `/register` render their page when not authenticated and otherwise redirect to `/dashboard`; `/dashboard` and `/projects/:id` render their page (with the route's id) when authenticated and otherwise redirect to `/login`; a rendered page is private exactly when authenticated |
| `App.NavigationSettles` | src/App.tsx:10-25 | every location settles within two redirects on a page that is private exactly when authenticated; an anonymous visitor to `/` ends at the login page; an authenticated visitor to `/` or `/login` ends at the dashboard |
| `Dashboard.CreateErrorText` | src/components/Dashboard.tsx:48 | the server's non-empty message, else "Failed to create project" |
| `Dashboard.CompletedTasks` | src/components/Dashboard.tsx:90 | the completed tasks of the list: every completed task with its multiplicity, nothing that is not completed, and never more tasks than the list |
| `Dashboard.AllCompletedIffFullCount` | src/components/Dashboard.tsx:88-90 | the completed count equals the task count exactly when every task is completed |
| `Dashboard.CardCounts` | src/components/Dashboard.tsx:88-90 | a card shows the number of tasks and the length of the completed-task filter, whose contents `CompletedTasks` fixes; the second never exceeds the first |
| `Dashboard.DashboardPage.constructor` | src/components/Dashboard.tsx:9-14 | the initial state: no projects, closed modal, empty form, not loading, no error |
| `Dashboard.DashboardPage.LoadProjects` | src/components/Dashboard.tsx:22-29 | one GET `/projects`; the list is replaced on success and unchanged on failure |
| `Dashboard.DashboardPage.HandleCreateProject` | src/components/Dashboard.tsx:31-52 | a title shorter than 3 characters sets the "Title must be at least 3 characters" error and sends nothing; on success the modal closes, the form is reset and the list is reloaded; on failure the error text is set; `loading` ends false |
| `Dashboard.DashboardPage.HandleDeleteProject` | src/components/Dashboard.tsx:54-63 | sends nothing unless confirmed; when confirmed, one DELETE, then one reload on success or an alert on failure |
| `ProjectDetails.DueDateField` | src/components/ProjectDetails.tsx:37 | an empty due date is sent as absent, a non-empty one verbatim |
| `ProjectDetails.TogglePayload` | src/components/ProjectDetails.tsx:52-54 | the update carries only `isCompleted`, and it is the negation of the task's current value |
| `ProjectDetails.ProjectDetailsPage.constructor` | src/components/ProjectDetails.tsx:10-14 | the initial state: no project, closed modal, empty form, not loading |
| `ProjectDetails.ProjectDetailsPage.LoadProject` | src/components/ProjectDetails.tsx:20-27 | one GET `/projects/{id}` for the route's id; the project is replaced on success and unchanged on failure |
| `ProjectDetails.ProjectDetailsPage.HandleCreateTask` | src/components/ProjectDetails.tsx:29-48 | does nothing without a title or a loaded project; otherwise one POST under the loaded project's id; on success the modal closes, the form is reset and the project is reloaded; on failure an alert; `loading` ends false |
| `ProjectDetails.ProjectDetailsPage.HandleToggleTask` | src/components/ProjectDetails.tsx:50-59 | one PUT `/tasks/{id}` with the flipped `isCompleted`, then one reload on success or an alert on failure |
| `ProjectDetails.ProjectDetailsPage.HandleDeleteTask` | src/components/ProjectDetails.tsx:61-70 | sends nothing unless confirmed; when confirmed, one DELETE `/tasks/{id}`, then one reload on success or an alert on failure |

## Left out

- The HTTP transport (axios), response parsing and the requests to the auth endpoints. The server's answer is a parameter. The credentials are passed along but not recorded.
- What the server returns after a mutation. The data of a successful create, update or delete reply is not used, as in the code.
- Asynchronous timing and the out-of-order completion of overlapping requests. Each handler is one atomic step. In the code, none of the reloads is awaited: not after a project create or delete (src/components/Dashboard.tsx:46, :59), and not after a task create, toggle or delete (src/components/ProjectDetails.tsx:42, :55, :66). Here each reload runs to completion inside the step.
- Dashboard.DashboardPage.HandleCreateProject: states `loading` only at the end of the handler. The value `true` during the awaited request cannot be observed in a one-step model.
- ProjectDetails.ProjectDetailsPage.HandleCreateTask: states `loading` only at the end of the handler, for the same reason.
- AuthContext.AuthProvider.Init: a thrown parse error is returned as a value. React's handling of an exception raised inside an effect is not modelled.
- UserJson.EncodeUser: escapes only `"` and `\`. `JSON.stringify` also escapes control characters; the round trip holds either way.
- UserJson.DecodeUser accepts only the layout that `EncodeUser` writes. Other JSON documents stored under `user` by other code (other whitespace, other key order, `null`, a non-object) all count as a parse failure.
- A missing `token` field in a reply is modelled as the empty string. Both are falsy in the code's test.
- Title length: the code compares `title.length`, which counts UTF-16 code units. The model counts characters.
- `Number(id)` parsing of the route parameter. The page takes the id as an integer.
- Ids are taken as unbounded integers, not JavaScript numbers. `Decimal.IntToString` always prints plain digits. `${id}` would print exponent form from 1e21 on, and a decimal point for a non-integer id; neither case is modelled.
- `toLocaleDateString` formatting of due dates.
- JSX rendering, CSS, opening and closing the modal by clicks, the logout button and `navigate` effects.
- `window.confirm` and `alert` as real dialogs. Confirmation is a boolean input; an alert is a returned message.
- The real `localStorage` API and coordination between browser tabs.
- The Login and Register form components are not part of this model.
- `ApiService.Resolve` is a reference router written for this model. It is not in the source, and it exists so that `RouteRoundTrip` can state that routes are distinct.
