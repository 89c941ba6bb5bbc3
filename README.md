# Business Nexus: session lifecycle and route authorization

This project models the client side of the Business Nexus web application. That is
the part that decides who is signed in and which pages they may see:

- **Session manager.** The `AuthProvider` of `src/context/AuthContext.tsx` holds
  `user`, `token` and `isLoading`. It mirrors the session into local storage under the
  keys `business_nexus_user` and `business_nexus_token`. It offers start-up restore,
  `login`, `register`, `logout`, `updateProfile` and the derived `isAuthenticated`.
- **Route guard.** `PrivateRoute` in `src/components/PrivateRoute.tsx` sends a
  signed-out visitor to `/login` and a user of the wrong role to `/`. Otherwise it
  renders the wrapped page.
- **Route table.** The routes declared in `src/App.tsx`: two public pages, eleven
  guarded layout routes with their children, and redirects to `/login` for `/` and
  for everything else.

Modules:

- `Wrappers` (`wrappers.dfy`): optional values and the JavaScript truthiness of an
  optional string.
- `UserJson` (`user_json.dfy`): the user record and its JSON text in storage, with the
  round trip `Parse(Stringify(u)) == Some(u)`.
- `AuthState` (`auth_state.dfy`): the session as a value, each operation as a
  transition function, and the properties of those transitions.
- `AuthContext` (`auth_context.dfy`): the class `AuthProvider`, whose methods update
  the fields step by step. Each method is proved to perform the `AuthState`
  transition of the same name and to keep the session invariant.
- `PrivateRoute` (`private_route.dfy`): the guard's three-way decision.
- `AppRoutes` (`app_routes.dfy`): the route table, a path matcher, and lemmas that
  compose the table with the guard and the session.

The network is not modelled. Each call's settled result is a parameter: `Reply.Ok`
with the response data, or `Reply.Failed` with the server's optional `message`. Every
request sent is appended to `requests`, so "no request was sent" can be stated.
Every notification shown is appended to `toasts`.

`login` and `register` are each split at their `await`. `BeginRequest` sets
`isLoading` and sends the request. `FinishAuth` applies the reply, and its `finally`
clears `isLoading`. This makes the in-flight state observable.

The session invariant `AuthState.Valid` has two parts:
- A user is held exactly when a token is.
- Local storage holds the in-memory user, as its JSON text, and the in-memory token.

`isAuthenticated` tests the user only (`src/context/AuthContext.tsx:102`), not the
token. In every valid session the two agree (`AuthState.AuthenticatedIffToken`).

## Model

| member | source | states |
|---|---|---|
| `UserJson.Stringify` | src/context/AuthContext.tsx:35 | the stored user text is non-empty, starts with `{` and ends with `}`, so the truthiness test at start-up accepts it |
| `UserJson.ReadString` | src/context/AuthContext.tsx:20 | reading a string literal's body leaves a proper suffix of the input, the text just after the closing quote |
| `UserJson.Parse` | src/context/AuthContext.tsx:20 | reads back the user object written to storage; its properties are `ParseStringify` and `StringifyParse` |
| `UserJson.ReadEscaped` | src/context/AuthContext.tsx:20 | reading the escaped text of any string followed by a quote gives back that string and the rest unchanged |
| `UserJson.ReadStringInverse` | src/context/AuthContext.tsx:20 | whatever a string literal's body reads as, the text was the escaped value, a quote and the rest |
| `UserJson.ParseStringify` | src/context/AuthContext.tsx:20 | parsing the text written for a user gives back that same user |
| `UserJson.StringifyParse` | src/context/AuthContext.tsx:20 | any user text that parses is exactly the text written for the user it yields |
| `Wrappers.Truthy` | src/context/AuthContext.tsx:19 | an optional string is truthy when present and non-empty, the test at AuthContext.tsx:19 and :77 and PrivateRoute.tsx:11; stated through `LoadRestoresOnlyComplete`, `UpdateNeedsToken` and `PrivateRoute.Decide` |
| `AuthState.Lookup` | src/context/AuthContext.tsx:17-18 | `localStorage.getItem`: the stored text, or nothing for a missing key; stated through `LoadRestoresOnlyComplete` and `LoadIgnoresHalfSession` |
| `AuthState.ErrorText` | src/context/AuthContext.tsx:40 | `error.response?.data?.message || fallback`, as at lines 40, 61 and 87; stated in `AuthFailureKeepsSession` (the message when truthy, else the fallback) |
| `AuthState.IsAuthenticated` | src/context/AuthContext.tsx:102 | `!!user`; stated by `AuthenticatedIffToken` and `AuthContext.AuthProvider.IsAuthenticated` |
| `AuthState.UserRole` | src/components/PrivateRoute.tsx:5-11 | `user?.role` as the guard reads it; stated through `SignedInReachesProtected` and `SignedInNeverSentToRoot` |
| `AuthState.Start` | src/context/AuthContext.tsx:12-14 | the provider as first rendered over the given storage; stated by `StartIsSignedOut` and `GuardRedirectsBeforeRestore` |
| `AuthState.Load` | src/context/AuthContext.tsx:16-24 | the mount effect as a transition; specified by `LoadRestoresOnlyComplete`, `LoadIgnoresHalfSession`, `LoadKeepsValid` |
| `AuthState.BeginRequest` | src/context/AuthContext.tsx:26-29 | login and register up to their `await`; specified by `LoadingWhileInFlight`, `BeginRequestKeepsValid` |
| `AuthState.FinishAuth` | src/context/AuthContext.tsx:30-44 | login and register after their `await`; specified by `AuthSuccessPersists`, `AuthFailureKeepsSession`, `FinishAuthKeepsValid` |
| `AuthState.Login` | src/context/AuthContext.tsx:26-45 | specified by `LoginSendsCredentials` |
| `AuthState.Register` | src/context/AuthContext.tsx:47-66 | specified by `RegisterSendsDetails` |
| `AuthState.Logout` | src/context/AuthContext.tsx:68-74 | specified by `LogoutClears`, `LogoutIdempotent`, `LogoutKeepsValid` |
| `AuthState.UpdateProfile` | src/context/AuthContext.tsx:76-90 | specified by `UpdateNeedsToken`, `UpdateSuccessReplacesUser`, `UpdateFailureKeepsSession`, `UpdateProfileKeepsValid` |
| `AuthState.StartIsSignedOut` | src/context/AuthContext.tsx:12-14 | the provider starts with no user, no token, loading set, and valid |
| `AuthState.LoadRestoresOnlyComplete` | src/context/AuthContext.tsx:16-24 | start-up restores a session iff both entries are truthy and the user text parses; it then holds exactly the parsed user and the stored token; the outcome is either completion or the malformed-user error, nothing else; that error changes nothing and leaves loading set, completion clears it; storage is untouched |
| `AuthState.LoadIgnoresHalfSession` | src/context/AuthContext.tsx:17-23 | when either entry is missing or the empty string, start-up restores nothing, completes and only clears loading |
| `AuthState.LoadKeepsValid` | src/context/AuthContext.tsx:16-24 | start-up keeps a valid session valid |
| `AuthState.LoadingWhileInFlight` | src/context/AuthContext.tsx:27-29 | while login or register awaits its reply, loading is true and the request has been sent; nothing else has changed |
| `AuthState.AuthSuccessPersists` | src/context/AuthContext.tsx:29-44 | a successful login or register holds the returned user and token, writes both entries so that they read back as the same pair, leaves every other entry alone, shows the success toast, completes, ends loading and leaves a valid session whatever the session before |
| `AuthState.AuthFailureKeepsSession` | src/context/AuthContext.tsx:39-44 | a failed login or register keeps user, token and storage, shows the server message or the fallback, re-raises the same error and ends loading |
| `AuthState.LoginSendsCredentials` | src/context/AuthContext.tsx:26-45 | login sends email, password and role once, with the login texts on both outcomes |
| `AuthState.RegisterSendsDetails` | src/context/AuthContext.tsx:47-66 | register sends name, email, password and role once, with the registration texts on both outcomes |
| `AuthState.LogoutClears` | src/context/AuthContext.tsx:68-74 | logout drops user and token, removes both entries, keeps every other entry and loading, sends nothing, and leaves a valid session |
| `AuthState.LogoutIdempotent` | src/context/AuthContext.tsx:68-74 | logging out twice gives the same state as logging out once, apart from the toast log |
| `AuthState.UpdateNeedsToken` | src/context/AuthContext.tsx:77 | without a truthy token, updateProfile raises "Not authenticated", sends nothing and changes nothing |
| `AuthState.UpdateSuccessReplacesUser` | src/context/AuthContext.tsx:79-85 | a successful update holds the returned user and rewrites only the user entry; token, token entry and loading are kept; the request carried the held token |
| `AuthState.UpdateFailureKeepsSession` | src/context/AuthContext.tsx:86-89 | a failed update keeps user, token, storage and loading, shows the message or the fallback, and re-raises |
| `AuthState.AuthenticatedIffToken` | src/context/AuthContext.tsx:102 | in a valid session, being authenticated (user held) is the same as holding a token |
| `AuthState.BeginRequestKeepsValid` | src/context/AuthContext.tsx:27-29 | sending a login or register request keeps the session valid |
| `AuthState.FinishAuthKeepsValid` | src/context/AuthContext.tsx:30-44 | finishing login or register, on either outcome, keeps the session valid |
| `AuthState.LogoutKeepsValid` | src/context/AuthContext.tsx:68-74 | logout keeps the session valid |
| `AuthState.UpdateProfileKeepsValid` | src/context/AuthContext.tsx:76-90 | an update, refused, failed or applied, keeps the session valid |
| `AuthState.ReloadRestoresSession` | src/context/AuthContext.tsx:19-21 | a reload restores a valid signed-in session exactly when its token is truthy; a session whose token is the empty string is lost on reload |
| `AuthContext.AuthProvider.constructor` | src/context/AuthContext.tsx:12-14 | the fields start as `null`, `null`, `true` over the given storage |
| `AuthContext.AuthProvider.IsAuthenticated` | src/context/AuthContext.tsx:102 | `!!user`; in a valid provider it is also "a token is held" |
| `AuthContext.AuthProvider.Load` | src/context/AuthContext.tsx:16-24 | performs the start-up transition on the fields and keeps the provider valid |
| `AuthContext.AuthProvider.BeginRequest` | src/context/AuthContext.tsx:27-29 | sets loading and records the request; keeps the provider valid |
| `AuthContext.AuthProvider.FinishAuth` | src/context/AuthContext.tsx:30-44 | applies the reply of login or register to fields and storage, clears loading, keeps the provider valid |
| `AuthContext.AuthProvider.Login` | src/context/AuthContext.tsx:26-45 | performs the login transition; loading ends false; the provider stays valid |
| `AuthContext.AuthProvider.Register` | src/context/AuthContext.tsx:47-66 | performs the register transition; loading ends false; the provider stays valid |
| `AuthContext.AuthProvider.Logout` | src/context/AuthContext.tsx:68-74 | clears user, token and both entries, performs the logout transition, and the provider stays valid |
| `AuthContext.AuthProvider.UpdateProfile` | src/context/AuthContext.tsx:76-90 | performs the update transition; token and loading are never changed; the provider stays valid |
| `PrivateRoute.Decide` | src/components/PrivateRoute.tsx:5-15 | signed out gives the `/login` redirect whatever the role; the `/` redirect comes iff signed in, a non-empty role is required and the user's role differs; the child renders iff signed in and the role is absent, empty or equal |
| `AppRoutes.App` | src/App.tsx:38-176 | the route table itself; its contents are pinned by `ProtectedRoutesAreGated` (the names and their guards), `AuthPagesArePublic`, `ChatAcceptsIndexAndUser` and `UnmatchedRedirectsToLogin` (what falls to `*`, against the separate `Paths` list) |
| `AppRoutes.PatternMatches` | src/App.tsx:52-168 | a child route's relative path matches segment by segment, `:name` matching any one segment; stated through `MatchChildSome`, `DeclaredIsClaimed` and `ClaimedIsDeclared` |
| `AppRoutes.MatchChild` | src/App.tsx:52-168 | the first child, index or nested, that claims the rest of the path; stated by `MatchChildSome` |
| `AppRoutes.Split` | src/App.tsx:38-176 | a URL path's segments are non-empty and contain no slash; `SplitJoin` pins them down as the path's pieces, in order |
| `AppRoutes.SplitJoin` | src/App.tsx:38-176 | splitting the path written for any non-empty, slash-free segments gives back exactly those segments, in order |
| `AppRoutes.SplitTwoSegments` | src/App.tsx:52-168 | a two-segment path `/a/b` splits into `a` and `b`, the form every child route's path takes |
| `AppRoutes.Resolve` | src/App.tsx:38-176 | a child page is rendered only under the named route of the first segment, inside that route's element; the empty path takes the `/` route |
| `AppRoutes.Navigate` | src/App.tsx:44-169 | a guarded route seen signed out redirects to `/login`; a redirect to `/` comes only from the guard of a signed-in user or from a route that itself redirects there |
| `AppRoutes.Show` | src/App.tsx:36-176 | the route table under the guard, for the session the provider holds; stated by `SignedOutSessionIsLockedOut`, `LogoutLocksEveryRoute`, `SignedInReachesProtected`, `GuardRedirectsBeforeRestore` and the path lemmas below |
| `AppRoutes.AuthPagesArePublic` | src/App.tsx:40-41 | `/login` and `/register` resolve to their pages without the guard, for any session |
| `AppRoutes.ProtectedRoutesAreGated` | src/App.tsx:44-169 | the named routes are exactly the two public ones and the eleven protected ones; each protected one is the guarded layout; no guard is given a role |
| `AppRoutes.UnmatchedRedirectsToLogin` | src/App.tsx:38-176 | a path redirects to `/login` exactly when it is `/` or matches none of the eighteen full paths the table declares (listed apart from the table in `Paths`); such a redirect renders no child |
| `AppRoutes.DeclaredIsClaimed` | src/App.tsx:40-169 | a path matching a declared full path is claimed by its route, not by `*` |
| `AppRoutes.ClaimedIsDeclared` | src/App.tsx:40-169 | a path claimed by a named route matches a declared full path |
| `AppRoutes.MatchChildSome` | src/App.tsx:52-168 | some child route claims the rest of a path exactly when one child's relative path matches it |
| `AppRoutes.ChatAcceptsIndexAndUser` | src/App.tsx:159-169 | `/chat` and `/chat/<userId>` both show the chat page inside the guarded layout |
| `AppRoutes.DashboardInvestorResolves` | src/App.tsx:44-54 | `dashboard/investor` resolves to the guarded layout with the investor dashboard in its outlet |
| `AppRoutes.ProfileWithoutIdResolves` | src/App.tsx:57-67 | `profile/investor` is claimed by no child, for want of the `:id` segment, and falls to `*` |
| `AppRoutes.DashboardInvestorPath` | src/App.tsx:44-54 | a signed-in session at `/dashboard/investor` sees the layout with the investor dashboard |
| `AppRoutes.ProfileWithoutIdRedirects` | src/App.tsx:57-67 | `/profile/investor` redirects to `/login` in every session |
| `AppRoutes.ChatUserPath` | src/App.tsx:159-169 | a signed-in session at `/chat/<userId>` sees the layout with the chat page, for any one-segment user id |
| `AppRoutes.SignedOutSeesOnlyAuthPages` | src/components/PrivateRoute.tsx:7-9 | over a table whose public routes are only login and register, a signed-out visitor sees login, register or a redirect to `/login`, whatever the path |
| `AppRoutes.AppPublicOnlyAuthPages` | src/App.tsx:40-175 | the application's table is such a table |
| `AppRoutes.SignedInNeverSentToRoot` | src/components/PrivateRoute.tsx:11-13 | no path sends a signed-in user to `/`, since no route demands a role |
| `AppRoutes.SignedOutSessionIsLockedOut` | src/App.tsx:40-175 | a session with no user reaches only the login page, the register page or the redirect to `/login` |
| `AppRoutes.LogoutLocksEveryRoute` | src/context/AuthContext.tsx:68-74 | after logout every path leads to the login or the register page |
| `AppRoutes.SignedInReachesProtected` | src/components/PrivateRoute.tsx:7-15 | a signed-in session gets the guarded layout at every protected top-level path |
| `AppRoutes.GuardRedirectsBeforeRestore` | src/components/PrivateRoute.tsx:7-9 | the guard ignores `isLoading`: before the mount effect runs, every protected top-level path redirects to `/login`, whatever storage holds |

## Left out

- Asynchrony: each operation is atomic. Overlapping calls and their last-write-wins
  races on the session are not modelled. Only the split of login and register at
  their `await` is kept.
- The network and `src/services/api.ts`: replies are parameters, and a request
  records only its payload and the bearer token. The base URL is not modelled. The
  mismatch between the client's `PUT /users/:id` and the server's `PUT /profile` is
  not modelled either.
- A server reply with a missing `user` or `token`: `Reply.Ok` always carries both.
  The same holds for `updateProfile`: a `null` response body would set the user to
  `null` and store the text `null`, and the model does not capture it.
- `backend/routes/user.js` is not part of this model. It has two notable traits:
  - it collapses every error to a 500 response;
  - it merges the whole request body into the user record (mass assignment).
- Toasts are recorded as a log of texts and are not delivered.
- React rendering, context plumbing and `useAuth` throwing outside a provider are
  not modelled.
- `forgotPassword` and `resetPassword` are not modelled. They are no-ops that change
  nothing.
- Local storage failures (quota, access denied) are not modelled. Neither are writes
  made by other tabs or by hand.
- UserJson.Stringify: escapes only `"` and `\`. `JSON.stringify` also escapes control
  characters (`\n`, `\u0000`, …) and writes every field of the user, not only id,
  name, email and role. Profile fields other than those four are not modelled.
- UserJson.Parse: reads only the four-field object that `Stringify` writes. `JSON.parse`
  accepts any JSON text. For example, a stored `null` next to a token restores a token
  without a user in the application. The model raises `MalformedStoredUser` for it
  instead.
- AppRoutes.Resolve: matching is case-sensitive and uses the path's segments. React
  Router matches case-insensitively by default, ranks routes, handles `replace` history and
  nests routes more deeply. None of that is modelled. Segment parameters match any
  non-empty segment. `Split` ignores leading, repeated and trailing slashes, while React
  Router ignores only trailing ones: `//dashboard` and `/dashboard//investor` fall to `*`
  in the application but reach the layout for a signed-in user in the model. Signed-out
  visitors are sent to `/login` either way.
- The role type `UserRole` is a string in the model.
