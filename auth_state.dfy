/** The session the authentication provider holds: the in-memory `user`, `token`
    and `isLoading`, the local-storage entries it writes, and what it sends and shows.
    Each transition is a function from the session before to the session after; the
    outcome of the network call a transition awaits is one of its parameters. */
module AuthState {
  import opened Wrappers
  import opened UserJson

  const UserKey := "business_nexus_user"
  const TokenKey := "business_nexus_token"

  /** What the caller of an operation sees thrown. */
  datatype Failure =
    | RequestFailed(message: Option<string>)  // the request's error, re-thrown as is
    | NotAuthenticated                        // `new Error("Not authenticated")`
    | MalformedStoredUser                     // `JSON.parse` throwing on the stored user

  datatype Outcome = Completed | Raised(error: Failure)

  /** The settled result of one network call: its data, or an error with the
      server's optional `message`. */
  datatype Reply<T> = Ok(value: T) | Failed(message: Option<string>)

  datatype Request =
    | LoginRequest(email: string, password: string, role: string)
    | RegisterRequest(name: string, email: string, password: string, role: string)
    | UpdateRequest(userId: string, updates: map<string, string>, bearer: string)

  datatype Toast = SuccessToast(text: string) | ErrorToast(text: string)

  datatype Session = Session(
    user: Option<User>,
    token: Option<string>,
    isLoading: bool,
    store: map<string, string>,  // local storage
    requests: seq<Request>,      // every request sent, oldest first
    toasts: seq<Toast>)          // every notification shown, oldest first

  datatype Step = Step(next: Session, out: Outcome)

  function Lookup(store: map<string, string>, key: string): Option<string>
  {
    if key in store then Some(store[key]) else None
  }

  /** `error.response?.data?.message || fallback` */
  function ErrorText(message: Option<string>, fallback: string): string
  {
    if Truthy(message) then message.value else fallback
  }

  function IsAuthenticated(s: Session): bool
  {
    s.user.Some?
  }

  function UserRole(s: Session): Option<string>
  {
    if s.user.Some? then Some(s.user.value.role) else None
  }

  /** The provider as first rendered, over whatever local storage holds. */
  function Start(store: map<string, string>): Session
  {
    Session(None, None, true, store, [], [])
  }

  /** The mount effect: restore the session when both stored entries are truthy. */
  function Load(s: Session): Step
  {
    var storedUser := Lookup(s.store, UserKey);
    var storedToken := Lookup(s.store, TokenKey);
    if Truthy(storedUser) && Truthy(storedToken) then
      match Parse(storedUser.value)
      case None => Step(s, Raised(MalformedStoredUser))
      case Some(u) => Step(s.(user := Some(u), token := storedToken, isLoading := false), Completed)
    else
      Step(s.(isLoading := false), Completed)
  }

  /** Login and register up to their `await`: loading, request sent. */
  function BeginRequest(s: Session, req: Request): Session
  {
    s.(isLoading := true, requests := s.requests + [req])
  }

  /** Login and register after their `await`, including the `finally`. */
  function FinishAuth(s: Session, reply: Reply<(User, string)>, successText: string, fallbackText: string): Step
  {
    match reply
    case Ok((u, t)) =>
      Step(s.(user := Some(u), token := Some(t),
              store := s.store[UserKey := Stringify(u)][TokenKey := t],
              toasts := s.toasts + [SuccessToast(successText)],
              isLoading := false),
           Completed)
    case Failed(m) =>
      Step(s.(toasts := s.toasts + [ErrorToast(ErrorText(m, fallbackText))], isLoading := false),
           Raised(RequestFailed(m)))
  }

  function Login(s: Session, email: string, password: string, role: string, reply: Reply<(User, string)>): Step
  {
    FinishAuth(BeginRequest(s, LoginRequest(email, password, role)), reply,
               "Successfully logged in!", "Login failed")
  }

  function Register(s: Session, name: string, email: string, password: string, role: string,
                    reply: Reply<(User, string)>): Step
  {
    FinishAuth(BeginRequest(s, RegisterRequest(name, email, password, role)), reply,
               "Account created successfully!", "Registration failed")
  }

  function Logout(s: Session): Session
  {
    s.(user := None, token := None,
       store := s.store - {UserKey, TokenKey},
       toasts := s.toasts + [SuccessToast("Logged out successfully")])
  }

  function UpdateProfile(s: Session, userId: string, updates: map<string, string>, reply: Reply<User>): Step
  {
    if !Truthy(s.token) then Step(s, Raised(NotAuthenticated))
    else
      var sent := s.(requests := s.requests + [UpdateRequest(userId, updates, s.token.value)]);
      match reply
      case Ok(u) =>
        Step(sent.(user := Some(u), store := sent.store[UserKey := Stringify(u)],
                   toasts := sent.toasts + [SuccessToast("Profile updated successfully")]),
             Completed)
      case Failed(m) =>
        Step(sent.(toasts := sent.toasts + [ErrorToast(ErrorText(m, "Failed to update profile"))]),
             Raised(RequestFailed(m)))
  }

  /** A user is held exactly when a token is. */
  ghost predicate Consistent(s: Session)
  {
    s.user.Some? <==> s.token.Some?
  }

  /** Local storage holds the in-memory user, as its JSON text, and the in-memory token. */
  ghost predicate Persisted(s: Session)
  {
    s.user.Some? ==>
      UserKey in s.store && s.store[UserKey] == Stringify(s.user.value) &&
      TokenKey in s.store && s.token == Some(s.store[TokenKey])
  }

  ghost predicate Valid(s: Session)
  {
    Consistent(s) && Persisted(s)
  }

  /** Everything in local storage other than the two session entries. */
  function Others(store: map<string, string>): map<string, string>
  {
    store - {UserKey, TokenKey}
  }

  // ---------------------------------------------------------------- properties

  lemma StartIsSignedOut(store: map<string, string>)
    ensures Valid(Start(store)) && !IsAuthenticated(Start(store)) && Start(store).isLoading
    ensures Start(store).token == None
  {
  }

  /** Start-up restores a session exactly when both entries are truthy and the user
      entry parses; a malformed user entry is thrown and leaves loading set. */
  lemma LoadRestoresOnlyComplete(store: map<string, string>)
    ensures var r := Load(Start(store));
      Valid(r.next) && r.next.store == store && r.next.requests == [] && r.next.toasts == [] &&
      (r.next.user.Some? <==>
         Truthy(Lookup(store, UserKey)) && Truthy(Lookup(store, TokenKey)) && Parse(store[UserKey]).Some?) &&
      (r.next.user.Some? ==> r.next.user == Parse(store[UserKey]) && r.next.token == Some(store[TokenKey])) &&
      (r.out == Raised(MalformedStoredUser) <==>
         Truthy(Lookup(store, UserKey)) && Truthy(Lookup(store, TokenKey)) && Parse(store[UserKey]).None?) &&
      (r.out == Completed || r.out == Raised(MalformedStoredUser)) &&
      (r.out == Completed <==> !r.next.isLoading) &&
      (r.out.Raised? ==> r.next == Start(store))
  {
    if UserKey in store && Parse(store[UserKey]).Some? {
      StringifyParse(store[UserKey]);
    }
  }

  /** A missing or empty user entry, or a missing or empty token entry, restores nothing:
      start-up only clears loading. */
  lemma LoadIgnoresHalfSession(store: map<string, string>)
    requires !(Truthy(Lookup(store, UserKey)) && Truthy(Lookup(store, TokenKey)))
    ensures Load(Start(store)) == Step(Start(store).(isLoading := false), Completed)
  {
  }

  /** While login or register awaits its reply, loading is set and the request is out. */
  lemma LoadingWhileInFlight(s: Session, req: Request)
    ensures BeginRequest(s, req).isLoading
    ensures BeginRequest(s, req).requests == s.requests + [req]
    ensures BeginRequest(s, req).(isLoading := s.isLoading, requests := s.requests) == s
  {
  }

  /** A successful login or register holds the returned pair and writes both entries
      with the same values, touching no other entry; loading ends. */
  lemma AuthSuccessPersists(s: Session, req: Request, u: User, t: string, ok: string, fallback: string)
    ensures var r := FinishAuth(BeginRequest(s, req), Ok((u, t)), ok, fallback);
      r.out == Completed && !r.next.isLoading &&
      r.next.user == Some(u) && r.next.token == Some(t) &&
      UserKey in r.next.store && Parse(r.next.store[UserKey]) == Some(u) &&
      TokenKey in r.next.store && r.next.store[TokenKey] == t &&
      Others(r.next.store) == Others(s.store) &&
      r.next.requests == s.requests + [req] && r.next.toasts == s.toasts + [SuccessToast(ok)] &&
      Valid(r.next)
  {
    ParseStringify(u);
    var st := s.store[UserKey := Stringify(u)][TokenKey := t];
    assert Others(st) == Others(s.store);
  }

  /** A failed login or register leaves user, token and storage as they were,
      shows the server's message or the fallback, and re-throws the same error. */
  lemma AuthFailureKeepsSession(s: Session, req: Request, m: Option<string>, ok: string, fallback: string)
    ensures var r := FinishAuth(BeginRequest(s, req), Failed(m), ok, fallback);
      r.out == Raised(RequestFailed(m)) && !r.next.isLoading &&
      r.next.user == s.user && r.next.token == s.token && r.next.store == s.store &&
      r.next.requests == s.requests + [req] &&
      r.next.toasts == s.toasts + [ErrorToast(if Truthy(m) then m.value else fallback)] &&
      (Valid(s) ==> Valid(r.next))
  {
  }

  lemma LoginSendsCredentials(s: Session, email: string, password: string, role: string, reply: Reply<(User, string)>)
    ensures var r := Login(s, email, password, role, reply);
      r.next.requests == s.requests + [LoginRequest(email, password, role)] && !r.next.isLoading &&
      (reply.Ok? ==> r.next.user == Some(reply.value.0) && r.next.token == Some(reply.value.1) &&
                     r.next.toasts == s.toasts + [SuccessToast("Successfully logged in!")]) &&
      (reply.Failed? ==> r.next.user == s.user && r.next.token == s.token && r.next.store == s.store &&
                         r.out == Raised(RequestFailed(reply.message)) &&
                         r.next.toasts == s.toasts + [ErrorToast(ErrorText(reply.message, "Login failed"))])
  {
  }

  lemma RegisterSendsDetails(s: Session, name: string, email: string, password: string, role: string,
                             reply: Reply<(User, string)>)
    ensures var r := Register(s, name, email, password, role, reply);
      r.next.requests == s.requests + [RegisterRequest(name, email, password, role)] && !r.next.isLoading &&
      (reply.Ok? ==> r.next.user == Some(reply.value.0) && r.next.token == Some(reply.value.1) &&
                     r.next.toasts == s.toasts + [SuccessToast("Account created successfully!")]) &&
      (reply.Failed? ==> r.next.user == s.user && r.next.token == s.token && r.next.store == s.store &&
                         r.out == Raised(RequestFailed(reply.message)) &&
                         r.next.toasts == s.toasts + [ErrorToast(ErrorText(reply.message, "Registration failed"))])
  {
  }

  /** Logout clears the session and both entries, and nothing else; no request is sent. */
  lemma LogoutClears(s: Session)
    ensures var r := Logout(s);
      r.user == None && r.token == None && !IsAuthenticated(r) &&
      UserKey !in r.store && TokenKey !in r.store && Others(r.store) == Others(s.store) &&
      r.isLoading == s.isLoading && r.requests == s.requests &&
      r.toasts == s.toasts + [SuccessToast("Logged out successfully")] && Valid(r)
  {
  }

  /** A second logout changes nothing but the notifications shown. */
  lemma LogoutIdempotent(s: Session)
    ensures Logout(Logout(s)).(toasts := []) == Logout(s).(toasts := [])
  {
    assert Logout(s).store - {UserKey, TokenKey} == Logout(s).store;
  }

  /** Without a truthy token, updateProfile throws before sending anything. */
  lemma UpdateNeedsToken(s: Session, userId: string, updates: map<string, string>, reply: Reply<User>)
    requires !Truthy(s.token)
    ensures UpdateProfile(s, userId, updates, reply) == Step(s, Raised(NotAuthenticated))
  {
  }

  /** A successful update replaces the user and its entry only; the token, its entry
      and loading are kept, and the request carried the held token. */
  lemma UpdateSuccessReplacesUser(s: Session, userId: string, updates: map<string, string>, u: User)
    requires Truthy(s.token)
    ensures var r := UpdateProfile(s, userId, updates, Ok(u));
      r.out == Completed && r.next.user == Some(u) &&
      UserKey in r.next.store && Parse(r.next.store[UserKey]) == Some(u) &&
      r.next.store - {UserKey} == s.store - {UserKey} &&
      r.next.token == s.token && r.next.isLoading == s.isLoading &&
      r.next.requests == s.requests + [UpdateRequest(userId, updates, s.token.value)] &&
      r.next.toasts == s.toasts + [SuccessToast("Profile updated successfully")] &&
      (Valid(s) ==> Valid(r.next))
  {
    var r := UpdateProfile(s, userId, updates, Ok(u));
    ParseStringify(u);
    assert r.next.store == s.store[UserKey := Stringify(u)];
    assert s.store[UserKey := Stringify(u)] - {UserKey} == s.store - {UserKey};
    if Valid(s) {
      UpdateProfileKeepsValid(s, userId, updates, Ok(u));
    }
  }

  /** A failed update keeps user, token, storage and loading, and re-throws. */
  lemma UpdateFailureKeepsSession(s: Session, userId: string, updates: map<string, string>, m: Option<string>)
    requires Truthy(s.token)
    ensures var r := UpdateProfile(s, userId, updates, Failed(m));
      r.out == Raised(RequestFailed(m)) &&
      r.next.user == s.user && r.next.token == s.token && r.next.store == s.store &&
      r.next.isLoading == s.isLoading &&
      r.next.requests == s.requests + [UpdateRequest(userId, updates, s.token.value)] &&
      r.next.toasts == s.toasts + [ErrorToast(ErrorText(m, "Failed to update profile"))]
  {
  }

  /** `isAuthenticated` looks at the user only; in a valid session that is the same
      as holding a token. */
  lemma AuthenticatedIffToken(s: Session)
    requires Valid(s)
    ensures IsAuthenticated(s) <==> s.token.Some?
  {
  }

  /** Start-up keeps a valid session valid: a restored user's entry is exactly its text. */
  lemma LoadKeepsValid(s: Session)
    requires Valid(s)
    ensures Valid(Load(s).next)
  {
    var storedUser := Lookup(s.store, UserKey);
    if Truthy(storedUser) && Parse(storedUser.value).Some? {
      StringifyParse(storedUser.value);
    }
  }

  /** Sending a request keeps user and token consistent and storage in step with them. */
  lemma BeginRequestKeepsValid(s: Session, req: Request)
    requires Valid(s)
    ensures Valid(BeginRequest(s, req))
  {
  }

  /** Finishing a login or registration, either way, keeps the session valid. */
  lemma FinishAuthKeepsValid(s: Session, reply: Reply<(User, string)>, ok: string, fallback: string)
    requires Valid(s)
    ensures Valid(FinishAuth(s, reply, ok, fallback).next)
  {
  }

  /** Logging out keeps the session valid. */
  lemma LogoutKeepsValid(s: Session)
    requires Valid(s)
    ensures Valid(Logout(s))
  {
  }

  /** An update, refused, failed or applied, keeps the session valid. */
  lemma UpdateProfileKeepsValid(s: Session, userId: string, updates: map<string, string>, update: Reply<User>)
    requires Valid(s)
    ensures Valid(UpdateProfile(s, userId, updates, update).next)
  {
  }

  /** A reload restores the session held before it, as long as the token is truthy;
      a session whose token is the empty string does not survive a reload. */
  lemma ReloadRestoresSession(s: Session)
    requires Valid(s) && IsAuthenticated(s)
    ensures var r := Load(Start(s.store)).next;
      (Truthy(s.token) ==> r.user == s.user && r.token == s.token) &&
      (!Truthy(s.token) ==> !IsAuthenticated(r))
  {
    ParseStringify(s.user.value);
  }
}
