/** The authentication provider as the component keeps it: three state fields that
    the setters update one by one, local storage updated in place, and the logs of
    requests sent and notifications shown. Each method is proved to perform the
    transition of the same name in AuthState and to keep the session valid. */
module AuthContext {
  import opened Wrappers
  import opened UserJson
  import opened AuthState

  class AuthProvider {
    var user: Option<User>
    var token: Option<string>
    var isLoading: bool
    var store: map<string, string>
    var requests: seq<Request>
    var toasts: seq<Toast>

    /** The provider's fields as a session value. */
    function State(): Session
      reads this
    {
      Session(user, token, isLoading, store, requests, toasts)
    }

    ghost predicate Valid()
      reads this
    {
      AuthState.Valid(State())
    }

    /** First render: nothing held, loading, over the given local storage. */
    constructor (storage: map<string, string>)
      ensures Valid() && State() == Start(storage)
    {
      user, token, isLoading := None, None, true;
      store := storage;
      requests, toasts := [], [];
    }

    /** `!!user` */
    function IsAuthenticated(): (b: bool)
      reads this
      requires Valid()
      ensures b <==> user.Some?
      ensures b <==> token.Some?
    {
      user.Some?
    }

    /** The mount effect. A malformed user entry is thrown from the effect. */
    method Load() returns (out: Outcome)
      requires Valid()
      modifies this
      ensures Valid()
      ensures Step(State(), out) == AuthState.Load(old(State()))
    {
      var storedUser := Lookup(store, UserKey);
      var storedToken := Lookup(store, TokenKey);
      if Truthy(storedUser) && Truthy(storedToken) {
        var parsed := Parse(storedUser.value);
        if parsed.None? {
          return Raised(MalformedStoredUser);
        }
        StringifyParse(storedUser.value);
        user := parsed;
        token := storedToken;
      }
      isLoading := false;
      out := Completed;
    }

    /** Login and register up to their `await`. */
    method BeginRequest(req: Request)
      requires Valid()
      modifies this
      ensures Valid() && isLoading
      ensures State() == AuthState.BeginRequest(old(State()), req)
    {
      isLoading := true;
      requests := requests + [req];
    }

    /** Login and register from the settled reply on, `finally` included. */
    method FinishAuth(reply: Reply<(User, string)>, successText: string, fallbackText: string)
      returns (out: Outcome)
      requires Valid()
      modifies this
      ensures Valid() && !isLoading
      ensures Step(State(), out) == AuthState.FinishAuth(old(State()), reply, successText, fallbackText)
    {
      match reply {
        case Ok((u, t)) =>
          user := Some(u);
          token := Some(t);
          store := store[UserKey := Stringify(u)];
          store := store[TokenKey := t];
          toasts := toasts + [SuccessToast(successText)];
          out := Completed;
        case Failed(m) =>
          toasts := toasts + [ErrorToast(ErrorText(m, fallbackText))];
          out := Raised(RequestFailed(m));
      }
      isLoading := false;
    }

    method Login(email: string, password: string, role: string, reply: Reply<(User, string)>)
      returns (out: Outcome)
      requires Valid()
      modifies this
      ensures Valid() && !isLoading
      ensures Step(State(), out) == AuthState.Login(old(State()), email, password, role, reply)
    {
      BeginRequest(LoginRequest(email, password, role));
      out := FinishAuth(reply, "Successfully logged in!", "Login failed");
    }

    method Register(name: string, email: string, password: string, role: string, reply: Reply<(User, string)>)
      returns (out: Outcome)
      requires Valid()
      modifies this
      ensures Valid() && !isLoading
      ensures Step(State(), out) == AuthState.Register(old(State()), name, email, password, role, reply)
    {
      BeginRequest(RegisterRequest(name, email, password, role));
      out := FinishAuth(reply, "Account created successfully!", "Registration failed");
    }

    method Logout()
      requires Valid()
      modifies this
      ensures Valid() && user == None && token == None
      ensures UserKey !in store && TokenKey !in store
      ensures State() == AuthState.Logout(old(State()))
    {
      user := None;
      token := None;
      store := store - {UserKey};
      store := store - {TokenKey};
      toasts := toasts + [SuccessToast("Logged out successfully")];
      assert old(store) - {UserKey} - {TokenKey} == old(store) - {UserKey, TokenKey};
    }

    method UpdateProfile(userId: string, updates: map<string, string>, reply: Reply<User>)
      returns (out: Outcome)
      requires Valid()
      modifies this
      ensures Valid() && token == old(token) && isLoading == old(isLoading)
      ensures Step(State(), out) == AuthState.UpdateProfile(old(State()), userId, updates, reply)
    {
      if !Truthy(token) {
        return Raised(NotAuthenticated);
      }
      match reply {
        case Ok(u) =>
          requests := requests + [UpdateRequest(userId, updates, token.value)];
          user := Some(u);
          store := store[UserKey := Stringify(u)];
          toasts := toasts + [SuccessToast("Profile updated successfully")];
          out := Completed;
        case Failed(m) =>
          requests := requests + [UpdateRequest(userId, updates, token.value)];
          toasts := toasts + [ErrorToast(ErrorText(m, "Failed to update profile"))];
          out := Raised(RequestFailed(m));
      }
    }
  }
}
