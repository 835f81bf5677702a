/** The session store (contexts/AuthContext.tsx): the provider's three state cells `user`,
    `token` and `loading`, and the origin's `localStorage`, read on start and written by
    login, register and logout.

    The transitions are first stated on values (`State`, `Restored`, `SignedIn`, `LoggedOut`)
    and proved about; the class `AuthProvider` performs them step by step and its methods are
    proved to agree with them. A page reload is a new provider over the same store. */
module Auth {
  import opened Common
  import opened Types
  import Json

  const TokenKey: string := "token"
  const UserKey: string := "user"
  const LoginPath: string := "/auth/login"
  const RegisterPath: string := "/auth/register"
  const ProviderMissing: string := "useAuth must be used within an AuthProvider"

  /** The body of a successful `/auth/login` or `/auth/register` reply. */
  datatype AuthData = AuthData(accessToken: string, user: User)

  /** The fields the registration form sends (forwarded as the request body). */
  datatype RegisterData = RegisterData(username: string, email: string, password: string, fullName: string, role: string)

  /** The provider's cells together with the durable store. */
  datatype State = State(user: Option<User>, token: Option<string>, loading: bool, store: map<string, string>)

  /** `localStorage.getItem(key)`: `null` when the key is absent. */
  function Lookup(store: map<string, string>, key: string): (r: Option<string>)
    ensures r.Some? <==> key in store
    ensures r.Some? ==> r.value == store[key]
  {
    if key in store then Some(store[key]) else None
  }

  /** JavaScript truthiness of a `getItem` result: present and not the empty string. */
  predicate Truthy(v: Option<string>)
  {
    v.Some? && v.value != ""
  }

  /** Both keys hold a non-empty string, the condition under which restore adopts them. */
  predicate BothStored(store: map<string, string>)
  {
    Truthy(Lookup(store, TokenKey)) && Truthy(Lookup(store, UserKey))
  }

  /** Restore throws when both keys are present but `Json.Parse` does not accept the stored
      user text; every such text is treated as one `JSON.parse` throws on. */
  predicate RestoreThrows(store: map<string, string>)
  {
    BothStored(store) && Json.Parse(store[UserKey]).None?
  }

  /** The state when the provider mounts: nobody signed in, still loading. */
  function Initial(store: map<string, string>): (r: State)
    ensures r.user.None? && r.token.None? && r.loading && r.store == store
  {
    State(None, None, true, store)
  }

  /** The effect that runs once on mount. */
  function Restored(s: State): (r: State)
    ensures r.store == s.store
    ensures BothStored(s.store) && Json.Parse(s.store[UserKey]).Some? ==>
      r.token == Some(s.store[TokenKey]) && r.user == Json.Parse(s.store[UserKey]) && !r.loading
    ensures !BothStored(s.store) ==> r.token == s.token && r.user == s.user && !r.loading
    ensures RestoreThrows(s.store) ==>
      r.token == Some(s.store[TokenKey]) && r.user == s.user && r.loading == s.loading
  {
    if BothStored(s.store) then
      var withToken := s.(token := Some(s.store[TokenKey]));
      match Json.Parse(s.store[UserKey])
      case Some(u) => withToken.(user := Some(u), loading := false)
      case None => withToken
    else s.(loading := false)
  }

  /** The common tail of login and register once the backend has replied. */
  function SignedIn(s: State, reply: Reply<AuthData>): (r: State)
    ensures r.loading == s.loading
    ensures reply.Fail? ==> r == s
    ensures reply.Ok? ==>
      && r.token == Some(reply.data.accessToken)
      && r.user == Some(reply.data.user)
      && r.store.Keys == s.store.Keys + {TokenKey, UserKey}
      && r.store[TokenKey] == reply.data.accessToken
      && r.store[UserKey] == Json.Serialize(reply.data.user)
      && forall k :: k in s.store && k != TokenKey && k != UserKey ==> r.store[k] == s.store[k]
  {
    match reply
    case Fail(_) => s
    case Ok(d) =>
      State(Some(d.user), Some(d.accessToken), s.loading,
            s.store[TokenKey := d.accessToken][UserKey := Json.Serialize(d.user)])
  }

  function LoggedOut(s: State): (r: State)
    ensures r.user.None? && r.token.None? && r.loading == s.loading
    ensures r.store.Keys == s.store.Keys - {TokenKey, UserKey}
    ensures forall k :: k in r.store ==> r.store[k] == s.store[k]
  {
    State(None, None, s.loading, s.store - {TokenKey, UserKey})
  }

  /** Round trip: reloading after a successful sign-in restores the token and user it set,
      provided the token is a non-empty string (an empty one is falsy and is not restored). */
  lemma RestoreAfterSignIn(s: State, d: AuthData)
    requires d.accessToken != ""
    ensures Restored(Initial(SignedIn(s, Ok(d)).store))
         == SignedIn(s, Ok(d)).(loading := false)
  {
    Json.ParseSerialize(d.user);
  }

  /** An empty access token is stored but a reload does not adopt it. */
  lemma EmptyTokenNotRestored(s: State, d: AuthData)
    requires d.accessToken == ""
    ensures Restored(Initial(SignedIn(s, Ok(d)).store)).token.None?
    ensures Restored(Initial(SignedIn(s, Ok(d)).store)).user.None?
  {
  }

  /** Reloading after logout comes up anonymous. */
  lemma RestoreAfterLogout(s: State)
    ensures var r := Restored(Initial(LoggedOut(s).store));
      r.user.None? && r.token.None? && !r.loading
  {
  }

  lemma LogoutIdempotent(s: State)
    ensures LoggedOut(LoggedOut(s)) == LoggedOut(s)
  {
  }

  /** A restore never leaves the provider loading unless it throws. */
  lemma RestoreSettles(s: State)
    ensures !RestoreThrows(s.store) ==> !Restored(s).loading
  {
  }

  /** `useAuth()`: the provider in scope, or the error it throws without one. */
  function UseAuth(context: Option<AuthProvider>): (r: Result<AuthProvider>)
    ensures r.Success? <==> context.Some?
    ensures r.Success? ==> r.value == context.value
    ensures r.Failure? ==> r.error == ProviderMissing
  {
    match context
    case Some(p) => Success(p)
    case None => Failure(ProviderMissing)
  }

  class AuthProvider {
    var user: Option<User>
    var token: Option<string>
    var loading: bool
    /** `window.localStorage` */
    var store: map<string, string>

    function Snapshot(): State
      reads this
    {
      State(user, token, loading, store)
    }

    constructor (persisted: map<string, string>)
      ensures Snapshot() == Initial(persisted)
    {
      user, token, loading := None, None, true;
      store := persisted;
    }

    /** The mount effect; `thrown` reports the exception taken when the user text is not
        one `Json.Parse` accepts. */
    method Restore() returns (thrown: bool)
      modifies this
      ensures Snapshot() == Restored(old(Snapshot()))
      ensures thrown == RestoreThrows(old(store))
    {
      var storedToken := Lookup(store, TokenKey);
      var storedUser := Lookup(store, UserKey);
      if Truthy(storedToken) && Truthy(storedUser) {
        token := storedToken;
        var parsed := Json.Parse(storedUser.value);
        if parsed.None? {
          thrown := true;
          return;
        }
        user := parsed;
      }
      loading := false;
      thrown := false;
    }

    /** Writes the session once the backend has answered; a failure is re-thrown untouched. */
    method Adopt(reply: Reply<AuthData>) returns (thrown: Option<ApiError>)
      modifies this
      ensures Snapshot() == SignedIn(old(Snapshot()), reply)
      ensures thrown == if reply.Fail? then Some(reply.error) else None
    {
      match reply
      case Fail(e) =>
        thrown := Some(e);
      case Ok(d) =>
        store := store[TokenKey := d.accessToken];
        store := store[UserKey := Json.Serialize(d.user)];
        token := Some(d.accessToken);
        user := Some(d.user);
        thrown := None;
    }

    method Login(username: string, password: string, reply: Reply<AuthData>)
      returns (effects: seq<Effect>, thrown: Option<ApiError>)
      modifies this
      ensures effects == [Request(Post, LoginPath)]
      ensures Snapshot() == SignedIn(old(Snapshot()), reply)
      ensures thrown == if reply.Fail? then Some(reply.error) else None
    {
      effects := [Request(Post, LoginPath)];
      thrown := Adopt(reply);
    }

    method Register(data: RegisterData, reply: Reply<AuthData>)
      returns (effects: seq<Effect>, thrown: Option<ApiError>)
      modifies this
      ensures effects == [Request(Post, RegisterPath)]
      ensures Snapshot() == SignedIn(old(Snapshot()), reply)
      ensures thrown == if reply.Fail? then Some(reply.error) else None
    {
      effects := [Request(Post, RegisterPath)];
      thrown := Adopt(reply);
    }

    method Logout()
      modifies this
      ensures Snapshot() == LoggedOut(old(Snapshot()))
    {
      store := store - {TokenKey};
      store := store - {UserKey};
      token := None;
      user := None;
    }
  }

  /** Sign in on one page load, reload, and find the same session. */
  method ReloadAfterLogin(persisted: map<string, string>, username: string, password: string, d: AuthData)
    returns (first: AuthProvider, second: AuthProvider)
    requires d.accessToken != ""
    ensures first.token == Some(d.accessToken) && first.user == Some(d.user)
    ensures second.token == first.token && second.user == first.user && !second.loading
    ensures second.store == first.store
  {
    first := new AuthProvider(persisted);
    var _ := first.Restore();
    ghost var before := first.Snapshot();
    var _, _ := first.Login(username, password, Ok(d));
    assert first.Snapshot() == SignedIn(before, Ok(d));
    second := new AuthProvider(first.store);
    var _ := second.Restore();
    RestoreAfterSignIn(before, d);
  }
}
