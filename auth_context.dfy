/**
 * The session of the blog client (`AuthProvider`): an anonymous or
 * authenticated state, the two storage keys that persist it across reloads,
 * and the paths the provider navigates to.
 *
 * Each transition is first defined as a function on a `Session` value; the
 * `AuthProvider` class performs it in place and is proved to agree with it.
 */
module AuthContext {
  import opened Wrappers
  import opened Http

  datatype LoginRequest = LoginRequest(email: string, password: string)

  datatype RegisterRequest = RegisterRequest(
    email: string, password: string, firstName: string, lastName: string, userName: string)

  /** The body of a successful login response. */
  datatype LoginResponse = LoginResponse(userId: string, token: string)

  datatype User = User(id: string, email: string, role: string)

  datatype AuthState = AuthState(isAuthenticated: bool, user: Option<User>, token: Option<string>) {
    /** The session invariant: authenticated exactly when a token, and a user, are held. */
    predicate Consistent() {
      isAuthenticated == token.Some? && isAuthenticated == user.Some?
    }
  }

  /** The state before any login, and after a logout. */
  const Anonymous := AuthState(false, None, None)

  const AuthTokenKey := "authToken"
  const UserKey := "user"
  const LoginPath := "/login"
  const DefaultRole := "USER"
  const LoginUrl := AuthServiceUrl + "/Auth/login"
  const RegisterUrl := AuthServiceUrl + "/Auth/register"

  /** The browser's local storage: string values under string keys. */
  type Storage = map<string, string>

  /** `localStorage.getItem(key)`. */
  function GetItem(storage: Storage, key: string): (r: Option<string>)
    ensures r.Some? <==> key in storage
    ensures r.Some? ==> r.value == storage[key]
  {
    if key in storage then Some(storage[key]) else None
  }

  /**
   * `JSON.stringify(user)` for a user record, fields in declaration order: an
   * object that opens with the `id` member and closes with the `role` value.
   */
  function SerializeUser(u: User): (r: string)
    ensures |r| == |u.id| + |u.email| + |u.role| + 30
    ensures r[0] == '{' && r[|r| - 1] == '}'
    ensures r[..7 + |u.id|] == "{\"id\":\"" + u.id
    ensures r[|r| - 2 - |u.role|..] == u.role + "\"}"
  {
    var head := "{\"id\":\"" + u.id;
    var middle := "\",\"email\":\"" + u.email + "\",\"role\":\"";
    var tail := u.role + "\"}";
    assert (head + middle + tail)[..|head|] == head;
    assert (head + middle + tail)[|head| + |middle|..] == tail;
    head + middle + tail
  }

  /** Everything a transition can change: the published state, the storage and the navigation log. */
  datatype Session = Session(auth: AuthState, storage: Storage, navigations: seq<string>)

  /** A transition's new session and the boolean it resolves to. */
  datatype Step = Step(session: Session, result: bool)

  /** The provider's first state: anonymous, with storage as it was found. */
  function Initial(storage: Storage): (s: Session)
    ensures s.auth == Anonymous && !s.auth.isAuthenticated && s.auth.user.None? && s.auth.token.None?
    ensures s.storage == storage && s.navigations == []
  {
    Session(Anonymous, storage, [])
  }

  /** A login request is accepted when the response is 2xx and its body parses. */
  predicate LoginAccepted(exchange: Exchange<LoginResponse>) {
    exchange.Received? && exchange.ok && exchange.json.Parsed?
  }

  /**
   * `login(credentials)`: on an accepted response the state becomes
   * authenticated with the returned token and a user built from the
   * response's id and the submitted email, both storage keys are written, and
   * the result is true; otherwise nothing changes and the result is false.
   */
  function LoginStep(s: Session, credentials: LoginRequest, exchange: Exchange<LoginResponse>): (o: Step)
    ensures o.result <==> LoginAccepted(exchange)
    ensures o.result ==>
      var data := exchange.json.value;
      var user := User(data.userId, credentials.email, DefaultRole);
      && o.session.auth == AuthState(true, Some(user), Some(data.token))
      && o.session.storage == s.storage[AuthTokenKey := data.token][UserKey := SerializeUser(user)]
      && o.session.navigations == s.navigations
    ensures !o.result ==> o.session == s
    ensures s.auth.Consistent() ==> o.session.auth.Consistent()
  {
    if LoginAccepted(exchange) then
      var data := exchange.json.value;
      var user := User(data.userId, credentials.email, DefaultRole);
      var storage := s.storage[AuthTokenKey := data.token][UserKey := SerializeUser(user)];
      Step(Session(AuthState(true, Some(user), Some(data.token)), storage, s.navigations), true)
    else
      Step(s, false)
  }

  /** A registration is accepted when its response is 2xx; its body is only logged. */
  predicate RegisterAccepted(exchange: Exchange<Body>) {
    exchange.Received? && exchange.ok
  }

  /** The credentials `register` logs in with: the email and password, nothing else. */
  function CredentialsOf(userData: RegisterRequest): (c: LoginRequest)
    ensures c.email == userData.email && c.password == userData.password
  {
    LoginRequest(userData.email, userData.password)
  }

  /**
   * `register(userData)`: a refused registration resolves to false without
   * logging in; an accepted one resolves to whatever logging in with the same
   * email and password resolves to.
   */
  function RegisterStep(s: Session, userData: RegisterRequest, registerExchange: Exchange<Body>,
                        loginExchange: Exchange<LoginResponse>): (o: Step)
    ensures !RegisterAccepted(registerExchange) ==> o == Step(s, false)
    ensures RegisterAccepted(registerExchange) ==> o == LoginStep(s, CredentialsOf(userData), loginExchange)
    ensures s.auth.Consistent() ==> o.session.auth.Consistent()
  {
    if RegisterAccepted(registerExchange) then LoginStep(s, CredentialsOf(userData), loginExchange)
    else Step(s, false)
  }

  /** `logout()`: anonymous state, both keys removed, navigation to the login page. */
  function LogoutStep(s: Session): (o: Session)
    ensures o.auth == Anonymous
    ensures AuthTokenKey !in o.storage && UserKey !in o.storage
    ensures forall k :: k != AuthTokenKey && k != UserKey ==> (k in o.storage <==> k in s.storage)
    ensures forall k :: k in o.storage ==> o.storage[k] == s.storage[k]
    ensures o.navigations == s.navigations + [LoginPath]
  {
    Session(Anonymous, s.storage - {AuthTokenKey, UserKey}, s.navigations + [LoginPath])
  }

  /**
   * The start-up effect. With both keys present and non-empty, a stored user
   * that parses (`parsed` is what `JSON.parse` made of it, `None` when it
   * threw) makes the state authenticated with the stored token; one that does
   * not parse logs out. With either key missing or empty nothing changes.
   */
  function HydrateStep(s: Session, parsed: Option<User>): (o: Session)
    ensures var token := GetItem(s.storage, AuthTokenKey);
      && (Truthy(token) && Truthy(GetItem(s.storage, UserKey)) && parsed.Some? ==>
            o == Session(AuthState(true, parsed, token), s.storage, s.navigations))
      && (Truthy(token) && Truthy(GetItem(s.storage, UserKey)) && parsed.None? ==> o == LogoutStep(s))
      && (!Truthy(token) || !Truthy(GetItem(s.storage, UserKey)) ==> o == s)
    ensures s.auth.Consistent() ==> o.auth.Consistent()
  {
    var token := GetItem(s.storage, AuthTokenKey);
    var userStr := GetItem(s.storage, UserKey);
    if Truthy(token) && Truthy(userStr) then
      match parsed
      case Some(_) => Session(AuthState(true, parsed, token), s.storage, s.navigations)
      case None => LogoutStep(s)
    else s
  }

  /** Logging out twice leaves the state and the storage as logging out once does. */
  lemma LogoutIdempotent(s: Session)
    ensures LogoutStep(LogoutStep(s)).auth == LogoutStep(s).auth
    ensures LogoutStep(LogoutStep(s)).storage == LogoutStep(s).storage
  {
  }

  /** After a logout, a reload stays anonymous, whatever the stored user would parse to. */
  lemma LogoutSurvivesReload(s: Session, parsed: Option<User>)
    ensures HydrateStep(Initial(LogoutStep(s).storage), parsed).auth == Anonymous
  {
  }

  /**
   * After a successful login with a non-empty token, a reload whose parse of
   * the stored user gives back the user restores the same state.
   */
  lemma LoginSurvivesReload(s: Session, credentials: LoginRequest, exchange: Exchange<LoginResponse>)
    requires LoginAccepted(exchange) && exchange.json.value.token != ""
    ensures var after := LoginStep(s, credentials, exchange).session;
      HydrateStep(Initial(after.storage), after.auth.user).auth == after.auth
  {
  }

  /**
   * The session object: the state published to the application, the
   * browser storage it persists to, and the paths it has navigated to.
   */
  class AuthProvider {
    var auth: AuthState
    var storage: Storage
    var navigations: seq<string>

    function Snapshot(): Session
      reads this
    {
      Session(auth, storage, navigations)
    }

    predicate Valid()
      reads this
    {
      auth.Consistent()
    }

    /** Mounts the provider over the given storage; hydration runs separately, as an effect. */
    constructor (storage: Storage)
      ensures Valid()
      ensures Snapshot() == Initial(storage)
    {
      auth := Anonymous;
      this.storage := storage;
      navigations := [];
    }

    method Login(credentials: LoginRequest, exchange: Exchange<LoginResponse>) returns (success: bool)
      requires Valid()
      modifies this
      ensures Valid()
      ensures Step(Snapshot(), success) == LoginStep(old(Snapshot()), credentials, exchange)
    {
      var step := LoginStep(Snapshot(), credentials, exchange);
      auth := step.session.auth;
      storage := step.session.storage;
      success := step.result;
    }

    method Register(userData: RegisterRequest, registerExchange: Exchange<Body>,
                    loginExchange: Exchange<LoginResponse>) returns (success: bool)
      requires Valid()
      modifies this
      ensures Valid()
      ensures Step(Snapshot(), success) == RegisterStep(old(Snapshot()), userData, registerExchange, loginExchange)
    {
      if registerExchange.Received? && registerExchange.ok {
        success := Login(LoginRequest(userData.email, userData.password), loginExchange);
      } else {
        success := false;
      }
    }

    method Logout()
      modifies this
      ensures Valid()
      ensures Snapshot() == LogoutStep(old(Snapshot()))
    {
      auth := Anonymous;
      storage := storage - {AuthTokenKey};
      storage := storage - {UserKey};
      navigations := navigations + [LoginPath];
    }

    /** The start-up effect, given what parsing the stored user gives. */
    method Hydrate(parsed: Option<User>)
      requires Valid()
      modifies this
      ensures Valid()
      ensures Snapshot() == HydrateStep(old(Snapshot()), parsed)
    {
      var token := GetItem(storage, AuthTokenKey);
      var userStr := GetItem(storage, UserKey);
      if Truthy(token) && Truthy(userStr) {
        match parsed {
          case Some(user) =>
            auth := AuthState(true, Some(user), token);
          case None =>
            Logout();
        }
      }
    }
  }

  /**
   * `useAuthContext()`: the provider's state inside a provider, and the
   * context's default, anonymous, state outside one.
   */
  function UseAuthContext(provided: Option<AuthState>): (ctx: AuthState)
    ensures provided.None? ==> ctx == Anonymous && !ctx.isAuthenticated
    ensures provided.Some? ==> ctx == provided.value
  {
    provided.GetOr(Anonymous)
  }
}
