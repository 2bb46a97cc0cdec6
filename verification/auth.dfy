/**
  `AuthService` with the two `localStorage` slots it uses through
  `StorageService`: the access token and the serialized user. Storage is
  part of the state, so a page reload is `InitializeAuth` applied to the
  storage the previous page left behind.
*/
module Auth {
  import opened Wrappers
  import opened Model
  import opened Transport
  import opened Strings
  import opened ErrorHandler

  /** The two slots (`access_token`, `user_data`); the user is kept as the record it was serialized from. */
  datatype Storage = Storage(token: Option<string>, userData: Option<User>)

  datatype AuthState = AuthState(user: Option<User>, isLoading: bool, storage: Storage)

  /** The id the login endpoint sends: a string, or a number that `toString()` renders. */
  datatype RawId = StrId(s: string) | NumId(n: int)

  /** The user object of a login response, before normalisation; `name` may be missing or empty. */
  datatype LoginUser = LoginUser(id: RawId, email: string, name: Option<string>, role: Role)

  datatype LoginResponse = LoginResponse(accessToken: string, user: LoginUser)

  datatype LoginStep = LoginStep(state: AuthState, out: Option<LoginResponse>)

  /** `hasToken()`: a stored token that is not empty. */
  predicate HasToken(s: Storage) {
    Present(s.token)
  }

  /**
    The constructor's `initializeAuth` on the storage found at start-up:
    with a token and a stored user the user is restored; with a token and no
    user the token is removed; without a token nothing happens.
  */
  function InitializeAuth(s: Storage): (r: AuthState)
    ensures !r.isLoading
    ensures r.user.Some? <==> HasToken(s) && s.userData.Some?
    ensures r.user.Some? ==> r.user == s.userData && r.storage == s
    ensures HasToken(s) && s.userData.None? ==> r.storage == s.(token := None)
    ensures !HasToken(s) ==> r.storage == s
  {
    if HasToken(s) then
      if s.userData.Some? then AuthState(s.userData, false, s)
      else AuthState(None, false, s.(token := None))
    else AuthState(None, false, s)
  }

  /** `id.toString()`. */
  function IdString(id: RawId): (r: string)
    ensures id.NumId? ==> ParseInt(r) == Some(id.n)
  {
    match id
    case StrId(s) => s
    case NumId(n) => ParseIntToString(n); IntToString(n)
  }

  /**
    The user `handleLoginSuccess` builds: the response's user with a string
    id and, when the name is missing or empty, the part of the email before
    its first '@'.
  */
  function Normalise(u: LoginUser): (r: User)
    ensures r.email == u.email && r.role == u.role
    ensures u.id.StrId? ==> r.id == u.id.s
    ensures u.id.NumId? ==> ParseInt(r.id) == Some(u.id.n)
    ensures Present(u.name) ==> r.name == u.name.value
    ensures !Present(u.name) ==> '@' !in r.name && r.name <= u.email
    ensures !Present(u.name) && '@' in u.email ==> |r.name| < |u.email| && u.email[|r.name|] == '@'
    ensures !Present(u.name) && '@' !in u.email ==> r.name == u.email
  {
    SplitFirst(u.email, '@');
    var name := if Present(u.name) then u.name.value else Split(u.email, '@')[0];
    User(IdString(u.id), u.email, name, u.role)
  }

  /** `login`: a success stores the token and the normalised user; a failure changes nothing but the loading flag. */
  function Login(st: AuthState, reply: Reply<LoginResponse>): (r: LoginStep)
    ensures !r.state.isLoading
    ensures reply.Ok? ==> r.out == Some(reply.payload)
    ensures reply.Ok? ==> r.state.user == Some(Normalise(reply.payload.user))
    ensures reply.Ok? ==> r.state.storage == Storage(Some(reply.payload.accessToken), r.state.user)
    ensures reply.Fail? ==> r.out.None? && r.state == st.(isLoading := false)
  {
    match reply
    case Ok(resp) =>
      var user := Normalise(resp.user);
      LoginStep(AuthState(Some(user), false, Storage(Some(resp.accessToken), Some(user))), Some(resp))
    case Fail(_) => LoginStep(st.(isLoading := false), None)
  }

  /** `logout`: both slots cleared and the user dropped (the navigation to '/login' is not modelled). */
  function Logout(st: AuthState): (r: AuthState)
    ensures r.user.None? && r.storage == Storage(None, None) && r.isLoading == st.isLoading
  {
    AuthState(None, st.isLoading, Storage(None, None))
  }

  /** The computed `isAuthenticated`: a user is present. */
  predicate IsAuthenticated(st: AuthState) {
    st.user.Some?
  }

  /**
    `checkAuth`: stricter than `isAuthenticated`, which looks at the user
    only; the two differ exactly when a user is held but no usable token is
    stored.
  */
  function CheckAuth(st: AuthState): (b: bool)
    ensures b ==> IsAuthenticated(st)
    ensures IsAuthenticated(st) ==> (b <==> HasToken(st.storage))
  {
    HasToken(st.storage) && st.user.Some?
  }

  /** `isAuthenticated` reads the user signal only: the storage and the loading flag never change it. */
  lemma AuthenticatedIgnoresStorage(st: AuthState, s: Storage, loading: bool)
    ensures IsAuthenticated(st.(storage := s, isLoading := loading)) == IsAuthenticated(st)
    ensures IsAuthenticated(st) <==> st.user.Some?
  {
  }

  /** A login with a non-empty token survives a reload: the restored user is the logged-in one. */
  lemma LoginSurvivesReload(st: AuthState, resp: LoginResponse)
    requires resp.accessToken != ""
    ensures CheckAuth(Login(st, Ok(resp)).state)
    ensures InitializeAuth(Login(st, Ok(resp)).state.storage).user == Login(st, Ok(resp)).state.user
  {
  }

  /** A login answered with an empty token sets the user, yet `checkAuth` fails and a reload forgets the user. */
  lemma EmptyTokenLogin(st: AuthState, u: LoginUser)
    ensures IsAuthenticated(Login(st, Ok(LoginResponse("", u))).state)
    ensures !CheckAuth(Login(st, Ok(LoginResponse("", u))).state)
    ensures InitializeAuth(Login(st, Ok(LoginResponse("", u))).state.storage).user.None?
  {
  }

  /** After a logout neither this page nor a reloaded one is authenticated. */
  lemma LogoutThenReload(st: AuthState)
    ensures !IsAuthenticated(Logout(st)) && !CheckAuth(Logout(st))
    ensures !IsAuthenticated(InitializeAuth(Logout(st).storage))
  {
  }

  /** Start-up is idempotent, and a user restored at start-up always passes `checkAuth`. */
  lemma InitializeAuthStable(s: Storage)
    ensures InitializeAuth(InitializeAuth(s).storage) == InitializeAuth(s)
    ensures IsAuthenticated(InitializeAuth(s)) <==> CheckAuth(InitializeAuth(s))
  {
  }

  /** A failed login keeps whoever was logged in before, storage included. */
  lemma FailedLoginKeepsSession(st: AuthState, e: RawError)
    ensures Login(st, Fail(e)).state.user == st.user
    ensures Login(st, Fail(e)).state.storage == st.storage
    ensures CheckAuth(Login(st, Fail(e)).state) == CheckAuth(st)
  {
  }
}
