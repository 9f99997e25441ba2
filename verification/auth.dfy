/**
 * Authentication state and helpers: the persisted store with its three fields and three
 * setters, the token checks over the `access_token` kept in local storage, the role check,
 * and the token choice and redirect of the server-side page guard `withAuth`.
 * Local storage, cookies and headers are passed in as values.
 */
module Auth {
  import opened Wrappers
  import Strings

  /** `Role` */
  datatype Role = Admin | RegularUser

  function RoleName(r: Role): string {
    match r
    case Admin => "ADMIN"
    case RegularUser => "USER"
  }

  /** `User` (the optional dates are left out). */
  datatype User = User(id: string, email: string, userName: string, cognitoId: Option<string>, role: Role)

  /** The store's data fields. */
  datatype AuthState = AuthState(user: Option<User>, isAuthenticated: bool, accessToken: Option<string>)

  /** The part of the store written to storage. */
  datatype Persisted = Persisted(accessToken: Option<string>, user: Option<User>)

  /** The store's initial data. */
  const InitialAuth: AuthState := AuthState(None, false, None)

  /** `partialize` */
  function Partialize(s: AuthState): Persisted {
    Persisted(s.accessToken, s.user)
  }

  /**
   * Loading the store: the persisted fields are merged over the initial data, so the flag
   * starts from its initial value.
   */
  function Rehydrate(p: Persisted): (s: AuthState)
    ensures Partialize(s) == p && !s.isAuthenticated
  {
    InitialAuth.(accessToken := p.accessToken, user := p.user)
  }

  /** Storing then loading keeps the token and the user and drops only the flag. */
  lemma {:induction false} PersistRoundTrip(s: AuthState)
    ensures Rehydrate(Partialize(s)) == s.(isAuthenticated := false)
  {
  }

  /** `useAuthStore`: three fields, each setter recomputing the flag from its own argument only. */
  class AuthStore {
    var user: Option<User>
    var isAuthenticated: bool
    var accessToken: Option<string>

    function Data(): AuthState
      reads this
    {
      AuthState(user, isAuthenticated, accessToken)
    }

    constructor()
      ensures Data() == InitialAuth
    {
      user, isAuthenticated, accessToken := None, false, None;
    }

    /** `setUser` */
    method SetUser(u: Option<User>)
      modifies this
      ensures user == u && isAuthenticated == u.Some?
      ensures accessToken == old(accessToken)
    {
      user := u;
      isAuthenticated := u.Some?;
    }

    /** `setAccessToken` */
    method SetAccessToken(t: Option<string>)
      modifies this
      ensures accessToken == t && isAuthenticated == Strings.Truthy(t)
      ensures user == old(user)
    {
      accessToken := t;
      isAuthenticated := Strings.Truthy(t);
    }

    /** `logout` */
    method Logout()
      modifies this
      ensures Data() == InitialAuth
    {
      user, accessToken, isAuthenticated := None, None, false;
    }
  }

  /** The flag reflects only the last setter: a token set before clearing the user does not keep it up. */
  method TokenThenNoUser(t: string) returns (authenticated: bool, token: Option<string>)
    ensures !authenticated && token == Some(t)
  {
    var store := new AuthStore();
    store.SetAccessToken(Some(t));
    store.SetUser(None);
    authenticated, token := store.isAuthenticated, store.accessToken;
  }

  /** ... and a user set before clearing the token does not keep it up either. */
  method UserThenNoToken(u: User) returns (authenticated: bool, user: Option<User>)
    ensures !authenticated && user == Some(u)
  {
    var store := new AuthStore();
    store.SetUser(Some(u));
    store.SetAccessToken(None);
    authenticated, user := store.isAuthenticated, store.user;
  }

  /** `isAuthenticated()` over the token read from local storage (`getAccessToken`). */
  function IsAuthenticated(stored: Option<string>): (b: bool)
    ensures b <==> stored.Some? && |stored.value| > 0
  {
    Strings.Truthy(stored)
  }

  /** `requireAuthentication`: the token, or the error it throws. */
  function RequireAuthentication(stored: Option<string>): (r: Result<string, string>)
    ensures r.Success? <==> IsAuthenticated(stored)
    ensures r.Success? ==> stored == Some(r.value)
    ensures r.Failure? ==> r.error == "Authentication required"
  {
    if !Strings.Truthy(stored) then Failure("Authentication required") else Success(stored.value)
  }

  /** `hasRole`: `user?.role === requiredRole` on the store's data. */
  function HasRole(s: AuthState, requiredRole: string): (b: bool)
    ensures b ==> s.user.Some?
    ensures s.user.Some? ==> (b <==> requiredRole == RoleName(s.user.value.role))
    ensures b && s.user.value.role == Admin ==> requiredRole == "ADMIN"
    ensures b && s.user.value.role == RegularUser ==> requiredRole == "USER"
  {
    s.user.Some? && RoleName(s.user.value.role) == requiredRole
  }

  /** `redirectToLogin`: the login page with the (already encoded) current path as `redirect`. */
  function LoginRedirectUrl(encodedPath: string): (url: string)
    ensures Strings.StartsWith(url, "/login?redirect=")
    ensures url[|"/login?redirect="|..] == encodedPath
  {
    "/login?redirect=" + encodedPath
  }

  /** What `withAuth` reads from the request. */
  datatype Request = Request(cookieToken: Option<string>, authorization: Option<string>)

  /** What the wrapped handler returns: a redirect, or a props object. */
  datatype PageResult =
    | Redirect(destination: string, permanent: bool)
    | Props(props: map<string, string>)

  /** `req.headers['authorization']?.split(' ')[1]`: the second space-separated word, if any. */
  function HeaderToken(authorization: Option<string>): Option<string> {
    if authorization.None? then None
    else
      var words := Strings.Split(authorization.value, ' ');
      if |words| < 2 then None else Some(words[1])
  }

  /** The cookie's token when it is truthy, otherwise the header's. */
  function ChooseToken(req: Request): Option<string> {
    if Strings.Truthy(req.cookieToken) then req.cookieToken else HeaderToken(req.authorization)
  }

  /**
   * `withAuth(gssp)(context)`, given the object `gssp(context)` returned. It redirects,
   * non-permanently, to `/login` exactly when neither the cookie nor the header gives a
   * token; otherwise the entries `gssp` returned are spread into `props` and the token is
   * added beside them, the cookie's taking precedence over the header's.
   */
  function WithAuth(req: Request, gsspResult: map<string, string>): (r: PageResult)
    ensures r.Redirect? <==> !Strings.Truthy(req.cookieToken) && !Strings.Truthy(HeaderToken(req.authorization))
    ensures r.Redirect? ==> r == Redirect("/login", false)
    ensures r.Props? ==>
      && "token" in r.props
      && r.props["token"] != ""
      && (Strings.Truthy(req.cookieToken) ==> r.props["token"] == req.cookieToken.value)
      && (!Strings.Truthy(req.cookieToken) ==> Some(r.props["token"]) == HeaderToken(req.authorization))
      && (forall k :: k in gsspResult && k != "token" ==> k in r.props && r.props[k] == gsspResult[k])
      && (forall k :: k in r.props ==> k in gsspResult || k == "token")
  {
    var token := ChooseToken(req);
    if !Strings.Truthy(token) then Redirect("/login", false)
    else Props(gsspResult["token" := token.value])
  }

  /** A `Bearer <token>` header yields the token. */
  lemma BearerHeader(token: string)
    requires ' ' !in token
    ensures HeaderToken(Some("Bearer " + token)) == Some(token)
  {
    assert "Bearer " + token == "Bearer" + [' '] + token;
    Strings.SplitTwoWords("Bearer", token, ' ');
  }
}
