/**
 * The edge middleware guarding the profile pages: it runs on the paths its matcher
 * `/profile/:path*` selects and sends a request without an `access_token` cookie to `/login`.
 */
module Middleware {
  import opened Wrappers
  import Strings
  import Auth

  datatype Response = Next | RedirectTo(path: string)

  /** `/profile/:path*`: `/profile` itself, or `/profile/` followed by any path. */
  predicate MatcherSelects(pathname: string) {
    pathname == "/profile" || Strings.StartsWith(pathname, "/profile/")
  }

  /** `middleware(request)`, given the cookie's value and the request's pathname. */
  function Decide(cookieToken: Option<string>, pathname: string): (r: Response)
    ensures r.RedirectTo? <==> !Strings.Truthy(cookieToken) && Strings.StartsWith(pathname, "/profile")
    ensures r.RedirectTo? ==> r.path == "/login"
  {
    if !Strings.Truthy(cookieToken) && Strings.StartsWith(pathname, "/profile") then RedirectTo("/login")
    else Next
  }

  /** What a request gets: the middleware's answer on the paths the matcher selects, otherwise it is not run. */
  function Handle(cookieToken: Option<string>, pathname: string): Response {
    if MatcherSelects(pathname) then Decide(cookieToken, pathname) else Next
  }

  /** On every path the matcher selects, the prefix test holds, so the cookie alone decides. */
  lemma {:induction false} SelectedPathsArePrefixed(pathname: string)
    requires MatcherSelects(pathname)
    ensures Strings.StartsWith(pathname, "/profile")
  {
    if pathname != "/profile" {
      assert pathname[..9] == "/profile/";
      assert pathname[..8] == pathname[..9][..8];
    }
  }

  /** A request is redirected to `/login` exactly when it is for a profile page and has no token. */
  lemma {:induction false} HandleRedirectsIff(cookieToken: Option<string>, pathname: string)
    ensures Handle(cookieToken, pathname) == (if MatcherSelects(pathname) && !Strings.Truthy(cookieToken) then RedirectTo("/login") else Next)
  {
    if MatcherSelects(pathname) {
      SelectedPathsArePrefixed(pathname);
    }
  }

  /** The prefix test alone would also catch `/profiles`; the matcher keeps such paths out. */
  lemma ProfilesIsNotGuarded()
    ensures Decide(None, "/profiles") == RedirectTo("/login")
    ensures Handle(None, "/profiles") == Next
  {
    assert "/profiles"[..8] == "/profile";
    assert "/profiles"[8] != "/profile/"[8];
  }
}
