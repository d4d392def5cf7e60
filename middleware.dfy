/**
 * The route guard that runs before the matched pages: visitors without a
 * session cookie are sent to the login page from the protected areas, and
 * visitors with one are sent home from the login page.
 */
module Middleware {

  /** The two parts of a request the guard looks at. */
  datatype Request = Request(cookies: map<string, string>, pathname: string)

  /** A redirect to a path on the same origin, or the request passes through. */
  datatype Response = Redirect(location: string) | Next

  const TokenCookie: string := "jwt"
  const LoginPath: string := "/login"
  const HomePath: string := "/home"
  const BoardPath: string := "/board"

  /** `request.cookies.get('jwt')` is truthy whenever the cookie is present, whatever its value. */
  predicate HasToken(req: Request): (r: bool)
    ensures r <==> exists v :: (TokenCookie, v) in req.cookies.Items
  {
    assert TokenCookie in req.cookies ==> (TokenCookie, req.cookies[TokenCookie]) in req.cookies.Items;
    TokenCookie in req.cookies
  }

  /** `pathname === '/login'`: an exact match, where the protected areas use a prefix. */
  predicate IsAuthPage(pathname: string): (r: bool)
    ensures r <==> LoginPath <= pathname && |pathname| == |LoginPath|
  {
    pathname == LoginPath
  }

  /** `startsWith('/home') || startsWith('/board')`: a plain prefix test. */
  predicate IsProtected(pathname: string): (r: bool)
    ensures r <==> (|pathname| >= 5 && pathname[..5] == HomePath) || (|pathname| >= 6 && pathname[..6] == BoardPath)
  {
    HomePath <= pathname || BoardPath <= pathname
  }

  /**
   * `middleware`: exactly one of three outcomes. Without a token a
   * protected path goes to `/login`; with a token `/login` goes to `/home`;
   * everything else passes, including `/login` without a token and a
   * protected path with one.
   */
  function Decide(req: Request): (r: Response)
    ensures r == Redirect(LoginPath) <==> !HasToken(req) && IsProtected(req.pathname)
    ensures r == Redirect(HomePath) <==> HasToken(req) && IsAuthPage(req.pathname)
    ensures r == Next <==> (HasToken(req) || !IsProtected(req.pathname)) && (!HasToken(req) || !IsAuthPage(req.pathname))
  {
    if !HasToken(req) && IsProtected(req.pathname) then Redirect(LoginPath)
    else if HasToken(req) && IsAuthPage(req.pathname) then Redirect(HomePath)
    else Next
  }

  /** The login page is not protected, so the two redirect rules never apply to the same path. */
  lemma AuthPageIsNotProtected(pathname: string)
    ensures IsAuthPage(pathname) ==> !IsProtected(pathname)
  {
    if IsAuthPage(pathname) {
      assert pathname[1] == 'l';
      assert HomePath[1] == 'h' && BoardPath[1] == 'b';
    }
  }

  /**
   * No redirect loop: following a redirect with the same cookies reaches a
   * page the guard lets through.
   */
  lemma RedirectTargetPasses(req: Request)
    ensures Decide(req).Redirect? ==> Decide(Request(req.cookies, Decide(req).location)) == Next
  {
    AuthPageIsNotProtected(LoginPath);
  }

  /** Any path that merely begins with `/home` or `/board`, such as `/homepage`, is protected. */
  lemma ProtectionIsPrefix(suffix: string)
    ensures IsProtected(HomePath + suffix) && IsProtected(BoardPath + suffix)
  {
  }

  /** Only `/login` itself is the auth page: a longer path starting with it is not. */
  lemma AuthPageIsExact(suffix: string)
    requires suffix != []
    ensures !IsAuthPage(LoginPath + suffix)
  {
    assert |LoginPath + suffix| > |LoginPath|;
  }

  /**
   * `config.matcher`: `/home/:path*`, `/board/:path*` and `/login`. A
   * `:path*` pattern matches the bare prefix or the prefix followed by `/`
   * and more. Every path it covers is protected or the auth page.
   */
  predicate Matched(pathname: string): (r: bool)
    ensures r ==> IsProtected(pathname) || IsAuthPage(pathname)
  {
    assert HomePath + "/" <= pathname ==> pathname[..|HomePath|] == (HomePath + "/")[..|HomePath|];
    assert BoardPath + "/" <= pathname ==> pathname[..|BoardPath|] == (BoardPath + "/")[..|BoardPath|];
    || pathname == HomePath || HomePath + "/" <= pathname
    || pathname == BoardPath || BoardPath + "/" <= pathname
    || pathname == LoginPath
  }

  /** What a request meets: the guard on matched paths, a pass-through elsewhere. */
  function Route(req: Request): (r: Response)
    ensures !Matched(req.pathname) ==> r == Next
    ensures Matched(req.pathname) ==> r == Decide(req)
    ensures r.Redirect? ==> Matched(r.location) && Decide(Request(req.cookies, r.location)) == Next
  {
    RedirectTargetPasses(req);
    if Matched(req.pathname) then Decide(req) else Next
  }

  /**
   * The prefix test reaches further than the matcher: `/homepage` counts as
   * protected, yet the guard never runs there, so it is served without a token.
   */
  lemma UnmatchedProtectedPathPasses()
    ensures IsProtected("/homepage") && !Matched("/homepage")
    ensures Route(Request(map[], "/homepage")) == Next
  {
    assert HomePath + "page" == "/homepage";
    ProtectionIsPrefix("page");
    assert "/homepage"[5] != '/';
  }
}
