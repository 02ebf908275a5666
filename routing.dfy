/**
 * The route selection of the blog page: the developer-mode flag, the gate's
 * precedence over every route, and the three-row route table.
 */
module Routing {

  import opened Wrappers

  datatype Mode = Developer | User

  /** Developer mode is on exactly when the configured flag is the string "true". */
  function ModeFromFlag(flag: Option<string>): (m: Mode)
    ensures m == Developer <==> flag == Some("true")
  {
    if flag == Some("true") then Developer else User
  }

  /** A path below the blog page's mount point, as the route table sees it. */
  datatype Path = Root | CreatePath | PostPath(id: string) | Other

  /** What the blog page renders. */
  datatype View =
    | Gate            // the password prompt
    | DevList         // the developer post list
    | UserList        // the user post list
    | Create          // the create-post form
    | RedirectRoot    // a replacing redirect to "/"
    | Detail(id: string)
    | NoMatch         // no route matched: nothing is rendered

  /** The password prompt replaces the whole page. */
  predicate Gated(mode: Mode, authenticated: bool)
  {
    mode == Developer && !authenticated
  }

  /** One render of the blog page: the gate first, then the route table. */
  function Select(mode: Mode, authenticated: bool, path: Path): (v: View)
    ensures v == Gate <==> Gated(mode, authenticated)
    ensures v == DevList <==> mode == Developer && authenticated && path == Root
    ensures v == UserList <==> mode == User && path == Root
    ensures v == Create <==> mode == Developer && authenticated && path == CreatePath
    ensures v == RedirectRoot <==> mode == User && path == CreatePath
    ensures v.Detail? <==> !Gated(mode, authenticated) && path.PostPath?
    ensures v.Detail? ==> v.id == path.id
    ensures v == NoMatch <==> !Gated(mode, authenticated) && path == Other
  {
    if Gated(mode, authenticated) then Gate
    else match path
      case Root => if mode == Developer then DevList else UserList
      case CreatePath => if mode == Developer then Create else RedirectRoot
      case PostPath(id) => Detail(id)
      case Other => NoMatch
  }

  /**
   * The route matcher over a path below the mount point: "/", "/create" and
   * "/posts/:id", where ":id" is one non-empty segment.
   */
  function Match(path: string): (p: Path)
    ensures p == Root ==> path == "/"
    ensures p == CreatePath ==> path == "/create"
    ensures p.PostPath? ==> path == "/posts/" + p.id && p.id != [] && '/' !in p.id
  {
    if path == "/" then Root
    else if path == "/create" then CreatePath
    else if |path| > 7 && path[..7] == "/posts/" && '/' !in path[7..] then PostPath(path[7..])
    else Other
  }

  /** Flags other than exactly "true" select user mode. */
  lemma OnlyTrueSelectsDeveloper()
    ensures ModeFromFlag(None) == User
    ensures ModeFromFlag(Some("")) == User
    ensures ModeFromFlag(Some("True")) == User
    ensures ModeFromFlag(Some("1")) == User
    ensures ModeFromFlag(Some("true")) == Developer
  {
  }

  /** In developer mode before authentication every path shows the gate. */
  lemma GateHidesEveryRoute(path: Path, id: string)
    ensures Select(Developer, false, path) == Gate
    ensures Select(Developer, false, CreatePath) == Gate
    ensures Select(Developer, false, PostPath(id)) == Gate
  {
  }

  /** User mode never shows the gate, whatever the authentication flag. */
  lemma UserModeNeverGates(authenticated: bool, path: Path)
    ensures Select(User, authenticated, path) != Gate
  {
  }

  /** The developer-only views are reachable only in developer mode after authentication. */
  lemma DeveloperViewsNeedAuthentication(mode: Mode, authenticated: bool, path: Path)
    ensures Select(mode, authenticated, path) in {DevList, Create} ==> mode == Developer && authenticated
  {
  }

  /**
   * In user mode the page's "/create" route is the redirect to "/", and the
   * page's own "/" route is the user list. The redirect target is absolute,
   * so it names the page's "/" only when the page is mounted at the site root.
   */
  lemma UserModeCreateRedirects(authenticated: bool)
    ensures Select(User, authenticated, CreatePath) == RedirectRoot
    ensures Select(User, authenticated, Match("/")) == UserList
  {
  }

  /** The matcher recognises the three route shapes. */
  lemma MatchRoutes(segment: string)
    requires segment != [] && '/' !in segment
    ensures Match("/") == Root
    ensures Match("/create") == CreatePath
    ensures Match("/posts/" + segment) == PostPath(segment)
  {
    var path := "/posts/" + segment;
    assert path[..7] == "/posts/";
    assert path[7..] == segment;
  }

  /**
   * Only the three route shapes match: every other path, whatever it is,
   * matches nothing.
   */
  lemma OnlyRouteShapesMatch(path: string)
    requires path != "/" && path != "/create"
    requires forall seg: string :: seg != [] && '/' !in seg ==> path != "/posts/" + seg
    ensures Match(path) == Other
  {
    if |path| > 7 && path[..7] == "/posts/" && '/' !in path[7..] {
      assert path == "/posts/" + path[7..];
    }
  }

  /** Examples of paths outside the three shapes. */
  lemma UnknownPathsMatchNothing()
    ensures Match("/posts/") == Other
    ensures Match("/posts/1/edit") == Other
    ensures Match("/about") == Other
  {
    assert "/posts/1/edit"[7..] == "1/edit";
    assert '/' in "1/edit";
  }
}
