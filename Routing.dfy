/** The `Router` of scripts/app.js: the route table, the page a path shows, and the decisions of
    `navigate` and `handleRoute`. The browser is reduced to the current pathname, the history
    entries pushed and the address assigned to `location.href` (a page load). */
module Routing {
  import opened Wrappers

  /** `this.routes`. */
  const Routes: map<string, string> := map[
    "/" := "index.html",
    "/home" := "index.html",
    "/challenges" := "pages/challenges.html",
    "/editor" := "editor.html",
    "/profile" := "pages/profile.html",
    "/coding" := "editor.html",
    "/leaderboard" := "pages/leaderboard.html"]

  /** The pages the router knows. */
  const Pages: set<string> := {"index.html", "pages/challenges.html", "editor.html", "pages/profile.html", "pages/leaderboard.html"}

  lemma RoutesLeadToPages()
    ensures forall p :: p in Routes ==> Routes[p] in Pages
    ensures forall page :: page in Pages ==> exists p :: p in Routes && Routes[p] == page
  {
    assert Routes["/challenges"] == "pages/challenges.html";
    assert Routes["/profile"] == "pages/profile.html";
    assert Routes["/leaderboard"] == "pages/leaderboard.html";
    assert Routes["/editor"] == "editor.html";
    assert Routes["/"] == "index.html";
  }

  /** `path.split('/').pop()`: what follows the last `/`, or the whole path when there is none. */
  function LastSegment(path: string): string {
    if path == [] then []
    else if path[|path| - 1] == '/' then []
    else LastSegment(path[..|path| - 1]) + [path[|path| - 1]]
  }

  /** The last segment is the longest suffix without a `/`: it holds none, and the path either
      is the segment or has a `/` right before it. */
  lemma {:induction false} LastSegmentIsSuffix(path: string)
    ensures var seg := LastSegment(path);
      && '/' !in seg
      && |seg| <= |path| && seg == path[|path| - |seg|..]
      && (|seg| < |path| ==> path[|path| - |seg| - 1] == '/')
    decreases |path|
  {
    if path != [] && path[|path| - 1] != '/' {
      var init := path[..|path| - 1];
      LastSegmentIsSuffix(init);
      var seg := LastSegment(init);
      assert path[|path| - |seg| - 1..] == init[|init| - |seg|..] + [path[|path| - 1]];
    }
  }

  /** `getCurrentPageFromPath`: the page named by the last segment; an empty segment or an
      unknown file name means the home page. */
  function GetCurrentPageFromPath(path: string): (page: string)
    ensures page in Pages
  {
    PageOfFile(LastSegment(path))
  }

  /** The `switch` of `getCurrentPageFromPath` on the file name (`|| 'index.html'` included). */
  function PageOfFile(segment: string): (page: string)
    ensures page in Pages
  {
    var fileName := if segment == "" then "index.html" else segment;
    if fileName == "index.html" || fileName == "" then "index.html"
    else if fileName == "challenges.html" then "pages/challenges.html"
    else if fileName == "editor.html" then "editor.html"
    else if fileName == "profile.html" then "pages/profile.html"
    else if fileName == "leaderboard.html" then "pages/leaderboard.html"
    else "index.html"
  }

  lemma {:induction false} LastSegmentAfterSlash(dir: string, file: string)
    requires '/' !in file
    ensures LastSegment(dir + "/" + file) == file
    decreases |file|
  {
    var path := dir + "/" + file;
    if file != [] {
      var init := file[..|file| - 1];
      assert path[..|path| - 1] == dir + "/" + init;
      assert file == init + [file[|file| - 1]];
      assert file[|file| - 1] in file;
      LastSegmentAfterSlash(dir, init);
    }
  }

  /** Every page is recognised at its own file path: loading a page and asking which page is
      shown gives the page back. */
  lemma PageOfOwnFile(page: string)
    requires page in Pages
    ensures GetCurrentPageFromPath("/" + page) == page
  {
    if page == "index.html" || page == "editor.html" {
      KnownFiles();
      PageInDirectory("", page, page);
    } else {
      PageOfOwnFileInPages(page);
    }
  }

  lemma PageOfOwnFileInPages(page: string)
    requires page in {"pages/challenges.html", "pages/profile.html", "pages/leaderboard.html"}
    ensures GetCurrentPageFromPath("/" + page) == page
  {
    if page == "pages/challenges.html" {
      PageInPagesDirectory(page, "challenges.html");
    } else if page == "pages/profile.html" {
      PageInPagesDirectory(page, "profile.html");
    } else {
      PageInPagesDirectory(page, "leaderboard.html");
    }
  }

  lemma PageInPagesDirectory(page: string, file: string)
    requires '/' !in file && page == "pages/" + file
    ensures GetCurrentPageFromPath("/" + page) == PageOfFile(file)
  {
    assert "/" + page == "/pages" + "/" + file;
    PageAtPath("/pages", file);
  }

  lemma PageInDirectory(dir: string, file: string, page: string)
    requires '/' !in file
    requires "/" + page == dir + "/" + file
    requires PageOfFile(file) == page
    ensures GetCurrentPageFromPath("/" + page) == page
  {
    PageAtPath(dir, file);
  }

  lemma PageAtPath(dir: string, file: string)
    requires '/' !in file
    ensures GetCurrentPageFromPath(dir + "/" + file) == PageOfFile(file)
  {
    LastSegmentAfterSlash(dir, file);
  }

  /** The file names the `switch` recognises. */
  lemma KnownFiles()
    ensures PageOfFile("index.html") == "index.html" && PageOfFile("") == "index.html"
    ensures PageOfFile("challenges.html") == "pages/challenges.html"
    ensures PageOfFile("editor.html") == "editor.html"
    ensures PageOfFile("profile.html") == "pages/profile.html"
    ensures PageOfFile("leaderboard.html") == "pages/leaderboard.html"
  {
  }

  /** A path with no segment, or one naming no known file, shows the home page. */
  lemma UnknownFileIsHome(dir: string, file: string)
    requires '/' !in file
    requires file !in {"challenges.html", "editor.html", "profile.html", "leaderboard.html"}
    ensures GetCurrentPageFromPath(dir + "/" + file) == "index.html"
  {
    LastSegmentAfterSlash(dir, file);
  }

  /** The rewrite both `navigate` and `handleRoute` start with. */
  function Normalize(path: string): (p: string)
    ensures p == "/" <==> path in {"/", "/index.html"}
    ensures path !in {"/", "/index.html"} ==> p == path
  {
    if path == "/" || path == "/index.html" then "/" else path
  }

  /** `handleRoute`'s decision, given the pathname the page was reached by: the address to load,
      or `None` to stay. */
  function RouteDecision(path: string, currentPathname: string): (href: Option<string>)
    ensures Normalize(path) !in Routes ==> href == Some("/")
    ensures Normalize(path) in Routes ==>
      (href == None <==> GetCurrentPageFromPath(currentPathname) == Routes[Normalize(path)])
    ensures Normalize(path) in Routes && href.Some? ==> href.value == Routes[Normalize(path)]
  {
    var p := Normalize(path);
    if p in Routes then
      if GetCurrentPageFromPath(currentPathname) != Routes[p] then Some(Routes[p]) else None
    else Some("/")
  }

  /** Once the page of a route is loaded, routing to it again loads nothing more. */
  lemma RouteDecisionSettles(path: string)
    requires Normalize(path) in Routes
    ensures RouteDecision(path, "/" + Routes[Normalize(path)]) == None
  {
    RoutesLeadToPages();
    PageOfOwnFile(Routes[Normalize(path)]);
  }

  /** What the `navigate` of the source leaves: the history entry it pushes (if any) and the
      address it assigns. It pushes first and only then lets `handleRoute` compare the target
      with the page of the NEW pathname. */
  function NavigateAsWritten(path: Option<string>, pathname: string): (out: (Option<string>, Option<string>))
    ensures path.None? || path.value == "" ==> out == (None, None)
    ensures path.Some? && path.value != "" ==> out.0 == Some(Normalize(path.value))
  {
    if path.None? || path.value == "" then (None, None)
    else
      var p := Normalize(path.value);
      var currentPage := GetCurrentPageFromPath(pathname);
      if p in Routes && currentPage == Routes[p] then (Some(p), None)
      else (Some(p), RouteDecision(p, p))
  }

  /** Navigating home from any other page pushes `/` but loads nothing: `/` is itself taken for
      the home page, so the old page stays on display under the home address. */
  lemma NavigateHomeStaysAsWritten(pathname: string)
    requires GetCurrentPageFromPath(pathname) != "index.html"
    ensures Routes["/"] != GetCurrentPageFromPath(pathname)
    ensures NavigateAsWritten(Some("/"), pathname) == (Some("/"), None)
  {
    HomeRouteSettles();
    var p := Normalize("/");
    assert p == "/";
    assert !(p in Routes && GetCurrentPageFromPath(pathname) == Routes[p]);
  }

  /** At `/` the home page counts as shown, so routing `/` there loads nothing. */
  lemma HomeRouteSettles()
    ensures RouteDecision("/", "/") == None
  {
    assert LastSegment("/") == "";
    assert GetCurrentPageFromPath("/") == "index.html";
  }

  /** In particular from the address of any page but the home page, such as
      `/pages/challenges.html`. */
  lemma NavigateHomeFromPage(page: string)
    requires page in Pages && page != "index.html"
    ensures GetCurrentPageFromPath("/" + page) == page
    ensures NavigateAsWritten(Some("/"), "/" + page) == (Some("/"), None)
  {
    PageOfOwnFile(page);
    NavigateHomeStaysAsWritten("/" + page);
  }

  /** The intended `navigate`: the same decision made against the page on display, before the
      new entry is pushed. */
  function NavigateIntended(path: Option<string>, pathname: string): (out: (Option<string>, Option<string>))
    ensures path.None? || path.value == "" ==> out == (None, None)
    ensures path.Some? && path.value != "" ==> out.0 == Some(Normalize(path.value))
  {
    if path.None? || path.value == "" then (None, None)
    else (Some(Normalize(path.value)), RouteDecision(path.value, pathname))
  }

  /** After the intended `navigate` to a known route, the route's page is on display: it was
      already, or it is loaded. An unknown route loads the home address. */
  lemma NavigateIntendedShowsTarget(path: string, pathname: string)
    requires path != ""
    ensures var out := NavigateIntended(Some(path), pathname); var p := Normalize(path);
      && (p in Routes ==> (out.1 == None && GetCurrentPageFromPath(pathname) == Routes[p]) || out.1 == Some(Routes[p]))
      && (p !in Routes ==> out.1 == Some("/"))
  {
  }

  /** The two agree everywhere except where the target's own address is taken for the target page
      while another page is on display. */
  lemma NavigateAsWrittenAgrees(path: string, pathname: string)
    requires path != ""
    requires var p := Normalize(path); p in Routes ==>
      GetCurrentPageFromPath(p) != Routes[p] || GetCurrentPageFromPath(pathname) == Routes[p]
    ensures NavigateAsWritten(Some(path), pathname) == NavigateIntended(Some(path), pathname)
  {
  }

  class Router {
    /** `window.location.pathname`. */
    var pathname: string
    /** The entries `history.pushState` added, oldest first. */
    var history: seq<string>
    /** The address the last call assigned to `window.location.href`, if any. */
    var redirect: Option<string>

    constructor (initialPathname: string)
      ensures pathname == initialPathname && history == [] && redirect == None
    {
      pathname := initialPathname;
      history := [];
      redirect := None;
    }

    /** `handleRoute`: load the route's page unless it is the page of the current pathname; load
        `/` for an unknown route. */
    method HandleRoute(path: string)
      modifies this
      ensures pathname == old(pathname) && history == old(history)
      ensures redirect == RouteDecision(path, pathname)
    {
      var p := if path == "/" || path == "/index.html" then "/" else path;
      if p in Routes {
        var targetPage := Routes[p];
        var currentPage := GetCurrentPageFromPath(pathname);
        if currentPage != targetPage {
          redirect := Some(targetPage);
        } else {
          redirect := None;
        }
      } else {
        redirect := Some("/");
      }
    }

    /** The `popstate` listener: the browser has moved to `newPathname`, which is then routed. */
    method PopState(newPathname: string)
      modifies this
      ensures pathname == newPathname && history == old(history)
      ensures redirect == RouteDecision(newPathname, newPathname)
    {
      pathname := newPathname;
      HandleRoute(pathname);
    }

    /** `navigate`, with the route decided against the page on display before the new entry is
        pushed: an empty path does nothing; a route whose page is already shown only pushes. */
    method Navigate(path: Option<string>)
      modifies this
      ensures path.None? || path.value == "" ==> pathname == old(pathname) && history == old(history) && redirect == None
      ensures path.Some? && path.value != "" ==>
        && pathname == Normalize(path.value)
        && history == old(history) + [Normalize(path.value)]
        && redirect == NavigateIntended(path, old(pathname)).1
    {
      redirect := None;
      if path.None? || path.value == "" {
        return;
      }
      var p := if path.value == "/" || path.value == "/index.html" then "/" else path.value;
      var before := pathname;
      HandleRoute(p);
      history := history + [p];
      pathname := p;
      assert redirect == RouteDecision(path.value, before);
    }
  }
}
