/**
 * The application's static route table: which page each path shows and
 * which pages sit behind the session guard.
 */
module Routes {
  import opened Wrappers
  import opened Api
  import Session

  datatype Page = LoginPage | CategoryPrompt | WorkPage | HomePage | PersonalPage | StudyPage | WeeklyPage | AllPage

  /** A route element: a page shown as is, a page wrapped in the guard, or a
      redirect. */
  datatype Element = Public(page: Page) | Guarded(page: Page) | RedirectTo(path: string)

  datatype Route = Route(path: string, element: Element)

  /** The declared routes, in declaration order; the catch-all comes after. */
  const Table: seq<Route> := [
    Route("/login", Public(LoginPage)),
    Route("/sidebar", Guarded(CategoryPrompt)),
    Route("/work", Guarded(WorkPage)),
    Route("/home", Guarded(HomePage)),
    Route("/personal", Guarded(PersonalPage)),
    Route("/study", Guarded(StudyPage)),
    Route("/weekly", Guarded(WeeklyPage)),
    Route("/all", Guarded(AllPage))
  ]

  /** The element of the first route declaring `path`; a path no route
      declares falls to the catch-all, which redirects to /login. */
  function MatchIn(routes: seq<Route>, path: string): Element {
    if routes == [] then RedirectTo(LoginPath)
    else if routes[0].path == path then routes[0].element
    else MatchIn(routes[1..], path)
  }

  /** A path no route declares gets the redirect; a declared path gets the
      element of a route declaring it. */
  lemma {:induction false} MatchInCases(routes: seq<Route>, path: string)
    ensures (forall i :: 0 <= i < |routes| ==> routes[i].path != path) ==> MatchIn(routes, path) == RedirectTo(LoginPath)
    ensures (exists i :: 0 <= i < |routes| && routes[i].path == path) ==>
              exists i :: 0 <= i < |routes| && routes[i] == Route(path, MatchIn(routes, path))
  {
    if routes != [] && routes[0].path != path {
      var rest := routes[1..];
      MatchInCases(rest, path);
      if exists i :: 0 <= i < |routes| && routes[i].path == path {
        var i :| 0 <= i < |routes| && routes[i].path == path;
        assert rest[i - 1].path == path;
        var j :| 0 <= j < |rest| && rest[j] == Route(path, MatchIn(rest, path));
        assert routes[j + 1] == rest[j];
      }
      if forall i :: 0 <= i < |routes| ==> routes[i].path != path {
        assert forall i :: 0 <= i < |rest| ==> rest[i] == routes[i + 1];
      }
    }
  }

  /** The element shown for a path; an unknown path falls to the catch-all. */
  function Match(path: string): Element {
    MatchIn(Table, path)
  }

  /** In a table of guarded routes only, a path either matches a guarded
      route it declares or falls to the redirect. */
  lemma {:induction false} MatchInGuarded(routes: seq<Route>, path: string)
    requires forall i :: 0 <= i < |routes| ==> routes[i].element.Guarded?
    ensures MatchIn(routes, path).Guarded? <==> exists i :: 0 <= i < |routes| && routes[i].path == path
    ensures !MatchIn(routes, path).Guarded? ==> MatchIn(routes, path) == RedirectTo(LoginPath)
  {
    if routes != [] && routes[0].path != path {
      var rest := routes[1..];
      MatchInGuarded(rest, path);
      if exists i :: 0 <= i < |routes| && routes[i].path == path {
        var i :| 0 <= i < |routes| && routes[i].path == path;
        assert rest[i - 1].path == path;
      }
    }
  }

  /** /login heads the table and is declared once; every other route is
      guarded. */
  lemma TableShape()
    ensures Table[0] == Route(LoginPath, Public(LoginPage))
    ensures forall i :: 1 <= i < |Table| ==> Table[i].path != LoginPath && Table[i].element.Guarded?
  {
  }

  /** The paths a table declares. */
  function PathsOf(routes: seq<Route>): set<string> {
    set i | 0 <= i < |routes| :: routes[i].path
  }

  function DeclaredPaths(): set<string> {
    PathsOf(Table)
  }

  /** In a table headed by the public /login route and guarded otherwise,
      /login shows the login page, every other declared path is guarded and
      any other path redirects. */
  lemma {:induction false} LoginFirstCases(routes: seq<Route>, path: string)
    requires routes != [] && routes[0] == Route(LoginPath, Public(LoginPage))
    requires forall i :: 1 <= i < |routes| ==> routes[i].path != LoginPath && routes[i].element.Guarded?
    ensures path !in PathsOf(routes) ==> MatchIn(routes, path) == RedirectTo(LoginPath)
    ensures path == LoginPath ==> MatchIn(routes, path) == Public(LoginPage)
    ensures path in PathsOf(routes) && path != LoginPath ==> MatchIn(routes, path).Guarded?
  {
    var rest := routes[1..];
    MatchInGuarded(rest, path);
    if path != LoginPath && path in PathsOf(routes) {
      var i :| 0 <= i < |routes| && routes[i].path == path;
      assert rest[i - 1].path == path;
    }
  }

  /** Every declared route except /login is wrapped in the guard, /login
      shows the login page, and any other path redirects to /login. */
  lemma RouteTableCases(path: string)
    ensures path !in DeclaredPaths() ==> Match(path) == RedirectTo(LoginPath)
    ensures path == LoginPath ==> Match(path) == Public(LoginPage)
    ensures path in DeclaredPaths() && path != LoginPath ==> Match(path).Guarded?
  {
    TableShape();
    LoginFirstCases(Table, path);
  }

  /** What the user ends up seeing for a path, and the stored token after
      the guard (if any) has run. */
  datatype Screen = Shown(page: Page) | Redirected(path: string)

  function Visit(path: string, token: Option<string>, decode: Session.Decoder, now: int): (res: (Screen, Option<string>))
    ensures res.0.Shown? && res.0.page != LoginPage ==> Session.Check(token, decode, now).Valid?
    ensures res.0.Redirected? ==> res.0.path == LoginPath
  {
    RouteTableCases(path);
    match Match(path)
    case Public(p) => (Shown(p), token)
    case RedirectTo(target) => (Redirected(target), token)
    case Guarded(p) =>
      var d := Session.Guard(token, decode, now);
      (if d.outcome == Session.Render then Shown(p) else Redirected(LoginPath), d.token)
  }

  /** Every guarded page shows exactly when the session check passes, and
      the guard's redirect leaves no usable token behind: a second visit to
      a guarded page with the storage the first one left redirects again. */
  lemma {:induction false} VisitCases(path: string, token: Option<string>, decode: Session.Decoder, now: int)
    ensures path in DeclaredPaths() && path != LoginPath ==>
              (Visit(path, token, decode, now).0.Shown? <==> Session.Check(token, decode, now).Valid?)
    ensures path in DeclaredPaths() && Visit(path, token, decode, now).0.Redirected? ==>
              !Session.Present(Visit(path, token, decode, now).1)
  {
    RouteTableCases(path);
  }
}
