/**
 * The route table of the front end (frontend/src/router/routes.tsx) and the guard that
 * keeps the admin pages for logged-in administrators.
 */
module Routes {
  import opened Wrappers
  import opened Http
  import LogIn
  import Profile
  import Strings = Text

  datatype Page = HomePage | SignUpPage | LogInPage | ProfilePage | AdminPage
                | StaffManagementPage | PatientManagementPage

  datatype Route = Route(path: string, page: Page, guarded: bool)

  /** What a route renders: its page, a redirect, or nothing when reading the stored user throws. */
  datatype Rendered = Render(page: Page) | Redirect(to: string) | Crash

  /** `routes`: four open pages, then the three behind `PrivateRoute`. */
  const Table: seq<Route> := [
    Route("/", HomePage, false),
    Route("/signup", SignUpPage, false),
    Route("/login", LogInPage, false),
    Route("/profile", ProfilePage, false),
    Route("/adminpage", AdminPage, true),
    Route("/staff-management", StaffManagementPage, true),
    Route("/patient-management", PatientManagementPage, true)
  ]

  /** The entry of the table for a path, if any. */
  function Lookup(routes: seq<Route>, path: string): (r: Option<Route>)
    ensures r.Some? ==> r.value in routes && r.value.path == path
    ensures r.None? ==> forall i :: 0 <= i < |routes| ==> routes[i].path != path
  {
    if routes == [] then None
    else if routes[0].path == path then Some(routes[0])
    else Lookup(routes[1..], path)
  }

  /** `user?.roles?.[0] === "ADMIN"`: only a list of roles whose first is `ADMIN` passes. */
  predicate FirstRoleIsAdmin(user: Object) {
    "roles" in user && user["roles"].StrList? && |user["roles"].items| > 0
    && user["roles"].items[0] == "ADMIN"
  }

  /**
   * `PrivateRoute`: the guarded page when `isLoggedIn` is the text `true` and the stored
   * user's first role is `ADMIN`; a redirect to `/login` otherwise.
   */
  function PrivateRoute(storage: Storage, page: Page): (r: Rendered)
    ensures r == Render(page) <==>
              && "isLoggedIn" in storage && storage["isLoggedIn"] == Text("true")
              && Profile.StoredUser(storage).Some? && FirstRoleIsAdmin(Profile.StoredUser(storage).value)
    ensures r.Redirect? ==> r.to == "/login"
    ensures r.Crash? <==> Profile.StoredUser(storage).None?
  {
    var isLoggedIn := "isLoggedIn" in storage && storage["isLoggedIn"] == Text("true");
    match Profile.StoredUser(storage)
    case None => Crash
    case Some(user) =>
      if isLoggedIn && FirstRoleIsAdmin(user) then Render(page) else Redirect("/login")
  }

  /** What the router shows for a path; an unknown path shows nothing (`None`). */
  function Navigate(storage: Storage, path: string): (r: Option<Rendered>)
    ensures r.None? <==> Lookup(Table, path).None?
    ensures r.Some? && !Lookup(Table, path).value.guarded ==> r.value == Render(Lookup(Table, path).value.page)
    ensures r.Some? && Lookup(Table, path).value.guarded ==>
              r.value == PrivateRoute(storage, Lookup(Table, path).value.page)
  {
    match Lookup(Table, path)
    case None => None
    case Some(route) =>
      Some(if route.guarded then PrivateRoute(storage, route.page) else Render(route.page))
  }

  /** Exactly the three admin paths are guarded. */
  lemma GuardedPaths(path: string)
    ensures Lookup(Table, path).Some? && Lookup(Table, path).value.guarded
            <==> path in {"/adminpage", "/staff-management", "/patient-management"}
    ensures Lookup(Table, path).Some? && !Lookup(Table, path).value.guarded
            <==> path in {"/", "/signup", "/login", "/profile"}
  {
    OpenPrefix(path);
    GuardedSuffix(path);
  }

  /** The first four entries are the open pages. */
  lemma OpenPrefix(path: string)
    ensures Lookup(Table, path) == if Lookup(Table[..4], path).Some?
                                   then Lookup(Table[..4], path) else Lookup(Table[4..], path)
    ensures Lookup(Table[..4], path).Some? ==> !Lookup(Table[..4], path).value.guarded
  {
    assert Table == Table[..4] + Table[4..];
    LookupAppend(Table[..4], Table[4..], path);
  }

  /** Looking up in two tables one after the other: the first one's entry wins. */
  lemma {:induction false} LookupAppend(first: seq<Route>, second: seq<Route>, path: string)
    ensures Lookup(first + second, path)
            == if Lookup(first, path).Some? then Lookup(first, path) else Lookup(second, path)
  {
    if first != [] {
      assert (first + second)[1..] == first[1..] + second;
      LookupAppend(first[1..], second, path);
    } else {
      assert first + second == second;
    }
  }

  /** The last three entries are the guarded pages. */
  lemma GuardedSuffix(path: string)
    ensures Lookup(Table[4..], path).Some? <==> path in {"/adminpage", "/staff-management", "/patient-management"}
    ensures Lookup(Table[4..], path).Some? ==> Lookup(Table[4..], path).value.guarded
    ensures Lookup(Table[..4], path).Some? <==> path in {"/", "/signup", "/login", "/profile"}
  {
    assert Table[4].path == "/adminpage" && Table[5].path == "/staff-management";
    assert Table[6].path == "/patient-management";
    assert Table[0].path == "/" && Table[1].path == "/signup";
    assert Table[2].path == "/login" && Table[3].path == "/profile";
  }

  /** The open pages render whatever is stored. */
  lemma OpenPagesIgnoreStorage(storage: Storage, path: string)
    requires path in {"/", "/signup", "/login", "/profile"}
    ensures Navigate(storage, path).Some? && Navigate(storage, path).value.Render?
  {
    GuardedPaths(path);
  }

  /** Without a stored user, nobody is admitted, whatever `isLoggedIn` says. */
  lemma MissingUserNeverAdmitted(storage: Storage, page: Page)
    requires "user" !in storage
    ensures PrivateRoute(storage, page) == Redirect("/login")
  {
  }

  /** A login whose response succeeded and whose email contains `admin` opens the guarded pages. */
  lemma AdminLoginAdmits(storage: Storage, email: string, response: LogIn.LoginResponse, now: nat, page: Page)
    requires response.Ok? && Strings.Contains(email, "admin")
    ensures var data := LogIn.LoginResult(email, response, now).value;
            var after := storage["accessToken" := Text(data.accessToken)]
                                ["isLoggedIn" := Text("true")]["user" := Json(data.user)];
            PrivateRoute(after, page) == Render(page)
  {
  }

  /** Any other login is sent back to the log-in page. */
  lemma UserLoginRedirected(storage: Storage, email: string, response: LogIn.LoginResponse, now: nat, page: Page)
    requires response.Ok? && !Strings.Contains(email, "admin")
    ensures var data := LogIn.LoginResult(email, response, now).value;
            var after := storage["accessToken" := Text(data.accessToken)]
                                ["isLoggedIn" := Text("true")]["user" := Json(data.user)];
            PrivateRoute(after, page) == Redirect("/login")
  {
  }

  /** The page a login navigates to is a guarded one exactly when the guard then lets the user in. */
  lemma LoginDestinationAgreesWithGuard(storage: Storage, data: LogIn.LoginData)
    ensures var after := storage["accessToken" := Text(data.accessToken)]
                                ["isLoggedIn" := Text("true")]["user" := Json(data.user)];
            LogIn.Destination(data.user) == "/adminpage" <==> PrivateRoute(after, AdminPage) == Render(AdminPage)
  {
  }

  /** After a logout from the profile page the admin pages redirect, and so does the profile page itself. */
  lemma LogoutLocksOut(storage: Storage, page: Page)
    ensures PrivateRoute(storage - {"accessToken", "isLoggedIn", "user", "checkoutInfo"}, page) == Redirect("/login")
    ensures Profile.MountProfile(storage - {"accessToken", "isLoggedIn", "user", "checkoutInfo"}) == Profile.SentToLogin
  {
  }

  /** For a logged-in session, the profile page flags an admin exactly when the guard admits. */
  lemma ProfileAdminAgreesWithGuard(storage: Storage, page: Page)
    requires "isLoggedIn" in storage && storage["isLoggedIn"] == Text("true")
    requires Profile.MountProfile(storage).Shown?
    ensures Profile.MountProfile(storage).isAdmin <==> PrivateRoute(storage, page) == Render(page)
  {
  }
}
