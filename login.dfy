/**
 * The log-in form (frontend/src/components/LogIn.tsx): the login call and the role it
 * derives from the email, what a successful login stores, where it navigates, and
 * the messages shown.
 */
module LogIn {
  import opened Wrappers
  import opened Text
  import opened Http

  /** The role given to a user: `ADMIN` exactly when the email contains `admin`. */
  function DeriveRole(email: string): (role: string)
    ensures role == "ADMIN" <==> Contains(email, "admin")
    ensures role == "USER" <==> !Contains(email, "admin")
  {
    if Contains(email, "admin") then "ADMIN" else "USER"
  }

  lemma AdminEmail()
    ensures DeriveRole("admin@hospital.com") == "ADMIN"
  {
    assert OccursAt("admin@hospital.com", 0, "admin");
  }

  /** The test is on the text as typed: upper case does not count. */
  lemma UpperCaseAdminIsUser()
    ensures DeriveRole("ADMIN@hospital.com") == "USER"
  {
    var s := "ADMIN@hospital.com";
    forall i | 0 <= i <= |s|
      ensures !OccursAt(s, i, "admin")
    {
      if i + 5 <= |s| {
        assert s[i..i + 5][0] == s[i];
        assert s[i] != 'a' || s[i + 1] != 'd';
      }
    }
  }

  /** How the login call ends: the `user` of the response data, or axios' message and the server's `error`. */
  datatype LoginResponse = Ok(dataUser: Option<Object>) | Err(message: string, dataError: Option<string>)

  datatype LoginData = LoginData(user: Object, accessToken: string)

  /** `loginUser`: the request it sends. */
  function LoginRequest(email: string, password: string): Request {
    Request(POST, AuthLogin, Some(map["username" := Str(email), "password" := Str(password)]))
  }

  /**
   * How `loginUser` settles, with `now` standing for `Date.now()`: the user of the
   * response with one role and the typed email, or an error message.
   */
  function LoginResult(email: string, response: LoginResponse, now: nat): (r: Result<LoginData>)
    ensures r.Success? <==> response.Ok?
    ensures r.Success? ==>
              && "roles" in r.value.user && "email" in r.value.user
              && r.value.user["roles"] == StrList([DeriveRole(email)])
              && r.value.user["email"] == Str(email)
              && r.value.accessToken == "auth-token-" + NatToString(now)
    ensures r.Success? && response.dataUser.Some? ==>
              forall k :: k in response.dataUser.value && k != "roles" && k != "email"
                ==> k in r.value.user && r.value.user[k] == response.dataUser.value[k]
    ensures r.Failure? ==>
              r.error == if response.dataError.Some? && response.dataError.value != ""
                         then response.dataError.value else response.message
  {
    match response
    case Ok(dataUser) =>
      var base := if dataUser.Some? then dataUser.value else map[];
      Success(LoginData(base["roles" := StrList([DeriveRole(email)])]["email" := Str(email)],
                        "auth-token-" + NatToString(now)))
    case Err(message, dataError) =>
      Failure(if dataError.Some? && dataError.value != "" then dataError.value else message)
  }

  /** The path navigated to after a login. */
  function Destination(user: Object): (path: string)
    ensures path == "/adminpage" <==> "roles" in user && user["roles"].StrList?
                                      && |user["roles"].items| > 0 && user["roles"].items[0] == "ADMIN"
    ensures path != "/adminpage" ==> path == "/"
  {
    if "roles" in user && user["roles"].StrList? && |user["roles"].items| > 0
       && user["roles"].items[0] == "ADMIN"
    then "/adminpage" else "/"
  }

  /** A logged-in user goes to the admin page exactly when the email contains `admin`. */
  lemma DestinationFollowsEmail(email: string, response: LoginResponse, now: nat)
    requires response.Ok?
    ensures Destination(LoginResult(email, response, now).value.user) == "/adminpage"
            <==> Contains(email, "admin")
  {
  }

  /** `onError`: the error's message, or a fixed text for an empty one. */
  function ErrorToast(message: string): (toast: string)
    ensures toast != ""
    ensures message != "" ==> toast == message
  {
    if message != "" then message else "Invalid email or password. Please try again."
  }

  const EmptyCredentials := "Please enter email and password."
  const LoggedIn := "Logged in successfully!"

  class LogInPage {
    var storage: Storage
    var log: seq<Request>
    var toasts: seq<string>
    var navigation: Option<string>

    /** `onSuccess`: the three session keys are written; nothing else in storage changes. */
    method OnSuccess(data: LoginData)
      modifies this
      ensures storage == old(storage)["accessToken" := Text(data.accessToken)]
                                     ["isLoggedIn" := Text("true")]["user" := Json(data.user)]
      ensures toasts == old(toasts) + [LoggedIn]
      ensures navigation == Some(Destination(data.user))
      ensures log == old(log)
    {
      storage := storage["accessToken" := Text(data.accessToken)];
      storage := storage["isLoggedIn" := Text("true")];
      storage := storage["user" := Json(data.user)];
      toasts := toasts + [LoggedIn];
      var userRole := if "roles" in data.user && data.user["roles"].StrList? && |data.user["roles"].items| > 0
                      then Some(data.user["roles"].items[0]) else None;
      if userRole == Some("ADMIN") {
        navigation := Some("/adminpage");
      } else {
        navigation := Some("/");
      }
    }

    /**
     * `handleLogin` and the mutation it starts: nothing is sent without both fields;
     * otherwise one POST, then `onSuccess` or the error toast.
     */
    method HandleLogin(email: string, password: string, response: LoginResponse, now: nat)
      modifies this
      ensures email == "" || password == "" ==>
                log == old(log) && toasts == old(toasts) + [EmptyCredentials]
                && storage == old(storage) && navigation == old(navigation)
      ensures email != "" && password != "" ==> log == old(log) + [LoginRequest(email, password)]
      ensures email != "" && password != "" && response.Err? ==>
                toasts == old(toasts) + [ErrorToast(LoginResult(email, response, now).error)]
                && storage == old(storage) && navigation == old(navigation)
      ensures email != "" && password != "" && response.Ok? ==>
                var data := LoginResult(email, response, now).value;
                && storage == old(storage)["accessToken" := Text(data.accessToken)]
                                          ["isLoggedIn" := Text("true")]["user" := Json(data.user)]
                && toasts == old(toasts) + [LoggedIn]
                && navigation == Some(Destination(data.user))
    {
      if email == "" || password == "" {
        toasts := toasts + [EmptyCredentials];
        return;
      }
      log := log + [LoginRequest(email, password)];
      var result := LoginResult(email, response, now);
      if result.Success? {
        OnSuccess(result.value);
      } else {
        toasts := toasts + [ErrorToast(result.error)];
      }
    }
  }
}
