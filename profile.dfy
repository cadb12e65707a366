/**
 * The profile page (frontend/src/components/Profile.tsx): the checks made before a
 * profile update, the update request, the handling of its response and the merge of
 * the new name into the user kept in `localStorage`.
 */
module Profile {
  import opened Wrappers
  import opened Http

  /**
   * A text field of the user object: `Some` for a string value, `None` when the key is
   * absent (undefined).
   */
  function TextField(user: Object, key: string): (v: Option<string>)
    ensures v.Some? <==> key in user && user[key].Str?
  {
    if key in user && user[key].Str? then Some(user[key].s) else None
  }

  /** JavaScript truthiness of a string field: defined and not empty. */
  predicate Truthy(v: Option<string>) {
    v.Some? && v.value != ""
  }

  const MissingProfile := "Profile data is missing!"
  const EmptyFields := "One or more fields are empty."
  const MissingPassword := "Please fill in all password fields."
  const PasswordMismatch := "New password and confirmation do not match."

  // ---------------------------------------------------------------------------
  // The guard chain
  // ---------------------------------------------------------------------------

  /** The first failing check of `handleUpdateProfile`, or `None` when the update may go ahead. */
  function ProfileGuard(user: Option<Object>): (err: Option<string>)
    ensures user.None? ==> err == Some(MissingProfile)
    ensures err.None? <==>
              && user.Some?
              && Truthy(TextField(user.value, "name")) && Truthy(TextField(user.value, "username"))
              && (Truthy(TextField(user.value, "old_password")) ==> Truthy(TextField(user.value, "password")))
              && TextField(user.value, "password") == TextField(user.value, "confirm_password")
  {
    if user.None? then Some(MissingProfile)
    else
      var u := user.value;
      if !Truthy(TextField(u, "name")) || !Truthy(TextField(u, "username")) then Some(EmptyFields)
      else if Truthy(TextField(u, "old_password")) && !Truthy(TextField(u, "password")) then Some(MissingPassword)
      else if TextField(u, "password") != TextField(u, "confirm_password") then Some(PasswordMismatch)
      else None
  }

  /** An empty name or username is reported before anything about the passwords. */
  lemma EmptyNameFirst(user: Object)
    requires !Truthy(TextField(user, "name")) || !Truthy(TextField(user, "username"))
    ensures ProfileGuard(Some(user)) == Some(EmptyFields)
  {
  }

  /** With an old password given, an empty new password is refused even if the confirmation is empty too. */
  lemma OldPasswordNeedsNew(user: Object)
    requires Truthy(TextField(user, "name")) && Truthy(TextField(user, "username"))
    requires Truthy(TextField(user, "old_password")) && TextField(user, "password") == Some("")
    ensures ProfileGuard(Some(user)) == Some(MissingPassword)
  {
  }

  /** Without an old password, a new one that differs from its confirmation is still refused. */
  lemma MismatchRefused(user: Object)
    requires Truthy(TextField(user, "name")) && Truthy(TextField(user, "username"))
    requires !Truthy(TextField(user, "old_password"))
    requires TextField(user, "password") != TextField(user, "confirm_password")
    ensures ProfileGuard(Some(user)) == Some(PasswordMismatch)
  {
  }

  // ---------------------------------------------------------------------------
  // The request
  // ---------------------------------------------------------------------------

  const SentFields := {"id", "name", "username", "old_password", "password"}

  /**
   * `JSON.stringify({ id, name, username, old_password, password })`: the five fields,
   * except those that are undefined, which the serialisation drops.
   */
  function UpdateBody(user: Object): (body: Object)
    ensures body.Keys <= SentFields
    ensures forall k :: k in SentFields ==> (k in body <==> TextField(user, k).Some?)
    ensures forall k :: k in body ==> body[k] == Str(TextField(user, k).value)
  {
    map k | k in SentFields && TextField(user, k).Some? :: Str(TextField(user, k).value)
  }

  /** The confirmation and the roles never leave the page. */
  lemma BodyOmitsConfirmation(user: Object)
    ensures "confirm_password" !in UpdateBody(user) && "roles" !in UpdateBody(user)
  {
  }

  /** A user that passed the guard sends at least its name and username. */
  lemma GuardedBodyHasNames(user: Object)
    requires ProfileGuard(Some(user)).None?
    ensures "name" in UpdateBody(user) && "username" in UpdateBody(user)
    ensures UpdateBody(user)["name"] == Str(TextField(user, "name").value)
  {
  }

  // ---------------------------------------------------------------------------
  // The response and the stored user
  // ---------------------------------------------------------------------------

  /** How the update call ends: a throw (network or JSON), or a response with `ok` and `error`. */
  datatype UpdateResponse = Threw | Responded(ok: bool, error: Option<string>)

  const OldPasswordIncorrect := "Old password is incorrect."
  const NoChanges := "User not found or no changes made."

  /** The error toast a response aborts with, if it is one of the two recognised failures. */
  function RecognisedFailure(response: UpdateResponse): (toast: Option<string>)
    ensures toast.Some? ==> response.Responded? && !response.ok
    ensures response.Responded? && !response.ok && response.error == Some(OldPasswordIncorrect)
            ==> toast == Some(OldPasswordIncorrect)
    ensures response.Responded? && !response.ok && response.error == Some(NoChanges)
            ==> toast == Some("No changes made. Update failed!")
    ensures toast.None? <==>
              !(response.Responded? && !response.ok && response.error in {Some(OldPasswordIncorrect), Some(NoChanges)})
  {
    if response.Responded? && !response.ok && response.error == Some(OldPasswordIncorrect) then
      Some(OldPasswordIncorrect)
    else if response.Responded? && !response.ok && response.error == Some(NoChanges) then
      Some("No changes made. Update failed!")
    else None
  }

  /** Any other failed response, such as a 500 with another error, is taken as a success. */
  lemma UnrecognisedFailureIsSuccess(error: Option<string>)
    requires error != Some(OldPasswordIncorrect) && error != Some(NoChanges)
    ensures RecognisedFailure(Responded(false, error)).None?
  {
  }

  /**
   * `JSON.parse(localStorage.getItem("user") || "{}")`: an absent or empty entry reads as
   * the empty object; a text that is not an object's JSON makes the parse throw (`None`).
   */
  function StoredUser(storage: Storage): (u: Option<Object>)
    ensures u.None? <==> "user" in storage && storage["user"].Text? && storage["user"].text != ""
    ensures "user" !in storage ==> u == Some(map[])
  {
    if "user" !in storage then Some(map[])
    else match storage["user"]
      case Json(obj) => Some(obj)
      case Text(t) => if t == "" then Some(map[]) else None
  }

  /** `{...storedUser, name, username}`. */
  function MergeNames(stored: Object, name: string, username: string): (u: Object)
    ensures u.Keys == stored.Keys + {"name", "username"}
    ensures u["name"] == Str(name) && u["username"] == Str(username)
    ensures forall k :: k in stored && k != "name" && k != "username" ==> u[k] == stored[k]
  {
    stored["name" := Str(name)]["username" := Str(username)]
  }

  /** Merging the same names twice changes nothing more. */
  lemma MergeNamesIdempotent(stored: Object, name: string, username: string)
    ensures MergeNames(MergeNames(stored, name, username), name, username) == MergeNames(stored, name, username)
  {
  }

  /** What mounting the page does: show the stored user, send the visitor to `/login`, or fail to parse. */
  datatype Mount = Shown(user: Object, isAdmin: bool) | SentToLogin | ParseFailed

  /**
   * The mount effect, `JSON.parse(localStorage.getItem("user") || "null")`: no stored user
   * redirects; a stored one is shown, flagged as admin when its first role is `ADMIN`.
   */
  function MountProfile(storage: Storage): (m: Mount)
    ensures m == SentToLogin <==> "user" !in storage || storage["user"] == Text("")
    ensures m == ParseFailed <==> StoredUser(storage).None?
    ensures m.Shown? ==> "user" in storage && storage["user"] == Json(m.user)
    ensures m.Shown? ==>
              (m.isAdmin <==> ("roles" in m.user && m.user["roles"].StrList?
                               && |m.user["roles"].items| > 0 && m.user["roles"].items[0] == "ADMIN"))
  {
    if "user" !in storage then SentToLogin
    else match storage["user"]
      case Text(t) => if t == "" then SentToLogin else ParseFailed
      case Json(u) =>
        var roles := if "roles" in u then Some(u["roles"]) else None;
        Shown(u, roles.Some? && roles.value.StrList? && |roles.value.items| > 0 && roles.value.items[0] == "ADMIN")
  }

  const UpdatedToast := "Profile updated successfully!"
  const UnexpectedToast := "An unexpected error occurred."

  class ProfilePage {
    var user: Option<Object>
    var storage: Storage
    var log: seq<Request>
    var toasts: seq<string>
    var navigation: Option<string>

    /**
     * `handleUpdateProfile`, with the way the call ends as an input: the guard, then one
     * PUT; a recognised failure aborts, anything else counts as success and merges the
     * names into the stored user.
     */
    method HandleUpdateProfile(response: UpdateResponse)
      modifies this
      ensures var err := ProfileGuard(old(user));
        err.Some? ==> log == old(log) && toasts == old(toasts) + [err.value]
                      && storage == old(storage) && user == old(user)
      ensures var err := ProfileGuard(old(user));
        err.None? ==> log == old(log) + [Request(PUT, UserUpdate, Some(UpdateBody(old(user).value)))]
      ensures navigation == old(navigation)
      ensures var err := ProfileGuard(old(user));
        (err.None? && (response.Threw? || RecognisedFailure(response).Some?)) ==>
          && toasts == old(toasts) + [if response.Threw? then UnexpectedToast else RecognisedFailure(response).value]
          && storage == old(storage) && user == old(user)
      ensures var err := ProfileGuard(old(user));
        (err.None? && response.Responded? && RecognisedFailure(response).None?) ==>
          var name := TextField(old(user).value, "name").value;
          var username := TextField(old(user).value, "username").value;
          var stored := StoredUser(old(storage));
          if stored.None? then
            toasts == old(toasts) + [UpdatedToast, UnexpectedToast] && storage == old(storage) && user == old(user)
          else
            && toasts == old(toasts) + [UpdatedToast]
            && storage == old(storage)["user" := Json(MergeNames(stored.value, name, username))]
            && user == Some(MergeNames(stored.value, name, username))
    {
      var err := ProfileGuard(user);
      if err.Some? {
        toasts := toasts + [err.value];
        return;
      }
      var u := user.value;
      var name := TextField(u, "name").value;
      var username := TextField(u, "username").value;
      log := log + [Request(PUT, UserUpdate, Some(UpdateBody(u)))];
      if response.Threw? {
        toasts := toasts + [UnexpectedToast];
        return;
      }
      var failure := RecognisedFailure(response);
      if failure.Some? {
        toasts := toasts + [failure.value];
        return;
      }
      toasts := toasts + [UpdatedToast];
      var stored := StoredUser(storage);
      if stored.None? {
        toasts := toasts + [UnexpectedToast];
        return;
      }
      var updatedUser := MergeNames(stored.value, name, username);
      storage := storage["user" := Json(updatedUser)];
      user := Some(updatedUser);
    }

    /**
     * `handleLogout`: the session keys are removed, nothing else in storage changes, and
     * the page navigates to `/login`.
     */
    method HandleLogout()
      modifies this
      ensures storage == old(storage) - {"accessToken", "isLoggedIn", "user", "checkoutInfo"}
      ensures navigation == Some("/login")
      ensures user == old(user) && log == old(log) && toasts == old(toasts)
    {
      storage := storage - {"accessToken", "isLoggedIn", "user", "checkoutInfo"};
      navigation := Some("/login");
    }
  }
}
