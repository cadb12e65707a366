/**
 * The sign-up form (frontend/src/components/SignUp.tsx): the password policy, the
 * empty-field guard, the registration request and its error classification, and the
 * messages shown to the user.
 */
module SignUp {
  import opened Wrappers
  import opened Text
  import opened Http

  datatype SignUpForm = SignUpForm(firstname: string, lastname: string, email: string, password: string)

  // ---------------------------------------------------------------------------
  // The password policy
  // ---------------------------------------------------------------------------

  /** `s.length`: UTF-16 code units, two for a character outside the basic plane. */
  function Utf16Length(s: string): (n: nat)
    ensures |s| <= n <= 2 * |s|
  {
    if s == [] then 0 else (if s[0] as int >= 0x1_0000 then 2 else 1) + Utf16Length(s[1..])
  }

  lemma {:induction false} Utf16LengthAppend(a: string, b: string)
    ensures Utf16Length(a + b) == Utf16Length(a) + Utf16Length(b)
  {
    if a != [] {
      assert (a + b)[0] == a[0] && (a + b)[1..] == a[1..] + b;
      Utf16LengthAppend(a[1..], b);
    } else {
      assert a + b == b;
    }
  }

  /** `/[a-z]/.test(p)`. */
  predicate HasLowerCase(p: string) {
    exists i :: 0 <= i < |p| && 'a' <= p[i] <= 'z'
  }

  /** `/[A-Z]/.test(p)`. */
  predicate HasUpperCase(p: string) {
    exists i :: 0 <= i < |p| && 'A' <= p[i] <= 'Z'
  }

  /** `/\d/.test(p)`: without the unicode flag only `0`-`9` are digits. */
  predicate HasDigit(p: string) {
    exists i :: 0 <= i < |p| && '0' <= p[i] <= '9'
  }

  predicate PasswordValid(p: string) {
    Utf16Length(p) >= 8 && HasLowerCase(p) && HasUpperCase(p) && HasDigit(p)
  }

  /** A valid password has at least four characters, and at least eight when all are plain. */
  lemma PasswordLength(p: string)
    requires PasswordValid(p)
    ensures |p| >= 4
    ensures (forall i :: 0 <= i < |p| ==> p[i] as int < 0x1_0000) ==> |p| >= 8
  {
    if forall i :: 0 <= i < |p| ==> p[i] as int < 0x1_0000 {
      PlainUtf16Length(p);
    }
  }

  lemma {:induction false} PlainUtf16Length(p: string)
    requires forall i :: 0 <= i < |p| ==> p[i] as int < 0x1_0000
    ensures Utf16Length(p) == |p|
  {
    if p != [] {
      PlainUtf16Length(p[1..]);
    }
  }

  /** Typing more characters never makes a valid password invalid. */
  lemma PasswordValidExtends(p: string, q: string)
    requires PasswordValid(p)
    ensures PasswordValid(p + q)
  {
    Utf16LengthAppend(p, q);
    var i :| 0 <= i < |p| && 'a' <= p[i] <= 'z';
    var j :| 0 <= j < |p| && 'A' <= p[j] <= 'Z';
    var k :| 0 <= k < |p| && '0' <= p[k] <= '9';
    assert (p + q)[i] == p[i] && (p + q)[j] == p[j] && (p + q)[k] == p[k];
  }

  /** Seven plain characters are too short even with every kind of character. */
  lemma SevenCharactersRejected()
    ensures !PasswordValid("Abcdef1")
  {
    PlainUtf16Length("Abcdef1");
  }

  lemma EightCharactersAccepted()
    ensures PasswordValid("Abcdefg1")
  {
    PlainUtf16Length("Abcdefg1");
    assert 'b' <= "Abcdefg1"[1] <= 'b';
    assert "Abcdefg1"[0] == 'A' && "Abcdefg1"[7] == '1';
  }

  /** A character outside the basic plane counts twice: six characters can be long enough. */
  lemma AstralCharactersCountTwice()
    ensures PasswordValid("Ab1\U{1F600}\U{1F600}\U{1F600}")
  {
    var p := "Ab1\U{1F600}\U{1F600}\U{1F600}";
    assert p[1..] == "b1\U{1F600}\U{1F600}\U{1F600}";
    assert p[2..] == "1\U{1F600}\U{1F600}\U{1F600}";
    assert p[3..] == "\U{1F600}\U{1F600}\U{1F600}";
    assert p[4..] == "\U{1F600}\U{1F600}";
    assert p[5..] == "\U{1F600}";
    var e := "\U{1F600}";
    assert e[0] as int >= 0x1_0000 && e[1..] == [];
    assert Utf16Length(e) == 2;
    assert p[4..][1..] == e && p[3..][1..] == p[4..];
    assert Utf16Length(p[4..]) == 4;
    assert Utf16Length(p[3..]) == 6;
    assert p[0] == 'A' && p[1] == 'b' && p[2] == '1';
  }

  // ---------------------------------------------------------------------------
  // registerUser
  // ---------------------------------------------------------------------------

  const InvalidPasswordFormat := "Invalid password format"

  /** What axios reports for a failed call: its message, the status and `data.error` of a response. */
  datatype AxiosError = AxiosError(message: string, status: Option<int>, dataError: Option<string>)

  /** How the registration call ends. */
  datatype Response = Ok(data: Object) | Err(error: AxiosError)

  datatype Outcome = Registered(user: Object) | Rejected(message: string)

  /** `` `U${uuidv4().substring(0, 6)}` `` for a given uuid text. */
  function UserId(uuid: string): (id: string)
    ensures |id| == 1 + (if |uuid| < 6 then |uuid| else 6) && id[0] == 'U'
    ensures id[1..] == uuid[..|id| - 1]
  {
    "U" + (if |uuid| < 6 then uuid else uuid[..6])
  }

  function FullName(form: SignUpForm): string {
    form.firstname + " " + form.lastname
  }

  /** The registration body. */
  function UserData(form: SignUpForm, uuid: string): Object {
    map["id" := Str(UserId(uuid)), "username" := Str(form.email),
        "password" := Str(form.password), "name" := Str(FullName(form))]
  }

  /** The rejection message of a failed call, tested in this order. */
  function ClassifyError(e: AxiosError): (message: string)
    ensures (e.status == Some(500) && e.dataError.Some? && Contains(e.dataError.value, "Duplicate entry"))
            ==> message == "Email already exists"
    ensures (e.status == Some(500) && !(e.dataError.Some? && Contains(e.dataError.value, "Duplicate entry")))
            ==> message == "Server error: " + (if e.dataError.Some? && e.dataError.value != "" then e.dataError.value else "Unknown error")
    ensures (e.status != Some(500) && Contains(e.message, "timeout"))
            ==> message == "Connection timeout. Server might be unavailable."
    ensures (e.status != Some(500) && !Contains(e.message, "timeout") && Contains(e.message, "Network Error"))
            ==> message == "Network error. Check your connection or server status."
    ensures (e.status != Some(500) && !Contains(e.message, "timeout") && !Contains(e.message, "Network Error"))
            ==> message == e.message
  {
    if e.status == Some(500) && e.dataError.Some? && Contains(e.dataError.value, "Duplicate entry") then
      "Email already exists"
    else if e.status == Some(500) then
      "Server error: " + (if e.dataError.Some? && e.dataError.value != "" then e.dataError.value else "Unknown error")
    else if Contains(e.message, "timeout") then
      "Connection timeout. Server might be unavailable."
    else if Contains(e.message, "Network Error") then
      "Network error. Check your connection or server status."
    else e.message
  }

  /**
   * `registerUser`: the requests it sends (none for an invalid password, otherwise the
   * one POST) and how its promise settles.
   */
  function RegisterUser(form: SignUpForm, uuid: string, response: Response): (run: (seq<Request>, Outcome))
    ensures !PasswordValid(form.password) ==> run == ([], Rejected(InvalidPasswordFormat))
    ensures PasswordValid(form.password) ==> run.0 == [Request(POST, UserAdd, Some(UserData(form, uuid)))]
    ensures run.1.Registered? <==> PasswordValid(form.password) && response.Ok?
  {
    if !PasswordValid(form.password) then ([], Rejected(InvalidPasswordFormat))
    else
      var userData := UserData(form, uuid);
      var sent := [Request(POST, UserAdd, Some(userData))];
      match response
      case Ok(data) => (sent, Registered(data["email" := Str(form.email)]["name" := Str(FullName(form))]))
      case Err(e) => (sent, Rejected(ClassifyError(e)))
  }

  /** The body carries the email as username, the password untouched and the joined name. */
  lemma RegistrationPayload(form: SignUpForm, uuid: string, response: Response)
    requires PasswordValid(form.password)
    ensures var body := RegisterUser(form, uuid, response).0[0].body.value;
      && body.Keys == {"id", "username", "password", "name"}
      && body["username"] == Str(form.email) && body["password"] == Str(form.password)
      && body["name"] == Str(form.firstname + " " + form.lastname)
      && body["id"] == Str(UserId(uuid))
  {
  }

  /** On success the user is the response data with `email` and `name` set from the form. */
  lemma RegisteredUser(form: SignUpForm, uuid: string, data: Object)
    requires PasswordValid(form.password)
    ensures var user := RegisterUser(form, uuid, Ok(data)).1.user;
      && user.Keys == data.Keys + {"email", "name"}
      && user["email"] == Str(form.email) && user["name"] == Str(FullName(form))
      && forall k :: k in data && k != "email" && k != "name" ==> user[k] == data[k]
  {
  }

  /** A 500 is classified by the server's error, whatever the message says. */
  lemma ServerErrorBeforeTimeout(data: Option<string>)
    ensures ClassifyError(AxiosError("timeout of 10000ms exceeded", Some(500), data))[..14] == "Server error: "
            || ClassifyError(AxiosError("timeout of 10000ms exceeded", Some(500), data)) == "Email already exists"
  {
  }

  // ---------------------------------------------------------------------------
  // The toasts and handleSignUp
  // ---------------------------------------------------------------------------

  const PasswordToast := "Password must be 8+ characters with an uppercase, lowercase, and number."
  const EmptyFieldsToast := "One or more fields are empty!"
  const SuccessToast := "Account created successfully!"

  /** `onError`: the toast shown for a rejection message, if any. */
  function OnErrorToast(message: string): (toast: Option<string>)
    ensures toast.None? <==> message == InvalidPasswordFormat
    ensures message == "Email already exists" ==> toast == Some("Email is already in use!")
    ensures (&& message != InvalidPasswordFormat && message != "Email already exists"
             && (Contains(message, "Server error") || Contains(message, "Connection timeout")
                 || Contains(message, "Network error")))
            ==> toast == Some(message)
    ensures (&& message != InvalidPasswordFormat && message != "Email already exists"
             && !Contains(message, "Server error") && !Contains(message, "Connection timeout")
             && !Contains(message, "Network error"))
            ==> toast == Some("Registration failed: " + (if message != "" then message else "Unknown error"))
  {
    if message == InvalidPasswordFormat then None
    else if message == "Email already exists" then Some("Email is already in use!")
    else if Contains(message, "Server error") then Some(message)
    else if Contains(message, "Connection timeout") || Contains(message, "Network error") then Some(message)
    else
      assert "Registration failed: "[0] == 'R' && InvalidPasswordFormat[0] == 'I';
      Some("Registration failed: " + (if message != "" then message else "Unknown error"))
  }

  /** What a submission of the form does. */
  datatype SignUpEffect = SignUpEffect(sent: seq<Request>, toasts: seq<string>, navigateTo: Option<string>)

  predicate AnyEmpty(form: SignUpForm) {
    form.email == "" || form.password == "" || form.firstname == "" || form.lastname == ""
  }

  /** `handleSignUp` and the mutation it starts, with the uuid and the call's end as inputs. */
  function HandleSignUp(form: SignUpForm, uuid: string, response: Response): (eff: SignUpEffect)
    ensures AnyEmpty(form) ==> eff == SignUpEffect([], [EmptyFieldsToast], None)
    ensures eff.navigateTo.Some? <==> !AnyEmpty(form) && PasswordValid(form.password) && response.Ok?
    ensures eff.navigateTo.Some? ==> eff.navigateTo.value == "/login" && eff.toasts == [SuccessToast]
  {
    if AnyEmpty(form) then SignUpEffect([], [EmptyFieldsToast], None)
    else
      var run := RegisterUser(form, uuid, response);
      var own := if !PasswordValid(form.password) then [PasswordToast] else [];
      match run.1
      case Registered(_) => SignUpEffect(run.0, [SuccessToast], Some("/login"))
      case Rejected(m) =>
        SignUpEffect(run.0, own + (if OnErrorToast(m).Some? then [OnErrorToast(m).value] else []), None)
  }

  /** An invalid password sends nothing and shows only the password toast. */
  lemma InvalidPasswordShowsOneToast(form: SignUpForm, uuid: string, response: Response)
    requires !AnyEmpty(form) && !PasswordValid(form.password)
    ensures HandleSignUp(form, uuid, response) == SignUpEffect([], [PasswordToast], None)
  {
  }

  /** A duplicate email is reported once, as already in use. */
  lemma DuplicateEmailToast(form: SignUpForm, uuid: string, message: string, error: string)
    requires !AnyEmpty(form) && PasswordValid(form.password) && Contains(error, "Duplicate entry")
    ensures HandleSignUp(form, uuid, Err(AxiosError(message, Some(500), Some(error)))).toasts
            == ["Email is already in use!"]
  {
  }

  /** Every failure after a request was sent shows exactly one toast, unless it passes through a message equal to the password one. */
  lemma FailureShowsOneToast(form: SignUpForm, uuid: string, e: AxiosError)
    requires !AnyEmpty(form) && PasswordValid(form.password)
    ensures |HandleSignUp(form, uuid, Err(e)).sent| == 1
    ensures |HandleSignUp(form, uuid, Err(e)).toasts| == (if ClassifyError(e) == InvalidPasswordFormat then 0 else 1)
  {
  }
}
