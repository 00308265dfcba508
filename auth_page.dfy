/**
 * The sign-in page (login.html): the password-strength meter, the two
 * form checks, and what a submit does — the server is tried first and,
 * when it cannot be reached, the accounts kept in the browser stand in.
 */
module AuthPage {
  import opened Wrappers
  import opened Strings
  import opened Validators

  /** JavaScript's a || b on strings: b when a is empty. */
  function OrElse(a: string, b: string): (r: string)
    ensures a != "" ==> r == a
    ensures a == "" ==> r == b
  {
    if a != "" then a else b
  }

  // ---------------------------------------------------------------------
  // Password strength

  predicate HasLower(s: string) { exists i :: 0 <= i < |s| && 'a' <= s[i] <= 'z' }
  predicate HasUpper(s: string) { exists i :: 0 <= i < |s| && 'A' <= s[i] <= 'Z' }
  predicate HasDigit(s: string) { exists i :: 0 <= i < |s| && IsDigit(s[i]) }

  /** Anything but an ASCII letter or digit. */
  predicate IsSymbol(c: char)
  {
    !('a' <= c <= 'z') && !('A' <= c <= 'Z') && !IsDigit(c)
  }

  predicate HasSymbol(s: string) { exists i :: 0 <= i < |s| && IsSymbol(s[i]) }

  function Point(b: bool): nat
  {
    if b then 1 else 0
  }

  /** One point for each criterion met: at least 8 characters, at least 12, a lower-case letter, an upper-case letter, a digit, a symbol. */
  function Score(pw: string): (r: nat)
    ensures r <= 6
  {
    Point(|pw| >= 8) + Point(|pw| >= 12) + Point(HasLower(pw)) + Point(HasUpper(pw))
    + Point(HasDigit(pw)) + Point(HasSymbol(pw))
  }

  /** The meter's class and label for a score. */
  function Label(score: nat): (string, string)
  {
    if score <= 2 then ("weak", "Weak")
    else if score <= 4 then ("medium", "Medium")
    else ("strong", "Strong")
  }

  /** The meter: blank for an empty password, else the label of its score. */
  method PasswordStrength(pw: string) returns (cls: string, text: string)
    ensures pw == "" ==> cls == "" && text == ""
    ensures pw != "" ==> (cls, text) == Label(Score(pw))
  {
    if pw == "" {
      return "", "";
    }
    var strength: nat := 0;
    if |pw| >= 8 {
      strength := strength + 1;
    }
    if |pw| >= 12 {
      strength := strength + 1;
    }
    if HasLower(pw) {
      strength := strength + 1;
    }
    if HasUpper(pw) {
      strength := strength + 1;
    }
    if HasDigit(pw) {
      strength := strength + 1;
    }
    if HasSymbol(pw) {
      strength := strength + 1;
    }
    if strength <= 2 {
      text, cls := "Weak", "weak";
    } else if strength <= 4 {
      text, cls := "Medium", "medium";
    } else {
      text, cls := "Strong", "strong";
    }
  }

  /** Typing more never lowers the score. */
  lemma ScoreMonotone(pw: string, more: string)
    ensures Score(pw + more) >= Score(pw)
  {
    var s := pw + more;
    if HasLower(pw) {
      var i :| 0 <= i < |pw| && 'a' <= pw[i] <= 'z';
      assert s[i] == pw[i];
    }
    if HasUpper(pw) {
      var i :| 0 <= i < |pw| && 'A' <= pw[i] <= 'Z';
      assert s[i] == pw[i];
    }
    if HasDigit(pw) {
      var i :| 0 <= i < |pw| && IsDigit(pw[i]);
      assert s[i] == pw[i];
    }
    if HasSymbol(pw) {
      var i :| 0 <= i < |pw| && IsSymbol(pw[i]);
      assert s[i] == pw[i];
    }
  }

  /** A strong password has at least 8 characters; a short one is at best medium. */
  lemma StrongNeedsLength(pw: string)
    ensures Label(Score(pw)).1 == "Strong" ==> |pw| >= 8
    ensures |pw| < 8 ==> Score(pw) <= 4
  {
  }

  /** Every character is a lower-case letter, an upper-case letter, a digit or a symbol, so a non-empty password scores. */
  lemma NonEmptyScores(pw: string)
    requires pw != ""
    ensures Score(pw) >= 1
  {
    var c := pw[0];
    if 'a' <= c <= 'z' {
      assert HasLower(pw);
    } else if 'A' <= c <= 'Z' {
      assert HasUpper(pw);
    } else if IsDigit(c) {
      assert HasDigit(pw);
    } else {
      assert HasSymbol(pw);
    }
  }

  // ---------------------------------------------------------------------
  // Form checks

  datatype LoginForm = LoginForm(email: string, password: string, rememberMe: bool)

  datatype SignupForm = SignupForm(
    fullName: string, email: string, phone: string, password: string, confirmPassword: string, acceptTerms: bool)

  /** The e-mail message a form shows, if any. */
  function EmailError(email: string): Option<string>
  {
    if email == "" then Some("Email is required")
    else if !IsValidEmail(email) then Some("Please enter a valid email address")
    else None
  }

  function LoginPasswordError(pw: string): Option<string>
  {
    if pw == "" then Some("Password is required")
    else if |pw| < 6 then Some("Password must be at least 6 characters")
    else None
  }

  function LoginErrors(f: LoginForm): map<string, string>
  {
    Note(Note(map[], "email", EmailError(f.email)), "password", LoginPasswordError(f.password))
  }

  /** The sign-in form passes exactly when the e-mail is valid and the password has at least 6 characters. */
  lemma LoginErrorsIff(f: LoginForm)
    ensures LoginErrors(f) == map[] <==> IsValidEmail(f.email) && |f.password| >= 6
    ensures f.email == "" ==> LoginErrors(f)["email"] == "Email is required"
  {
    if LoginErrors(f) == map[] {
      assert "email" !in LoginErrors(f) && "password" !in LoginErrors(f);
    } else {
      assert EmailError(f.email).Some? || LoginPasswordError(f.password).Some?;
    }
  }

  function FullNameError(name: string): Option<string>
  {
    if name == "" then Some("Full name is required")
    else if |name| < 2 then Some("Name must be at least 2 characters")
    else None
  }

  function PhoneError(phone: string): Option<string>
  {
    if phone != "" && !IsValidPhone(phone) then Some("Please enter a valid phone number") else None
  }

  function SignupPasswordError(pw: string): Option<string>
  {
    if pw == "" then Some("Password is required")
    else if |pw| < 8 then Some("Password must be at least 8 characters")
    else None
  }

  function ConfirmError(pw: string, confirm: string): Option<string>
  {
    if confirm == "" then Some("Please confirm your password")
    else if pw != confirm then Some("Passwords do not match")
    else None
  }

  function TermsError(accepted: bool): Option<string>
  {
    if !accepted then Some("You must accept the terms and conditions") else None
  }

  /** The sign-up form passes its check. */
  predicate SignupValid(f: SignupForm)
  {
    SignupErrors(f) == map[]
  }

  /** Each field's message, in the order the form is checked. */
  function SignupChecks(f: SignupForm): seq<(string, Option<string>)>
  {
    [("fullName", FullNameError(f.fullName)), ("email", EmailError(f.email)),
     ("phone", PhoneError(f.phone)), ("password", SignupPasswordError(f.password)),
     ("confirmPassword", ConfirmError(f.password, f.confirmPassword)),
     ("acceptTerms", TermsError(f.acceptTerms))]
  }

  function SignupErrors(f: SignupForm): map<string, string>
  {
    NoteAll(map[], SignupChecks(f), 6)
  }

  /**
   * The sign-up form passes exactly when the name has at least two
   * characters (untrimmed), the e-mail is valid, the phone is empty or
   * valid, the password has at least 8 characters, the confirmation equals
   * it and the terms are accepted.
   */
  lemma SignupErrorsIff(f: SignupForm)
    ensures SignupErrors(f) == map[] <==>
      |f.fullName| >= 2 && IsValidEmail(f.email) && (f.phone == "" || IsValidPhone(f.phone))
      && |f.password| >= 8 && f.confirmPassword == f.password && f.acceptTerms
  {
    SignupErrorsEmptyIff(f);
    var c := SignupChecks(f);
    assert (forall j :: 0 <= j < 6 ==> c[j].1.None?) <==>
      c[0].1.None? && c[1].1.None? && c[2].1.None? && c[3].1.None? && c[4].1.None? && c[5].1.None?;
  }

  /** The sign-up error map is empty exactly when no field has a message. */
  lemma SignupErrorsEmptyIff(f: SignupForm)
    ensures SignupErrors(f) == map[] <==> forall j :: 0 <= j < 6 ==> SignupChecks(f)[j].1.None?
  {
    NoteAllEmptyIff(SignupChecks(f), 6);
  }

  // ---------------------------------------------------------------------
  // Accounts and sessions

  /** An account kept in the browser. */
  datatype StoredUser = StoredUser(id: string, fullName: string, email: string, phone: string, password: string)

  /** The signed-in user the pages read. */
  datatype SessionUser = SessionUser(id: string, email: string, username: string, fullName: string, phone: string)

  /** The profile the server returns after a sign-in; absent fields are "". */
  datatype Profile = Profile(id: string, email: string, username: string, firstName: string, lastName: string, phone: string)

  /** What the server's sign-in did: refused or unreachable, or accepted with the profile fetch's result. */
  datatype LoginApi = LoginApiFailed | LoginApiAccepted(profile: Option<Profile>)

  /** What the server's registration did: accepted with the returned user's fields, or failed with a message. */
  datatype SignupApi = Registered(id: string, email: string, username: string, firstName: string, lastName: string)
                     | RegisterFailed(message: string)

  /** The first account with this e-mail and password. */
  function FindUser(users: seq<StoredUser>, email: string, password: string): (r: Option<nat>)
    ensures r.Some? ==> r.value < |users| && users[r.value].email == email && users[r.value].password == password
    ensures r.Some? ==> forall j :: 0 <= j < r.value ==> !(users[j].email == email && users[j].password == password)
    ensures r.None? <==> forall j :: 0 <= j < |users| ==> !(users[j].email == email && users[j].password == password)
  {
    if users == [] then None
    else if users[0].email == email && users[0].password == password then Some(0)
    else
      match FindUser(users[1..], email, password)
      case None => None
      case Some(k) => Some(k + 1)
  }

  predicate EmailTaken(users: seq<StoredUser>, email: string)
  {
    exists j :: 0 <= j < |users| && users[j].email == email
  }

  /** No two accounts share an e-mail. */
  predicate UniqueEmails(users: seq<StoredUser>)
  {
    forall i, j :: 0 <= i < j < |users| ==> users[i].email != users[j].email
  }

  lemma AddKeepsUniqueEmails(users: seq<StoredUser>, u: StoredUser)
    requires UniqueEmails(users) && !EmailTaken(users, u.email)
    ensures UniqueEmails(users + [u])
  {
  }

  /** The session after a server sign-in: the profile's fields, or the e-mail's user part when the profile could not be fetched. */
  function ProfileSession(profile: Option<Profile>, email: string): SessionUser
  {
    match profile
    case Some(p) => SessionUser(p.id, p.email, p.username, OrElse(Trim(p.firstName + " " + p.lastName), p.username), p.phone)
    case None => SessionUser("", email, "", Split(email, '@')[0], "")
  }

  /** The session after a server registration: the returned fields, with the form's as fallback. */
  function RegisteredSession(api: SignupApi, f: SignupForm, stamp: string): SessionUser
    requires api.Registered?
  {
    SessionUser(OrElse(api.id, stamp), OrElse(api.email, f.email), OrElse(api.username, f.email),
                OrElse(Trim(api.firstName + " " + api.lastName), f.fullName), f.phone)
  }

  /** Whether a registration failure reads as a taken account. */
  predicate ReadsAsTaken(message: string)
  {
    var m := OrElse(message, "Registration failed");
    Contains(m, "already exists") || Contains(m, "username") || Contains(m, "email")
  }

  const LoginWelcome := "Login successful! Redirecting..."
  const SignupWelcome := "Account created successfully! Redirecting..."
  const TakenMessage := "An account with this email already exists"
  /** Shown when a thrown error has an empty message. */
  const GenericError := "An error occurred. Please try again."

  class AuthPage {
    var loginForm: LoginForm
    var signupForm: SignupForm
    var loginErrors: map<string, string>
    var signupErrors: map<string, string>
    var loginError: string
    var loginSuccess: string
    var loginLoading: bool
    var signupError: string
    var signupSuccess: string
    var signupLoading: bool
    var isLoggedIn: bool
    var userEmail: string
    /** The browser's account list ('shopvue_users'); an absent key reads as []. */
    var users: seq<StoredUser>
    /**
     * None while 'shopvue_users' parses; otherwise the message of the error
     * JSON.parse throws on it, which the handlers' catch shows.
     */
    var usersParseError: Option<string>
    /** The signed-in user ('shopvue_user'). */
    var session: Option<SessionUser>
    /** The remember-me flag ('shopvue_remember_me'). */
    var rememberMe: bool

    constructor (stored: seq<StoredUser>, parseError: Option<string>, current: Option<SessionUser>)
      ensures users == stored && usersParseError == parseError && session == current
      ensures isLoggedIn == current.Some? && (current.Some? ==> userEmail == current.value.email)
      ensures loginForm == LoginForm("", "", false) && signupForm == SignupForm("", "", "", "", "", false)
    {
      loginForm := LoginForm("", "", false);
      signupForm := SignupForm("", "", "", "", "", false);
      loginErrors, signupErrors := map[], map[];
      loginError, loginSuccess, signupError, signupSuccess := "", "", "", "";
      loginLoading, signupLoading := false, false;
      users := stored;
      usersParseError := parseError;
      session := current;
      rememberMe := false;
      isLoggedIn := current.Some?;
      userEmail := if current.Some? then current.value.email else "";
    }

    /** Fills the error map one field at a time; the form passes when it stays empty. */
    method ValidateLoginForm() returns (isValid: bool)
      modifies this`loginErrors
      ensures loginErrors == LoginErrors(loginForm)
      ensures isValid <==> IsValidEmail(loginForm.email) && |loginForm.password| >= 6
    {
      loginErrors := map[];
      isValid := true;
      var e := EmailError(loginForm.email);
      if e.Some? {
        loginErrors := loginErrors["email" := e.value];
        isValid := false;
      }
      var p := LoginPasswordError(loginForm.password);
      if p.Some? {
        loginErrors := loginErrors["password" := p.value];
        isValid := false;
      }
      LoginErrorsIff(loginForm);
    }

    method ValidateSignupForm() returns (isValid: bool)
      modifies this`signupErrors
      ensures signupErrors == SignupErrors(signupForm)
      ensures isValid <==> signupErrors == map[]
    {
      signupErrors, isValid := NoteEach(SignupChecks(signupForm));
    }

    /**
     * Signing in. A form that fails its check stops here. Otherwise the
     * server is asked first; when it cannot sign the user in, the browser's
     * accounts are searched for this e-mail and password, and no match
     * gives 'Invalid email or password'. An account list that does not
     * parse throws instead, and its error message is shown.
     */
    method HandleLoginSubmit(api: LoginApi)
      modifies this`loginErrors, this`loginError, this`loginSuccess, this`loginLoading, this`session,
               this`rememberMe, this`isLoggedIn, this`userEmail
      ensures loginErrors == LoginErrors(old(loginForm)) && loginForm == old(loginForm)
      ensures users == old(users)
      ensures loginLoading == (old(loginLoading) && !(IsValidEmail(loginForm.email) && |loginForm.password| >= 6))
      ensures !(IsValidEmail(loginForm.email) && |loginForm.password| >= 6) ==>
        loginError == "" && loginSuccess == "" && session == old(session)
        && isLoggedIn == old(isLoggedIn) && userEmail == old(userEmail) && rememberMe == old(rememberMe)
      ensures IsValidEmail(loginForm.email) && |loginForm.password| >= 6 && api.LoginApiAccepted? ==>
        session == Some(ProfileSession(api.profile, loginForm.email)) && isLoggedIn
        && userEmail == session.value.email && loginSuccess == LoginWelcome && loginError == ""
        && rememberMe == (old(rememberMe) || loginForm.rememberMe)
      ensures IsValidEmail(loginForm.email) && |loginForm.password| >= 6 && api.LoginApiFailed?
              && usersParseError.Some? ==>
        loginError == OrElse(usersParseError.value, GenericError) && loginSuccess == "" && session == old(session)
        && isLoggedIn == old(isLoggedIn) && userEmail == old(userEmail) && rememberMe == old(rememberMe)
      ensures IsValidEmail(loginForm.email) && |loginForm.password| >= 6 && api.LoginApiFailed?
              && usersParseError.None? ==>
        match FindUser(users, loginForm.email, loginForm.password)
        case Some(k) =>
          session == Some(SessionUser(users[k].id, users[k].email, "", users[k].fullName, users[k].phone))
          && isLoggedIn && userEmail == users[k].email && loginSuccess == LoginWelcome && loginError == ""
          && rememberMe == (old(rememberMe) || loginForm.rememberMe)
        case None =>
          loginError == "Invalid email or password" && loginSuccess == "" && session == old(session)
          && isLoggedIn == old(isLoggedIn) && userEmail == old(userEmail) && rememberMe == old(rememberMe)
    {
      loginError := "";
      loginSuccess := "";
      var ok := ValidateLoginForm();
      if !ok {
        return;
      }
      loginLoading := true;
      match api {
        case LoginApiAccepted(profile) =>
          var user := ProfileSession(profile, loginForm.email);
          session := Some(user);
          if loginForm.rememberMe {
            rememberMe := true;
          }
          isLoggedIn := true;
          userEmail := user.email;
          loginSuccess := LoginWelcome;
        case LoginApiFailed =>
          LocalSignIn();
      }
      loginLoading := false;
    }

    /**
     * The browser fallback of signing in: the account list is read (an
     * unreadable one shows its parse error), then the account with this
     * e-mail and password, if any, is signed in.
     */
    method LocalSignIn()
      modifies this`session, this`rememberMe, this`isLoggedIn, this`userEmail, this`loginSuccess, this`loginError
      ensures usersParseError.Some? ==>
        loginError == OrElse(usersParseError.value, GenericError) && loginSuccess == old(loginSuccess)
        && session == old(session) && isLoggedIn == old(isLoggedIn) && userEmail == old(userEmail)
        && rememberMe == old(rememberMe)
      ensures usersParseError.None? ==>
        match FindUser(users, loginForm.email, loginForm.password)
        case Some(k) =>
          session == Some(SessionUser(users[k].id, users[k].email, "", users[k].fullName, users[k].phone))
          && isLoggedIn && userEmail == users[k].email && loginSuccess == LoginWelcome && loginError == old(loginError)
          && rememberMe == (old(rememberMe) || loginForm.rememberMe)
        case None =>
          loginError == "Invalid email or password" && loginSuccess == old(loginSuccess) && session == old(session)
          && isLoggedIn == old(isLoggedIn) && userEmail == old(userEmail) && rememberMe == old(rememberMe)
    {
      if usersParseError.Some? {
        loginError := OrElse(usersParseError.value, GenericError);
        return;
      }
      match FindUser(users, loginForm.email, loginForm.password) {
        case Some(k) =>
          var u := users[k];
          session := Some(SessionUser(u.id, u.email, "", u.fullName, u.phone));
          if loginForm.rememberMe {
            rememberMe := true;
          }
          isLoggedIn := true;
          userEmail := u.email;
          loginSuccess := LoginWelcome;
        case None =>
          loginError := "Invalid email or password";
      }
    }

    /**
     * Signing up. A form that fails its check stops here. Otherwise the
     * server registers the account; when it fails with a message about an
     * existing account, the e-mail or the user name, the account counts as
     * taken. Any other failure falls back to the browser's accounts: a
     * list that does not parse shows its parse error, a taken e-mail is
     * refused and the list is left alone; otherwise exactly one account is
     * appended and signed in.
     */
    method HandleSignupSubmit(api: SignupApi, stamp: string)
      modifies this`signupError, this`signupSuccess, this`signupErrors, this`signupLoading, this`session,
               this`isLoggedIn, this`userEmail, this`users
      ensures signupForm == old(signupForm) && signupErrors == SignupErrors(signupForm)
      ensures signupLoading == (old(signupLoading) && !SignupValid(signupForm))
      ensures !SignupValid(signupForm) ==>
        signupError == "" && signupSuccess == "" && users == old(users) && session == old(session)
        && isLoggedIn == old(isLoggedIn) && userEmail == old(userEmail)
      ensures SignupValid(signupForm) ==>
        SignedUp(api, stamp, old(users), old(session), old(isLoggedIn), old(userEmail), "", "")
      ensures UniqueEmails(old(users)) ==> UniqueEmails(users)
    {
      signupError := "";
      signupSuccess := "";
      var ok := ValidateSignupForm();
      if !ok {
        return;
      }
      RegisterAccount(api, stamp);
    }

    /** The part of a sign-up after the form has passed: server first, then the browser's accounts. */
    method RegisterAccount(api: SignupApi, stamp: string)
      modifies this`signupLoading, this`session, this`isLoggedIn, this`userEmail, this`signupSuccess,
               this`signupError, this`users
      ensures !signupLoading
      ensures SignedUp(api, stamp, old(users), old(session), old(isLoggedIn), old(userEmail), old(signupSuccess),
                       old(signupError))
      ensures UniqueEmails(old(users)) ==> UniqueEmails(users)
    {
      signupLoading := true;
      if api.Registered? {
        var user := RegisteredSession(api, signupForm, stamp);
        session := Some(user);
        isLoggedIn := true;
        userEmail := user.email;
        signupSuccess := SignupWelcome;
      } else if ReadsAsTaken(api.message) {
        signupError := TakenMessage;
      } else {
        LocalRegister(stamp);
      }
      signupLoading := false;
    }

    /**
     * What signing up leaves once the form has passed, from the state before
     * it: the server's account is signed in; a refusal that reads as a taken
     * e-mail shows the taken message and changes nothing else; any other
     * refusal falls back to the browser's accounts.
     */
    ghost predicate SignedUp(api: SignupApi, stamp: string, users0: seq<StoredUser>, session0: Option<SessionUser>,
                             loggedIn0: bool, email0: string, success0: string, error0: string)
      reads this
    {
      if api.Registered? then
        users == users0 && session == Some(RegisteredSession(api, signupForm, stamp))
        && isLoggedIn && userEmail == session.value.email && signupSuccess == SignupWelcome && signupError == error0
      else if ReadsAsTaken(api.message) then
        signupError == TakenMessage && signupSuccess == success0 && users == users0
        && session == session0 && isLoggedIn == loggedIn0 && userEmail == email0
      else
        LocalRegistered(users0, session0, loggedIn0, email0, success0, error0, stamp)
    }

    /**
     * What the browser fallback of signing up leaves, from the state before
     * it: an unreadable account list shows its parse error; a taken e-mail
     * shows the taken message; otherwise one account is appended and
     * signed in. Nothing else changes in the first two cases.
     */
    ghost predicate LocalRegistered(users0: seq<StoredUser>, session0: Option<SessionUser>, loggedIn0: bool,
                                    email0: string, success0: string, error0: string, stamp: string)
      reads this
    {
      var f := signupForm;
      if usersParseError.Some? then
        signupError == OrElse(usersParseError.value, GenericError) && signupSuccess == success0
        && users == users0 && session == session0 && isLoggedIn == loggedIn0 && userEmail == email0
      else if EmailTaken(users0, f.email) then
        signupError == TakenMessage && signupSuccess == success0 && users == users0
        && session == session0 && isLoggedIn == loggedIn0 && userEmail == email0
      else
        users == users0 + [StoredUser(stamp, f.fullName, f.email, f.phone, f.password)]
        && session == Some(SessionUser(stamp, f.email, "", f.fullName, f.phone))
        && isLoggedIn && userEmail == f.email && signupSuccess == SignupWelcome && signupError == error0
    }

    /** The browser fallback of signing up. */
    method LocalRegister(stamp: string)
      modifies this`session, this`isLoggedIn, this`userEmail, this`signupSuccess, this`signupError, this`users
      ensures LocalRegistered(old(users), old(session), old(isLoggedIn), old(userEmail), old(signupSuccess),
                              old(signupError), stamp)
      ensures UniqueEmails(old(users)) ==> UniqueEmails(users)
    {
      if usersParseError.Some? {
        signupError := OrElse(usersParseError.value, GenericError);
        return;
      }
      var f := signupForm;
      if EmailTaken(users, f.email) {
        signupError := TakenMessage;
        return;
      }
      var newUser := StoredUser(stamp, f.fullName, f.email, f.phone, f.password);
      if UniqueEmails(users) {
        AddKeepsUniqueEmails(users, newUser);
      }
      users := users + [newUser];
      session := Some(SessionUser(newUser.id, newUser.email, "", newUser.fullName, newUser.phone));
      isLoggedIn := true;
      userEmail := newUser.email;
      signupSuccess := SignupWelcome;
    }
  }
}
