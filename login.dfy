/**
 * The sign-in screen: a simulated user database seeded with four accounts,
 * the credential check, the login and signup handlers with their error
 * messages, and the one-click demo login.
 */
module Login {
  import opened Wrappers

  datatype Account = Account(email: string, password: string, name: string)

  /** What a successful sign-in hands to the session. */
  datatype UserInfo = UserInfo(name: string, email: string)

  /** The accounts the database starts with. */
  const Seed: seq<Account> := [
    Account("admin@splitabill.com", "admin123", "Admin User"),
    Account("demo@splitabill.com", "demo123", "Demo User"),
    Account("john@example.com", "john123", "John Doe"),
    Account("jane@example.com", "jane123", "Jane Smith")
  ]

  const DemoEmail: string := "demo@splitabill.com"

  /** `users.find(matches)`: the position of the first account that matches, if any. */
  function First(users: seq<Account>, matches: Account -> bool): (r: Option<nat>)
    ensures r.Some? ==> r.value < |users| && matches(users[r.value])
    ensures r.Some? ==> forall j :: 0 <= j < r.value ==> !matches(users[j])
    ensures r.None? <==> forall j :: 0 <= j < |users| ==> !matches(users[j])
    decreases |users|
  {
    if users == [] then None
    else if matches(users[0]) then Some(0)
    else match First(users[1..], matches)
      case None => None
      case Some(i) => Some(i + 1)
  }

  /** `validateLogin`: the first account whose email and password both match exactly. */
  function ValidateLogin(users: seq<Account>, email: string, password: string): Option<Account>
  {
    match First(users, (u: Account) => u.email == email && u.password == password)
    case Some(i) => Some(users[i])
    case None => None
  }

  /** The first account registered under `email`. */
  function FindByEmail(users: seq<Account>, email: string): Option<Account>
  {
    match First(users, (u: Account) => u.email == email)
    case Some(i) => Some(users[i])
    case None => None
  }

  /** A match is an account of the database with exactly those credentials, and there is one exactly when some account has them. */
  lemma ValidateLoginMeaning(users: seq<Account>, email: string, password: string)
    ensures ValidateLogin(users, email, password).Some? <==>
      exists i :: 0 <= i < |users| && users[i].email == email && users[i].password == password
    ensures ValidateLogin(users, email, password).Some? ==>
      var u := ValidateLogin(users, email, password).value;
      u in users && u.email == email && u.password == password
  {
    var r := First(users, (u: Account) => u.email == email && u.password == password);
    if r.Some? {
      assert users[r.value] in users;
    }
  }

  /** Every email in the database belongs to one account only. */
  predicate DistinctEmails(users: seq<Account>)
  {
    forall i, j :: 0 <= i < j < |users| ==> users[i].email != users[j].email
  }

  /** With distinct emails, the account found under an email is the only one with that email. */
  lemma FindByEmailIsUnique(users: seq<Account>, email: string, i: nat)
    requires DistinctEmails(users) && i < |users| && users[i].email == email
    ensures FindByEmail(users, email) == Some(users[i])
  {
    var r := First(users, (u: Account) => u.email == email);
    assert r.Some?;
  }

  datatype LoginError = MissingCredentials | InvalidCredentials

  function LoginMessage(e: LoginError): string
  {
    match e
    case MissingCredentials => "Please enter both email and password"
    case InvalidCredentials => "Invalid email or password. Please try again."
  }

  /** The outcome of `handleLogin`: both fields are required, then the credentials must match an account. */
  function LoginOutcome(users: seq<Account>, email: string, password: string): (r: Result<UserInfo, LoginError>)
    ensures r == Err(MissingCredentials) <==> email == "" || password == ""
    ensures r == Err(InvalidCredentials) <==>
      email != "" && password != "" &&
      forall i :: 0 <= i < |users| ==> !(users[i].email == email && users[i].password == password)
    ensures r.Ok? ==>
      r.value.email == email && exists i :: 0 <= i < |users| && users[i] == Account(email, password, r.value.name)
  {
    ValidateLoginMeaning(users, email, password);
    if email == "" || password == "" then Err(MissingCredentials)
    else match ValidateLogin(users, email, password)
      case Some(user) =>
        assert user in users;
        Ok(UserInfo(user.name, user.email))
      case None => Err(InvalidCredentials)
  }

  datatype SignupError = MissingFields | PasswordMismatch | PasswordTooShort | EmailTaken

  function SignupMessage(e: SignupError): string
  {
    match e
    case MissingFields => "Please fill in all fields"
    case PasswordMismatch => "Passwords do not match"
    case PasswordTooShort => "Password must be at least 6 characters long"
    case EmailTaken => "An account with this email already exists"
  }

  /** The checks of `handleSignup`, in order: the first that fails decides the error. */
  function SignupCheck(users: seq<Account>, name: string, email: string, password: string, confirm: string): Option<SignupError>
  {
    if name == "" || email == "" || password == "" || confirm == "" then Some(MissingFields)
    else if password != confirm then Some(PasswordMismatch)
    else if |password| < 6 then Some(PasswordTooShort)
    else if FindByEmail(users, email).Some? then Some(EmailTaken)
    else None
  }

  /**
   * Signup succeeds exactly when every field is filled in, the two passwords
   * agree, the password has at least six characters and no account has the
   * email; a shorter password is reported only when the fields are filled in
   * and agree, and a taken email only when everything else passes.
   */
  lemma SignupCheckMeaning(users: seq<Account>, name: string, email: string, password: string, confirm: string)
    ensures var r := SignupCheck(users, name, email, password, confirm);
      && (r == Some(MissingFields) <==> name == "" || email == "" || password == "" || confirm == "")
      && (r == Some(PasswordMismatch) <==> name != "" && email != "" && password != "" && confirm != "" && password != confirm)
      && (r == None <==>
            && name != "" && email != "" && password != "" && password == confirm && |password| >= 6
            && forall i :: 0 <= i < |users| ==> users[i].email != email)
      && (r == Some(PasswordTooShort) <==>
            name != "" && email != "" && password != "" && password == confirm && |password| < 6)
      && (r == Some(EmailTaken) <==>
            && name != "" && email != "" && password == confirm && |password| >= 6
            && exists i :: 0 <= i < |users| && users[i].email == email)
  {
    var found := First(users, (u: Account) => u.email == email);
    if found.Some? {
      assert users[found.value].email == email;
    }
  }

  /** A successful signup adds an account under a new email, so emails stay distinct. */
  lemma SignupKeepsEmailsDistinct(users: seq<Account>, name: string, email: string, password: string, confirm: string)
    requires DistinctEmails(users)
    requires SignupCheck(users, name, email, password, confirm) == None
    ensures DistinctEmails(users + [Account(email, password, name)])
  {
    SignupCheckMeaning(users, name, email, password, confirm);
  }

  /** After a successful signup the new credentials log in, as the new account. */
  lemma SignupThenLogin(users: seq<Account>, name: string, email: string, password: string, confirm: string)
    requires DistinctEmails(users)
    requires SignupCheck(users, name, email, password, confirm) == None
    ensures LoginOutcome(users + [Account(email, password, name)], email, password) == Ok(UserInfo(name, email))
  {
    var users' := users + [Account(email, password, name)];
    SignupKeepsEmailsDistinct(users, name, email, password, confirm);
    var r := First(users', (u: Account) => u.email == email && u.password == password);
    assert r.Some? by {
      assert users'[|users|].email == email && users'[|users|].password == password;
    }
  }

  lemma SeedHasDistinctEmails()
    ensures DistinctEmails(Seed)
  {
  }

  /** While the seed stays at the front of the database, the demo account is found under the demo email. */
  lemma DemoIsFound(users: seq<Account>)
    requires |users| >= |Seed| && users[..|Seed|] == Seed
    ensures FindByEmail(users, DemoEmail) == Some(Seed[1])
  {
    assert users[0] == Seed[0] && users[1] == Seed[1];
    assert Seed[0].email != DemoEmail;
  }

  /**
   * The screen's state: the module-level user database, which signup extends
   * and nothing shrinks, and the two error lines of the forms.
   */
  class LoginScreen {
    var users: seq<Account>
    var loginError: string
    var signupError: string

    /** The seed is still at the front and no email is registered twice. */
    predicate Valid()
      reads this
    {
      |users| >= |Seed| && users[..|Seed|] == Seed && DistinctEmails(users)
    }

    constructor ()
      ensures Valid()
      ensures users == Seed && loginError == "" && signupError == ""
    {
      users := Seed;
      loginError := "";
      signupError := "";
      SeedHasDistinctEmails();
    }

    /**
     * The screen mounting again, as it does after every logout: the database
     * lives at module level and is kept, while the two error lines are React
     * state of the component and start over empty.
     */
    method Remount()
      requires Valid()
      modifies this
      ensures Valid()
      ensures users == old(users) && loginError == "" && signupError == ""
    {
      loginError := "";
      signupError := "";
    }

    /**
     * `handleLogin`: clears the error, refuses empty fields, then looks the
     * credentials up; a match signs that account in, anything else sets the
     * error. The database is left alone.
     */
    method HandleLogin(email: string, password: string) returns (signedIn: Option<UserInfo>)
      modifies this
      ensures users == old(users) && signupError == old(signupError)
      ensures match LoginOutcome(users, email, password)
        case Ok(u) => signedIn == Some(u) && loginError == ""
        case Err(e) => signedIn == None && loginError == LoginMessage(e)
    {
      loginError := "";
      if email == "" || password == "" {
        loginError := LoginMessage(MissingCredentials);
        return None;
      }
      var user := ValidateLogin(users, email, password);
      if user.Some? {
        signedIn := Some(UserInfo(user.value.name, user.value.email));
      } else {
        loginError := LoginMessage(InvalidCredentials);
        signedIn := None;
      }
    }

    /**
     * `handleSignup`: clears the error and runs the checks in order; the first
     * failure sets its message and changes nothing else, and when all pass the
     * new account is appended and signed in.
     */
    method HandleSignup(name: string, email: string, password: string, confirm: string) returns (signedIn: Option<UserInfo>)
      requires Valid()
      modifies this
      ensures Valid()
      ensures loginError == old(loginError)
      ensures match SignupCheck(old(users), name, email, password, confirm)
        case Some(e) => users == old(users) && signupError == SignupMessage(e) && signedIn == None
        case None => users == old(users) + [Account(email, password, name)] && signupError == ""
                     && signedIn == Some(UserInfo(name, email))
    {
      signupError := "";
      var check := SignupCheck(users, name, email, password, confirm);
      if check.Some? {
        signupError := SignupMessage(check.value);
        return None;
      }
      SignupKeepsEmailsDistinct(users, name, email, password, confirm);
      assert (users + [Account(email, password, name)])[..|Seed|] == users[..|Seed|];
      users := users + [Account(email, password, name)];
      signedIn := Some(UserInfo(name, email));
    }

    /** `handleDemoLogin`: signs the seeded demo account in, which is always there. */
    method HandleDemoLogin() returns (signedIn: Option<UserInfo>)
      requires Valid()
      ensures signedIn == Some(UserInfo("Demo User", DemoEmail))
    {
      DemoIsFound(users);
      var demoUser := FindByEmail(users, DemoEmail);
      if demoUser.Some? {
        signedIn := Some(UserInfo(demoUser.value.name, demoUser.value.email));
      } else {
        signedIn := None;
      }
    }
  }

  /**
   * A failed login leaves its error on the screen; signing in with the demo
   * account and remounting the screen clears it, while the accounts
   * registered so far stay. The remount stands for the page's logout, after
   * which app/page.tsx:86-88 renders the login screen anew; the page's
   * session (module Page) holds no login screen, so the two are not linked here.
   */
  method ErrorClearedAfterRemount(s: LoginScreen, email: string, password: string)
    requires s.Valid()
    requires LoginOutcome(s.users, email, password).Err?
    modifies s
    ensures s.Valid() && s.users == old(s.users)
    ensures s.loginError == "" && s.signupError == ""
  {
    var failed := s.HandleLogin(email, password);
    assert failed == None && s.loginError != "";
    var demo := s.HandleDemoLogin();
    s.Remount();
  }
}
