/** The per-browser session record with its three flags, the transitions the
    forms and buttons make on it, and a class that performs them in place. */
module Sessions {
  import opened Credentials

  /** Which authentication form is shown; the record holds "Sign In" or "Sign Up". */
  datatype Page = SignInPage | SignUpPage

  /** The value of the session record. */
  datatype State = State(loggedIn: bool, username: string, page: Page)

  /** The record as a new session sets it up. */
  const Initial: State := State(false, "", SignInPage)

  /** A login attempt: accepted exactly when the credential test passes, in which
      case the session is logged in under that name; a rejected attempt changes nothing. */
  function AfterLogin(s: State, users: Users, username: string, password: string): (r: State)
    ensures r.page == s.page
    ensures Authenticates(users, username, password) ==> r.loggedIn && r.username == username
    ensures !Authenticates(users, username, password) ==> r == s
  {
    if Authenticates(users, username, password) then s.(loggedIn := true, username := username)
    else s
  }

  /** A sign-up attempt moves to the sign-in form when the account was created,
      and touches no other flag. */
  function AfterSignUp(s: State, outcome: SignUpOutcome): (r: State)
    ensures r.loggedIn == s.loggedIn && r.username == s.username
    ensures outcome == Created ==> r.page == SignInPage
    ensures outcome != Created ==> r == s
  {
    if outcome == Created then s.(page := SignInPage) else s
  }

  /** Logging out clears the three flags one by one, which returns any session
      to exactly the state a new session starts in. */
  function AfterLogout(s: State): (r: State)
    ensures r == Initial
  {
    s.(loggedIn := false, username := "", page := SignInPage)
  }

  /** The "Sign In" and "Sign Up" buttons choose the form and nothing else. */
  function AfterPageButton(s: State, target: Page): (r: State)
    ensures r.loggedIn == s.loggedIn && r.username == s.username && r.page == target
  {
    s.(page := target)
  }

  /** The session record, updated in place by the forms and buttons. */
  class Session {
    var loggedIn: bool
    var username: string
    var page: Page

    function Snapshot(): State
      reads this
    {
      State(loggedIn, username, page)
    }

    /** Sets each flag to its initial value. */
    constructor ()
      ensures Snapshot() == Initial
    {
      loggedIn := false;
      username := "";
      page := SignInPage;
    }

    /** The Login button: reads the users file and runs the credential test. */
    method Login(store: UserStore, name: string, password: string) returns (ok: bool)
      modifies this
      ensures ok == Authenticates(store.users, name, password)
      ensures Snapshot() == AfterLogin(old(Snapshot()), store.users, name, password)
    {
      var users := store.users;
      ok := name in users && users[name] == password;
      if ok {
        loggedIn := true;
        username := name;
      }
    }

    /** The Create Account button: runs the checks in order and saves the user
      only when all of them pass. */
    method SignUp(store: UserStore, name: string, password: string, confirm: string)
      returns (outcome: SignUpOutcome)
      modifies this, store
      ensures outcome == ValidateSignUp(old(store.users), name, password, confirm)
      ensures store.users == SignUpUsers(old(store.users), name, password, confirm)
      ensures Snapshot() == AfterSignUp(old(Snapshot()), outcome)
    {
      var users := store.users;
      if name in users {
        outcome := UsernameTaken;
      } else if |password| < MinPasswordLength {
        outcome := PasswordTooShort;
      } else if password != confirm {
        outcome := PasswordMismatch;
      } else {
        store.SaveUser(name, password);
        outcome := Created;
        page := SignInPage;
      }
    }

    /** The Logout button. */
    method Logout()
      modifies this
      ensures Snapshot() == AfterLogout(old(Snapshot()))
      ensures Snapshot() == Initial
    {
      loggedIn := false;
      username := "";
      page := SignInPage;
    }

    /** The "Sign In" button above the forms. */
    method ShowSignIn()
      modifies this
      ensures Snapshot() == AfterPageButton(old(Snapshot()), SignInPage)
    {
      page := SignInPage;
    }

    /** The "Sign Up" button above the forms. */
    method ShowSignUp()
      modifies this
      ensures Snapshot() == AfterPageButton(old(Snapshot()), SignUpPage)
    {
      page := SignUpPage;
    }
  }
}
