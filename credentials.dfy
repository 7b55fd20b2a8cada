/** The users file as an in-memory map from username to plaintext password,
    the credential test of the sign-in form and the checks of the sign-up form. */
module Credentials {

  /** Username to plaintext password, as the users file holds it. */
  type Users = map<string, string>

  /** The shortest password the sign-up form accepts. */
  const MinPasswordLength: nat := 6

  /** The users file, read and rewritten wholesale by every operation. */
  class UserStore {
    var users: Users

    /** Opens the file with whatever it already holds (empty when it was just created). */
    constructor (persisted: Users)
      ensures users == persisted
    {
      users := persisted;
    }

    /** Inserts or overwrites one entry and leaves every other entry as it was. */
    method SaveUser(username: string, password: string)
      modifies this
      ensures username in users && users[username] == password
      ensures users.Keys == old(users).Keys + {username}
      ensures forall v :: v in old(users) && v != username ==> users[v] == old(users)[v]
    {
      users := users[username := password];
    }
  }

  /** The sign-in form's test: the name is on file with exactly this password. */
  predicate Authenticates(users: Users, username: string, password: string)
  {
    username in users && users[username] == password
  }

  /** What the sign-up form reports, one value per branch of its checks. */
  datatype SignUpOutcome = UsernameTaken | PasswordTooShort | PasswordMismatch | Created

  /** The sign-up checks in their fixed order: a taken name first, then a short
      password, then a mismatched confirmation. */
  function ValidateSignUp(users: Users, username: string, password: string, confirm: string): (r: SignUpOutcome)
    ensures r == UsernameTaken <==> username in users
    ensures r == PasswordTooShort <==> username !in users && |password| < MinPasswordLength
    ensures r == PasswordMismatch <==>
      username !in users && |password| >= MinPasswordLength && password != confirm
    ensures r == Created <==>
      username !in users && |password| >= MinPasswordLength && password == confirm
  {
    if username in users then UsernameTaken
    else if |password| < MinPasswordLength then PasswordTooShort
    else if password != confirm then PasswordMismatch
    else Created
  }

  /** The users map after one sign-up attempt. */
  function SignUpUsers(users: Users, username: string, password: string, confirm: string): (r: Users)
    ensures ValidateSignUp(users, username, password, confirm) == Created ==>
      r.Keys == users.Keys + {username} && r[username] == password
    ensures ValidateSignUp(users, username, password, confirm) != Created ==> r == users
    ensures forall v :: v in users ==> v in r && r[v] == users[v]
  {
    if ValidateSignUp(users, username, password, confirm) == Created then users[username := password]
    else users
  }

  /** A rejected sign-up leaves the users map exactly as it was, whichever check failed. */
  lemma RejectedSignUpKeepsUsers(users: Users, username: string, password: string, confirm: string)
    requires ValidateSignUp(users, username, password, confirm) != Created
    ensures SignUpUsers(users, username, password, confirm) == users
  {
  }

  /** The length check accepts a password of exactly the minimum length. */
  lemma MinimumLengthPasses(users: Users, username: string, password: string)
    requires username !in users && |password| == MinPasswordLength
    ensures ValidateSignUp(users, username, password, password) == Created
  {
  }

  /** After a successful sign-up the new account signs in with its password and with no other. */
  lemma SignUpThenSignIn(users: Users, username: string, password: string, confirm: string, attempt: string)
    requires ValidateSignUp(users, username, password, confirm) == Created
    ensures Authenticates(SignUpUsers(users, username, password, confirm), username, password)
    ensures Authenticates(SignUpUsers(users, username, password, confirm), username, attempt) <==>
      attempt == password
  {
  }

  /** Registering the same name twice fails on the second attempt, whatever the password. */
  lemma SecondSignUpRejected(users: Users, username: string, password: string, confirm: string,
                             password': string, confirm': string)
    requires ValidateSignUp(users, username, password, confirm) == Created
    ensures ValidateSignUp(SignUpUsers(users, username, password, confirm), username, password', confirm')
      == UsernameTaken
  {
  }

  /** A sign-up attempt never changes whether an account other than the new one
      accepts a password: existing credentials cannot be overwritten through the form. */
  lemma SignUpKeepsOtherCredentials(users: Users, username: string, password: string, confirm: string,
                                    who: string, attempt: string)
    requires who != username || who in users
    ensures Authenticates(SignUpUsers(users, username, password, confirm), who, attempt) <==>
      Authenticates(users, who, attempt)
  {
  }
}
