/** The dashboard's top level as an event-driven system: the users file and one
    session, the widgets each screen shows, and what a sequence of clicks and
    form submissions can reach. */
module Dashboard {
  import opened Credentials
  import opened Sessions

  /** The users file together with one session's record. */
  datatype App = App(users: Users, session: State)

  /** One interaction with a widget of the page. */
  datatype Event =
    | ClickSignIn
    | ClickSignUp
    | SubmitLogin(username: string, password: string)
    | SubmitSignUp(username: string, password: string, confirm: string)
    | ClickLogout

  /** A new session over whatever the users file already holds. */
  function Start(persisted: Users): (a: App)
    ensures a.users == persisted && a.session == Initial
  {
    App(persisted, Initial)
  }

  /** One interaction. A logged-out session shows the two page buttons and the
      form that `page` selects; a logged-in one shows the Logout button. A widget
      that is not on the screen cannot be used, so its event changes nothing. */
  function Step(a: App, e: Event): (r: App)
    ensures forall v :: v in a.users ==> v in r.users && r.users[v] == a.users[v]
    ensures r.session.loggedIn && !a.session.loggedIn ==>
      e.SubmitLogin? && Authenticates(a.users, e.username, e.password) && r.session.username == e.username
    ensures !r.session.loggedIn && a.session.loggedIn ==> e == ClickLogout && r.session == Initial
  {
    if !a.session.loggedIn then
      match e
      case ClickSignIn => a.(session := AfterPageButton(a.session, SignInPage))
      case ClickSignUp => a.(session := AfterPageButton(a.session, SignUpPage))
      case SubmitLogin(u, p) =>
        if a.session.page == SignInPage then a.(session := AfterLogin(a.session, a.users, u, p)) else a
      case SubmitSignUp(u, p, c) =>
        if a.session.page == SignUpPage then
          App(SignUpUsers(a.users, u, p, c), AfterSignUp(a.session, ValidateSignUp(a.users, u, p, c)))
        else a
      case ClickLogout => a
    else
      match e
      case ClickLogout => a.(session := AfterLogout(a.session))
      case _ => a
  }

  /** The state after a sequence of interactions, first to last. */
  function Run(a: App, es: seq<Event>): App
    decreases |es|
  {
    if es == [] then a else Run(Step(a, es[0]), es[1..])
  }

  /** What every reachable state satisfies: a logged-in session belongs to an
      account on file, and a logged-out one carries no username. */
  predicate Consistent(a: App)
  {
    && (a.session.loggedIn ==> a.session.username in a.users)
    && (!a.session.loggedIn ==> a.session.username == "")
  }

  lemma StartIsConsistent(persisted: Users)
    ensures Consistent(Start(persisted))
  {
  }

  lemma StepKeepsConsistent(a: App, e: Event)
    requires Consistent(a)
    ensures Consistent(Step(a, e))
  {
  }

  /** No sequence of interactions leaves the system inconsistent. */
  lemma {:induction false} RunKeepsConsistent(a: App, es: seq<Event>)
    requires Consistent(a)
    ensures Consistent(Run(a, es))
    decreases |es|
  {
    if es != [] {
      StepKeepsConsistent(a, es[0]);
      RunKeepsConsistent(Step(a, es[0]), es[1..]);
    }
  }

  /** Every state reachable from a new session is consistent. */
  lemma ReachableIsConsistent(persisted: Users, es: seq<Event>)
    ensures Consistent(Run(Start(persisted), es))
  {
    StartIsConsistent(persisted);
    RunKeepsConsistent(Start(persisted), es);
  }

  /** No sequence of interactions removes an account or changes its password. */
  lemma {:induction false} RunKeepsAccounts(a: App, es: seq<Event>, who: string)
    requires who in a.users
    ensures who in Run(a, es).users && Run(a, es).users[who] == a.users[who]
    decreases |es|
  {
    if es != [] {
      RunKeepsAccounts(Step(a, es[0]), es[1..], who);
    }
  }

  /** The example of registering, then signing in with a wrong and with the right password. */
  lemma RegisterThenSignIn(persisted: Users, name: string, password: string, wrong: string)
    requires name !in persisted && |password| >= MinPasswordLength && wrong != password
    ensures
      var registered := Run(Start(persisted), [ClickSignUp, SubmitSignUp(name, password, password)]);
      && registered.users == persisted[name := password]
      && registered.session.page == SignInPage
      && !Run(registered, [SubmitLogin(name, wrong)]).session.loggedIn
      && Run(registered, [SubmitLogin(name, password)]).session == State(true, name, SignInPage)
  {
    var a0 := Start(persisted);
    var a1 := Step(a0, ClickSignUp);
    var a2 := Step(a1, SubmitSignUp(name, password, password));
    var es := [ClickSignUp, SubmitSignUp(name, password, password)];
    assert es[1..] == [SubmitSignUp(name, password, password)];
    assert Run(a1, es[1..]) == Run(a2, []);
  }
}
