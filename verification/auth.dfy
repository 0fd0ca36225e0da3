/**
 * The demo authentication context: login and signup acceptance, the user they
 * create, logout, and the effect that mirrors the current user into browser
 * storage. The simulated network delay, `crypto.randomUUID` (the fresh id is a
 * parameter) and JSON encoding are outside the model; the storage slot holds
 * a user or nothing.
 */
module Auth {
  import opened Optional
  import opened Text

  datatype User = User(id: string, name: string, email: string)

  /** The context's current user and the `shopverse-user` storage slot. */
  datatype AuthState = AuthState(user: Option<User>, stored: Option<User>)

  const MinPasswordLength: nat := 6

  /** The storage effect's invariant: the slot holds the user, or is removed when there is none. */
  predicate Mirrored(st: AuthState) {
    st.stored == st.user
  }

  /** `isAuthenticated: !!user`. */
  predicate IsAuthenticated(st: AuthState)
    ensures Mirrored(st) ==> (IsAuthenticated(st) <==> st.stored.Some?)
  {
    st.user.Some?
  }

  /** Start-up: the user is read back from storage, then the effect writes it again. */
  function Boot(saved: Option<User>): (st: AuthState)
    ensures st.user == saved
    ensures Mirrored(st)
  {
    AuthState(saved, saved)
  }

  /** `setUser(u)` followed by the effect that runs because the user changed. */
  function Commit(u: Option<User>): (st: AuthState)
    ensures st.user == u && Mirrored(st)
  {
    AuthState(u, u)
  }

  /** The display name a login derives: `email.split("@")[0]`. */
  function DisplayName(email: string): (name: string)
    ensures '@' !in name
    ensures '@' !in email ==> name == email
    ensures '@' in email ==> |name| < |email| && email == name + "@" + email[|name| + 1..]
  {
    BeforeFirstSplits(email, '@');
    BeforeFirst(email, '@')
  }

  /** The login password rule: at least six UTF-16 code units. */
  predicate PasswordAccepted(password: string) {
    Utf16Length(password) >= MinPasswordLength
  }

  datatype Outcome = Outcome(state: AuthState, ok: bool)

  /**
   * `login(email, password)`: any non-empty email (no format check) with a
   * password of at least six code units; a rejected login changes nothing.
   */
  function Login(st: AuthState, email: string, password: string, freshId: string): (r: Outcome)
    ensures r.ok <==> email != "" && PasswordAccepted(password)
    ensures r.ok ==> r.state.user == Some(User(freshId, DisplayName(email), email)) && Mirrored(r.state)
    ensures !r.ok ==> r.state == st
  {
    if email != "" && Utf16Length(password) >= MinPasswordLength then
      Outcome(Commit(Some(User(freshId, DisplayName(email), email))), true)
    else
      Outcome(st, false)
  }

  /** `signup(name, email, password)`: non-empty name and email, the same password rule; both stored verbatim. */
  function Signup(st: AuthState, name: string, email: string, password: string, freshId: string): (r: Outcome)
    ensures r.ok <==> name != "" && email != "" && PasswordAccepted(password)
    ensures r.ok ==> r.state.user == Some(User(freshId, name, email)) && Mirrored(r.state)
    ensures !r.ok ==> r.state == st
  {
    if name != "" && email != "" && Utf16Length(password) >= MinPasswordLength then
      Outcome(Commit(Some(User(freshId, name, email))), true)
    else
      Outcome(st, false)
  }

  function Logout(st: AuthState): (r: AuthState)
    ensures !IsAuthenticated(r)
    ensures r.stored.None?
  {
    Commit(None)
  }

  /** The login rule checks no email format: any non-empty string, even one without `@`, is accepted. */
  lemma LoginAcceptsAnyNonEmptyEmail(st: AuthState, email: string, password: string, freshId: string)
    requires email != "" && PasswordAccepted(password)
    ensures Login(st, email, password, freshId).ok
    ensures IsAuthenticated(Login(st, email, password, freshId).state)
    ensures '@' !in email ==> Login(st, email, password, freshId).state.user.value.name == email
  {
  }

  datatype Action =
    | LoginAction(email: string, password: string, freshId: string)
    | SignupAction(name: string, email: string, password: string, freshId: string)
    | LogoutAction

  function Apply(st: AuthState, a: Action): AuthState {
    match a
    case LoginAction(e, p, id) => Login(st, e, p, id).state
    case SignupAction(n, e, p, id) => Signup(st, n, e, p, id).state
    case LogoutAction => Logout(st)
  }

  function Run(st: AuthState, actions: seq<Action>): AuthState
    decreases |actions|
  {
    if actions == [] then st else Run(Apply(st, actions[0]), actions[1..])
  }

  /** From start-up on, whatever the user does, storage mirrors the current user. */
  lemma {:induction false} SessionKeepsStorageMirrored(saved: Option<User>, actions: seq<Action>)
    ensures Mirrored(Run(Boot(saved), actions))
  {
    MirroredRun(Boot(saved), actions);
  }

  lemma {:induction false} MirroredRun(st: AuthState, actions: seq<Action>)
    requires Mirrored(st)
    ensures Mirrored(Run(st, actions))
    decreases |actions|
  {
    if actions != [] {
      MirroredRun(Apply(st, actions[0]), actions[1..]);
    }
  }

  /** A login or signup whose credentials fail the acceptance rules, whatever the state. */
  predicate Rejected(a: Action) {
    match a
    case LoginAction(e, p, _) => !(e != "" && PasswordAccepted(p))
    case SignupAction(n, e, p, _) => !(n != "" && e != "" && PasswordAccepted(p))
    case LogoutAction => false
  }

  /** Any number of rejected attempts leaves the user and storage exactly as they were. */
  lemma {:induction false} RejectedAttemptsChangeNothing(st: AuthState, actions: seq<Action>)
    requires forall i :: 0 <= i < |actions| ==> Rejected(actions[i])
    ensures Run(st, actions) == st
    decreases |actions|
  {
    if actions != [] {
      assert Apply(st, actions[0]) == st;
      assert forall i :: 0 <= i < |actions| - 1 ==> actions[1..][i] == actions[i + 1];
      RejectedAttemptsChangeNothing(st, actions[1..]);
    }
  }

  /** A session that ends with a logout is signed out, and storage is cleared. */
  lemma LogoutEndsSession(st: AuthState, actions: seq<Action>)
    ensures !IsAuthenticated(Run(st, actions + [LogoutAction]))
    ensures Run(st, actions + [LogoutAction]).stored.None?
  {
    RunAppend(st, actions, [LogoutAction]);
  }

  lemma {:induction false} RunAppend(st: AuthState, xs: seq<Action>, ys: seq<Action>)
    ensures Run(st, xs + ys) == Run(Run(st, xs), ys)
    decreases |xs|
  {
    if xs == [] {
      assert xs + ys == ys;
    } else {
      assert (xs + ys)[0] == xs[0];
      assert (xs + ys)[1..] == xs[1..] + ys;
      RunAppend(Apply(st, xs[0]), xs[1..], ys);
    }
  }
}
