/**
 * The mock authentication session of `src/App.tsx` (`AuthProvider`, `ProtectedRoute`).
 *
 * Browser `localStorage` is two in-memory records: `users` (the JSON list under
 * "triptrove-users") and `stored` (the JSON session record under "triptrove-user").
 * The React state is `isAuthenticated` and `user`.
 */
module Auth {
  import opened Wrappers

  /** A registered account, as kept in the "triptrove-users" list (password in plain text). */
  datatype User = User(name: string, email: string, password: string)

  /** The session record: name and email only. The type has no place for a password. */
  datatype Info = Info(name: string, email: string)

  /** Snapshot of the whole session: the two storage records and the two React state values. */
  datatype AuthState = AuthState(users: seq<User>, stored: Option<Info>, isAuthenticated: bool, user: Option<Info>)

  /** What a protected route renders. */
  datatype Render = Children | Redirect(to: string, replace: bool)

  /** The invariant the provider keeps: authenticated exactly when a user is present. */
  predicate Consistent(s: AuthState)
  {
    s.isAuthenticated <==> s.user.Some?
  }

  /** The storage and the React state agree: what a reload would restore is what is shown. */
  predicate Synced(s: AuthState)
  {
    s.stored == s.user
  }

  function InfoOf(u: User): Info
  {
    Info(u.name, u.email)
  }

  /** `storedUsers.find(u => u.email === email)`: the FIRST registered user with that email. */
  function FindByEmail(users: seq<User>, email: string): (r: Option<User>)
    ensures r.None? <==> forall i :: 0 <= i < |users| ==> users[i].email != email
    ensures r.Some? ==> exists i :: 0 <= i < |users| && users[i] == r.value && r.value.email == email
                                    && forall j :: 0 <= j < i ==> users[j].email != email
  {
    if users == [] then None
    else if users[0].email == email then Some(users[0])
    else
      var r := FindByEmail(users[1..], email);
      assert r.Some? ==> exists i :: 1 <= i < |users| && users[i] == r.value && r.value.email == email
                                     && forall j :: 0 <= j < i ==> users[j].email != email by {
        if r.Some? {
          var i :| 0 <= i < |users[1..]| && users[1..][i] == r.value && r.value.email == email
                   && forall j :: 0 <= j < i ==> users[1..][j].email != email;
          assert users[i + 1] == r.value;
          forall j | 0 <= j < i + 1 ensures users[j].email != email {
            if j > 0 { assert users[j] == users[1..][j - 1]; }
          }
        }
      }
      r
  }

  /** `storedUsers.some(u => u.email === email)`. */
  predicate EmailTaken(users: seq<User>, email: string)
  {
    exists i :: 0 <= i < |users| && users[i].email == email
  }

  // ------------------------------------------------------------ transitions

  /** The initial-load effect: a stored session record, when present, is trusted as it is. */
  function Restored(s: AuthState): (r: AuthState)
    ensures r.users == s.users && r.stored == s.stored
    ensures s.stored.Some? ==> r.isAuthenticated && Synced(r)
    ensures s.stored.None? ==> r == s
  {
    if s.stored.Some? then s.(user := s.stored, isAuthenticated := true) else s
  }

  /** `login` returns true when the first user with that email has exactly that password. */
  predicate LoginOk(users: seq<User>, email: string, password: string)
  {
    var m := FindByEmail(users, email);
    m.Some? && m.value.password == password
  }

  /** A successful login signs in as the first account with that email and records it; a failed one changes nothing. */
  function AfterLogin(s: AuthState, email: string, password: string): (r: AuthState)
    ensures r.users == s.users
    ensures LoginOk(s.users, email, password) ==>
      r.isAuthenticated && Synced(r) && r.user.Some? && r.user.value.email == email
    ensures LoginOk(s.users, email, password) ==> r.user == Some(InfoOf(FindByEmail(s.users, email).value))
    ensures !LoginOk(s.users, email, password) ==> r == s
  {
    if LoginOk(s.users, email, password) then
      var info := InfoOf(FindByEmail(s.users, email).value);
      s.(stored := Some(info), user := Some(info), isAuthenticated := true)
    else s
  }

  /** `signup` returns true when no registered user has that email. */
  predicate SignupOk(users: seq<User>, email: string)
  {
    !EmailTaken(users, email)
  }

  /** A successful signup registers the account at the end of the list and signs in as it; a failed one changes nothing. */
  function AfterSignup(s: AuthState, name: string, email: string, password: string): (r: AuthState)
    ensures SignupOk(s.users, email) ==>
      r.users == s.users + [User(name, email, password)] && r.isAuthenticated && Synced(r)
      && r.user == Some(Info(name, email))
    ensures !SignupOk(s.users, email) ==> r == s
  {
    if SignupOk(s.users, email) then
      AuthState(s.users + [User(name, email, password)], Some(Info(name, email)), true, Some(Info(name, email)))
    else s
  }

  /** Logout keeps the accounts and leaves nobody signed in, neither on screen nor in storage. */
  function AfterLogout(s: AuthState): (r: AuthState)
    ensures r.users == s.users && !r.isAuthenticated && r.user.None? && Synced(r)
  {
    s.(stored := None, user := None, isAuthenticated := false)
  }

  /** `ProtectedRoute`: children when authenticated, otherwise a replacing redirect to /login. */
  function Route(isAuthenticated: bool): (r: Render)
    ensures r == Children <==> isAuthenticated
    ensures !isAuthenticated ==> r == Redirect("/login", true)
  {
    if !isAuthenticated then Redirect("/login", true) else Children
  }

  // ------------------------------------------------------------ properties

  /** A taken email makes signup fail and changes nothing, storage included. */
  lemma SignupDuplicateRejected(s: AuthState, name: string, email: string, password: string)
    requires EmailTaken(s.users, email)
    ensures !SignupOk(s.users, email)
    ensures AfterSignup(s, name, email, password) == s
  {
  }

  /** A fresh email appends exactly the new account and signs in as its name and email. */
  lemma SignupAppends(s: AuthState, name: string, email: string, password: string)
    requires !EmailTaken(s.users, email)
    ensures var t := AfterSignup(s, name, email, password);
      && t.users == s.users + [User(name, email, password)]
      && t.user == Some(Info(name, email)) && t.stored == t.user && t.isAuthenticated
  {
  }

  /** Signing up twice with one email: the second attempt fails, whatever name and password it uses. */
  lemma SignupTwiceFails(s: AuthState, n1: string, p1: string, n2: string, p2: string, email: string)
    requires SignupOk(s.users, email)
    ensures var t := AfterSignup(s, n1, email, p1);
      !SignupOk(t.users, email) && AfterSignup(t, n2, email, p2) == t
  {
    var t := AfterSignup(s, n1, email, p1);
    assert t.users[|s.users|].email == email;
  }

  /** Login succeeds iff the first stored user with that email has exactly that password. */
  lemma LoginOkIff(users: seq<User>, email: string, password: string)
    ensures LoginOk(users, email, password) <==>
      exists i :: 0 <= i < |users| && users[i].email == email && users[i].password == password
                  && forall j :: 0 <= j < i ==> users[j].email != email
  {
    if exists i :: 0 <= i < |users| && users[i].email == email && users[i].password == password
                   && forall j :: 0 <= j < i ==> users[j].email != email {
      var i :| 0 <= i < |users| && users[i].email == email && users[i].password == password
               && forall j :: 0 <= j < i ==> users[j].email != email;
      var m := FindByEmail(users, email);
      var k :| 0 <= k < |users| && users[k] == m.value && m.value.email == email
               && forall j :: 0 <= j < k ==> users[j].email != email;
      assert k == i;
    }
  }

  /** A successful login stores and shows the name and email of the first account with that email, and leaves the user list alone. */
  lemma LoginSuccess(s: AuthState, email: string, password: string)
    requires LoginOk(s.users, email, password)
    ensures var t := AfterLogin(s, email, password);
      && t.users == s.users && t.isAuthenticated && t.stored == t.user
      && exists u :: u in s.users && u.email == email && u.password == password && t.user == Some(InfoOf(u))
    ensures var t := AfterLogin(s, email, password);
      forall i :: 0 <= i < |s.users| && s.users[i].email == email && (forall j :: 0 <= j < i ==> s.users[j].email != email) ==> t.user == Some(InfoOf(s.users[i]))
  {
    var u := FindByEmail(s.users, email).value;
    assert u in s.users;
  }

  /** A failed login changes nothing: neither the user, the flag nor storage. */
  lemma LoginFailureUnchanged(s: AuthState, email: string, password: string)
    requires !LoginOk(s.users, email, password)
    ensures AfterLogin(s, email, password) == s
  {
  }

  /** Logging out twice is the same as logging out once, and it always ends signed out. */
  lemma LogoutIdempotent(s: AuthState)
    ensures AfterLogout(AfterLogout(s)) == AfterLogout(s)
    ensures var t := AfterLogout(s); !t.isAuthenticated && t.user.None? && t.stored.None? && t.users == s.users
  {
  }

  /** Every operation keeps `isAuthenticated <==> user != null`. */
  lemma OperationsKeepConsistent(s: AuthState, name: string, email: string, password: string)
    requires Consistent(s)
    ensures Consistent(Restored(s))
    ensures Consistent(AfterLogin(s, email, password))
    ensures Consistent(AfterSignup(s, name, email, password))
    ensures Consistent(AfterLogout(s))
  {
  }

  /** Login, signup and logout keep storage and state in agreement; restoring on load establishes it. */
  lemma OperationsKeepSynced(s: AuthState, name: string, email: string, password: string)
    requires Synced(s)
    ensures Synced(AfterLogin(s, email, password))
    ensures Synced(AfterSignup(s, name, email, password))
    ensures Synced(AfterLogout(s))
    ensures s.stored.Some? ==> Synced(Restored(s.(user := None)))
  {
  }

  /** Appending an account whose email was free makes it the one `find` returns for that email. */
  lemma {:induction false} FindAfterAppend(users: seq<User>, u: User)
    requires !EmailTaken(users, u.email)
    ensures FindByEmail(users + [u], u.email) == Some(u)
  {
    assert (users + [u])[|users|] == u;
    assert forall i :: 0 <= i < |users| ==> (users + [u])[i].email != u.email;
  }

  /** Sign up, log out, then log in again: the right password signs in as the new account, any other fails. */
  lemma SignupLogoutLogin(s: AuthState, name: string, email: string, password: string, wrong: string)
    requires SignupOk(s.users, email) && wrong != password
    ensures var t := AfterLogout(AfterSignup(s, name, email, password));
      && !LoginOk(t.users, email, wrong) && AfterLogin(t, email, wrong) == t && !t.isAuthenticated
      && LoginOk(t.users, email, password)
      && AfterLogin(t, email, password).user == Some(Info(name, email))
  {
    FindAfterAppend(s.users, User(name, email, password));
  }

  // ------------------------------------------------------------ the provider

  /** `AuthProvider`: its two state values and the two storage records it reads and writes. */
  class AuthProvider {
    var users: seq<User>
    var stored: Option<Info>
    var isAuthenticated: bool
    var user: Option<Info>

    function State(): AuthState
      reads this
    {
      AuthState(users, stored, isAuthenticated, user)
    }

    /** First render: whatever storage holds, the state starts signed out. */
    constructor (users: seq<User>, stored: Option<Info>)
      ensures State() == AuthState(users, stored, false, None)
      ensures Consistent(State())
    {
      this.users := users;
      this.stored := stored;
      isAuthenticated := false;
      user := None;
    }

    /** The effect that runs once on load. */
    method Restore()
      modifies this
      ensures State() == Restored(old(State()))
    {
      if stored.Some? {
        user := stored;
        isAuthenticated := true;
      }
    }

    method Login(email: string, password: string) returns (ok: bool)
      modifies this
      ensures ok == LoginOk(old(users), email, password)
      ensures State() == AfterLogin(old(State()), email, password)
    {
      var matched := FindByEmail(users, email);
      if matched.Some? && matched.value.password == password {
        var userInfo := Info(matched.value.name, matched.value.email);
        stored := Some(userInfo);
        user := Some(userInfo);
        isAuthenticated := true;
        return true;
      }
      return false;
    }

    method Signup(name: string, email: string, password: string) returns (ok: bool)
      modifies this
      ensures ok == SignupOk(old(users), email)
      ensures State() == AfterSignup(old(State()), name, email, password)
    {
      if EmailTaken(users, email) {
        return false;
      }
      users := users + [User(name, email, password)];
      var userInfo := Info(name, email);
      stored := Some(userInfo);
      user := Some(userInfo);
      isAuthenticated := true;
      return true;
    }

    method Logout()
      modifies this
      ensures State() == AfterLogout(old(State()))
    {
      stored := None;
      user := None;
      isAuthenticated := false;
    }
  }
}
