/**
 * The sign-up page of `src/pages/Signup.tsx`: a password-length guard in front of
 * `AuthProvider.signup`, and the redirect when a session already exists.
 */
module SignupPage {
  import opened Wrappers
  import Auth

  /** The password policy checked by the page, before `signup` is called. */
  const MinPasswordLength: nat := 6

  /** The three toasts `handleSubmit` can end with. */
  datatype Outcome = InvalidPassword | Created | AlreadyExists

  /** What the page renders: nothing (after `navigate('/')`) when signed in, the form otherwise. */
  datatype Page = RedirectHome | SignupFormPage

  function Render(isAuthenticated: bool): (p: Page)
    ensures p == RedirectHome <==> isAuthenticated
  {
    if isAuthenticated then RedirectHome else SignupFormPage
  }

  /** Which toast a submission ends with. */
  function SubmitOutcome(users: seq<Auth.User>, email: string, password: string): (r: Outcome)
    ensures r == InvalidPassword <==> |password| < MinPasswordLength
    ensures r == Created ==> Auth.SignupOk(users, email)
  {
    if |password| < MinPasswordLength then InvalidPassword
    else if Auth.SignupOk(users, email) then Created
    else AlreadyExists
  }

  /** The session after a submission: `signup` runs only past the guard. */
  function AfterSubmit(s: Auth.AuthState, name: string, email: string, password: string): (r: Auth.AuthState)
    ensures |password| < MinPasswordLength ==> r == s
    ensures r != s ==> SubmitOutcome(s.users, email, password) == Created
                       && r.users == s.users + [Auth.User(name, email, password)]
  {
    if |password| < MinPasswordLength then s else Auth.AfterSignup(s, name, email, password)
  }

  /** A short password is rejected before `signup` runs: the session and storage are untouched. */
  lemma ShortPasswordRejected(s: Auth.AuthState, name: string, email: string, password: string)
    requires |password| < MinPasswordLength
    ensures SubmitOutcome(s.users, email, password) == InvalidPassword
    ensures AfterSubmit(s, name, email, password) == s
  {
  }

  /** Whenever a submission changes the session, the password had at least six characters. */
  lemma SignupOnlyWithLongPassword(s: Auth.AuthState, name: string, email: string, password: string)
    requires AfterSubmit(s, name, email, password) != s
    ensures |password| >= MinPasswordLength
    ensures SubmitOutcome(s.users, email, password) == Created
  {
  }

  /** "Account created" exactly when the password passes and the email is free; then the user is signed in. */
  lemma CreatedIff(s: Auth.AuthState, name: string, email: string, password: string)
    ensures SubmitOutcome(s.users, email, password) == Created <==>
      |password| >= MinPasswordLength && !Auth.EmailTaken(s.users, email)
    ensures SubmitOutcome(s.users, email, password) == AlreadyExists <==>
      |password| >= MinPasswordLength && Auth.EmailTaken(s.users, email)
    ensures SubmitOutcome(s.users, email, password) == Created ==>
      AfterSubmit(s, name, email, password).user == Some(Auth.Info(name, email))
  {
  }

  /** The form's own state. */
  class SignupForm {
    var name: string
    var email: string
    var password: string
    var isLoading: bool

    constructor ()
      ensures name == "" && email == "" && password == "" && !isLoading
    {
      name, email, password, isLoading := "", "", "", false;
    }

    /** `handleSubmit`: guard, `signup`, then the toast and, on success, navigation to "/". */
    method HandleSubmit(auth: Auth.AuthProvider) returns (outcome: Outcome, navigateTo: Option<string>)
      modifies this`isLoading, auth
      ensures !isLoading
      ensures outcome == SubmitOutcome(old(auth.users), email, password)
      ensures auth.State() == AfterSubmit(old(auth.State()), name, email, password)
      ensures navigateTo == if outcome == Created then Some("/") else None
    {
      isLoading := true;
      if |password| < MinPasswordLength {
        isLoading := false;
        return InvalidPassword, None;
      }
      var success := auth.Signup(name, email, password);
      if success {
        outcome, navigateTo := Created, Some("/");
      } else {
        outcome, navigateTo := AlreadyExists, None;
      }
      isLoading := false;
    }
  }
}
