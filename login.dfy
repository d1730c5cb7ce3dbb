/** The admin login form (components/AdminLogin.tsx): a password field, an
    error line, and a submit handler that compares the password with one
    fixed demo secret. */
module LoginGate {
  import opened Types

  const ADMIN_PASSWORD: string := "admin123"
  const INVALID_CREDENTIALS: string := "Invalid admin credentials. Hint: use admin123"

  datatype LoginState = LoginState(password: string, error: string)

  /** What a submit does: the next state, and the argument `onLogin` was
      called with, if it was called. */
  datatype LoginStep = LoginStep(next: LoginState, onLogin: Option<bool>)

  /** handleLogin: the right password calls `onLogin(true)` and leaves the
      form alone; any other password shows the hint and empties the field. */
  function SubmitLogin(s: LoginState): (r: LoginStep)
    ensures r.onLogin != Some(false)
    ensures r.onLogin == Some(true) <==> s.password == ADMIN_PASSWORD
    ensures s.password == ADMIN_PASSWORD ==> r.next == s
    ensures s.password != ADMIN_PASSWORD ==> r.next == LoginState("", INVALID_CREDENTIALS)
  {
    if s.password == ADMIN_PASSWORD then LoginStep(s, Some(true))
    else LoginStep(LoginState("", INVALID_CREDENTIALS), None)
  }

  /** The password field's change handler: store the text, clear the error. */
  function EditPassword(s: LoginState, text: string): (r: LoginState)
    ensures r.password == text && r.error == ""
  {
    LoginState(text, "")
  }

  /** After a failed attempt the field is empty, so submitting again at once
      fails again; typing the right password and submitting succeeds. */
  lemma RetryAfterFailure(s: LoginState, text: string)
    requires s.password != ADMIN_PASSWORD
    ensures SubmitLogin(SubmitLogin(s).next).onLogin == None
    ensures SubmitLogin(EditPassword(SubmitLogin(s).next, text)).onLogin == Some(true) <==> text == ADMIN_PASSWORD
  {
  }

  class AdminLogin {
    var password: string
    var error: string

    function State(): LoginState
      reads this
    {
      LoginState(password, error)
    }

    constructor ()
      ensures State() == LoginState("", "")
    {
      password := "";
      error := "";
    }

    /** handleLogin; `onLogin` is the argument the callback received, if it was called. */
    method HandleLogin() returns (onLogin: Option<bool>)
      modifies this
      ensures SubmitLogin(old(State())) == LoginStep(State(), onLogin)
    {
      if password == ADMIN_PASSWORD {
        onLogin := Some(true);
      } else {
        error := INVALID_CREDENTIALS;
        password := "";
        onLogin := None;
      }
    }

    method OnPasswordChange(text: string)
      modifies this
      ensures State() == EditPassword(old(State()), text)
    {
      password := text;
      error := "";
    }
  }
}
