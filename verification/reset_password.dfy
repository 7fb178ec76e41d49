/** The password-reset page: the check of the recovery session when the page
    opens, which screen it then shows, and the checks on the new password
    before it is sent. */
module ResetPassword {
  import opened Common

  const MinPasswordLength := 6

  const PasswordMismatch := "Passwords do not match"
  const TooShort := "Password must be at least 6 characters long"
  const NotConfigured := "Supabase not configured"
  const Unexpected := "An unexpected error occurred"

  /** The checks of `handleSubmit` before the update: equality first, then
      the length; six characters are enough. */
  function ResetCheck(password: string, confirm: string): (err: Option<string>)
    ensures err == Some(PasswordMismatch) <==> password != confirm
    ensures err == Some(TooShort) <==> password == confirm && |password| < MinPasswordLength
    ensures err.None? <==> password == confirm && |password| >= MinPasswordLength
  {
    if password != confirm then Some(PasswordMismatch)
    else if |password| < MinPasswordLength then Some(TooShort)
    else None
  }

  /** A mismatch is reported even when the password is also too short, and a
      matching password of exactly six characters passes. */
  lemma ResetCheckBoundary()
    ensures ResetCheck("abc", "abd") == Some(PasswordMismatch)
    ensures ResetCheck("abcde", "abcde") == Some(TooShort)
    ensures ResetCheck("abcdef", "abcdef").None?
  {
    assert "abc" != "abd" by { assert "abc"[2] != "abd"[2]; }
  }

  /** What `supabase.auth.getSession()` does. */
  datatype SessionResult = SessionError | NoSession | HasSession | SessionThrew

  /** What `supabase.auth.updateUser` does. */
  datatype UpdateResult = UpdateError(message: string) | Updated | UpdateThrew

  /** The screen the page renders. */
  datatype Screen = Verifying | Succeeded | InvalidLink | ResetForm

  /** The session check runs first, success wins over the form, and the form
      is shown only for a valid session. */
  function ScreenOf(checkingSession: bool, success: bool, isValidSession: bool): (s: Screen)
    ensures s == Verifying <==> checkingSession
    ensures s == Succeeded <==> !checkingSession && success
    ensures s == ResetForm <==> !checkingSession && !success && isValidSession
  {
    if checkingSession then Verifying
    else if success then Succeeded
    else if !isValidSession then InvalidLink
    else ResetForm
  }

  class ResetPasswordPage {
    var password: string
    var confirmPassword: string
    var loading: bool
    var error: string
    var success: bool
    var isValidSession: bool
    var checkingSession: bool

    constructor ()
      ensures password == "" && confirmPassword == "" && !loading && error == ""
      ensures !success && !isValidSession && checkingSession
    {
      password := "";
      confirmPassword := "";
      loading := false;
      error := "";
      success := false;
      isValidSession := false;
      checkingSession := true;
    }

    /** `checkSession`: the session is valid only when the service returns one;
        each failure sets its own message; the check always ends. */
    method CheckSession(configured: bool, result: SessionResult)
      modifies this
      ensures !checkingSession
      ensures isValidSession <==> old(isValidSession) || (configured && result == HasSession)
      ensures !configured ==> error == NotConfigured
      ensures configured ==> error == match result
        case SessionError => "Invalid or expired reset link"
        case NoSession => "No active session found. Please request a new password reset."
        case HasSession => old(error)
        case SessionThrew => "An error occurred while verifying your session"
      ensures password == old(password) && confirmPassword == old(confirmPassword)
      ensures loading == old(loading) && success == old(success)
    {
      if !configured {
        error := NotConfigured;
        checkingSession := false;
        return;
      }
      match result {
        case SessionError =>
          error := "Invalid or expired reset link";
        case NoSession =>
          error := "No active session found. Please request a new password reset.";
        case HasSession =>
          isValidSession := true;
        case SessionThrew =>
          error := "An error occurred while verifying your session";
      }
      checkingSession := false;
    }

    /** `handleSubmit`: `loading` is false again on every path; `success` is
        set only when all checks pass and the update succeeds. */
    method HandleSubmit(configured: bool, update: UpdateResult)
      modifies this
      ensures !loading
      ensures success <==> old(success) || (ResetCheck(password, confirmPassword).None? && configured && update == Updated)
      ensures ResetCheck(password, confirmPassword).Some? ==> error == ResetCheck(password, confirmPassword).value
      ensures ResetCheck(password, confirmPassword).None? && !configured ==> error == NotConfigured
      ensures ResetCheck(password, confirmPassword).None? && configured ==> error == match update
        case UpdateError(m) => m
        case Updated => ""
        case UpdateThrew => Unexpected
      ensures password == old(password) && confirmPassword == old(confirmPassword)
      ensures isValidSession == old(isValidSession) && checkingSession == old(checkingSession)
    {
      loading := true;
      error := "";
      var check := ResetCheck(password, confirmPassword);
      if check.Some? {
        error := check.value;
        loading := false;
        return;
      }
      if !configured {
        error := NotConfigured;
        loading := false;
        return;
      }
      match update {
        case UpdateError(m) =>
          error := m;
        case Updated =>
          success := true;
        case UpdateThrew =>
          error := Unexpected;
      }
      loading := false;
    }
  }
}
