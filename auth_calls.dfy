/**
 * The auth service operations the components await, recorded as calls, and
 * the password rule that the register and confirm-reset forms share.
 */
module AuthCalls {
  import opened Wrappers

  /** A call a component makes on the auth service. */
  datatype AuthCall =
    | RegisterCall(email: string, password: string, passwordConfirm: string)
    | LoginCall(email: string, password: string)
    | RequestPasswordResetCall(email: string)
    | ConfirmPasswordResetCall(token: string, password: string, passwordConfirm: string)

  const MinPasswordLength := 8
  const PasswordTooShort := "Password must be at least 8 characters."
  const PasswordsDiffer := "Passwords do not match."

  /**
   * The client-side password check: `None` when the pair may be sent,
   * otherwise the message to show. The length check comes before the match
   * check, so a short password is reported as short even when the two differ.
   */
  function PasswordProblem(password: string, passwordConfirm: string): (r: Option<string>)
    ensures r.None? <==> |password| >= MinPasswordLength && password == passwordConfirm
    ensures |password| < MinPasswordLength ==> r == Some(PasswordTooShort)
    ensures |password| >= MinPasswordLength && password != passwordConfirm ==> r == Some(PasswordsDiffer)
  {
    if |password| < MinPasswordLength then Some(PasswordTooShort)
    else if password != passwordConfirm then Some(PasswordsDiffer)
    else None
  }
}
