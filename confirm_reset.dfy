/**
 * The set-new-password form reached from a reset link: a password check,
 * one confirm call with the link's token, and the "token expired" state.
 */
module ConfirmReset {
  import opened Wrappers
  import opened JsRuntime
  import opened AuthCalls

  datatype Field = Password | PasswordConfirm

  const LinkExpired := "Reset link has expired or is invalid. Please request a new one."
  const LoginPath := "/auth/login"

  class ConfirmResetComponent {
    /** The reset token, bound from the route. */
    var token: string
    var password: string
    var passwordConfirm: string
    var submitting: bool
    var error: string
    var tokenExpired: bool
    var calls: seq<AuthCall>
    var navigations: seq<string>

    /** The "expired" state is always shown with a message. */
    predicate Valid()
      reads this
    {
      tokenExpired ==> error != ""
    }

    constructor(token: string)
      ensures Valid()
      ensures this.token == token && password == "" && passwordConfirm == ""
      ensures !submitting && error == "" && !tokenExpired && calls == [] && navigations == []
    {
      this.token := token;
      password, passwordConfirm := "", "";
      submitting, error, tokenExpired := false, "", false;
      calls, navigations := [], [];
    }

    /** `onInput`: only the named field changes; the error and the expired flag are cleared. */
    method OnInput(field: Field, value: string)
      requires Valid()
      modifies this
      ensures Valid()
      ensures password == (if field == Password then value else old(password))
      ensures passwordConfirm == (if field == PasswordConfirm then value else old(passwordConfirm))
      ensures error == "" && !tokenExpired
      ensures token == old(token) && submitting == old(submitting)
      ensures calls == old(calls) && navigations == old(navigations)
    {
      match field {
        case Password => password := value;
        case PasswordConfirm => passwordConfirm := value;
      }
      error := "";
      tokenExpired := false;
    }

    /**
     * `onSubmit` up to its await: a rejected password only sets the error;
     * otherwise `submitting` is raised and the reset is confirmed once.
     */
    method OnSubmit()
      requires Valid()
      modifies this
      ensures Valid()
      ensures token == old(token) && password == old(password) && passwordConfirm == old(passwordConfirm)
      ensures tokenExpired == old(tokenExpired) && navigations == old(navigations)
      ensures PasswordProblem(password, passwordConfirm).Some? ==>
        && error == PasswordProblem(password, passwordConfirm).value
        && submitting == old(submitting) && calls == old(calls)
      ensures PasswordProblem(password, passwordConfirm).None? ==>
        && submitting && error == old(error)
        && calls == old(calls) + [ConfirmPasswordResetCall(token, password, passwordConfirm)]
    {
      var problem := PasswordProblem(password, passwordConfirm);
      if problem.Some? {
        error := problem.value;
        return;
      }
      submitting := true;
      calls := calls + [ConfirmPasswordResetCall(token, password, passwordConfirm)];
    }

    /**
     * The rest of `onSubmit`: on success go to the login page; on any failure,
     * whatever the error, mark the token expired with the fixed message.
     * `submitting` is cleared either way.
     */
    method SubmitSettled(outcome: Outcome<ThrownValue>)
      requires Valid() && submitting
      modifies this
      ensures Valid()
      ensures !submitting
      ensures token == old(token) && password == old(password) && passwordConfirm == old(passwordConfirm)
      ensures calls == old(calls)
      ensures outcome.Pass? ==>
        navigations == old(navigations) + [LoginPath] && error == old(error) && tokenExpired == old(tokenExpired)
      ensures outcome.Fail? ==>
        navigations == old(navigations) && tokenExpired && error == LinkExpired
    {
      match outcome {
        case Pass => navigations := navigations + [LoginPath];
        case Fail(_) =>
          tokenExpired := true;
          error := LinkExpired;
      }
      submitting := false;
    }
  }
}
