/** The sign-in form and its forgot-password sub-form. */
module Login {
  import opened Wrappers
  import opened JsRuntime
  import opened AuthCalls

  datatype Field = Email | Password

  const InvalidCredentials := "Invalid email or password."
  const ResetFailed := "Failed to send reset email. Please try again."
  const HomePath := "/"

  class LoginComponent {
    var email: string
    var password: string
    var forgotEmail: string
    var submitting: bool
    var loginError: string
    var resetSubmitting: bool
    var resetSent: bool
    var resetError: string
    var calls: seq<AuthCall>
    var navigations: seq<string>

    constructor()
      ensures email == "" && password == "" && forgotEmail == ""
      ensures !submitting && loginError == ""
      ensures !resetSubmitting && !resetSent && resetError == ""
      ensures calls == [] && navigations == []
    {
      email, password, forgotEmail := "", "", "";
      submitting, loginError := false, "";
      resetSubmitting, resetSent, resetError := false, false, "";
      calls, navigations := [], [];
    }

    /** `onInput`: only the named field changes, and the login error is cleared. */
    method OnInput(field: Field, value: string)
      modifies this
      ensures email == (if field == Email then value else old(email))
      ensures password == (if field == Password then value else old(password))
      ensures loginError == ""
      ensures forgotEmail == old(forgotEmail) && submitting == old(submitting)
      ensures resetSubmitting == old(resetSubmitting) && resetSent == old(resetSent)
      ensures resetError == old(resetError)
      ensures calls == old(calls) && navigations == old(navigations)
    {
      match field {
        case Email => email := value;
        case Password => password := value;
      }
      loginError := "";
    }

    /** `onForgotEmailInput`: only the reset e-mail changes. */
    method OnForgotEmailInput(value: string)
      modifies this`forgotEmail
      ensures forgotEmail == value
    {
      forgotEmail := value;
    }

    /**
     * `onSubmit` up to its await: no client-side check; `submitting` is
     * raised and `login` is called once with the current fields.
     */
    method OnSubmit()
      modifies this`submitting, this`calls
      ensures submitting
      ensures calls == old(calls) + [LoginCall(email, password)]
    {
      submitting := true;
      calls := calls + [LoginCall(email, password)];
    }

    /**
     * The rest of `onSubmit`: on success navigate home; on any failure show
     * the one fixed message, whatever the error. `submitting` is cleared.
     */
    method SubmitSettled(outcome: Outcome<ThrownValue>)
      requires submitting
      modifies this`submitting, this`loginError, this`navigations
      ensures !submitting
      ensures outcome.Pass? ==> navigations == old(navigations) + [HomePath] && loginError == old(loginError)
      ensures outcome.Fail? ==> navigations == old(navigations) && loginError == InvalidCredentials
    {
      match outcome {
        case Pass => navigations := navigations + [HomePath];
        case Fail(_) => loginError := InvalidCredentials;
      }
      submitting := false;
    }

    /**
     * `onForgotSubmit` up to its await: `resetSubmitting` is raised, the reset
     * error cleared, and a reset is requested once for the entered e-mail.
     */
    method OnForgotSubmit()
      modifies this`resetSubmitting, this`resetError, this`calls
      ensures resetSubmitting && resetError == ""
      ensures calls == old(calls) + [RequestPasswordResetCall(forgotEmail)]
    {
      resetSubmitting := true;
      resetError := "";
      calls := calls + [RequestPasswordResetCall(forgotEmail)];
    }

    /**
     * The rest of `onForgotSubmit`: success sets `resetSent`, failure sets the
     * reset error, and `resetSubmitting` is cleared. `resetSent` is never
     * lowered: no method of the component assigns it false.
     */
    method ForgotSubmitSettled(outcome: Outcome<ThrownValue>)
      requires resetSubmitting
      modifies this`resetSubmitting, this`resetSent, this`resetError
      ensures !resetSubmitting
      ensures old(resetSent) ==> resetSent
      ensures outcome.Pass? ==> resetSent && resetError == old(resetError)
      ensures outcome.Fail? ==> resetSent == old(resetSent) && resetError == ResetFailed
    {
      match outcome {
        case Pass => resetSent := true;
        case Fail(_) => resetError := ResetFailed;
      }
      resetSubmitting := false;
    }
  }
}
