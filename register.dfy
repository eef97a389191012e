/** The registration form: three fields, a password check and one register call. */
module Register {
  import opened Wrappers
  import opened JsRuntime
  import opened AuthCalls

  datatype Field = Email | Password | PasswordConfirm

  const DefaultFailure := "Registration failed. Please try again."
  const HomePath := "/"

  /**
   * `extractMessage`: the error's `message` (as a string) when the error is
   * an object that has one, the default text otherwise.
   */
  function ExtractMessage(err: ThrownValue): (r: string)
    ensures err.ObjectValue? && err.message.Some? ==> r == err.message.value
    ensures !(err.ObjectValue? && err.message.Some?) ==> r == DefaultFailure
  {
    if err.ObjectValue? && err.message.Some? then err.message.value else DefaultFailure
  }

  /**
   * The shown error is empty, and so hidden, only for an error object whose
   * message is the empty string.
   */
  lemma ExtractMessageEmpty(err: ThrownValue)
    ensures ExtractMessage(err) == "" <==> err == ObjectValue(Some(""))
  {
  }

  class RegisterComponent {
    var email: string
    var password: string
    var passwordConfirm: string
    var submitting: bool
    var error: string
    /** Calls made on the auth service, oldest first. */
    var calls: seq<AuthCall>
    /** Router navigations requested, oldest first. */
    var navigations: seq<string>

    constructor()
      ensures email == "" && password == "" && passwordConfirm == ""
      ensures !submitting && error == "" && calls == [] && navigations == []
    {
      email, password, passwordConfirm := "", "", "";
      submitting, error := false, "";
      calls, navigations := [], [];
    }

    /** `onInput`: only the named field changes, and the error is cleared. */
    method OnInput(field: Field, value: string)
      modifies this
      ensures email == (if field == Email then value else old(email))
      ensures password == (if field == Password then value else old(password))
      ensures passwordConfirm == (if field == PasswordConfirm then value else old(passwordConfirm))
      ensures error == ""
      ensures submitting == old(submitting) && calls == old(calls) && navigations == old(navigations)
    {
      match field {
        case Email => email := value;
        case Password => password := value;
        case PasswordConfirm => passwordConfirm := value;
      }
      error := "";
    }

    /**
     * `onSubmit` up to its await: a rejected password only sets the error;
     * otherwise `submitting` is raised and `register` is called once.
     */
    method OnSubmit()
      modifies this
      ensures email == old(email) && password == old(password) && passwordConfirm == old(passwordConfirm)
      ensures navigations == old(navigations)
      ensures PasswordProblem(password, passwordConfirm).Some? ==>
        && error == PasswordProblem(password, passwordConfirm).value
        && submitting == old(submitting) && calls == old(calls)
      ensures PasswordProblem(password, passwordConfirm).None? ==>
        && submitting && error == old(error)
        && calls == old(calls) + [RegisterCall(email, password, passwordConfirm)]
    {
      var problem := PasswordProblem(password, passwordConfirm);
      if problem.Some? {
        error := problem.value;
        return;
      }
      submitting := true;
      calls := calls + [RegisterCall(email, password, passwordConfirm)];
    }

    /**
     * The rest of `onSubmit`, run once the register call is in flight: on
     * success navigate home, on failure show the extracted message; either
     * way `submitting` is cleared.
     */
    method SubmitSettled(outcome: Outcome<ThrownValue>)
      requires submitting
      modifies this
      ensures !submitting
      ensures email == old(email) && password == old(password) && passwordConfirm == old(passwordConfirm)
      ensures calls == old(calls)
      ensures outcome.Pass? ==> navigations == old(navigations) + [HomePath] && error == old(error)
      ensures outcome.Fail? ==> navigations == old(navigations) && error == ExtractMessage(outcome.error)
    {
      match outcome {
        case Pass => navigations := navigations + [HomePath];
        case Fail(e) => error := ExtractMessage(e);
      }
      submitting := false;
    }
  }
}
