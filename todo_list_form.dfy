/**
 * The todo list component's form: the title input, its validation message,
 * and the hand-off of a valid title to the todo service.
 */
module TodoListForm {
  import opened Wrappers
  import opened JsRuntime
  import opened TodoCache

  /** The literal as the source file stores it: a dash whose UTF-8 bytes were decoded twice. */
  const RequiredMessage := "Title is required \U{00E2}\U{20AC}\U{201D} cannot be empty."
  const TooLongMessage := "Title cannot exceed 200 characters (max 200)."

  /**
   * The form's own title check on the raw input: `None` when the trimmed
   * title is accepted, otherwise the message to show. Blank is checked first.
   */
  function TitleProblem(titleValue: string): (r: Option<string>)
    ensures r.None? <==> Trim(titleValue) != [] && |Trim(titleValue)| <= 200
    ensures (forall i :: 0 <= i < |titleValue| ==> IsWhitespace(titleValue[i])) ==> r == Some(RequiredMessage)
    ensures Trim(titleValue) != [] && |Trim(titleValue)| > 200 ==> r == Some(TooLongMessage)
  {
    var title := Trim(titleValue);
    if title == [] then Some(RequiredMessage)
    else if |title| > 200 then Some(TooLongMessage)
    else None
  }

  /** The form and the service accept exactly the same raw titles. */
  lemma FormAndServiceAgree(titleValue: string)
    ensures TitleProblem(titleValue).None? <==> CheckTitle(titleValue).Ok?
  {
  }

  /**
   * What the form passes on (the trimmed title) passes the service's own
   * check unchanged, so the service never rejects it as invalid.
   */
  lemma FormOutputPassesService(titleValue: string)
    requires TitleProblem(titleValue).None?
    ensures CheckTitle(Trim(titleValue)) == Ok(Trim(titleValue))
  {
    TrimIdempotent(titleValue);
  }

  class TodoListComponent {
    const todoService: TodoService
    var titleValue: string
    var validationError: string

    constructor(service: TodoService)
      ensures todoService == service && titleValue == "" && validationError == ""
    {
      todoService := service;
      titleValue := "";
      validationError := "";
    }

    /** `onTitleInput`: the input becomes the title and the message is cleared. */
    method OnTitleInput(value: string)
      modifies this
      ensures titleValue == value && validationError == ""
    {
      titleValue := value;
      validationError := "";
    }

    /**
     * `onSubmit` up to its await: an invalid title only sets the message and
     * `None` is returned. A valid one clears the message and calls `create`
     * once with the trimmed title; `Some` carries how that call settles, which
     * is never a validation rejection. The title is left as it is: it stays
     * editable, and a second submit sends a second request.
     */
    method OnSubmit(authRecord: Option<string>, response: Outcome<ThrownValue>)
      returns (created: Option<Outcome<CreateError>>)
      modifies this`validationError, todoService`requests
      ensures titleValue == old(titleValue)
      ensures TitleProblem(titleValue).Some? ==>
        && validationError == TitleProblem(titleValue).value
        && todoService.requests == old(todoService.requests)
        && created == None
      ensures TitleProblem(titleValue).None? ==>
        && validationError == ""
        && todoService.requests == old(todoService.requests) +
             (if authRecord.Some? then [CreateRecord(Trim(titleValue), false, authRecord.value)] else [])
        && created == Some(
             if authRecord.None? then Fail(MissingAuthRecord)
             else if response.Pass? then Pass
             else Fail(Backend(response.error)))
    {
      var problem := TitleProblem(titleValue);
      if problem.Some? {
        validationError := problem.value;
        return None;
      }
      var title := Trim(titleValue);
      validationError := "";
      FormOutputPassesService(titleValue);
      TrimIdempotent(titleValue);
      var r := todoService.Create(title, authRecord, response);
      created := Some(r);
    }

    /**
     * The rest of `onSubmit`, once `create` settles: on success the input is
     * emptied, even if it was edited meanwhile; a rejection propagates and
     * leaves the input as it is.
     */
    method CreateSettled(outcome: Outcome<CreateError>) returns (r: Outcome<CreateError>)
      modifies this`titleValue
      ensures r == outcome
      ensures titleValue == if outcome.Pass? then "" else old(titleValue)
    {
      if outcome.Pass? {
        titleValue := "";
      }
      r := outcome;
    }
  }
}
