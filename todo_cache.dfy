/**
 * The todo service: a cache of the owner's todo records, kept up to date by a
 * one-shot fetch and by realtime events, plus the requests it sends to the
 * `todos` collection. Backend calls are appended to `requests`; what an
 * awaited call settles with is a parameter of the method that runs after it.
 */
module TodoCache {
  import opened Wrappers
  import opened JsRuntime
  import opened Todos

  const FirstPage: nat := 1
  const PageSize: nat := 200
  const NewestFirst := "-created"
  const AllRecords := "*"
  const MaxTitleLength := 200
  const TitleRequired := "Title is required"
  const TitleTooLong := "Title cannot exceed 200 characters"

  /** A call the service makes on the backend client. */
  datatype Request =
    | GetList(page: nat, perPage: nat, sort: string)
    | Subscribe(topic: string)
    | CreateRecord(title: string, completed: bool, owner: string)
    | UpdateCompleted(id: string, completed: bool)
    | DeleteRecord(id: string)
    | Unsubscribe(handle: nat)

  /** How the list fetch settles. */
  datatype FetchResult = Fetched(items: seq<Todo>) | FetchFailed(error: ThrownValue)

  /** Why `create` rejects. */
  datatype CreateError =
    | Validation(message: string)   // thrown before any request
    | MissingAuthRecord             // `authStore.record` is null: reading `.id` throws
    | Backend(error: ThrownValue)   // the create request rejected

  /** The blank check comes first: a whitespace-only title of any length is "required". */
  function CheckTitle(title: string): (r: Result<string, string>)
    ensures r.Ok? <==> Trim(title) != [] && |Trim(title)| <= MaxTitleLength
    ensures r.Ok? ==> r.value == Trim(title)
    ensures (forall i :: 0 <= i < |title| ==> IsWhitespace(title[i])) ==> r == Err(TitleRequired)
    ensures (exists i :: 0 <= i < |title| && !IsWhitespace(title[i])) && |Trim(title)| > MaxTitleLength
      ==> r == Err(TitleTooLong)
  {
    var trimmed := Trim(title);
    if trimmed == [] then Err(TitleRequired)
    else if |trimmed| > MaxTitleLength then Err(TitleTooLong)
    else Ok(trimmed)
  }

  class TodoService {
    /** The stored list, in arrival order (`_todos`). */
    var todos: seq<Todo>
    var loading: bool
    /** The handle the realtime subscription resolved with, once it has. */
    var unsubscribe: Option<nat>
    /** Every call made on the backend client, oldest first. */
    var requests: seq<Request>

    constructor()
      ensures todos == [] && !loading && unsubscribe == None && requests == []
    {
      todos := [];
      loading := false;
      unsubscribe := None;
      requests := [];
    }

    /**
     * The `todos` view: newest first and a permutation of the stored list.
     * It is a function of the state, so reading it changes nothing.
     */
    function View(): (v: seq<Todo>)
      reads this
      ensures SortedByCreatedDesc(v)
      ensures multiset(v) == multiset(todos)
    {
      SortByCreatedDesc(todos)
    }

    /** `load()` up to its await: `loading` is raised and the first page is requested. */
    method Load()
      modifies this
      ensures loading
      ensures requests == old(requests) + [GetList(FirstPage, PageSize, NewestFirst)]
      ensures todos == old(todos) && unsubscribe == old(unsubscribe)
    {
      loading := true;
      requests := requests + [GetList(FirstPage, PageSize, NewestFirst)];
    }

    /**
     * The rest of `load()`: on success the list is replaced wholesale and the
     * realtime subscription is requested; a failure propagates and leaves the
     * list alone. `loading` is cleared either way.
     */
    method LoadSettled(result: FetchResult) returns (r: Outcome<ThrownValue>)
      modifies this
      ensures !loading
      ensures unsubscribe == old(unsubscribe)
      ensures result.Fetched? ==>
        r == Pass && todos == result.items && requests == old(requests) + [Subscribe(AllRecords)]
      ensures result.FetchFailed? ==>
        r == Fail(result.error) && todos == old(todos) && requests == old(requests)
    {
      match result {
        case Fetched(items) =>
          todos := items;
          requests := requests + [Subscribe(AllRecords)];
          r := Pass;
        case FetchFailed(e) =>
          r := Fail(e);
      }
      loading := false;
    }

    /**
     * The subscription request settles: its handle is kept; a failure is
     * swallowed and the previous handle, if any, stays.
     */
    method SubscribeSettled(handle: Option<nat>)
      modifies this`unsubscribe
      ensures unsubscribe == if handle.Some? then handle else old(unsubscribe)
    {
      if handle.Some? {
        unsubscribe := handle;
      }
    }

    /** The subscription callback: one realtime event applied to the stored list. */
    method OnRealtimeEvent(event: RealtimeEvent)
      modifies this`todos
      ensures todos == ApplyEvent(old(todos), event)
    {
      todos := ApplyEvent(todos, event);
    }

    /**
     * `create(title)`: a blank or over-long title rejects with no request;
     * otherwise exactly one create request with the trimmed title, not
     * completed, owned by the signed-in user. The list itself is left to the
     * realtime `create` event.
     */
    method Create(title: string, authRecord: Option<string>, response: Outcome<ThrownValue>)
      returns (r: Outcome<CreateError>)
      modifies this`requests
      ensures CheckTitle(title).Err? ==>
        r == Fail(Validation(CheckTitle(title).error)) && requests == old(requests)
      ensures CheckTitle(title).Ok? && authRecord.None? ==>
        r == Fail(MissingAuthRecord) && requests == old(requests)
      ensures CheckTitle(title).Ok? && authRecord.Some? ==>
        && requests == old(requests) + [CreateRecord(Trim(title), false, authRecord.value)]
        && r == (if response.Pass? then Pass else Fail(Backend(response.error)))
    {
      var checked := CheckTitle(title);
      if checked.Err? {
        return Fail(Validation(checked.error));
      }
      if authRecord.None? {
        return Fail(MissingAuthRecord);
      }
      requests := requests + [CreateRecord(checked.value, false, authRecord.value)];
      r := if response.Pass? then Pass else Fail(Backend(response.error));
    }

    /** `toggleTodo(id, completed)`: one update request; its rejection propagates. */
    method ToggleTodo(id: string, completed: bool, response: Outcome<ThrownValue>)
      returns (r: Outcome<ThrownValue>)
      modifies this`requests
      ensures requests == old(requests) + [UpdateCompleted(id, completed)]
      ensures r == response
    {
      requests := requests + [UpdateCompleted(id, completed)];
      r := response;
    }

    /** `deleteTodo(id)`: one delete request; its rejection propagates. */
    method DeleteTodo(id: string, response: Outcome<ThrownValue>) returns (r: Outcome<ThrownValue>)
      modifies this`requests
      ensures requests == old(requests) + [DeleteRecord(id)]
      ensures r == response
    {
      requests := requests + [DeleteRecord(id)];
      r := response;
    }

    /** `ngOnDestroy`: calls the stored unsubscribe handle when there is one. */
    method OnDestroy()
      modifies this`requests
      ensures requests == old(requests) + (if unsubscribe.Some? then [Unsubscribe(unsubscribe.value)] else [])
    {
      if unsubscribe.Some? {
        requests := requests + [Unsubscribe(unsubscribe.value)];
      }
    }
  }
}
