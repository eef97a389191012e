/**
 * The pure side of the todo cache: the todo record, the list transforms that
 * realtime events apply, and the ordered view (newest first).
 */
module Todos {

  /** A todo record as the backend delivers it; `created` is a timestamp. */
  datatype Todo = Todo(id: string, title: string, completed: bool, created: int, updated: int)

  /** A realtime message: the action name and the full record it concerns. */
  datatype RealtimeEvent = RealtimeEvent(action: string, record: Todo)

  /** How many entries of `todos` carry the id `id`. */
  function CountId(todos: seq<Todo>, id: string): (n: nat)
    ensures n <= |todos|
    ensures n == 0 <==> forall i :: 0 <= i < |todos| ==> todos[i].id != id
  {
    if todos == [] then 0
    else (if todos[0].id == id then 1 else 0) + CountId(todos[1..], id)
  }

  lemma {:induction false} CountIdAppend(todos: seq<Todo>, x: Todo, id: string)
    ensures CountId(todos + [x], id) == CountId(todos, id) + (if x.id == id then 1 else 0)
  {
    if todos != [] {
      assert (todos + [x])[1..] == todos[1..] + [x];
      CountIdAppend(todos[1..], x, id);
    }
  }

  // ---------------------------------------------------------------------------
  // The three list transforms of the realtime handler

  /** The `update` transform: every entry with the record's id becomes the record. */
  function ReplaceById(todos: seq<Todo>, rec: Todo): (r: seq<Todo>)
    ensures |r| == |todos|
    ensures forall i :: 0 <= i < |todos| ==>
      r[i] == (if todos[i].id == rec.id then rec else todos[i])
  {
    if todos == [] then []
    else [if todos[0].id == rec.id then rec else todos[0]] + ReplaceById(todos[1..], rec)
  }

  /** The `delete` transform: the entries whose id is not `id`, in their order. */
  function RemoveById(todos: seq<Todo>, id: string): (r: seq<Todo>)
    ensures |r| == |todos| - CountId(todos, id)
    ensures forall i :: 0 <= i < |r| ==> r[i].id != id
  {
    if todos == [] then []
    else (if todos[0].id == id then [] else [todos[0]]) + RemoveById(todos[1..], id)
  }

  /** The `delete` transform keeps every record with another id, as often as it occurred. */
  lemma {:induction false} RemoveByIdKeepsOthers(todos: seq<Todo>, id: string)
    ensures forall t: Todo :: multiset(RemoveById(todos, id))[t] == if t.id == id then 0 else multiset(todos)[t]
  {
    if todos != [] {
      assert todos == [todos[0]] + todos[1..];
      RemoveByIdKeepsOthers(todos[1..], id);
    }
  }

  /**
   * The realtime subscription callback: one event applied to the list. It
   * adds at most one entry, and every entry afterwards is an entry from
   * before or the event's record.
   */
  function ApplyEvent(todos: seq<Todo>, event: RealtimeEvent): (r: seq<Todo>)
    ensures |r| <= |todos| + 1
    ensures forall i :: 0 <= i < |r| ==> r[i] in todos || r[i] == event.record
  {
    if event.action == "create" then todos + [event.record]
    else if event.action == "update" then ReplaceById(todos, event.record)
    else if event.action == "delete" then
      RemoveByIdKeepsOthers(todos, event.record.id);
      RemoveById(todos, event.record.id)
    else todos
  }

  // ---------------------------------------------------------------------------
  // Properties of the realtime handler

  /**
   * A `create` event appends the record at the end, and the number of entries
   * with its id grows by one: an id already present is duplicated, not ignored.
   */
  lemma CreateEventAppends(todos: seq<Todo>, rec: Todo)
    ensures ApplyEvent(todos, RealtimeEvent("create", rec)) == todos + [rec]
    ensures |ApplyEvent(todos, RealtimeEvent("create", rec))| == |todos| + 1
    ensures CountId(ApplyEvent(todos, RealtimeEvent("create", rec)), rec.id)
         == CountId(todos, rec.id) + 1
  {
    CountIdAppend(todos, rec, rec.id);
  }

  /** With the record's id already present, a `create` event leaves two entries with that id. */
  lemma CreateEventDuplicates(todos: seq<Todo>, rec: Todo)
    requires CountId(todos, rec.id) > 0
    ensures CountId(ApplyEvent(todos, RealtimeEvent("create", rec)), rec.id) >= 2
  {
    CreateEventAppends(todos, rec);
  }

  /**
   * An `update` event keeps the length, replaces exactly the entries whose id
   * is the record's id and keeps every other entry where it was.
   */
  lemma UpdateEventReplaces(todos: seq<Todo>, rec: Todo)
    ensures |ApplyEvent(todos, RealtimeEvent("update", rec))| == |todos|
    ensures forall i :: 0 <= i < |todos| && todos[i].id == rec.id ==>
      ApplyEvent(todos, RealtimeEvent("update", rec))[i] == rec
    ensures forall i :: 0 <= i < |todos| && todos[i].id != rec.id ==>
      ApplyEvent(todos, RealtimeEvent("update", rec))[i] == todos[i]
  {
  }

  /** An `update` event for an id that is not in the list changes nothing. */
  lemma UpdateEventAbsentId(todos: seq<Todo>, rec: Todo)
    requires CountId(todos, rec.id) == 0
    ensures ApplyEvent(todos, RealtimeEvent("update", rec)) == todos
  {
  }

  /** An `update` event neither adds nor removes entries with the record's id. */
  lemma {:induction false} UpdateEventKeepsIdCount(todos: seq<Todo>, rec: Todo)
    ensures CountId(ReplaceById(todos, rec), rec.id) == CountId(todos, rec.id)
  {
    if todos != [] {
      UpdateEventKeepsIdCount(todos[1..], rec);
      assert ReplaceById(todos, rec)[1..] == ReplaceById(todos[1..], rec);
    }
  }

  /** Filtering distributes over concatenation: `delete` keeps the relative order of the rest. */
  lemma {:induction false} RemoveByIdConcat(a: seq<Todo>, b: seq<Todo>, id: string)
    ensures RemoveById(a + b, id) == RemoveById(a, id) + RemoveById(b, id)
  {
    if a == [] {
      assert a + b == b;
    } else {
      var head := if a[0].id == id then [] else [a[0]];
      calc {
        RemoveById(a + b, id);
        { assert (a + b)[0] == a[0]; assert (a + b)[1..] == a[1..] + b; }
        head + RemoveById(a[1..] + b, id);
        { RemoveByIdConcat(a[1..], b, id); }
        head + (RemoveById(a[1..], id) + RemoveById(b, id));
        (head + RemoveById(a[1..], id)) + RemoveById(b, id);
      }
    }
  }

  /** Removing an id that no entry carries changes nothing. */
  lemma {:induction false} RemoveByIdAbsent(todos: seq<Todo>, id: string)
    requires CountId(todos, id) == 0
    ensures RemoveById(todos, id) == todos
  {
    if todos != [] {
      RemoveByIdAbsent(todos[1..], id);
      assert [todos[0]] + todos[1..] == todos;
    }
  }

  /**
   * A `delete` event removes exactly the entries with the record's id, keeps
   * every other entry with its multiplicity, and a repeated `delete` changes
   * nothing more.
   */
  lemma DeleteEventRemoves(todos: seq<Todo>, rec: Todo)
    ensures CountId(ApplyEvent(todos, RealtimeEvent("delete", rec)), rec.id) == 0
    ensures |ApplyEvent(todos, RealtimeEvent("delete", rec))| == |todos| - CountId(todos, rec.id)
    ensures forall t: Todo :: t.id != rec.id ==>
      multiset(ApplyEvent(todos, RealtimeEvent("delete", rec)))[t] == multiset(todos)[t]
    ensures var once := ApplyEvent(todos, RealtimeEvent("delete", rec));
      ApplyEvent(once, RealtimeEvent("delete", rec)) == once
  {
    RemoveByIdKeepsOthers(todos, rec.id);
    RemoveByIdAbsent(RemoveById(todos, rec.id), rec.id);
  }

  /** An event whose action is none of create, update and delete is ignored. */
  lemma UnknownEventIgnored(todos: seq<Todo>, event: RealtimeEvent)
    requires event.action != "create" && event.action != "update" && event.action != "delete"
    ensures ApplyEvent(todos, event) == todos
  {
  }

  // ---------------------------------------------------------------------------
  // The ordered view

  /** Newest first: `created` never increases along the sequence. */
  predicate SortedByCreatedDesc(s: seq<Todo>) {
    forall i, j :: 0 <= i < j < |s| ==> s[i].created >= s[j].created
  }

  /** Inserts `x` before the first entry that is not newer than it. */
  function InsertByCreated(x: Todo, ys: seq<Todo>): (r: seq<Todo>)
    requires SortedByCreatedDesc(ys)
    ensures SortedByCreatedDesc(r)
    ensures multiset(r) == multiset(ys) + multiset{x}
    ensures |r| > 0 && (r[0] == x || (ys != [] && r[0] == ys[0]))
  {
    if ys == [] || x.created >= ys[0].created then [x] + ys
    else
      assert ys == [ys[0]] + ys[1..];
      [ys[0]] + InsertByCreated(x, ys[1..])
  }

  /**
   * The `todos` view: a stable sort by `created`, newest first (a stable
   * sort with the comparator `b.created - a.created`). The result is ordered
   * and is a permutation of the stored list.
   */
  function SortByCreatedDesc(s: seq<Todo>): (r: seq<Todo>)
    ensures SortedByCreatedDesc(r)
    ensures multiset(r) == multiset(s)
  {
    if s == [] then []
    else
      assert s == [s[0]] + s[1..];
      InsertByCreated(s[0], SortByCreatedDesc(s[1..]))
  }

  /** The entries with creation time `k`, in their order. */
  function WithCreated(s: seq<Todo>, k: int): seq<Todo> {
    if s == [] then []
    else (if s[0].created == k then [s[0]] else []) + WithCreated(s[1..], k)
  }

  lemma {:induction false} InsertByCreatedStable(x: Todo, ys: seq<Todo>, k: int)
    requires SortedByCreatedDesc(ys)
    ensures WithCreated(InsertByCreated(x, ys), k)
         == (if x.created == k then [x] else []) + WithCreated(ys, k)
  {
    var here := if x.created == k then [x] else [];
    if ys == [] || x.created >= ys[0].created {
      assert ([x] + ys)[0] == x && ([x] + ys)[1..] == ys;
    } else {
      var first := if ys[0].created == k then [ys[0]] else [];
      var rest := InsertByCreated(x, ys[1..]);
      assert ([ys[0]] + rest)[0] == ys[0] && ([ys[0]] + rest)[1..] == rest;
      calc {
        WithCreated(InsertByCreated(x, ys), k);
        first + WithCreated(rest, k);
        { InsertByCreatedStable(x, ys[1..], k); }
        first + (here + WithCreated(ys[1..], k));
        { assert first == [] || here == []; }
        here + (first + WithCreated(ys[1..], k));
        here + WithCreated(ys, k);
      }
    }
  }

  /** The sort is stable: entries created at the same time keep their stored order. */
  lemma {:induction false} SortIsStable(s: seq<Todo>, k: int)
    ensures WithCreated(SortByCreatedDesc(s), k) == WithCreated(s, k)
  {
    if s != [] {
      SortIsStable(s[1..], k);
      InsertByCreatedStable(s[0], SortByCreatedDesc(s[1..]), k);
    }
  }

  /** A list that is already newest first (as the fetch returns it) is its own view. */
  lemma {:induction false} SortedIsFixed(s: seq<Todo>)
    requires SortedByCreatedDesc(s)
    ensures SortByCreatedDesc(s) == s
  {
    if s != [] {
      SortedIsFixed(s[1..]);
      assert [s[0]] + s[1..] == s;
    }
  }
}
