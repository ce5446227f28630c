/** The task list store (store/slices/taskSlice.ts): tasks extracted from notes, with a filter and a search query. */
module TaskSlice {
  import opened Js
  import Lists

  datatype TaskStatus = InProgress | Deleted | Done

  /** The wire name of a status. */
  function StatusName(s: TaskStatus): string {
    match s
    case InProgress => "IN_PROGRESS"
    case Deleted => "DELETED"
    case Done => "DONE"
  }

  /** Reading a wire name back. */
  function StatusOfName(name: string): Option<TaskStatus> {
    if name == "IN_PROGRESS" then Some(InProgress)
    else if name == "DELETED" then Some(Deleted)
    else if name == "DONE" then Some(Done)
    else None
  }

  /** Every status reads back from its wire name (so distinct statuses have distinct names), and no name is empty. */
  lemma StatusNameRoundTrip(s: TaskStatus)
    ensures StatusOfName(StatusName(s)) == Some(s)
    ensures StatusName(s) != ""
  {
  }

  datatype Task = Task(id: string, task: string, status: TaskStatus, createdAt: string)

  function IdOf(t: Task): string { t.id }

  /** The `filter` field: every status, or one of them. */
  datatype TaskFilter = All | Only(status: TaskStatus)

  const TASKS_PATH: string := "/api/v1/tasks"
  const FILTER_QUERY: string := "?filter="
  const FETCH_FAILED: string := "Failed to fetch tasks"
  const UPDATE_FAILED: string := "Failed to update task"
  const DELETE_FAILED: string := "Failed to delete task"

  /** The URL fetchTasks requests; `apiUrl` is the configured server address. */
  function FetchUrl(apiUrl: string, filter: Option<TaskStatus>): string {
    var baseUrl := apiUrl + TASKS_PATH;
    if filter.Some? then baseUrl + FILTER_QUERY + StatusName(filter.value) else baseUrl
  }

  /**
   * The request URL always starts with the task endpoint; it carries a `?filter=` query exactly
   * when a filter is given, and the filter reads back from it.
   */
  lemma FetchUrlQuery(apiUrl: string, filter: Option<TaskStatus>)
    ensures var url := FetchUrl(apiUrl, filter); var base := apiUrl + TASKS_PATH;
      && base <= url
      && (|url| > |base| <==> filter.Some?)
      && (filter.Some? ==>
            url[|base|..|base| + |FILTER_QUERY|] == FILTER_QUERY
            && StatusOfName(url[|base| + |FILTER_QUERY|..]) == filter)
  {
    var url := FetchUrl(apiUrl, filter);
    var base := apiUrl + TASKS_PATH;
    if filter.Some? {
      StatusNameRoundTrip(filter.value);
      assert url == base + FILTER_QUERY + StatusName(filter.value);
      assert url[|base| + |FILTER_QUERY|..] == StatusName(filter.value);
      assert url[|base|..|base| + |FILTER_QUERY|] == FILTER_QUERY;
    }
  }

  /** The list after an update succeeds: the first task with the returned task's id is replaced by it. */
  function Replaced(tasks: seq<Task>, payload: Task): seq<Task> {
    match Lists.FirstIndex(tasks, IdOf, payload.id)
    case None => tasks
    case Some(i) => tasks[i := payload]
  }

  /** The list after a delete succeeds (`tasks.filter(task => task.id !== id)`). */
  function WithoutId(tasks: seq<Task>, id: string): seq<Task> {
    if tasks == [] then []
    else if tasks[0].id != id then [tasks[0]] + WithoutId(tasks[1..], id)
    else WithoutId(tasks[1..], id)
  }

  /** How many tasks carry the id. */
  function CountId(tasks: seq<Task>, id: string): nat {
    if tasks == [] then 0 else (if tasks[0].id == id then 1 else 0) + CountId(tasks[1..], id)
  }

  class TaskStore {
    var tasks: seq<Task>
    var loading: bool
    var error: Option<string>
    var filter: TaskFilter
    var searchQuery: string

    constructor ()
      ensures tasks == [] && !loading && error == None && filter == All && searchQuery == ""
    {
      tasks, loading, error, filter, searchQuery := [], false, None, All, "";
    }

    method SetFilter(f: TaskFilter)
      modifies this
      ensures filter == f
      ensures tasks == old(tasks) && loading == old(loading) && error == old(error) && searchQuery == old(searchQuery)
    {
      filter := f;
    }

    method SetSearchQuery(q: string)
      modifies this
      ensures searchQuery == q
      ensures tasks == old(tasks) && loading == old(loading) && error == old(error) && filter == old(filter)
    {
      searchQuery := q;
    }

    method ClearError()
      modifies this
      ensures error == None
      ensures tasks == old(tasks) && loading == old(loading) && filter == old(filter) && searchQuery == old(searchQuery)
    {
      error := None;
    }

    method FetchPending()
      modifies this
      ensures loading && error == None
      ensures tasks == old(tasks) && filter == old(filter) && searchQuery == old(searchQuery)
    {
      loading := true;
      error := None;
    }

    method FetchFulfilled(payload: seq<Task>)
      modifies this
      ensures !loading && tasks == payload
      ensures error == old(error) && filter == old(filter) && searchQuery == old(searchQuery)
    {
      loading := false;
      tasks := payload;
    }

    method FetchRejected(message: Field)
      modifies this
      ensures !loading && error == Some(OrDefault(message, FETCH_FAILED))
      ensures tasks == old(tasks) && filter == old(filter) && searchQuery == old(searchQuery)
    {
      loading := false;
      error := Some(OrDefault(message, FETCH_FAILED));
    }

    method UpdateFulfilled(payload: Task)
      modifies this
      ensures tasks == Replaced(old(tasks), payload)
      ensures loading == old(loading) && error == old(error)
      ensures filter == old(filter) && searchQuery == old(searchQuery)
    {
      var index := Lists.FindIndex(tasks, IdOf, payload.id);
      if index != -1 {
        tasks := tasks[index := payload];
      }
    }

    /** A failed update records the error only; `loading` and the list stay as they were. */
    method UpdateRejected(message: Field)
      modifies this
      ensures error == Some(OrDefault(message, UPDATE_FAILED))
      ensures tasks == old(tasks) && loading == old(loading)
      ensures filter == old(filter) && searchQuery == old(searchQuery)
    {
      error := Some(OrDefault(message, UPDATE_FAILED));
    }

    method DeleteFulfilled(id: string)
      modifies this
      ensures tasks == WithoutId(old(tasks), id)
      ensures loading == old(loading) && error == old(error)
      ensures filter == old(filter) && searchQuery == old(searchQuery)
    {
      tasks := WithoutId(tasks, id);
    }

    /** A failed delete records the error only. */
    method DeleteRejected(message: Field)
      modifies this
      ensures error == Some(OrDefault(message, DELETE_FAILED))
      ensures tasks == old(tasks) && loading == old(loading)
      ensures filter == old(filter) && searchQuery == old(searchQuery)
    {
      error := Some(OrDefault(message, DELETE_FAILED));
    }
  }

  // ---------------------------------------------------------------------------------------
  // Properties of the list operations

  /** Position `i` holds the first task with the id. */
  predicate FirstWithId(tasks: seq<Task>, id: string, i: int) {
    0 <= i < |tasks| && tasks[i].id == id && forall j :: 0 <= j < i ==> tasks[j].id != id
  }

  /**
   * An update replaces the first task with the payload's id and nothing else; the length is
   * kept, and without such a task the list is unchanged.
   */
  lemma ReplacedFirstOnly(tasks: seq<Task>, payload: Task)
    ensures var r := Replaced(tasks, payload);
      && |r| == |tasks|
      && ((forall j :: 0 <= j < |tasks| ==> tasks[j].id != payload.id) ==> r == tasks)
      && (forall i :: FirstWithId(tasks, payload.id, i) ==> r == tasks[i := payload])
  {
    forall i | FirstWithId(tasks, payload.id, i)
      ensures Replaced(tasks, payload) == tasks[i := payload]
    {
      assert forall j :: 0 <= j < i ==> IdOf(tasks[j]) != payload.id;
      Lists.FirstIndexIs(tasks, IdOf, payload.id, i);
    }
    if forall j :: 0 <= j < |tasks| ==> tasks[j].id != payload.id {
      assert forall j :: 0 <= j < |tasks| ==> IdOf(tasks[j]) != payload.id;
    }
  }

  /** A task is left after a delete exactly when it was there and has another id. */
  lemma {:induction false} WithoutIdMembers(tasks: seq<Task>, id: string, t: Task)
    ensures t in WithoutId(tasks, id) <==> t in tasks && t.id != id
  {
    if tasks != [] {
      WithoutIdMembers(tasks[1..], id, t);
      assert tasks == [tasks[0]] + tasks[1..];
    }
  }

  /** The delete removes exactly the tasks with the id: the length drops by their number. */
  lemma {:induction false} WithoutIdLength(tasks: seq<Task>, id: string)
    ensures |WithoutId(tasks, id)| == |tasks| - CountId(tasks, id)
  {
    if tasks != [] {
      WithoutIdLength(tasks[1..], id);
    }
  }

  /** Filtering distributes over concatenation, so the kept tasks keep their relative order. */
  lemma {:induction false} WithoutIdAppend(a: seq<Task>, b: seq<Task>, id: string)
    ensures WithoutId(a + b, id) == WithoutId(a, id) + WithoutId(b, id)
  {
    if a == [] {
      assert a + b == b;
    } else {
      assert (a + b)[1..] == a[1..] + b;
      WithoutIdAppend(a[1..], b, id);
    }
  }

  /** Deleting twice with the same id is the same as deleting once. */
  lemma {:induction false} WithoutIdIdempotent(tasks: seq<Task>, id: string)
    ensures WithoutId(WithoutId(tasks, id), id) == WithoutId(tasks, id)
  {
    if tasks != [] {
      WithoutIdIdempotent(tasks[1..], id);
    }
  }

  /** Deleting an id no task has leaves the list as it is. */
  lemma {:induction false} WithoutAbsentId(tasks: seq<Task>, id: string)
    requires forall j :: 0 <= j < |tasks| ==> tasks[j].id != id
    ensures WithoutId(tasks, id) == tasks
  {
    if tasks != [] {
      WithoutAbsentId(tasks[1..], id);
    }
  }
}
