/** The task store (`TaskService`): a cache of the current user's tasks and a
    loading flag, both published to observers. Every change to the cache is
    applied only after the gateway has answered with success
    ("confirm, then apply"). */
module TaskStore {
  import opened Domain
  import opened Sequences

  // ---------------------------------------------------------------------
  // The list operations the store feeds into `tasksSubject.next(...)`
  // ---------------------------------------------------------------------

  /** `new Date(x)` for a timestamp; the text it was built from is kept. */
  function ParseDate(s: Stamp): Stamp {
    Date(s.text)
  }

  /** The same task, with every non-date field unchanged. */
  predicate SameFields(a: Task, b: Task) {
    a.id == b.id && a.title == b.title && a.description == b.description
    && a.completed == b.completed && a.userId == b.userId
  }

  /** `parseTaskDates`: rebuild both timestamps of every task. */
  function ParseTaskDates(ts: seq<Task>): (r: seq<Task>)
    ensures |r| == |ts|
    ensures forall i :: 0 <= i < |ts| ==> SameFields(r[i], ts[i])
    ensures forall i :: 0 <= i < |ts| ==>
      r[i].createdAt == Date(ts[i].createdAt.text) && r[i].updatedAt == Date(ts[i].updatedAt.text)
  {
    if ts == [] then []
    else
      [ts[0].(createdAt := ParseDate(ts[0].createdAt), updatedAt := ParseDate(ts[0].updatedAt))]
      + ParseTaskDates(ts[1..])
  }

  /** Parsing the dates a second time changes nothing. */
  lemma ParseTaskDatesIdempotent(ts: seq<Task>)
    ensures ParseTaskDates(ParseTaskDates(ts)) == ParseTaskDates(ts)
  {
    var once := ParseTaskDates(ts);
    var twice := ParseTaskDates(once);
    assert forall i :: 0 <= i < |ts| ==> twice[i] == once[i];
  }

  /** `tasks.map(task => task.id === id ? updated : task)`. */
  function ReplaceById(ts: seq<Task>, id: string, updated: Task): (r: seq<Task>)
    ensures |r| == |ts|
  {
    if ts == [] then []
    else [if ts[0].id == id then updated else ts[0]] + ReplaceById(ts[1..], id, updated)
  }

  /** Position by position: an entry with the id is replaced, any other stays. */
  lemma {:induction false} ReplaceByIdAt(ts: seq<Task>, id: string, updated: Task, i: int)
    requires 0 <= i < |ts|
    ensures ReplaceById(ts, id, updated)[i] == if ts[i].id == id then updated else ts[i]
  {
    if i > 0 {
      ReplaceByIdAt(ts[1..], id, updated, i - 1);
    }
  }

  /** With no entry carrying the id, the cache comes back unchanged. */
  lemma {:induction false} ReplaceByIdAbsent(ts: seq<Task>, id: string, updated: Task)
    requires forall t :: t in ts ==> t.id != id
    ensures ReplaceById(ts, id, updated) == ts
  {
    forall i | 0 <= i < |ts| ensures ReplaceById(ts, id, updated)[i] == ts[i] {
      ReplaceByIdAt(ts, id, updated, i);
    }
  }

  /** Keeps every task whose id differs from `id`. */
  function HasOtherId(id: string): Task -> bool {
    (t: Task) => t.id != id
  }

  /** Keeps every task whose id is `id`. */
  function HasId(id: string): Task -> bool {
    (t: Task) => t.id == id
  }

  /** `tasks.filter(task => task.id !== id)`. */
  function RemoveById(ts: seq<Task>, id: string): (r: seq<Task>)
    ensures |r| <= |ts|
  {
    Filter(ts, HasOtherId(id))
  }

  /** Removal keeps exactly the entries with another id, in their order, and
      shortens the cache by the number of entries that carried the id. */
  lemma RemoveByIdSpec(ts: seq<Task>, id: string)
    ensures forall t :: t in RemoveById(ts, id) <==> t in ts && t.id != id
    ensures SubsequenceOf(RemoveById(ts, id), ts)
    ensures |RemoveById(ts, id)| == |ts| - |Filter(ts, HasId(id))|
  {
    FilterMembers(ts, HasOtherId(id));
    FilterSubsequence(ts, HasOtherId(id));
    FilterSplit(ts, HasOtherId(id), HasId(id));
  }

  /** Removing an id that no entry carries leaves the cache unchanged. */
  lemma RemoveByIdAbsent(ts: seq<Task>, id: string)
    requires forall t :: t in ts ==> t.id != id
    ensures RemoveById(ts, id) == ts
  {
    FilterKeepsAll(ts, HasOtherId(id));
  }

  /** The patch `toggleTaskCompletion` sends: the negation of the flag of the
      task it was handed, whatever the cache holds for that id. */
  function TogglePatch(t: Task): (p: TaskPatch)
    ensures p.title.None? && p.description.None?
    ensures p.completed == Some(!t.completed)
  {
    TaskPatch(None, None, Some(!t.completed))
  }

  /** What a gateway that honours a patch stores: the given fields replaced.
      The gateway is not part of this model; this only serves to state what
      two toggles in a row amount to. */
  function ApplyPatch(t: Task, p: TaskPatch): Task {
    t.(title := p.title.GetOr(t.title),
       description := p.description.GetOr(t.description),
       completed := p.completed.GetOr(t.completed))
  }

  /** Against a gateway that honours patches, one toggle flips the flag and
      a second toggle, sent for the task the first returned, restores the task. */
  lemma ToggleTwiceRestores(t: Task)
    ensures var once := ApplyPatch(t, TogglePatch(t));
            var twice := ApplyPatch(once, TogglePatch(once));
            once.completed != t.completed && twice == t
  {
  }

  // ---------------------------------------------------------------------
  // The store
  // ---------------------------------------------------------------------

  /** One call the store makes to the remote gateway. */
  datatype TaskRequest =
    | ListTasks(userId: string)
    | PostTask(data: CreateTaskRequest)
    | PutTask(id: string, patch: TaskPatch)
    | RemoveTask(id: string)

  class TaskService {
    /** The current value of `tasksSubject`. */
    var tasks: seq<Task>
    /** The current value of `loadingSubject`. */
    var loading: bool
    /** Every value `tasksSubject` has held, oldest first. */
    ghost var taskEmissions: seq<seq<Task>>
    /** Every value `loadingSubject` has held, oldest first. */
    ghost var loadingEmissions: seq<bool>
    /** Every gateway call made so far, oldest first. */
    ghost var requests: seq<TaskRequest>

    /** A subject's current value is the last value it emitted. */
    ghost predicate Valid()
      reads this
    {
      && taskEmissions != [] && taskEmissions[|taskEmissions| - 1] == tasks
      && loadingEmissions != [] && loadingEmissions[|loadingEmissions| - 1] == loading
    }

    constructor ()
      ensures Valid()
      ensures tasks == [] && !loading
      ensures taskEmissions == [[]] && loadingEmissions == [false] && requests == []
    {
      tasks, loading := [], false;
      taskEmissions, loadingEmissions, requests := [[]], [false], [];
    }

    /** `getTasksByUser`: the flag goes up at call time; on success the cache
        is replaced wholesale and the flag comes down; on failure the flag
        stays up and the cache is untouched. */
    method GetTasksByUser(userId: string, reply: Result<Response<seq<Task>>>) returns (r: Result<seq<Task>>)
      requires Valid()
      modifies this
      ensures Valid()
      ensures requests == old(requests) + [ListTasks(userId)]
      ensures reply.Ok? ==>
        && r == Ok(ParseTaskDates(reply.value.data.AsOption().GetOr([])))
        && tasks == r.value && !loading
        && taskEmissions == old(taskEmissions) + [tasks]
        && loadingEmissions == old(loadingEmissions) + [true, false]
      ensures reply.Err? ==>
        && r == Err(reply.error)
        && tasks == old(tasks) && loading
        && taskEmissions == old(taskEmissions)
        && loadingEmissions == old(loadingEmissions) + [true]
    {
      requests := requests + [ListTasks(userId)];
      loading := true;
      loadingEmissions := loadingEmissions + [true];
      match reply
      case Err(e) =>
        r := Err(e);
      case Ok(response) =>
        var fetched := ParseTaskDates(response.data.AsOption().GetOr([]));
        tasks := fetched;
        taskEmissions := taskEmissions + [tasks];
        loading := false;
        loadingEmissions := loadingEmissions + [false];
        r := Ok(fetched);
    }

    /** `createTask`: on success the new task goes in front of the cache. A
        success envelope whose data is `undefined` or `null` makes
        `parseTaskDates` throw, which the
        caller sees as a failure. */
    method CreateTask(data: CreateTaskRequest, reply: Result<Response<Task>>) returns (r: Result<Task>)
      requires Valid()
      modifies this
      ensures Valid() && loading == old(loading) && loadingEmissions == old(loadingEmissions)
      ensures requests == old(requests) + [PostTask(data)]
      ensures reply.Ok? && reply.value.data.Present? ==>
        && r == Ok(ParseTaskDates([reply.value.data.value])[0])
        && tasks == [r.value] + old(tasks)
        && taskEmissions == old(taskEmissions) + [tasks]
      ensures reply.Ok? && !reply.value.data.Present? ==> r == Err(MissingData)
      ensures reply.Err? ==> r == Err(reply.error)
      ensures r.Err? ==> tasks == old(tasks) && taskEmissions == old(taskEmissions)
    {
      requests := requests + [PostTask(data)];
      match reply
      case Err(e) =>
        r := Err(e);
      case Ok(Response(Present(created))) =>
        var newTask := ParseTaskDates([created])[0];
        tasks := [newTask] + tasks;
        taskEmissions := taskEmissions + [tasks];
        r := Ok(newTask);
      case Ok(_) =>
        r := Err(MissingData);
    }

    /** `updateTask`: on success every cached entry with the id is replaced by
        the task the gateway returned, in place; the new list is emitted even
        when no entry carried the id. */
    method UpdateTask(id: string, patch: TaskPatch, reply: Result<Response<Task>>) returns (r: Result<Task>)
      requires Valid()
      modifies this
      ensures Valid() && loading == old(loading) && loadingEmissions == old(loadingEmissions)
      ensures requests == old(requests) + [PutTask(id, patch)]
      ensures reply.Ok? && reply.value.data.Present? ==>
        && r == Ok(ParseTaskDates([reply.value.data.value])[0])
        && tasks == ReplaceById(old(tasks), id, r.value)
        && taskEmissions == old(taskEmissions) + [tasks]
      ensures reply.Ok? && !reply.value.data.Present? ==> r == Err(MissingData)
      ensures reply.Err? ==> r == Err(reply.error)
      ensures r.Err? ==> tasks == old(tasks) && taskEmissions == old(taskEmissions)
    {
      requests := requests + [PutTask(id, patch)];
      match reply
      case Err(e) =>
        r := Err(e);
      case Ok(Response(Present(returned))) =>
        var updated := ParseTaskDates([returned])[0];
        tasks := ReplaceById(tasks, id, updated);
        taskEmissions := taskEmissions + [tasks];
        r := Ok(updated);
      case Ok(_) =>
        r := Err(MissingData);
    }

    /** `deleteTask`: on success every entry with the id leaves the cache. */
    method DeleteTask(id: string, reply: Result<()>) returns (r: Result<()>)
      requires Valid()
      modifies this
      ensures Valid() && loading == old(loading) && loadingEmissions == old(loadingEmissions)
      ensures requests == old(requests) + [RemoveTask(id)]
      ensures r == reply
      ensures reply.Ok? ==>
        tasks == RemoveById(old(tasks), id) && taskEmissions == old(taskEmissions) + [tasks]
      ensures reply.Err? ==> tasks == old(tasks) && taskEmissions == old(taskEmissions)
    {
      requests := requests + [RemoveTask(id)];
      if reply.Ok? {
        tasks := RemoveById(tasks, id);
        taskEmissions := taskEmissions + [tasks];
      }
      r := reply;
    }

    /** `toggleTaskCompletion`: an update of the task's id whose patch negates
        the flag of the task handed in, not of the cached copy. */
    method ToggleTaskCompletion(task: Task, reply: Result<Response<Task>>) returns (r: Result<Task>)
      requires Valid()
      modifies this
      ensures Valid() && loading == old(loading) && loadingEmissions == old(loadingEmissions)
      ensures requests == old(requests) + [PutTask(task.id, TaskPatch(None, None, Some(!task.completed)))]
      ensures reply.Ok? && reply.value.data.Present? ==>
        && r == Ok(ParseTaskDates([reply.value.data.value])[0])
        && tasks == ReplaceById(old(tasks), task.id, r.value)
        && taskEmissions == old(taskEmissions) + [tasks]
      ensures reply.Ok? && !reply.value.data.Present? ==> r == Err(MissingData)
      ensures reply.Err? ==> r == Err(reply.error)
      ensures r.Err? ==> tasks == old(tasks) && taskEmissions == old(taskEmissions)
    {
      r := UpdateTask(task.id, TogglePatch(task), reply);
    }
  }
}
