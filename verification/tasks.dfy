/** The task list store of the popup: an ordered list of task records (newest first), a pointer
    to the current task, and the views that split the list by status. */
module Tasks {
  import opened Common
  import Constants

  // ---------------------------------------------------------------- records

  /** The store's own status table (it repeats the one among the shared constants). */
  function StoreStatus(s: Constants.TaskStatus): string
  {
    match s
    case Pending => "pending"
    case Running => "running"
    case Success => "success"
    case Failed => "failed"
    case Cancelled => "cancelled"
  }

  /** The two status tables agree entry by entry. */
  lemma StatusTablesAgree(s: Constants.TaskStatus)
    ensures StoreStatus(s) == Constants.StatusValue(s)
  {
  }

  const WaitingMessage := "等待中..."
  const UnknownTitle := "未知资源"
  const CancelledMessage := "已取消"

  /** One transfer task. `status` is a string because an update may write any value into it;
      `result` is the payload a finished task carries, `None` while there is none. */
  datatype Task = Task(
    id: string,
    url: string,
    code: string,
    title: string,
    status: string,
    progress: int,
    message: string,
    result: Option<string>,
    createdAt: int,
    updatedAt: int)

  /** What the caller of `addTask` supplies. */
  datatype TaskRequest = TaskRequest(url: string, code: Option<string>, title: Option<string>)

  /** A partial task: every field that is present overrides the task's own. */
  datatype TaskUpdate = TaskUpdate(
    id: Option<string>,
    url: Option<string>,
    code: Option<string>,
    title: Option<string>,
    status: Option<string>,
    progress: Option<int>,
    message: Option<string>,
    result: Option<Option<string>>,
    createdAt: Option<int>,
    updatedAt: Option<int>)

  /** The update that cancels a task. */
  const CancelUpdate := TaskUpdate(None, None, None, None,
    Some(StoreStatus(Constants.Cancelled)), None, Some(CancelledMessage), None, None, None)

  /** The record `addTask` builds for a request; `id` stands for the generated id, `created` and
      `updated` for the two clock readings taken for `createdAt` and `updatedAt`. */
  function NewTask(req: TaskRequest, id: string, created: int, updated: int): (t: Task)
    ensures t.id == id && t.url == req.url
    ensures t.status == StoreStatus(Constants.Pending) && t.progress == 0
    ensures t.message == WaitingMessage && t.result == None
    ensures t.createdAt == created && t.updatedAt == updated
    ensures Truthy(req.code) ==> t.code == req.code.value
    ensures !Truthy(req.code) ==> t.code == ""
    ensures Truthy(req.title) ==> t.title == req.title.value
    ensures !Truthy(req.title) ==> t.title == UnknownTitle
  {
    Task(id, req.url,
      if Truthy(req.code) then req.code.value else "",
      if Truthy(req.title) then req.title.value else UnknownTitle,
      StoreStatus(Constants.Pending), 0, WaitingMessage, None, created, updated)
  }

  function Override<T>(current: T, replacement: Option<T>): T
  {
    if replacement.Some? then replacement.value else current
  }

  /** `{...t, ...u, updatedAt: now}` */
  function Merge(t: Task, u: TaskUpdate, now: int): Task
  {
    Task(
      Override(t.id, u.id), Override(t.url, u.url), Override(t.code, u.code),
      Override(t.title, u.title), Override(t.status, u.status),
      Override(t.progress, u.progress), Override(t.message, u.message),
      Override(t.result, u.result), Override(t.createdAt, u.createdAt), now)
  }

  /** Present fields win, absent ones keep the task's value, and `updatedAt` is always the clock
      reading, even when the update supplies one. Merging the same update twice is merging it once. */
  lemma MergeFields(t: Task, u: TaskUpdate, now: int, later: int)
    ensures var m := Merge(t, u, now);
      && m.updatedAt == now
      && (u.status.Some? ==> m.status == u.status.value) && (u.status.None? ==> m.status == t.status)
      && (u.message.Some? ==> m.message == u.message.value) && (u.message.None? ==> m.message == t.message)
      && (u.progress.Some? ==> m.progress == u.progress.value) && (u.progress.None? ==> m.progress == t.progress)
      && (u.title.Some? ==> m.title == u.title.value) && (u.title.None? ==> m.title == t.title)
      && (u.result.Some? ==> m.result == u.result.value) && (u.result.None? ==> m.result == t.result)
      && (u.id.Some? ==> m.id == u.id.value) && (u.id.None? ==> m.id == t.id)
      && (u.url.Some? ==> m.url == u.url.value) && (u.url.None? ==> m.url == t.url)
      && (u.code.Some? ==> m.code == u.code.value) && (u.code.None? ==> m.code == t.code)
      && (u.createdAt.Some? ==> m.createdAt == u.createdAt.value) && (u.createdAt.None? ==> m.createdAt == t.createdAt)
    ensures Merge(Merge(t, u, now), u, later) == Merge(t, u, later)
  {
  }

  // ---------------------------------------------------------------- list operations

  /** `findIndex(t => t.id === id)`: the position of the first task with this id. */
  function FindIndex(s: seq<Task>, id: string): (r: Option<nat>)
    ensures r.Some? ==> r.value < |s| && s[r.value].id == id
    ensures r.Some? ==> forall k :: 0 <= k < r.value ==> s[k].id != id
    ensures r.None? <==> forall k :: 0 <= k < |s| ==> s[k].id != id
  {
    if s == [] then None
    else if s[0].id == id then Some(0)
    else match FindIndex(s[1..], id)
      case None => None
      case Some(i) => Some(i + 1)
  }

  /** The list after `updateTask(id, u)`. */
  function Updated(s: seq<Task>, id: string, u: TaskUpdate, now: int): seq<Task>
  {
    match FindIndex(s, id)
    case None => s
    case Some(i) => s[i := Merge(s[i], u, now)]
  }

  /** An update touches only the first task carrying the id; an unknown id changes nothing. */
  lemma UpdatedOnlyFirstMatch(s: seq<Task>, id: string, u: TaskUpdate, now: int)
    ensures var r := Updated(s, id, u, now);
      && |r| == |s|
      && (FindIndex(s, id).None? ==> r == s)
      && (FindIndex(s, id).Some? ==>
            var i := FindIndex(s, id).value;
            r[i] == Merge(s[i], u, now) && forall k :: 0 <= k < |s| && k != i ==> r[k] == s[k])
  {
  }

  /** Cancelling sets the status and the message whatever the status was before, and keeps every
      other field but `updatedAt`. */
  lemma CancelOverridesAnyStatus(s: seq<Task>, id: string, now: int)
    requires FindIndex(s, id).Some?
    ensures var i := FindIndex(s, id).value;
      var c := Updated(s, id, CancelUpdate, now)[i];
      && c.status == Constants.StatusValue(Constants.Cancelled)
      && c.message == CancelledMessage
      && c.updatedAt == now
      && c == s[i].(status := c.status, message := c.message, updatedAt := now)
  {
  }

  /** The list after `removeTask(id)`: `splice(index, 1)` at the first match. */
  function Removed(s: seq<Task>, id: string): seq<Task>
  {
    match FindIndex(s, id)
    case None => s
    case Some(i) => s[..i] + s[i + 1..]
  }

  /** Removing deletes exactly the first task with the id and keeps the others in order. */
  lemma {:induction false} RemovedShifts(s: seq<Task>, id: string)
    ensures FindIndex(s, id).None? ==> Removed(s, id) == s
    ensures FindIndex(s, id).Some? ==>
      var i := FindIndex(s, id).value;
      var r := Removed(s, id);
      && |r| == |s| - 1
      && (forall k :: 0 <= k < i ==> r[k] == s[k])
      && (forall k :: i <= k < |r| ==> r[k] == s[k + 1])
      && multiset(r) + multiset{s[i]} == multiset(s)
  {
    if FindIndex(s, id).Some? {
      var i := FindIndex(s, id).value;
      assert s == s[..i] + [s[i]] + s[i + 1..];
    }
  }

  /** The pointer after `removeTask(id)` found the task: cleared exactly when it named that id. */
  function ClearedPointer(current: Option<string>, id: string): (r: Option<string>)
    ensures r.None? <==> current.None? || current == Some(id)
    ensures r.Some? ==> r == current
  {
    if current == Some(id) then None else current
  }

  // ---------------------------------------------------------------- status views

  predicate IsPending(t: Task) { t.status == StoreStatus(Constants.Pending) }
  predicate IsRunning(t: Task) { t.status == StoreStatus(Constants.Running) }

  predicate IsCompleted(t: Task)
  {
    || t.status == StoreStatus(Constants.Success)
    || t.status == StoreStatus(Constants.Failed)
    || t.status == StoreStatus(Constants.Cancelled)
  }

  /** What `clearCompletedTasks` keeps. */
  predicate IsActive(t: Task) { !IsCompleted(t) }

  /** A status that is one of the five status names. */
  predicate HasKnownStatus(t: Task)
  {
    Constants.ParseStatus(t.status).Some?
  }

  /** `filter(p)`: the tasks satisfying `p`, in list order. */
  function Select(s: seq<Task>, p: Task -> bool): (r: seq<Task>)
    ensures |r| <= |s|
    ensures forall t :: t in r <==> t in s && p(t)
  {
    if s == [] then [] else (if p(s[0]) then [s[0]] else []) + Select(s[1..], p)
  }

  function Pending(s: seq<Task>): seq<Task> { Select(s, IsPending) }
  function Running(s: seq<Task>): seq<Task> { Select(s, IsRunning) }
  function Completed(s: seq<Task>): seq<Task> { Select(s, IsCompleted) }
  function Active(s: seq<Task>): seq<Task> { Select(s, IsActive) }

  /** Filtering distributes over concatenation, so every view keeps list order. */
  lemma {:induction false} SelectAppend(a: seq<Task>, b: seq<Task>, p: Task -> bool)
    ensures Select(a + b, p) == Select(a, p) + Select(b, p)
  {
    if a == [] {
      assert a + b == b;
    } else {
      assert (a + b)[0] == a[0];
      assert (a + b)[1..] == a[1..] + b;
      SelectAppend(a[1..], b, p);
    }
  }

  /** Filtering twice by the same test is filtering once. */
  lemma {:induction false} SelectIdempotent(s: seq<Task>, p: Task -> bool)
    ensures Select(Select(s, p), p) == Select(s, p)
  {
    if s != [] {
      SelectIdempotent(s[1..], p);
      var head := if p(s[0]) then [s[0]] else [];
      SelectAppend(head, Select(s[1..], p), p);
    }
  }

  /** When every status is one of the five names, the pending, running and completed views
      split the list: each task is in exactly one of them. */
  lemma {:induction false} ViewsPartition(s: seq<Task>)
    requires forall t :: t in s ==> HasKnownStatus(t)
    ensures multiset(Pending(s)) + multiset(Running(s)) + multiset(Completed(s)) == multiset(s)
  {
    if s != [] {
      var t := s[0];
      ViewsPartition(s[1..]);
      assert s == [t] + s[1..];
      OneView(t);
    }
  }

  /** A task with a known status is in exactly one of the three views. */
  lemma OneView(t: Task)
    requires HasKnownStatus(t)
    ensures IsPending(t) ==> !IsRunning(t) && !IsCompleted(t)
    ensures IsRunning(t) ==> !IsCompleted(t)
    ensures IsPending(t) || IsRunning(t) || IsCompleted(t)
  {
  }

  /** Clearing completed tasks leaves no completed task, keeps the pending and running views as
      they were, and is idempotent. */
  lemma {:induction false} ClearKeepsActiveViews(s: seq<Task>)
    ensures Completed(Active(s)) == []
    ensures Pending(Active(s)) == Pending(s)
    ensures Running(Active(s)) == Running(s)
    ensures Active(Active(s)) == Active(s)
  {
    SelectIdempotent(s, IsActive);
    if s != [] {
      ClearKeepsActiveViews(s[1..]);
      var head := if IsActive(s[0]) then [s[0]] else [];
      var rest := Select(s[1..], IsActive);
      assert Active(s) == head + rest;
      SelectAppend(head, rest, IsCompleted);
      SelectAppend(head, rest, IsPending);
      SelectAppend(head, rest, IsRunning);
    }
  }

  /** A task added at the front is the first pending task and the other views are unchanged. */
  lemma AddedTaskLeadsPending(t: Task, s: seq<Task>)
    requires IsPending(t)
    ensures Pending([t] + s) == [t] + Pending(s)
    ensures Running([t] + s) == Running(s)
    ensures Completed([t] + s) == Completed(s)
  {
    assert ([t] + s)[1..] == s;
  }

  /** `find(t => t.id === currentTaskId)`. */
  function Find(s: seq<Task>, current: Option<string>): (r: Option<Task>)
    ensures r.Some? <==> current.Some? && exists k :: 0 <= k < |s| && s[k].id == current.value
    ensures r.Some? ==> FindIndex(s, current.value).Some? && r.value == s[FindIndex(s, current.value).value]
  {
    if current.None? then None
    else match FindIndex(s, current.value)
      case None => None
      case Some(i) => Some(s[i])
  }

  // ---------------------------------------------------------------- identity

  predicate UniqueIds(s: seq<Task>)
  {
    forall i, j :: 0 <= i < j < |s| ==> s[i].id != s[j].id
  }

  /** Every list operation keeps ids unique, given a fresh id for an added task and an update
      that does not rewrite ids; after a removal the id is gone from the list. */
  lemma {:induction false} OperationsKeepIdsUnique(s: seq<Task>, t: Task, id: string, u: TaskUpdate, now: int)
    requires UniqueIds(s)
    ensures (forall k :: 0 <= k < |s| ==> s[k].id != t.id) ==> UniqueIds([t] + s)
    ensures u.id.None? ==> UniqueIds(Updated(s, id, u, now))
    ensures UniqueIds(Removed(s, id))
    ensures forall k :: 0 <= k < |Removed(s, id)| ==> Removed(s, id)[k].id != id
    ensures UniqueIds(Active(s))
  {
    RemovedShifts(s, id);
    UniqueIdsSelect(s, IsActive);
  }

  lemma {:induction false} UniqueIdsSelect(s: seq<Task>, p: Task -> bool)
    requires UniqueIds(s)
    ensures UniqueIds(Select(s, p))
  {
    if s != [] {
      assert UniqueIds(s[1..]);
      UniqueIdsSelect(s[1..], p);
      var rest := Select(s[1..], p);
      if p(s[0]) {
        forall k | 0 <= k < |rest| ensures rest[k].id != s[0].id {
          assert rest[k] in s[1..];
        }
      }
    }
  }

  // ---------------------------------------------------------------- the store

  /** The two storage keys the store writes: the list and the current id. */
  datatype StoredTasks = StoredTasks(taskList: Option<seq<Task>>, currentTaskId: Option<string>)

  class TaskStore {
    var tasks: seq<Task>
    var currentTaskId: Option<string>
    /** What the store last wrote to storage. */
    var stored: StoredTasks

    /** A store over storage that holds `persisted`; the state starts empty until loaded. */
    constructor (persisted: StoredTasks)
      ensures tasks == [] && currentTaskId == None && stored == persisted
    {
      tasks := [];
      currentTaskId := None;
      stored := persisted;
    }

    function Snapshot(): StoredTasks
      reads this
    {
      StoredTasks(Some(tasks), currentTaskId)
    }

    function CurrentTask(): Option<Task> reads this { Find(tasks, currentTaskId) }
    function PendingTasks(): seq<Task> reads this { Pending(tasks) }
    function RunningTasks(): seq<Task> reads this { Running(tasks) }
    function CompletedTasks(): seq<Task> reads this { Completed(tasks) }

    /** `saveTasks`: writes both keys. */
    method SaveTasks()
      modifies this`stored
      ensures stored == Snapshot()
    {
      stored := StoredTasks(Some(tasks), currentTaskId);
    }

    /** `loadTasks`: reads both keys from storage; a present list replaces the current one, a
        truthy id replaces the pointer; a failed read (`readError`) changes nothing. */
    method LoadTasks(readError: Option<string>)
      modifies this`tasks, this`currentTaskId
      ensures readError.Some? ==> tasks == old(tasks) && currentTaskId == old(currentTaskId)
      ensures readError.None? ==> tasks == Override(old(tasks), stored.taskList)
      ensures readError.None? ==>
        currentTaskId == if Truthy(stored.currentTaskId) then stored.currentTaskId else old(currentTaskId)
    {
      if readError.None? {
        var data := stored;
        if data.taskList.Some? {
          tasks := data.taskList.value;
        }
        if Truthy(data.currentTaskId) {
          currentTaskId := data.currentTaskId;
        }
      }
    }

    /** `addTask`: the new pending task goes to the front; returns its id. */
    method AddTask(req: TaskRequest, id: string, created: int, updated: int) returns (newId: string)
      modifies this
      ensures newId == id
      ensures tasks == [NewTask(req, id, created, updated)] + old(tasks)
      ensures currentTaskId == old(currentTaskId)
      ensures stored == Snapshot()
    {
      var t := NewTask(req, id, created, updated);
      tasks := [t] + tasks;
      SaveTasks();
      newId := t.id;
    }

    /** `updateTask`: merges the update into the first task with the id; saves only when found. */
    method UpdateTask(id: string, u: TaskUpdate, now: int)
      modifies this
      ensures tasks == Updated(old(tasks), id, u, now)
      ensures currentTaskId == old(currentTaskId)
      ensures stored == if FindIndex(old(tasks), id).Some? then Snapshot() else old(stored)
    {
      var index := FindIndex(tasks, id);
      if index.Some? {
        var i := index.value;
        tasks := tasks[i := Merge(tasks[i], u, now)];
        SaveTasks();
      }
    }

    /** `setCurrentTask`: points at any id, or at none. */
    method SetCurrentTask(id: Option<string>)
      modifies this
      ensures currentTaskId == id && tasks == old(tasks)
      ensures stored == Snapshot()
    {
      currentTaskId := id;
      SaveTasks();
    }

    /** `removeTask`: drops the first task with the id and clears the pointer when it named it;
        an unknown id changes nothing, pointer and storage included. */
    method RemoveTask(id: string)
      modifies this
      ensures tasks == Removed(old(tasks), id)
      ensures FindIndex(old(tasks), id).Some? ==>
        currentTaskId == ClearedPointer(old(currentTaskId), id) && stored == Snapshot()
      ensures FindIndex(old(tasks), id).None? ==>
        currentTaskId == old(currentTaskId) && stored == old(stored)
    {
      var index := FindIndex(tasks, id);
      if index.Some? {
        var i := index.value;
        tasks := tasks[..i] + tasks[i + 1..];
        if currentTaskId == Some(id) {
          currentTaskId := None;
        }
        SaveTasks();
      }
    }

    /** `clearCompletedTasks`: keeps the tasks that are not success, failed or cancelled. */
    method ClearCompletedTasks()
      modifies this
      ensures tasks == Active(old(tasks))
      ensures currentTaskId == old(currentTaskId)
      ensures stored == Snapshot()
    {
      tasks := Select(tasks, IsActive);
      SaveTasks();
    }

    /** `cancelTask`: an update to status cancelled with the cancelled message, with no check of
        the status the task had. */
    method CancelTask(id: string, now: int)
      modifies this
      ensures tasks == Updated(old(tasks), id, CancelUpdate, now)
      ensures currentTaskId == old(currentTaskId)
      ensures stored == if FindIndex(old(tasks), id).Some? then Snapshot() else old(stored)
    {
      UpdateTask(id, CancelUpdate, now);
    }
  }

  /** A store reopened over what any store operation saved loads back the same list, and the
      same pointer whenever the pointer was a non-empty id. */
  method ReloadRestores(s: TaskStore) returns (reopened: TaskStore)
    requires s.stored == s.Snapshot()
    ensures fresh(reopened)
    ensures reopened.tasks == s.tasks
    ensures Truthy(s.currentTaskId) ==> reopened.currentTaskId == s.currentTaskId
    ensures !Truthy(s.currentTaskId) ==> reopened.currentTaskId == None
  {
    reopened := new TaskStore(s.stored);
    reopened.LoadTasks(None);
  }
}
