/** The server's in-memory task table: a module-level Python list of task dicts. */
module TodoService {
  import opened Wrappers
  import Sequences

  /** A value stored in a task dict (strings, integers and `None`). */
  datatype Value = Null | Str(s: string) | Int(i: int)

  /** A task is a Python dict from field names to values. */
  type Task = map<string, Value>

  const IdKey := "id"

  /** The outcome of a Python call: the returned value, or the `KeyError` raised by
      `task['id']` on a dict that has no `'id'` key. */
  datatype PyResult<+T> = Returned(value: T) | KeyError

  predicate HasId(t: Task) { IdKey in t }

  predicate AllHaveId(tasks: seq<Task>) {
    forall j :: 0 <= j < |tasks| ==> HasId(tasks[j])
  }

  /** The first `n` tasks all have an id, and none of those ids is `taskId`. */
  predicate ScannedPast(tasks: seq<Task>, taskId: Value, n: nat)
    requires n <= |tasks|
  {
    forall j :: 0 <= j < n ==> HasId(tasks[j]) && tasks[j][IdKey] != taskId
  }

  /** Where `for i, task in enumerate(tasks): if task['id'] == task_id` stops. */
  datatype Scan = Match(index: nat) | NoMatch | MissingId(index: nat)

  /** The first task whose id is `taskId`, unless a task without an id comes first. */
  function FirstMatch(tasks: seq<Task>, taskId: Value): (r: Scan)
    ensures r.Match? ==>
      && r.index < |tasks| && ScannedPast(tasks, taskId, r.index)
      && HasId(tasks[r.index]) && tasks[r.index][IdKey] == taskId
    ensures r.MissingId? ==>
      r.index < |tasks| && ScannedPast(tasks, taskId, r.index) && !HasId(tasks[r.index])
    ensures r.NoMatch? <==> ScannedPast(tasks, taskId, |tasks|)
    decreases |tasks|
  {
    if tasks == [] then NoMatch
    else if !HasId(tasks[0]) then MissingId(0)
    else if tasks[0][IdKey] == taskId then Match(0)
    else
      match FirstMatch(tasks[1..], taskId)
      case Match(i) => Match(i + 1)
      case MissingId(i) => MissingId(i + 1)
      case NoMatch => NoMatch
  }

  /** The scan result is determined by where the prefix of id-carrying, non-matching
      tasks ends. */
  lemma FirstMatchAt(tasks: seq<Task>, taskId: Value, i: nat)
    requires i < |tasks| && ScannedPast(tasks, taskId, i)
    ensures HasId(tasks[i]) && tasks[i][IdKey] == taskId ==> FirstMatch(tasks, taskId) == Match(i)
    ensures !HasId(tasks[i]) ==> FirstMatch(tasks, taskId) == MissingId(i)
  {
  }

  /** `tasks[i].update(updated_task)`: the keys of `changes` take their new values,
      every other key keeps its old value. */
  function Merge(current: Task, changes: Task): (r: Task)
    ensures r.Keys == current.Keys + changes.Keys
    ensures forall k :: k in changes ==> r[k] == changes[k]
    ensures forall k :: k in current && k !in changes ==> r[k] == current[k]
  {
    current + changes
  }

  /** The condition of `delete_task`'s comprehension, for a task that has an id. */
  function KeepsOther(taskId: Value): Task -> bool {
    (t: Task) => !(HasId(t) && t[IdKey] == taskId)
  }

  /** `[task for task in tasks if task['id'] != task_id]`, which raises `KeyError` as
      soon as it reaches a task without an id. */
  function Remaining(tasks: seq<Task>, taskId: Value): (r: PyResult<seq<Task>>)
    ensures r.Returned? <==> AllHaveId(tasks)
    ensures r.Returned? ==> forall j :: 0 <= j < |r.value| ==>
      r.value[j] in tasks && r.value[j][IdKey] != taskId
    ensures r.Returned? ==> forall j :: 0 <= j < |tasks| && tasks[j][IdKey] != taskId ==>
      tasks[j] in r.value
  {
    if AllHaveId(tasks) then Returned(Sequences.Filter(tasks, KeepsOther(taskId))) else KeyError
  }

  /** Deleting an id that no task carries leaves the list as it was. */
  lemma RemainingNoMatch(tasks: seq<Task>, taskId: Value)
    requires ScannedPast(tasks, taskId, |tasks|)
    ensures Remaining(tasks, taskId) == Returned(tasks)
  {
    Sequences.FilterKeepsAll(tasks, KeepsOther(taskId));
  }

  /** Deleting the same id twice equals deleting it once. */
  lemma RemainingIdempotent(tasks: seq<Task>, taskId: Value)
    requires Remaining(tasks, taskId).Returned?
    ensures Remaining(Remaining(tasks, taskId).value, taskId) == Remaining(tasks, taskId)
  {
    Sequences.FilterIdempotent(tasks, KeepsOther(taskId));
  }

  /** Deletion works element by element: on a concatenation it deletes from each part,
      so the surviving tasks keep their relative order. */
  lemma RemainingConcat(a: seq<Task>, b: seq<Task>, taskId: Value)
    requires AllHaveId(a) && AllHaveId(b)
    ensures Remaining(a + b, taskId) ==
      Returned(Remaining(a, taskId).value + Remaining(b, taskId).value)
  {
    Sequences.FilterConcat(a, b, KeepsOther(taskId));
  }

  /** The module-level `tasks` list and the four functions over it. */
  class TodoTable {
    var tasks: seq<Task>

    /** `tasks = []` at import time. */
    constructor ()
      ensures tasks == []
    {
      tasks := [];
    }

    /** `get_tasks`: the stored list, with nothing changed. */
    method GetTasks() returns (r: seq<Task>)
      ensures r == tasks
    {
      r := tasks;
    }

    /** `add_task`: appends the task (ids are not checked for duplicates) and returns it. */
    method AddTask(task: Task) returns (r: Task)
      modifies this
      ensures tasks == old(tasks) + [task]
      ensures r == task
    {
      tasks := tasks + [task];
      r := task;
    }

    /** `update_task`: merges `updatedTask` into the first task whose id is `taskId` and
        returns it; returns `None` when no task matches; raises `KeyError` when a task
        without an id is reached first. Later tasks with the same id are untouched. */
    method UpdateTask(taskId: Value, updatedTask: Task) returns (r: PyResult<Option<Task>>)
      modifies this
      ensures match FirstMatch(old(tasks), taskId)
        case Match(i) =>
          tasks == old(tasks)[i := Merge(old(tasks)[i], updatedTask)] && r == Returned(Some(tasks[i]))
        case NoMatch => tasks == old(tasks) && r == Returned(None)
        case MissingId(_) => tasks == old(tasks) && r == KeyError
    {
      var i := 0;
      while i < |tasks|
        invariant 0 <= i <= |tasks|
        invariant tasks == old(tasks)
        invariant ScannedPast(tasks, taskId, i)
      {
        var task := tasks[i];
        FirstMatchAt(tasks, taskId, i);
        if IdKey !in task {
          return KeyError;
        }
        if task[IdKey] == taskId {
          tasks := tasks[i := Merge(task, updatedTask)];
          return Returned(Some(tasks[i]));
        }
        i := i + 1;
      }
      return Returned(None);
    }

    /** `delete_task`: rebinds the list to the tasks whose id differs from `taskId`; when
        the comprehension raises `KeyError` the list is left as it was. */
    method DeleteTask(taskId: Value) returns (r: PyResult<()>)
      modifies this
      ensures Remaining(old(tasks), taskId).Returned? ==>
        tasks == Remaining(old(tasks), taskId).value && r == Returned(())
      ensures Remaining(old(tasks), taskId).KeyError? ==> tasks == old(tasks) && r == KeyError
    {
      match Remaining(tasks, taskId)
      case Returned(kept) =>
        tasks := kept;
        r := Returned(());
      case KeyError =>
        r := KeyError;
    }
  }
}
