/** The client's task store (the `useTasks` hook): the task list and loading flag, kept in
    step with the server's answers. Each operation receives the outcome of its API call. */
module UseTasks {
  import opened Wrappers
  import Sequences
  import opened Api

  /** A notification shown to the user; `destructive` marks a failure. */
  datatype Toast = Toast(title: string, description: string, destructive: bool)

  const LoadFailed := Toast("שגיאה בטעינת משימות", "לא ניתן לטעון את המשימות מהשרת", true)
  const Added := Toast("משימה נוספה בהצלחה", "המשימה נוספה לרשימה", false)
  const AddFailed := Toast("שגיאה בהוספת משימה", "לא ניתן להוסיף את המשימה", true)
  const Updated := Toast("משימה עודכנה", "השינויים נשמרו בהצלחה", false)
  const UpdateFailed := Toast("שגיאה בעדכון משימה", "לא ניתן לעדכן את המשימה", true)
  const Deleted := Toast("משימה נמחקה", "המשימה הוסרה מהרשימה", false)
  const DeleteFailed := Toast("שגיאה במחיקת משימה", "לא ניתן למחוק את המשימה", true)

  /** `tasks.map(task => task.id === id ? updatedTask : task)` */
  function ReplaceById(tasks: seq<Task>, id: string, updated: Task): (r: seq<Task>)
    ensures |r| == |tasks|
    ensures forall i :: 0 <= i < |tasks| && tasks[i].id == id ==> r[i] == updated
    ensures forall i :: 0 <= i < |tasks| && tasks[i].id != id ==> r[i] == tasks[i]
    decreases |tasks|
  {
    if tasks == [] then []
    else [if tasks[0].id == id then updated else tasks[0]] + ReplaceById(tasks[1..], id, updated)
  }

  /** Replacing with the same answer twice changes nothing more than replacing once. */
  lemma ReplaceByIdIdempotent(tasks: seq<Task>, id: string, updated: Task)
    ensures ReplaceById(ReplaceById(tasks, id, updated), id, updated) == ReplaceById(tasks, id, updated)
  {
  }

  /** When no task has the id, the list is unchanged. */
  lemma ReplaceByIdNoMatch(tasks: seq<Task>, id: string, updated: Task)
    requires forall i :: 0 <= i < |tasks| ==> tasks[i].id != id
    ensures ReplaceById(tasks, id, updated) == tasks
  {
  }

  function KeepsOther(id: string): Task -> bool {
    (t: Task) => t.id != id
  }

  /** `tasks.filter(task => task.id !== id)` */
  function RemoveById(tasks: seq<Task>, id: string): (r: seq<Task>)
    ensures forall i :: 0 <= i < |r| ==> r[i] in tasks && r[i].id != id
    ensures forall i :: 0 <= i < |tasks| && tasks[i].id != id ==> tasks[i] in r
  {
    Sequences.Filter(tasks, KeepsOther(id))
  }

  /** Removal works element by element, so the kept tasks stay in their order. */
  lemma RemoveByIdConcat(a: seq<Task>, b: seq<Task>, id: string)
    ensures RemoveById(a + b, id) == RemoveById(a, id) + RemoveById(b, id)
  {
    Sequences.FilterConcat(a, b, KeepsOther(id));
  }

  /** Removing an id no task carries leaves the list as it was. */
  lemma RemoveByIdNoMatch(tasks: seq<Task>, id: string)
    requires forall i :: 0 <= i < |tasks| ==> tasks[i].id != id
    ensures RemoveById(tasks, id) == tasks
  {
    Sequences.FilterKeepsAll(tasks, KeepsOther(id));
  }

  /** The number of tasks that carry `id`. */
  function Carrying(tasks: seq<Task>, id: string): (n: nat)
    ensures n <= |tasks|
    ensures n == 0 <==> forall i :: 0 <= i < |tasks| ==> tasks[i].id != id
  {
    Sequences.Dropped(tasks, KeepsOther(id))
  }

  /** Deletion shortens the list by exactly the number of tasks carrying `id`, so the length is
      unchanged exactly when no task carries it. */
  lemma RemoveByIdKeepsLength(tasks: seq<Task>, id: string)
    ensures |RemoveById(tasks, id)| == |tasks| - Carrying(tasks, id)
    ensures |RemoveById(tasks, id)| == |tasks| <==> forall i :: 0 <= i < |tasks| ==> tasks[i].id != id
  {
    Sequences.FilterLength(tasks, KeepsOther(id));
  }

  /** Removing the same id twice equals removing it once. */
  lemma RemoveByIdIdempotent(tasks: seq<Task>, id: string)
    ensures RemoveById(RemoveById(tasks, id), id) == RemoveById(tasks, id)
  {
    Sequences.FilterIdempotent(tasks, KeepsOther(id));
  }

  /** The state of one `useTasks` hook. `toasts` records every notification raised. */
  class TaskStore {
    var tasks: seq<Task>
    var loading: bool
    ghost var toasts: seq<Toast>

    /** `useState<Task[]>([])` and `useState(true)`. */
    constructor ()
      ensures tasks == [] && loading && toasts == []
    {
      tasks := [];
      loading := true;
      toasts := [];
    }

    /** `loadTasks`: on success the list is replaced by the fetched one; on failure it is
        kept and a failure is shown, without rethrowing. Loading ends either way. */
    method LoadTasks(fetched: Result<seq<Task>>)
      modifies this
      ensures !loading
      ensures tasks == if fetched.Ok? then fetched.value else old(tasks)
      ensures toasts == old(toasts) + if fetched.Ok? then [] else [LoadFailed]
    {
      loading := true;
      if fetched.Ok? {
        tasks := fetched.value;
      } else {
        toasts := toasts + [LoadFailed];
      }
      loading := false;
    }

    /** `addTask`: on success the created task is appended after the existing ones and
        returned; on failure the list is kept, a failure is shown and the error rethrown. */
    method AddTask(created: Result<Task>) returns (r: Result<Task>)
      modifies this`tasks, this`toasts
      ensures r == created
      ensures tasks == if created.Ok? then old(tasks) + [created.value] else old(tasks)
      ensures toasts == old(toasts) + [if created.Ok? then Added else AddFailed]
    {
      match created {
        case Ok(newTask) =>
          tasks := tasks + [newTask];
          toasts := toasts + [Added];
        case Err(_) =>
          toasts := toasts + [AddFailed];
      }
      r := created;
    }

    /** `updateTask`: on success every task with the id is replaced by the server's answer,
        in place; on failure the list is kept, a failure is shown and the error rethrown. */
    method UpdateTask(id: string, updated: Result<Task>) returns (r: Result<Task>)
      modifies this`tasks, this`toasts
      ensures r == updated
      ensures tasks == if updated.Ok? then ReplaceById(old(tasks), id, updated.value) else old(tasks)
      ensures toasts == old(toasts) + [if updated.Ok? then Updated else UpdateFailed]
    {
      match updated {
        case Ok(updatedTask) =>
          tasks := ReplaceById(tasks, id, updatedTask);
          toasts := toasts + [Updated];
        case Err(_) =>
          toasts := toasts + [UpdateFailed];
      }
      r := updated;
    }

    /** `deleteTask`: on success the tasks with the id are dropped; on failure the list is
        kept, a failure is shown and the error rethrown. */
    method DeleteTask(id: string, deleted: Result<()>) returns (r: Result<()>)
      modifies this`tasks, this`toasts
      ensures r == deleted
      ensures tasks == if deleted.Ok? then RemoveById(old(tasks), id) else old(tasks)
      ensures toasts == old(toasts) + [if deleted.Ok? then Deleted else DeleteFailed]
    {
      match deleted {
        case Ok(_) =>
          tasks := RemoveById(tasks, id);
          toasts := toasts + [Deleted];
        case Err(_) =>
          toasts := toasts + [DeleteFailed];
      }
      r := deleted;
    }
  }
}
