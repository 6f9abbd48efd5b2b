/**
 * The task management panel (src/app/component/TaskManger.tsx): adding,
 * replacing and deleting tasks in the list its parent owns, the ids handed
 * to the task form for its uniqueness check, and the save and analysis
 * buttons with their busy flags and empty-list guards.
 */
module TaskManager {
  import opened Common
  import opened PertTypes

  /** The ids of the tasks, in list order (`tasks.map((t) => t.id)`). */
  function Ids(tasks: seq<Task>): (ids: seq<string>)
    ensures |ids| == |tasks|
    ensures forall i :: 0 <= i < |tasks| ==> ids[i] == tasks[i].id
  {
    seq(|tasks|, i requires 0 <= i < |tasks| => tasks[i].id)
  }

  /** `[...tasks, task]`. */
  function AddTask(tasks: seq<Task>, task: Task): (r: seq<Task>)
    ensures |r| == |tasks| + 1 && r[..|tasks|] == tasks && r[|tasks|] == task
  {
    tasks + [task]
  }

  /** `tasks.map((t) => (t.id === updated.id ? updated : t))`. */
  function UpdateTask(tasks: seq<Task>, updated: Task): (r: seq<Task>)
    ensures |r| == |tasks|
    ensures forall i :: 0 <= i < |tasks| && tasks[i].id == updated.id ==> r[i] == updated
    ensures forall i :: 0 <= i < |tasks| && tasks[i].id != updated.id ==> r[i] == tasks[i]
  {
    seq(|tasks|, i requires 0 <= i < |tasks| => if tasks[i].id == updated.id then updated else tasks[i])
  }

  /** `tasks.filter((t) => t.id !== id)`. */
  function DeleteTask(tasks: seq<Task>, id: string): (r: seq<Task>)
    ensures |r| <= |tasks|
    ensures forall t :: t in r ==> t in tasks && t.id != id
    ensures forall t :: t in tasks && t.id != id ==> t in r
    decreases |tasks|
  {
    if tasks == [] then []
    else (if tasks[0].id != id then [tasks[0]] else []) + DeleteTask(tasks[1..], id)
  }

  /** The ids offered to the add form: every current id, in order. */
  function IdsForAddForm(tasks: seq<Task>): (ids: seq<string>)
    ensures |ids| == |tasks|
    ensures forall i :: 0 <= i < |tasks| ==> ids[i] == tasks[i].id
    ensures forall x :: x in ids <==> exists t :: t in tasks && t.id == x
  {
    var ids := Ids(tasks);
    assert forall t :: t in tasks ==> t.id in ids by {
      forall t | t in tasks ensures t.id in ids {
        var i :| 0 <= i < |tasks| && tasks[i] == t;
        assert ids[i] == t.id;
      }
    }
    ids
  }

  /** The ids offered to the edit form: every current id except the edited task's. */
  function IdsForEditForm(tasks: seq<Task>, editing: Task): (ids: seq<string>)
    ensures forall x :: x in ids <==> x != editing.id && exists t :: t in tasks && t.id == x
  {
    var kept := DeleteTask(tasks, editing.id);
    var ids := Ids(kept);
    assert forall t :: t in kept ==> t.id in ids by {
      forall t | t in kept ensures t.id in ids {
        var i :| 0 <= i < |kept| && kept[i] == t;
        assert ids[i] == t.id;
      }
    }
    ids
  }

  /** Deleting from a concatenation deletes from each part: the kept tasks keep their order. */
  lemma {:induction false} DeleteDistributes(a: seq<Task>, b: seq<Task>, id: string)
    ensures DeleteTask(a + b, id) == DeleteTask(a, id) + DeleteTask(b, id)
    decreases |a|
  {
    if a != [] {
      assert (a + b)[1..] == a[1..] + b;
      DeleteDistributes(a[1..], b, id);
    } else {
      assert a + b == b;
    }
  }

  /** Deleting an id no task has leaves the list as it was. */
  lemma {:induction false} DeleteAbsentIsIdentity(tasks: seq<Task>, id: string)
    requires forall t :: t in tasks ==> t.id != id
    ensures DeleteTask(tasks, id) == tasks
    decreases |tasks|
  {
    if tasks != [] {
      DeleteAbsentIsIdentity(tasks[1..], id);
    }
  }

  /** After a delete no task has the deleted id; deleting twice is deleting once. */
  lemma DeleteRemovesId(tasks: seq<Task>, id: string)
    ensures forall t :: t in DeleteTask(tasks, id) ==> t.id != id
    ensures DeleteTask(DeleteTask(tasks, id), id) == DeleteTask(tasks, id)
  {
    DeleteAbsentIsIdentity(DeleteTask(tasks, id), id);
  }

  /** Adding a task with a new id and then deleting that id gives back the original list. */
  lemma DeleteUndoesAdd(tasks: seq<Task>, task: Task)
    requires forall t :: t in tasks ==> t.id != task.id
    ensures DeleteTask(AddTask(tasks, task), task.id) == tasks
  {
    DeleteDistributes(tasks, [task], task.id);
    DeleteAbsentIsIdentity(tasks, task.id);
    assert DeleteTask([task], task.id) == [] by {
      assert [task][1..] == [];
    }
  }

  /** Replacing a task keeps every id where it was, so the list's ids never change. */
  lemma UpdateKeepsIds(tasks: seq<Task>, updated: Task)
    ensures Ids(UpdateTask(tasks, updated)) == Ids(tasks)
  {
  }

  /** Replacing twice with the same task is replacing once. */
  lemma UpdateIdempotent(tasks: seq<Task>, updated: Task)
    ensures UpdateTask(UpdateTask(tasks, updated), updated) == UpdateTask(tasks, updated)
  {
  }

  /** A replacement is invisible once its id is deleted: only tasks with that id change. */
  lemma {:induction false} DeleteAfterUpdate(tasks: seq<Task>, updated: Task)
    ensures DeleteTask(UpdateTask(tasks, updated), updated.id) == DeleteTask(tasks, updated.id)
    decreases |tasks|
  {
    if tasks != [] {
      var u := UpdateTask(tasks, updated);
      assert u[1..] == UpdateTask(tasks[1..], updated);
      DeleteAfterUpdate(tasks[1..], updated);
    }
  }

  const EmptySaveMessage := "Please add at least one task before saving."
  const SavedMessage := "All tasks have been saved to the backend."
  const SaveFallback := "An error occurred while saving tasks"
  const EmptyRunMessage := "Please add at least one task before running analysis."
  const RunDoneMessage := "PERT analysis has been completed successfully."
  const RunFallback := "An error occurred while running analysis"

  /**
   * The panel. `tasks` is the list its parent owns: the handlers hand the new
   * list to `onTasksChange`, which the model applies here. An awaited request
   * splits a handler in two: the part before the request, and the
   * continuation that runs when it settles.
   */
  class Panel {
    var tasks: seq<Task>
    var isAddingTask: bool
    var editingTask: Option<Task>
    var isSaving: bool
    var isRunning: bool
    var toasts: seq<Toast>
    var pertResult: Option<PertResult>

    constructor (initial: seq<Task>)
      ensures tasks == initial && !isAddingTask && editingTask.None?
      ensures !isSaving && !isRunning && toasts == [] && pertResult.None?
    {
      tasks, isAddingTask, editingTask := initial, false, None;
      isSaving, isRunning, toasts, pertResult := false, false, [], None;
    }

    /** The ids the open forms receive: the add form's, then the edit form's. */
    function FormIds(): (ids: (Option<seq<string>>, Option<seq<string>>))
      reads this
      ensures ids.0.Some? <==> isAddingTask
      ensures ids.1.Some? <==> editingTask.Some?
      ensures isAddingTask ==> ids.0.value == IdsForAddForm(tasks)
      ensures editingTask.Some? ==> ids.1.value == IdsForEditForm(tasks, editingTask.value)
      ensures editingTask.Some? ==> editingTask.value.id !in ids.1.value
    {
      (if isAddingTask then Some(IdsForAddForm(tasks)) else None,
       if editingTask.Some? then Some(IdsForEditForm(tasks, editingTask.value)) else None)
    }

    /** "Add New Task" opens the add form. */
    method OpenAddForm()
      modifies this`isAddingTask
      ensures isAddingTask
    {
      isAddingTask := true;
    }

    /** The list's edit button opens the edit form on a task. */
    method StartEditing(task: Task)
      modifies this`editingTask
      ensures editingTask == Some(task)
    {
      editingTask := Some(task);
    }

    /** The add form's cancel button closes it. */
    method CancelAdd()
      modifies this`isAddingTask
      ensures !isAddingTask
    {
      isAddingTask := false;
    }

    /** The edit form's cancel button closes it. */
    method CancelEdit()
      modifies this`editingTask
      ensures editingTask.None?
    {
      editingTask := None;
    }

    /** `handleAddTask`: append, close the add form, confirm. */
    method HandleAddTask(task: Task)
      modifies this`tasks, this`isAddingTask, this`toasts
      ensures tasks == AddTask(old(tasks), task)
      ensures !isAddingTask
      ensures toasts == old(toasts) + [SuccessToast("Task \"" + task.id + "\" has been added successfully.")]
    {
      tasks := AddTask(tasks, task);
      isAddingTask := false;
      toasts := toasts + [SuccessToast("Task \"" + task.id + "\" has been added successfully.")];
    }

    /** `handleUpdateTask`: replace by id, close the edit form, confirm. */
    method HandleUpdateTask(updated: Task)
      modifies this`tasks, this`editingTask, this`toasts
      ensures tasks == UpdateTask(old(tasks), updated)
      ensures editingTask.None?
      ensures toasts == old(toasts) + [SuccessToast("Task \"" + updated.id + "\" has been updated successfully.")]
    {
      tasks := UpdateTask(tasks, updated);
      editingTask := None;
      toasts := toasts + [SuccessToast("Task \"" + updated.id + "\" has been updated successfully.")];
    }

    /** `handleDeleteTask`: drop every task with the id, report it. */
    method HandleDeleteTask(id: string)
      modifies this`tasks, this`toasts
      ensures tasks == DeleteTask(old(tasks), id)
      ensures toasts == old(toasts) + [ErrorToast("Task \"" + id + "\" has been deleted.")]
    {
      tasks := DeleteTask(tasks, id);
      toasts := toasts + [ErrorToast("Task \"" + id + "\" has been deleted.")];
    }

    /**
     * `handleSaveTasks` up to its request: an empty list is refused with a
     * toast and nothing is sent; otherwise the panel is busy and the list is sent.
     */
    method BeginSave() returns (request: Option<seq<Task>>)
      modifies this`isSaving, this`toasts
      ensures tasks == [] ==> request.None? && isSaving == old(isSaving) && toasts == old(toasts) + [ErrorToast(EmptySaveMessage)]
      ensures tasks != [] ==> request == Some(tasks) && isSaving && toasts == old(toasts)
    {
      if |tasks| == 0 {
        toasts := toasts + [ErrorToast(EmptySaveMessage)];
        return None;
      }
      isSaving := true;
      request := Some(tasks);
    }

    /** The continuation of `handleSaveTasks`: report the outcome; `finally` clears the flag. */
    method FinishSave(outcome: Result<string, Thrown>)
      modifies this`isSaving, this`toasts
      ensures !isSaving
      ensures outcome.Success? ==> toasts == old(toasts) + [SuccessToast(SavedMessage)]
      ensures outcome.Failure? ==> toasts == old(toasts) + [ErrorToast(CaughtMessage(outcome.error, SaveFallback))]
    {
      match outcome {
        case Success(_) =>
          toasts := toasts + [SuccessToast(SavedMessage)];
        case Failure(e) =>
          toasts := toasts + [ErrorToast(CaughtMessage(e, SaveFallback))];
      }
      isSaving := false;
    }

    /** `handleRunAnalysis` up to its request, guarded like saving. */
    method BeginRun() returns (request: Option<seq<Task>>)
      modifies this`isRunning, this`toasts
      ensures tasks == [] ==> request.None? && isRunning == old(isRunning) && toasts == old(toasts) + [ErrorToast(EmptyRunMessage)]
      ensures tasks != [] ==> request == Some(tasks) && isRunning && toasts == old(toasts)
    {
      if |tasks| == 0 {
        toasts := toasts + [ErrorToast(EmptyRunMessage)];
        return None;
      }
      isRunning := true;
      request := Some(tasks);
    }

    /** The continuation of `handleRunAnalysis`: a result goes to `onPertResult`; `finally` clears the flag. */
    method FinishRun(outcome: Result<PertResult, Thrown>)
      modifies this`isRunning, this`toasts, this`pertResult
      ensures !isRunning
      ensures outcome.Success? ==> pertResult == Some(outcome.value) && toasts == old(toasts) + [SuccessToast(RunDoneMessage)]
      ensures outcome.Failure? ==> pertResult == old(pertResult) && toasts == old(toasts) + [ErrorToast(CaughtMessage(outcome.error, RunFallback))]
    {
      match outcome {
        case Success(result) =>
          pertResult := Some(result);
          toasts := toasts + [SuccessToast(RunDoneMessage)];
        case Failure(e) =>
          toasts := toasts + [ErrorToast(CaughtMessage(e, RunFallback))];
      }
      isRunning := false;
    }
  }
}
