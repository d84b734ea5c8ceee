/** The task list of `src/components/TaskList.tsx`. It never changes the
    tasks itself: a toggle or a delete is sent to the server and only a
    successful reply is passed up to the parent. Its own state is the
    error banner and the inline-edit fields. */
module TaskList {

  import opened Wrappers
  import opened Tasks

  const ToggleErrorFallback := "An unknown error occurred while updating task"
  const DeleteErrorFallback := "An unknown error occurred while deleting task"

  /** Which optional callback props the parent passed. */
  datatype Callbacks = Callbacks(onTaskUpdate: bool, onTaskEdit: bool, onTaskDelete: bool, onTaskFormToggle: bool)

  /** A call of one of the parent's callbacks. */
  datatype Notice =
    | TaskUpdated(task: Task)
    | EditRequested(task: Task)
    | TaskDeleted(taskId: string)
    | FormToggled(task: Task)

  /** The callback `handleEditClick` calls: `onTaskFormToggle` first, else
      `onTaskEdit`; None when the list edits inline. */
  function EditNotice(task: Task, cb: Callbacks): (n: Option<Notice>)
    ensures n.None? <==> !cb.onTaskFormToggle && !cb.onTaskEdit
    ensures cb.onTaskFormToggle ==> n == Some(FormToggled(task))
    ensures !cb.onTaskFormToggle && cb.onTaskEdit ==> n == Some(EditRequested(task))
  {
    if cb.onTaskFormToggle then Some(FormToggled(task))
    else if cb.onTaskEdit then Some(EditRequested(task))
    else None
  }

  class List {
    var error: Option<string>
    var editingTaskId: Option<string>
    var editText: string

    constructor ()
      ensures error == None && editingTaskId == None && editText == ""
    {
      error := None;
      editingTaskId := None;
      editText := "";
    }

    /** `toggleTaskCompletion`: an id not in `tasks` sends nothing; otherwise
        the negated flag is patched, and the server's task goes to
        `onTaskUpdate` only if the call succeeds. A failure only sets the
        banner; nothing is rolled back because nothing changed. */
    method ToggleCompletion(userId: string, tasks: seq<Task>, taskId: string, cb: Callbacks, result: Outcome<Task>)
      returns (sent: Option<TaskCall>, notice: Option<Notice>)
      modifies this
      ensures editingTaskId == old(editingTaskId) && editText == old(editText)
      ensures old(error).Some? ==> error.Some?
      ensures FindById(tasks, taskId).None? ==> sent == None && notice == None && error == old(error)
      ensures FindById(tasks, taskId).Some? ==>
        && sent == Some(PatchCompletion(TaskEndpoint(userId, taskId), !FindById(tasks, taskId).value.isCompleted))
        && (result.Ok? ==> error == old(error) && notice == (if cb.onTaskUpdate then Some(TaskUpdated(result.value)) else None))
        && (result.Fail? ==> notice == None && error == Some(MessageOr(result.thrown, ToggleErrorFallback)))
    {
      sent := None;
      notice := None;
      var found := FindById(tasks, taskId);
      if found.None? {
        return;
      }
      sent := Some(PatchCompletion(TaskEndpoint(userId, taskId), !found.value.isCompleted));
      match result {
        case Ok(updated) =>
          if cb.onTaskUpdate {
            notice := Some(TaskUpdated(updated));
          }
        case Fail(t) =>
          error := Some(MessageOr(t, ToggleErrorFallback));
      }
    }

    /** `deleteTask`: the delete is always sent; `onTaskDelete` hears of it
        only after it succeeds. */
    method Delete(userId: string, taskId: string, cb: Callbacks, result: Outcome<()>)
      returns (sent: TaskCall, notice: Option<Notice>)
      modifies this
      ensures editingTaskId == old(editingTaskId) && editText == old(editText)
      ensures old(error).Some? ==> error.Some?
      ensures sent == DeleteTask(TaskEndpoint(userId, taskId))
      ensures result.Ok? ==> error == old(error) && notice == (if cb.onTaskDelete then Some(TaskDeleted(taskId)) else None)
      ensures result.Fail? ==> notice == None && error == Some(MessageOr(result.thrown, DeleteErrorFallback))
    {
      sent := DeleteTask(TaskEndpoint(userId, taskId));
      notice := None;
      match result {
        case Ok(_) =>
          if cb.onTaskDelete {
            notice := Some(TaskDeleted(taskId));
          }
        case Fail(t) =>
          error := Some(MessageOr(t, DeleteErrorFallback));
      }
    }

    /** `handleEditClick`: hand the task to the parent, or start editing it
        inline with its title. */
    method EditClick(task: Task, cb: Callbacks) returns (notice: Option<Notice>)
      modifies this
      ensures notice == EditNotice(task, cb)
      ensures error == old(error)
      ensures notice.Some? ==> editingTaskId == old(editingTaskId) && editText == old(editText)
      ensures notice.None? ==> editingTaskId == Some(task.taskId) && editText == task.title
    {
      notice := EditNotice(task, cb);
      if notice.None? {
        editingTaskId := Some(task.taskId);
        editText := task.title;
      }
    }

    /** `handleSaveEdit`: leaves edit mode (when the id is truthy) and sends
        nothing; the edited text is kept. */
    method SaveEdit()
      modifies this
      ensures error == old(error) && editText == old(editText)
      ensures old(editingTaskId).Some? && old(editingTaskId).value != "" ==> editingTaskId == None
      ensures !(old(editingTaskId).Some? && old(editingTaskId).value != "") ==> editingTaskId == old(editingTaskId)
    {
      if editingTaskId.Some? && editingTaskId.value != "" {
        editingTaskId := None;
      }
    }

    /** `handleCancelEdit`: leaves edit mode and clears the text. */
    method CancelEdit()
      modifies this
      ensures error == old(error) && editingTaskId == None && editText == ""
    {
      editingTaskId := None;
      editText := "";
    }
  }
}
