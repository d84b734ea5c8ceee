/** The task page of `src/app/tasks/page.tsx`: it owns the task list and
    applies the list's and the form's reports to it. The page renders
    behind `ProtectedRoute` with its defaults, so only a signed-in user
    reaches it. */
module TasksPage {

  import opened Wrappers
  import opened Tasks
  import Users
  import TaskList

  const LoadFailedMessage := "Failed to load tasks. Please try again later."

  class Page {
    var tasks: seq<Task>
    var loading: bool
    var error: Option<string>
    var editingTask: Option<Task>
    var showForm: bool

    constructor ()
      ensures tasks == [] && loading && error == None && editingTask == None && !showForm
    {
      tasks := [];
      loading := true;
      error := None;
      editingTask := None;
      showForm := false;
    }

    /** `fetchTasks`: nothing at all without a user id; otherwise the list
        is replaced by the server's, in its order, or kept with a fixed
        message on failure. */
    method FetchTasks(user: Option<Users.User>, result: Outcome<seq<Task>>) returns (sent: Option<TaskCall>)
      modifies this
      ensures editingTask == old(editingTask) && showForm == old(showForm)
      ensures !Users.HasUserId(user) ==> sent == None && unchanged(this)
      ensures Users.HasUserId(user) ==>
        && sent == Some(GetTasks(TasksEndpoint(user.value.userId)))
        && !loading
        && (result.Ok? ==> tasks == result.value && error == None)
        && (result.Fail? ==> tasks == old(tasks) && error == Some(LoadFailedMessage))
    {
      sent := None;
      if !Users.HasUserId(user) {
        return;
      }
      loading := true;
      error := None;
      sent := Some(GetTasks(TasksEndpoint(user.value.userId)));
      match result {
        case Ok(fetched) =>
          tasks := fetched;
        case Fail(_) =>
          error := Some(LoadFailedMessage);
      }
      loading := false;
    }

    /** `handleTaskUpdate`: every task with the reported id is replaced;
        length, order and the other tasks stay. */
    method HandleTaskUpdate(updated: Task)
      modifies this
      ensures tasks == ReplaceById(old(tasks), updated)
      ensures loading == old(loading) && error == old(error) && editingTask == old(editingTask) && showForm == old(showForm)
    {
      tasks := ReplaceById(tasks, updated);
    }

    /** `handleTaskEdit`: open the form on that task. */
    method HandleTaskEdit(task: Task)
      modifies this
      ensures editingTask == Some(task) && showForm
      ensures tasks == old(tasks) && loading == old(loading) && error == old(error)
    {
      editingTask := Some(task);
      showForm := true;
    }

    /** `handleTaskDelete`: every task with that id goes; the rest keep
        their order. */
    method HandleTaskDelete(taskId: string)
      modifies this
      ensures tasks == RemoveById(old(tasks), taskId)
      ensures loading == old(loading) && error == old(error) && editingTask == old(editingTask) && showForm == old(showForm)
    {
      tasks := RemoveById(tasks, taskId);
    }

    /** `handleSubmitTask`: the saved task replaces its old entry when a
        task was being edited and is put first otherwise; the form closes. */
    method HandleSubmitTask(saved: Task)
      modifies this
      ensures old(editingTask).Some? ==> tasks == ReplaceById(old(tasks), saved)
      ensures old(editingTask).None? ==> tasks == [saved] + old(tasks)
      ensures !showForm && editingTask == None
      ensures loading == old(loading) && error == old(error)
    {
      if editingTask.Some? {
        HandleTaskUpdate(saved);
      } else {
        tasks := [saved] + tasks;
      }
      showForm := false;
      editingTask := None;
    }

    /** `handleCancelForm`: the form closes and the list stays. */
    method HandleCancelForm()
      modifies this
      ensures !showForm && editingTask == None
      ensures tasks == old(tasks) && loading == old(loading) && error == old(error)
    {
      editingTask := None;
      showForm := false;
    }

    /** The 'Add New Task' button: an empty form. */
    method AddNewTask()
      modifies this
      ensures showForm && editingTask == None
      ensures tasks == old(tasks) && loading == old(loading) && error == old(error)
    {
      editingTask := None;
      showForm := true;
    }

    /** A report of the task list reaching the page's handlers (the page
        passes `handleTaskEdit` as both edit callbacks). */
    method Deliver(notice: TaskList.Notice)
      modifies this
      ensures notice.TaskUpdated? ==> tasks == ReplaceById(old(tasks), notice.task)
      ensures notice.TaskDeleted? ==> tasks == RemoveById(old(tasks), notice.taskId)
      ensures notice.EditRequested? || notice.FormToggled? ==>
        tasks == old(tasks) && editingTask == Some(notice.task) && showForm
      ensures notice.TaskUpdated? || notice.TaskDeleted? ==> editingTask == old(editingTask) && showForm == old(showForm)
      ensures loading == old(loading) && error == old(error)
    {
      match notice {
        case TaskUpdated(t) => HandleTaskUpdate(t);
        case TaskDeleted(id) => HandleTaskDelete(id);
        case EditRequested(t) => HandleTaskEdit(t);
        case FormToggled(t) => HandleTaskEdit(t);
      }
    }

    /** A completion toggle from the list, end to end: the page's tasks
        change only when the server accepted it, and then only at the
        entries with that id. */
    method ToggleFromList(list: TaskList.List, userId: string, taskId: string, result: Outcome<Task>)
      returns (sent: Option<TaskCall>)
      modifies this, list
      ensures |tasks| == |old(tasks)|
      ensures FindById(old(tasks), taskId).Some? && result.Ok? ==> tasks == ReplaceById(old(tasks), result.value)
      ensures FindById(old(tasks), taskId).None? || result.Fail? ==> tasks == old(tasks)
      ensures sent.Some? <==> FindById(old(tasks), taskId).Some?
      ensures sent.Some? ==>
        sent == Some(PatchCompletion(TaskEndpoint(userId, taskId), !FindById(old(tasks), taskId).value.isCompleted))
      ensures loading == old(loading) && error == old(error) && editingTask == old(editingTask) && showForm == old(showForm)
      ensures list.editingTaskId == old(list.editingTaskId) && list.editText == old(list.editText)
      ensures FindById(old(tasks), taskId).None? || result.Ok? ==> list.error == old(list.error)
      ensures FindById(old(tasks), taskId).Some? && result.Fail? ==>
        list.error == Some(MessageOr(result.thrown, TaskList.ToggleErrorFallback))
    {
      var cb := TaskList.Callbacks(true, true, true, true);
      var notice;
      sent, notice := list.ToggleCompletion(userId, tasks, taskId, cb, result);
      if notice.Some? {
        Deliver(notice.value);
      }
    }

    /** A delete from the list, end to end: the page drops the task only
        when the server accepted the delete. */
    method DeleteFromList(list: TaskList.List, userId: string, taskId: string, result: Outcome<()>)
      modifies this, list
      ensures result.Ok? ==> tasks == RemoveById(old(tasks), taskId)
      ensures result.Fail? ==> tasks == old(tasks) && list.error.Some?
      ensures result.Ok? ==> list.error == old(list.error)
      ensures result.Fail? ==> list.error == Some(MessageOr(result.thrown, TaskList.DeleteErrorFallback))
      ensures loading == old(loading) && error == old(error) && editingTask == old(editingTask) && showForm == old(showForm)
      ensures list.editingTaskId == old(list.editingTaskId) && list.editText == old(list.editText)
    {
      var cb := TaskList.Callbacks(true, true, true, true);
      var _, notice := list.Delete(userId, taskId, cb, result);
      if notice.Some? {
        Deliver(notice.value);
      }
    }
  }
}
