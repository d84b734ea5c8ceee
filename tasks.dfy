/** The task records of `src/types/task.ts`, the REST calls the task pages
    make, and the list updates `src/app/tasks/page.tsx` applies: replace by
    id (`map`), remove by id (`filter`) and look up by id (`find`). */
module Tasks {

  import opened Wrappers

  datatype Task = Task(
    taskId: string,
    userId: string,
    title: string,
    description: string,
    isCompleted: bool,
    createdAt: string,
    updatedAt: string,
    completedAt: Option<string>)

  /** The body of a create request. */
  datatype CreateTaskRequest = CreateTaskRequest(title: string, description: string)

  /** The body of an update request; None is a key left out of the body. */
  datatype UpdateTaskRequest = UpdateTaskRequest(title: Option<string>, description: Option<string>)

  /** A call on the task endpoints, with its method, path and body. */
  datatype TaskCall =
    | GetTasks(endpoint: string)
    | PostTask(endpoint: string, create: CreateTaskRequest)
    | PutTask(endpoint: string, update: UpdateTaskRequest)
    | PatchCompletion(endpoint: string, isCompleted: bool)
    | DeleteTask(endpoint: string)

  /** `/api/${userId}/tasks` */
  function TasksEndpoint(userId: string): string
  {
    "/api/" + userId + "/tasks"
  }

  /** `/api/${userId}/tasks/${taskId}` */
  function TaskEndpoint(userId: string, taskId: string): string
  {
    TasksEndpoint(userId) + "/" + taskId
  }

  /** `tasks.map(t => t.task_id === updated.task_id ? updated : t)` */
  function ReplaceById(tasks: seq<Task>, updated: Task): (r: seq<Task>)
    ensures |r| == |tasks|
    ensures forall i :: 0 <= i < |r| ==>
      r[i] == (if tasks[i].taskId == updated.taskId then updated else tasks[i])
  {
    if tasks == [] then []
    else [if tasks[0].taskId == updated.taskId then updated else tasks[0]] + ReplaceById(tasks[1..], updated)
  }

  /** `tasks.filter(t => t.task_id !== id)` */
  function RemoveById(tasks: seq<Task>, id: string): (r: seq<Task>)
    ensures |r| <= |tasks|
    ensures forall t :: t in r <==> t in tasks && t.taskId != id
  {
    if tasks == [] then []
    else (if tasks[0].taskId != id then [tasks[0]] else []) + RemoveById(tasks[1..], id)
  }

  /** `tasks.find(t => t.task_id === id)`: the first task with that id. */
  function FindById(tasks: seq<Task>, id: string): (r: Option<Task>)
    ensures r.None? <==> forall i :: 0 <= i < |tasks| ==> tasks[i].taskId != id
    ensures r.Some? ==> r.value.taskId == id
    ensures r.Some? ==>
      exists i :: 0 <= i < |tasks| && tasks[i] == r.value && (forall j :: 0 <= j < i ==> tasks[j].taskId != id)
  {
    if tasks == [] then None
    else if tasks[0].taskId == id then Some(tasks[0])
    else
      var rest := FindById(tasks[1..], id);
      if rest.Some? then
        assert forall i :: 0 <= i < |tasks| - 1 ==> tasks[1..][i] == tasks[i + 1];
        Some(rest.value)
      else None
  }

  /** Replacing with the same task twice is replacing once. */
  lemma ReplaceByIdIdempotent(tasks: seq<Task>, updated: Task)
    ensures ReplaceById(ReplaceById(tasks, updated), updated) == ReplaceById(tasks, updated)
  {
  }

  /** Replacing an id that no task has leaves the list as it is. */
  lemma ReplaceByIdAbsent(tasks: seq<Task>, updated: Task)
    requires forall i :: 0 <= i < |tasks| ==> tasks[i].taskId != updated.taskId
    ensures ReplaceById(tasks, updated) == tasks
  {
  }

  /** Removal keeps the relative order of what stays: it distributes over
      concatenation. */
  lemma {:induction false} RemoveByIdAppend(a: seq<Task>, b: seq<Task>, id: string)
    ensures RemoveById(a + b, id) == RemoveById(a, id) + RemoveById(b, id)
    decreases |a|
  {
    if a == [] {
      assert a + b == b;
    } else {
      assert (a + b)[1..] == a[1..] + b;
      RemoveByIdAppend(a[1..], b, id);
    }
  }

  /** A task list free of the id is left as it is by removal. */
  lemma {:induction false} RemoveByIdAbsent(tasks: seq<Task>, id: string)
    requires forall i :: 0 <= i < |tasks| ==> tasks[i].taskId != id
    ensures RemoveById(tasks, id) == tasks
    decreases |tasks|
  {
    if tasks != [] {
      RemoveByIdAbsent(tasks[1..], id);
    }
  }

  /** Removing after replacing the same id is removing alone: a replaced
      task leaves no trace once its id is deleted. */
  lemma {:induction false} RemoveAfterReplace(tasks: seq<Task>, updated: Task)
    ensures RemoveById(ReplaceById(tasks, updated), updated.taskId) == RemoveById(tasks, updated.taskId)
    decreases |tasks|
  {
    if tasks != [] {
      assert ReplaceById(tasks, updated)[1..] == ReplaceById(tasks[1..], updated);
      RemoveAfterReplace(tasks[1..], updated);
    }
  }

  /** A lookup finds a task exactly when removal by the same id drops one. */
  lemma {:induction false} FindIffRemoves(tasks: seq<Task>, id: string)
    ensures FindById(tasks, id).Some? <==> |RemoveById(tasks, id)| < |tasks|
    decreases |tasks|
  {
    if tasks != [] {
      FindIffRemoves(tasks[1..], id);
    }
  }
}
