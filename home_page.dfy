/** The landing page of `src/app/page.tsx`: once the session is known it
    always moves on, to the task list or to the sign-in page. */
module HomePage {

  const TasksPath := "/tasks"
  const LoginPath := "/login"

  /** The `router.push` calls one run of the effect issues. */
  function Navigations(isLoading: bool, isAuthenticated: bool): (pushes: seq<string>)
    ensures |pushes| == if isLoading then 0 else 1
    ensures !isLoading ==> (pushes[0] == TasksPath <==> isAuthenticated)
    ensures !isLoading ==> (pushes[0] == LoginPath <==> !isAuthenticated)
  {
    if isLoading then []
    else if isAuthenticated then [TasksPath]
    else [LoginPath]
  }
}
