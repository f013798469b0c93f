// The useTasks hook (src/hooks/useTasks.ts): the task list, how each fetch
// outcome moves it, the status-change request that leaves it alone, and the
// push events that ask for a refetch.

module UseTasks {
  import opened Types

  /** The body of PUT /tasks/{id}: the only property sent is `status`. */
  datatype StatusUpdate = StatusUpdate(taskId: int, body: map<string, string>)

  /** The push bindings: channel "tasks", one event per kind of change, each bound to fetchTasks. */
  const Bindings: seq<(string, string)> := [("tasks", "task.updated"), ("tasks", "task.created"), ("tasks", "task.deleted")]

  /** Whether a push message on `channel` named `event` triggers fetchTasks. */
  function Refetches(channel: string, event: string): (r: bool)
    ensures r <==> channel == "tasks" && (event == "task.updated" || event == "task.created" || event == "task.deleted")
  {
    (channel, event) in Bindings
  }

  /** The hook's state. */
  class TaskBoard {
    var tasks: seq<Task>

    constructor ()
      ensures tasks == []
    {
      tasks := [];
    }

    /**
     * fetchTasks' response: ok replaces the list wholesale; a 401 sends the
     * user to /login and keeps the list; any other failure is only logged.
     */
    method FetchCompleted(response: Response<seq<Task>>) returns (toLogin: bool)
      modifies this`tasks
      ensures toLogin <==> response.Unauthorized?
      ensures tasks == if response.Ok? then response.data else old(tasks)
    {
      toLogin := false;
      match response {
        case Ok(data) => tasks := data;
        case Unauthorized => toLogin := true;
        case Failed =>
      }
    }

    /**
     * handleTaskStatusChange: the request it sends, whatever comes back. It
     * has no frame, so the list is left as it was on every outcome.
     */
    method StatusChange(taskId: int, newStatus: Status, response: Response<()>) returns (request: StatusUpdate)
      ensures request.taskId == taskId
      ensures request.body.Keys == {"status"} && request.body["status"] == StatusKey(newStatus)
    {
      request := StatusUpdate(taskId, map["status" := StatusKey(newStatus)]);
    }
  }
}
