/** The task front door (bifrost/task.go): reading, listing, transferring and
    cancelling tasks through the task client. The collaborators are fields of
    `TaskBifrost`; every call made on them is recorded, in order, in the
    returned trace. */
module Bifrost {
  import opened Go
  import opened Opi

  /** The collaborators a `bifrost.Task` is built from. */
  datatype TaskBifrost = TaskBifrost(
    getNamespace: string -> string,                      // TaskNamespacer.GetNamespace
    convertTask: (string, TaskRequest) -> Result<Task>,  // TaskConverter.ConvertTask
    desire: (string, Task) -> Option<Error>,             // TaskClient.Desire
    get: string -> Result<Task>,                         // TaskClient.Get
    list: () -> Result<seq<Task>>,                       // TaskClient.List
    delete: string -> Result<string>)                    // TaskClient.Delete: the callback URL

  /** One call made on a collaborator. */
  datatype Call =
    | ConvertTask(taskGUID: string, request: TaskRequest)
    | GetNamespace(requested: string)
    | DesireTask(namespace: string, task: Task)
    | DeleteTask(taskGUID: string)
    | Post(url: string, report: TaskCompletedRequest)   // JSONClient.Post, issued in the background

  const CancelledReason := "task was cancelled"

  /** `GetTask`: the task's GUID, or the client's error with context. */
  function GetTask(b: TaskBifrost, taskGUID: string): (r: Result<TaskResponse>)
    ensures b.get(taskGUID).Ok? ==> r == Ok(TaskResponse(b.get(taskGUID).value.guid))
    ensures b.get(taskGUID).Err? ==> r == Err(Wrapped("failed to get task", b.get(taskGUID).error))
  {
    match b.get(taskGUID)
    case Err(e) => Err(Wrapped("failed to get task", e))
    case Ok(task) => Ok(TaskResponse(task.guid))
  }

  /** `ListTasks`: one response per listed task, in order. */
  method ListTasks(b: TaskBifrost) returns (r: Result<seq<TaskResponse>>)
    ensures b.list().Err? ==> r == Err(Wrapped("failed to list tasks", b.list().error))
    ensures b.list().Ok? ==>
              && r.Ok?
              && |r.value| == |b.list().value|
              && forall i :: 0 <= i < |r.value| ==> r.value[i].guid == b.list().value[i].guid
  {
    var listed := b.list();
    if listed.Err? {
      return Err(Wrapped("failed to list tasks", listed.error));
    }
    var tasks := listed.value;
    var responses: seq<TaskResponse> := [];
    for i := 0 to |tasks|
      invariant |responses| == i
      invariant forall j :: 0 <= j < i ==> responses[j].guid == tasks[j].guid
    {
      responses := responses + [TaskResponse(tasks[i].guid)];
    }
    return Ok(responses);
  }

  /** `TransferTask`: convert, then resolve the namespace, then desire. */
  method TransferTask(b: TaskBifrost, taskGUID: string, request: TaskRequest) returns (err: Option<Error>, calls: seq<Call>)
    // a conversion failure stops before the namespace lookup and the desire
    ensures b.convertTask(taskGUID, request).Err? ==>
              && err == Some(Wrapped("failed to convert task", b.convertTask(taskGUID, request).error))
              && calls == [ConvertTask(taskGUID, request)]
    // otherwise the converted task is desired in the namespace resolved for the request
    ensures b.convertTask(taskGUID, request).Ok? ==>
              var namespace := b.getNamespace(request.namespace);
              var task := b.convertTask(taskGUID, request).value;
              && calls == [ConvertTask(taskGUID, request), GetNamespace(request.namespace), DesireTask(namespace, task)]
              && err == Wrap("failed to desire", b.desire(namespace, task))
    // success exactly when both the conversion and the desire succeed
    ensures err.None? <==>
              b.convertTask(taskGUID, request).Ok? &&
              b.desire(b.getNamespace(request.namespace), b.convertTask(taskGUID, request).value).None?
  {
    calls := [ConvertTask(taskGUID, request)];
    var desired := b.convertTask(taskGUID, request);
    if desired.Err? {
      return Some(Wrapped("failed to convert task", desired.error)), calls;
    }
    calls := calls + [GetNamespace(request.namespace)];
    var namespace := b.getNamespace(request.namespace);
    calls := calls + [DesireTask(namespace, desired.value)];
    err := Wrap("failed to desire", b.desire(namespace, desired.value));
  }

  /** `CancelTask`: delete the task and, when it has a callback URL, report
      it as failed by cancellation; the report's outcome is not awaited. */
  method CancelTask(b: TaskBifrost, taskGUID: string) returns (err: Option<Error>, calls: seq<Call>)
    // a failed deletion is reported with the GUID, and nothing is posted
    ensures b.delete(taskGUID).Err? ==>
              err == Some(Wrapped("failed to delete task " + taskGUID, b.delete(taskGUID).error)) &&
              calls == [DeleteTask(taskGUID)]
    // a deleted task without a callback URL is cancelled silently
    ensures b.delete(taskGUID) == Ok("") ==> err.None? && calls == [DeleteTask(taskGUID)]
    // otherwise exactly one failure report goes to the URL, and the call succeeds
    ensures b.delete(taskGUID).Ok? && b.delete(taskGUID).value != "" ==>
              && err.None?
              && calls == [DeleteTask(taskGUID), Post(b.delete(taskGUID).value, TaskCompletedRequest(taskGUID, true, "task was cancelled"))]
    // a report is posted only after a successful deletion that gave a URL
    ensures forall i :: 0 <= i < |calls| && calls[i].Post? ==>
              i > 0 && calls[i - 1] == DeleteTask(taskGUID) && b.delete(taskGUID).Ok? && calls[i].url == b.delete(taskGUID).value != ""
  {
    calls := [DeleteTask(taskGUID)];
    var deleted := b.delete(taskGUID);
    if deleted.Err? {
      return Some(Wrapped("failed to delete task " + taskGUID, deleted.error)), calls;
    }
    var callbackURL := deleted.value;
    if |callbackURL| == 0 {
      return None, calls;
    }
    calls := calls + [Post(callbackURL, TaskCompletedRequest(taskGUID, true, CancelledReason))];
    return None, calls;
  }
}
