/** The platform-side workload descriptors: long-running processes (LRPs),
    their instances, and tasks with their front-door request and response shapes. */
module Opi {
  import Go

  /** `opi.LRPIdentifier`: the {GUID, Version} pair naming one workload. */
  datatype LRPIdentifier = LRPIdentifier(guid: string, version: string)

  datatype PrivateRegistry = PrivateRegistry(server: string, username: string, password: string)

  /** `opi.LRP`, reduced to the fields the desirer and getter read. */
  datatype LRP = LRP(
    id: LRPIdentifier,
    appName: string,
    spaceName: string,
    targetInstances: int,
    privateRegistry: Go.Option<PrivateRegistry>)

  // Instance states and placement errors (package opi; the declarations are not part of this model).
  const ErrorState := "UNCLAIMED"
  const InsufficientMemoryError := "Insufficient resources: memory"

  /** `opi.Instance`: one running copy of an LRP, derived from a pod. */
  datatype Instance = Instance(index: int, state: string, placementError: string, since: int)

  /** `opi.Task`, reduced to its GUID and the image it runs. */
  datatype Task = Task(guid: string, image: string)

  /** `cf.TaskRequest`: what the front door receives when a task is transferred. */
  datatype TaskRequest = TaskRequest(namespace: string, appName: string, completionCallback: string)

  /** `cf.TaskResponse`. */
  datatype TaskResponse = TaskResponse(guid: string)

  /** `cf.TaskCompletedRequest`: the report posted to a task's completion callback. */
  datatype TaskCompletedRequest = TaskCompletedRequest(taskGUID: string, failed: bool, failureReason: string)
}
