# Eirini decision layer

A Dafny model of the decision layer of Eirini. This layer sits between the
platform's workloads and the Kubernetes objects that run them. Long-running
processes are called LRPs.

The model covers these parts:

- **Stateful-set desirer**: turns an LRP into a stateful set, with an optional
  registry-credentials secret and a pod disruption budget.
- **Stateful-set lookup**: picks exactly one stateful set for an LRP identifier.
- **Instance derivation**: reads an LRP's instances back from its pods and
  their events.
- **Job deleter**: removes a task's job and its image-pull secrets.
- **Pod-update route handler**: registers and unregisters a pod's routes as
  its readiness changes.
- **Task front door**: gets, lists, transfers and cancels tasks.
- **Controller filter**: decides which pod events the eirini controller
  processes.

Each Go component is a struct of injected collaborators. It is modelled as a
datatype whose fields are functions, for example `Desirer`, `Getter`,
`Deleter`, `Handler` and `TaskBifrost`. A collaborator's answer is therefore
a fixed function of its arguments.

The calls a component makes on creators, deleters, option hooks, the route
emitter and the JSON client are returned, in order, as a trace:

- a `seq<Call>`;
- or, for the route handler, a `seq<RouteMessage>`.

The postconditions then say what was called, in which order, and what came
back.

Go's error handling is written out in module `Go`:

- `errors.Wrap` of a nil error is nil.
- `errors.Is` and `errors.As` look through the wrap chain.
- A missing map key reads as `""`.
- `uint32(...)` keeps the low 32 bits.

The modules are:

- `Go`: error values, wrapping, `Lookup`, `HasPrefix`, `Contains`, `Uint32` and `FirstIndex`.
- `Kube`: the Kubernetes objects, reduced to the fields that are read, and the label and annotation keys.
- `Opi`: LRPs, instances, tasks and the task front door's request and response types.
- `StatefulSetLookup`, `StatefulSetGet` and `StatefulSetDesire`: the `k8s/stset` package.
- `JobDelete`: `k8s/jobs/delete.go`.
- `PodUpdateHandler`: `k8s/informers/route/event/pod_update_handler.go`.
- `Bifrost`: `bifrost/task.go`.
- `ControllerPredicate`: the `labelPredicate` of `cmd/eirini-controller/main.go`.

Two behaviours are worth spelling out, because the model follows the code:

- **Disruption budget.** The tests expect no budget for a single instance
  (k8s/stset/desire_test.go:81-83) and a budget with `minAvailable` 1 for
  two or more (k8s/stset/desire_test.go:110-128). That decision is made
  inside the budget-creating function, which is not part of this model.
  `Desire` calls that function after every successful creation
  (k8s/stset/desire.go:94-98). So the model records the call
  unconditionally.
- **Callback URL.** `delete` returns the completion-callback annotation as it
  reads it (k8s/jobs/delete.go:77-89). That is `""` when the annotation is
  absent, so even an owned job's deletion can return an empty URL. The model
  does the same.

## Model

| member | source | states |
|---|---|---|
| StatefulSetLookup.GetStatefulSet | k8s/stset/get_stset.go:20-36 | A lister error comes back wrapped as "failed to list statefulsets". The result is a stateful set exactly when the listing holds one, and then it is that one. Zero matches gives `NotFound`. Several matches give an error that is not `NotFound`. |
| StatefulSetLookup.NeverPicksAmongSeveral | k8s/stset/get_stset.go:27-34 | A successful lookup implies the listing was exactly that one stateful set. |
| StatefulSetGet.Get | k8s/stset/get.go:120-136 | Returns the mapper's LRP only when exactly one stateful set exists. Lookup errors pass through: wrapped lister error, `NotFound` for none, a non-`NotFound` error for several. |
| StatefulSetGet.IsStopped | k8s/stset/get.go:138-146 | True exactly when there are events and the last one's reason is `Killing`. |
| StatefulSetGet.HasInsufficientMemory | k8s/stset/get.go:148-157 | True exactly when there are events and the last one's reason is `FailedScheduling` or `NotTriggerScaleUp` and its message contains "Insufficient memory" somewhere. |
| StatefulSetGet.StoppedIsNotInsufficientMemory | k8s/stset/get.go:138-157 | No event list is classified both as stopped and as short of memory. |
| StatefulSetGet.InstanceFor | k8s/stset/get.go:96-113 | The instance carries the parsed index. `Since` is the start time, or 0 when there is none. A placement error is set exactly when memory ran short, and then the state is the error state with the insufficient-memory placement error. Otherwise the state is the pod's state. |
| StatefulSetGet.GetInstances | k8s/stset/get.go:62-118 | Only a `NotFound` LRP lookup returns early, with that error. Other lookup errors do not stop the call. A pod-list error is wrapped as "failed to list pods". Otherwise the result is the in-order walk `Instances` over the pods. |
| StatefulSetGet.AbortPersists | k8s/stset/get.go:77-94 | Once the walk fails on some pod, the whole call fails with that same error. |
| StatefulSetGet.SurvivorsMembership | k8s/stset/get.go:77-87 | A pod yields an instance exactly when its events can be read and its latest event is not a kill. |
| StatefulSetGet.InstancesFollowSurvivors | k8s/stset/get.go:75-115 | A successful result has one instance per surviving pod, in pod order, each built from that pod. It is never longer than the pod list. |
| StatefulSetGet.InstancesFailOnAnyPod | k8s/stset/get.go:78-94 | The walk fails exactly when some pod's events or index cannot be read. |
| StatefulSetDesire.PrivateRegistrySecretName | k8s/stset/desire.go:137-139 | The secret name starts with the stateful-set name and ends in `-registry-credentials`. |
| StatefulSetDesire.SecretNamesDistinct | k8s/stset/desire.go:137-139 | Different stateful-set names give different secret names. |
| StatefulSetDesire.GenerateRegistryCredsSecret | k8s/stset/desire.go:114-135 | Succeeds exactly when the docker config renders. The secret then has the derived name, the docker-config type, and exactly one data key holding the rendered JSON. A rendering error is wrapped. |
| StatefulSetDesire.CreateRegistryCredsSecret | k8s/stset/desire.go:103-112 | The calls are exactly `SecretCalls`: one creation when the secret can be generated. A generation error gives a wrapped error and no create call. Otherwise there is exactly one create call, in the namespace, and its error comes back wrapped (nil stays nil). |
| StatefulSetDesire.OptionCallsChain | k8s/stset/desire.go:78-81 | The option calls are numbered in order, one per option at most. Each runs on what the one before produced, the first on the given stateful set. All run when the options succeed; otherwise the last one run is the one that failed. |
| StatefulSetDesire.ApplyInTurn | k8s/stset/desire.go:78-81 | The loop over the options: its outcome is `ApplyAll`, each option applied to the previous result until one fails, and its calls are `OptionCalls`. |
| StatefulSetDesire.ApplyOpts | k8s/stset/desire.go:78-81 | Returns the options applied in order, stopping at the first error, and records exactly the calls `OptionCalls` lists. Each option runs at most once, in order, on what the one before produced, and the first runs on the given stateful set. On success all of them ran. On failure the last one that ran is the one that failed. |
| StatefulSetDesire.TracePositions | k8s/stset/desire.go:64-98 | In a trace of secret calls, then option calls, then the submission and the budget, each kind of call sits only in its own segment. |
| StatefulSetDesire.DesireTraceInOrder | k8s/stset/desire.go:64-98 | Every trace of that shape, with at most one secret call, is in order: at most one secret, all options, numbered from 0, right before the one submission, and at most one budget request, last. Each kind of call is present exactly when its segment is. |
| StatefulSetDesire.Submit | k8s/stset/desire.go:83-100 | The calls are exactly `SubmitCalls`: the creation, then a budget request only after a successful creation. "Already exists" counts as success and requests no budget. Any other create error is wrapped as "failed to create statefulset" and requests no budget. After a successful create, exactly one budget request follows, and its error comes back wrapped as "failed to create pod disruption budget". |
| StatefulSetDesire.Desire | k8s/stset/desire.go:56-101 | The calls are exactly `DesireCalls`: nothing after a naming error; the secret's creation for a private registry, stopping there when that step fails; then the options on the converted stateful set placed in the namespace, stopping at a failing option, and nothing at all when the conversion fails; then the submission and the budget request as in `Submit`. A naming error is returned as is, with no calls. A secret is created only for a private registry whose config renders, as the first call, under the derived name, in the namespace. A secret that cannot be generated gives the wrapped generation error and no calls. A failed secret creation gives the wrapped creation error, and that creation is the only call. The submitted stateful set is in the namespace and is the converted LRP after every option. Options run once each, in order, right before the one and only submission. There is at most one secret and at most one budget request, and the budget request is last. A conversion or option error is returned and nothing is submitted. When the name, the secret step, the conversion and every option succeed, the stateful set is submitted. After submission the create outcome decides the rest, as in `Submit`. Success implies a submission. |
| StatefulSetDesire.PrepareAndSubmit | k8s/stset/desire.go:72-100 | The calls are exactly `PrepareCalls`. A conversion error makes no option call. A conversion or option error is returned and nothing is submitted. Otherwise every option ran, numbered from 0, and the prepared stateful set is submitted with the outcomes of `Submit`. |
| JobDelete.GetJobByGUID | k8s/jobs/delete.go:55-70 | A list error is wrapped as "failed to list jobs". A job is returned only when exactly one is listed, and it is that one. Any other count is reported with the GUID and the count. |
| JobDelete.FoundJobIsTheOnlyOne | k8s/jobs/delete.go:63-69 | The job found was the only job listed. |
| JobDelete.MatchingMembership | k8s/jobs/delete.go:99-102 | A secret is selected exactly when it is one of the job's image-pull secrets and its name starts with the derived prefix. There are never more selected than there are pull secrets. |
| JobDelete.MatchingPrefix | k8s/jobs/delete.go:99-109 | The secrets selected from the first pull secrets are the first of all the secrets selected, so deletion proceeds in order. |
| JobDelete.DeleteDockerRegistrySecret | k8s/jobs/delete.go:92-111 | Deletes the selected secrets in order, in the job's namespace, and stops at the first failure. It succeeds exactly when every selected secret is deleted, and then all were requested. On failure the failing deletion is the last one requested, all earlier ones succeeded, and its error is wrapped as "failed to delete secret". |
| JobDelete.DeleteJobOf | k8s/jobs/delete.go:72-90 | A secret failure gives an empty URL and the job is not touched. The deletions stop at the first failing secret, every earlier one succeeded, and the error is that failure wrapped as "failed to delete secret". Otherwise an owned job is not deleted and its callback annotation is returned. An unowned job is deleted by namespace and name after all secret deletions. Its deletion failure gives an empty URL and an error wrapped as "failed to delete job". |
| JobDelete.Delete | k8s/jobs/delete.go:44-53 | A lookup failure gives an empty URL, that error, and no deletions. Only the found job's prefixed pull secrets, and the job itself when unowned, are deleted, all in its namespace. After a successful lookup the found job is handled exactly as `DeleteJobOf` states: a secret failure gives an empty URL, no job deletion, deletions that stop at the failing secret, and that failure wrapped as the error; otherwise every prefixed secret is deleted in order, an owned job is left alone and its callback annotation returned, and an unowned job is deleted last, its failure giving an empty URL and the wrapped error. A non-empty URL implies success. Success returns the job's completion-callback annotation, possibly empty. |
| PodUpdateHandler.IsReady | k8s/informers/route/event/pod_update_handler.go:105-113 | True exactly when the first `Ready` condition has status `True`. False when there is no `Ready` condition. |
| PodUpdateHandler.MarkedForDeletion | k8s/informers/route/event/pod_update_handler.go:122-124 | True exactly when the pod carries a deletion timestamp. |
| PodUpdateHandler.GetOwner | k8s/informers/route/event/pod_update_handler.go:89-103 | No owners is an error. No `StatefulSet` owner is another error. Whenever some owner reference has kind `StatefulSet`, the result is the getter's answer for the first such reference, in the pod's namespace. |
| PodUpdateHandler.DecodeRoutes | k8s/informers/route/event/pod_update_handler.go:115-120 | Decoded routes pass through. A decoding error is wrapped as "failed to unmarshal routes". |
| PodUpdateHandler.UserDefinedRoutes | k8s/informers/route/event/pod_update_handler.go:80-87 | An owner error is wrapped as "failed to get owner". Otherwise the routes are those decoded from the owner's registered-routes annotation (`""` when absent). |
| PodUpdateHandler.RoutesNeedStatefulSetOwner | k8s/informers/route/event/pod_update_handler.go:80-103 | Routes are resolved only for a pod with a `StatefulSet` owner that the getter can read and whose annotation decodes. |
| PodUpdateHandler.MessagesAppend | k8s/informers/route/event/pod_update_handler.go:45-58 | The messages for two route lists in a row are the messages of each list, back to back. |
| PodUpdateHandler.FailedRouteSkipped | k8s/informers/route/event/pod_update_handler.go:51-55 | A route whose message cannot be built is skipped, and the routes before and after it are still emitted. |
| PodUpdateHandler.MessagesPerRoute | k8s/informers/route/event/pod_update_handler.go:45-58 | At most one message per route. When every message can be built, exactly one per route, in route order, each built from its route's port (as `uint32`) and single hostname. |
| PodUpdateHandler.EmitRoutes | k8s/informers/route/event/pod_update_handler.go:45-58 | The messages emitted are `Messages` for the routes, in route order, skipping failed builds. |
| PodUpdateHandler.UnregisterPodRoutes | k8s/informers/route/event/pod_update_handler.go:61-78 | Emits the unregister messages for the routes, built from the given pod. |
| PodUpdateHandler.Handle | k8s/informers/route/event/pod_update_handler.go:28-59 | If the routes cannot be resolved, nothing is emitted. If the updated pod is being deleted, or was ready and no longer is, it emits the unregister messages for the owner's routes, built from the old pod. Otherwise it emits the register messages, built from the updated pod, including for a pod that was not ready and still is not. |
| Bifrost.GetTask | bifrost/task.go:43-50 | The response holds the task's GUID. A client error is wrapped as "failed to get task". |
| Bifrost.ListTasks | bifrost/task.go:52-64 | A list error is wrapped as "failed to list tasks". Otherwise there is one response per task, in order, with matching GUIDs. |
| Bifrost.TransferTask | bifrost/task.go:66-75 | A conversion failure is wrapped as "failed to convert task" and makes no other call. Otherwise: convert, then get the namespace for the request's namespace, then desire the converted task there. The desire error comes back wrapped as "failed to desire". Success exactly when conversion and desire both succeed. |
| Bifrost.CancelTask | bifrost/task.go:77-96 | A delete error is wrapped with the task GUID and nothing is posted. An empty callback URL returns nil and posts nothing. Otherwise exactly one report, `{guid, failed, "task was cancelled"}`, is posted to that URL, and the call returns nil. |
| ControllerPredicate.Create | cmd/eirini-controller/main.go:113-115 | Always false. |
| ControllerPredicate.Delete | cmd/eirini-controller/main.go:117-119 | Always false. |
| ControllerPredicate.Update | cmd/eirini-controller/main.go:120-125 | True exactly when the new object has the source-type label and it equals `APP`. A missing label gives false. |
| ControllerPredicate.Generic | cmd/eirini-controller/main.go:126-128 | Always false. |
| ControllerPredicate.OnlyAppUpdatesAdmitted | cmd/eirini-controller/main.go:112-128 | An event passes the filter exactly when it is an update whose new object is labelled `APP`. |

## Left out

- `StatefulSetDesire.Desire`: the disruption budget's shape is not stated.
  No budget for one instance, and `minAvailable` 1 for two, are decided
  inside `newCreatePodDisruptionBudgetFunc`, which is not part of this model.
  The model only records the budget request with the namespace and the
  stateful-set name.
- `StatefulSetDesire.ApplyOpts`: `shared.ApplyOpts` is not part of this model.
  It is modelled as "each option in turn, stopping at the first error".
  - The Go options mutate one shared `*StatefulSet` in place. The model passes
    each option's result value on to the next option.
  - So "every option sees the same object" is stated as a chain of values.
    Aliasing is not modelled.
- The following functions have no shown body. Each is an uninterpreted field
  of the component's collaborator datatype:
  - stateful-set naming (`utils.GetStatefulsetName`);
  - LRP-to-stateful-set conversion;
  - docker-config rendering (`dockerutils`);
  - `util.ParseAppIndex` and `utils.GetPodState`;
  - `dockerImagePullSecretNamePrefix`;
  - `route.NewRouteMessage`;
  - JSON decoding of the routes annotation;
  - the task converter and namespacer.
- The string values of the label and annotation keys, `opi.ErrorState` and
  `opi.InsufficientMemoryError` are not declared in the modelled files. They
  appear as named constants, and the contracts refer to them by name.
- Error texts are constructors of `Go.Error`, not strings. The ones built
  with `fmt.Errorf` are "multiple statefulsets found ..." and "job with
  guid ... should have 1 instance ...". The ones built with `errors.New` are
  "there are no owners" and "there are no statefulset owners"
  (k8s/informers/route/event/pod_update_handler.go:93,102).
- Logging (`lager` sessions and debug output) and the debug `fmt.Printf` in
  `labelPredicate.Update` produce no decision and are not modelled.
- `CancelTask`'s goroutine is modelled only as a `Post` call in the trace.
  Its timing, its concurrency and the ignored result of the post are out of
  scope.
- `int64` start times and Kubernetes timestamps are unbounded integers.
  Only the deletion timestamp's presence matters.
- The task-completion reconciler and reporter, and the crash-event generator,
  have tests but no shown implementation, so they are not modelled.
- The process bootstrapping (`main`, `readConfigFile`, manager wiring,
  `podCrashReconciler`), the other commands, the generated fakes and the test
  fixtures are not modelled.
