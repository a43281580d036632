/** Reading an LRP and its instances back from the cluster (k8s/stset/get.go). */
module StatefulSetGet {
  import opened Go
  import opened Kube
  import opened Opi
  import StatefulSetLookup

  const EventKilling := "Killing"
  const EventFailedScheduling := "FailedScheduling"
  const EventFailedScaleUp := "NotTriggerScaleUp"
  const InsufficientMemoryMessage := "Insufficient memory"

  /** The collaborators a `Getter` is built from. */
  datatype Getter = Getter(
    listStatefulSets: LRPIdentifier -> Result<seq<StatefulSet>>,  // StatefulSetByLRPIdentifierGetter
    listPods: LRPIdentifier -> Result<seq<Pod>>,                   // PodGetter
    eventsFor: Pod -> Result<seq<Event>>,                          // EventGetter
    lrpMapper: StatefulSet -> Result<LRP>,                         // StatefulSetToLRP
    parseAppIndex: string -> Result<int>,                          // util.ParseAppIndex
    podState: Pod -> string)                                       // utils.GetPodState

  /** `Getter.Get` (through `getLRP`): map the single stateful set of the
      identifier to an LRP. */
  function Get(g: Getter, id: LRPIdentifier): (r: Result<LRP>)
    // a result only when exactly one stateful set exists, and then the mapper's result for it
    ensures r.Ok? ==> g.listStatefulSets(id).Ok? && |g.listStatefulSets(id).value| == 1
    ensures g.listStatefulSets(id).Ok? && |g.listStatefulSets(id).value| == 1 ==>
              r == g.lrpMapper(g.listStatefulSets(id).value[0])
    // lookup failures are propagated unchanged
    ensures g.listStatefulSets(id).Err? ==> r == Err(Wrapped("failed to list statefulsets", g.listStatefulSets(id).error))
    ensures g.listStatefulSets(id).Ok? && |g.listStatefulSets(id).value| == 0 ==> r == Err(NotFound)
    ensures g.listStatefulSets(id).Ok? && |g.listStatefulSets(id).value| > 1 ==> r.Err? && !IsNotFound(r.error)
  {
    match StatefulSetLookup.GetStatefulSet(g.listStatefulSets, id)
    case Err(e) => Err(e)
    case Ok(statefulSet) => g.lrpMapper(statefulSet)
  }

  function Last(events: seq<Event>): Event
    requires |events| > 0
  {
    events[|events| - 1]
  }

  /** `isStopped`: the pod's latest event is a deliberate kill. */
  predicate IsStopped(events: seq<Event>)
    ensures IsStopped(events) <==> |events| > 0 && Last(events).reason == "Killing"
  {
    if |events| == 0 then false
    else Last(events).reason == EventKilling
  }

  /** `hasInsufficientMemory`: the latest event is a scheduling or scale-up
      failure whose message mentions insufficient memory. */
  predicate HasInsufficientMemory(events: seq<Event>)
    ensures HasInsufficientMemory(events) <==>
              && |events| > 0
              && (Last(events).reason == "FailedScheduling" || Last(events).reason == "NotTriggerScaleUp")
              && exists i :: OccursAt(Last(events).message, "Insufficient memory", i)
  {
    if |events| == 0 then false
    else
      var event := Last(events);
      (event.reason == EventFailedScheduling || event.reason == EventFailedScaleUp)
      && Contains(event.message, InsufficientMemoryMessage)
  }

  /** A pod being killed is never reported as short of memory: the two
      classifications look at the same latest event and need different reasons. */
  lemma StoppedIsNotInsufficientMemory(events: seq<Event>)
    ensures !(IsStopped(events) && HasInsufficientMemory(events))
  {
  }

  /** The instance built for a pod that is not stopped (get.go:96-113). */
  function InstanceFor(podState: string, pod: Pod, events: seq<Event>, index: int): (r: Instance)
    ensures r.index == index
    // a pod without a start time has been up since 0
    ensures pod.startTime.None? ==> r.since == 0
    ensures pod.startTime.Some? ==> r.since == pod.startTime.value
    // a placement error is reported exactly when memory ran short, and it forces the Error state
    ensures r.placementError != "" <==> HasInsufficientMemory(events)
    ensures HasInsufficientMemory(events) ==> r.state == ErrorState && r.placementError == InsufficientMemoryError
    ensures !HasInsufficientMemory(events) ==> r.state == podState
  {
    var since := if pod.startTime.Some? then pod.startTime.value else 0;
    if HasInsufficientMemory(events) then Instance(index, ErrorState, InsufficientMemoryError, since)
    else Instance(index, podState, "", since)
  }

  /** One iteration of the loop in `GetInstances`: an error aborts the call,
      `None` skips a stopped pod, `Some` is the pod's instance. */
  function PodStep(g: Getter, pod: Pod): Result<Option<Instance>>
  {
    match g.eventsFor(pod)
    case Err(e) => Err(Wrapped("failed to get events for pod " + pod.meta.name, e))
    case Ok(events) =>
      if IsStopped(events) then Ok(None)
      else
        match g.parseAppIndex(pod.meta.name)
        case Err(e) => Err(Wrapped("failed to parse pod index", e))
        case Ok(index) => Ok(Some(InstanceFor(g.podState(pod), pod, events, index)))
  }

  /** The instances of a list of pods, walking them in order and stopping at
      the first pod whose events or index cannot be read. */
  function Instances(g: Getter, pods: seq<Pod>): Result<seq<Instance>>
  {
    if pods == [] then Ok([])
    else
      match Instances(g, pods[..|pods| - 1])
      case Err(e) => Err(e)
      case Ok(xs) =>
        match PodStep(g, pods[|pods| - 1])
        case Err(e) => Err(e)
        case Ok(None) => Ok(xs)
        case Ok(Some(x)) => Ok(xs + [x])
  }

  /** Once a prefix of the pods fails, the whole walk fails with the same error. */
  lemma {:induction false} AbortPersists(g: Getter, pods: seq<Pod>, n: nat)
    requires n <= |pods| && Instances(g, pods[..n]).Err?
    ensures Instances(g, pods) == Instances(g, pods[..n])
    decreases |pods| - n
  {
    if n == |pods| {
      assert pods[..n] == pods;
    } else {
      assert pods[..n + 1][..n] == pods[..n];
      AbortPersists(g, pods, n + 1);
    }
  }

  /** `Getter.GetInstances`. */
  method GetInstances(g: Getter, id: LRPIdentifier) returns (r: Result<seq<Instance>>)
    // only a NotFound lookup stops the call early
    ensures Get(g, id).Err? && IsNotFound(Get(g, id).error) ==> r == Err(Get(g, id).error)
    ensures !(Get(g, id).Err? && IsNotFound(Get(g, id).error)) && g.listPods(id).Err? ==>
              r == Err(Wrapped("failed to list pods", g.listPods(id).error))
    ensures !(Get(g, id).Err? && IsNotFound(Get(g, id).error)) && g.listPods(id).Ok? ==>
              r == Instances(g, g.listPods(id).value)
  {
    var lrp := Get(g, id);
    if lrp.Err? && IsNotFound(lrp.error) {
      return Err(lrp.error);
    }
    var listed := g.listPods(id);
    if listed.Err? {
      return Err(Wrapped("failed to list pods", listed.error));
    }
    var pods := listed.value;
    var instances: seq<Instance> := [];
    for i := 0 to |pods|
      invariant Instances(g, pods[..i]) == Ok(instances)
    {
      assert pods[..i + 1][..i] == pods[..i];
      var events := g.eventsFor(pods[i]);
      if events.Err? {
        AbortPersists(g, pods, i + 1);
        return Err(Wrapped("failed to get events for pod " + pods[i].meta.name, events.error));
      }
      if IsStopped(events.value) {
        continue;
      }
      var index := g.parseAppIndex(pods[i].meta.name);
      if index.Err? {
        AbortPersists(g, pods, i + 1);
        return Err(Wrapped("failed to parse pod index", index.error));
      }
      var since := 0;
      if pods[i].startTime.Some? {
        since := pods[i].startTime.value;
      }
      var state, placementError;
      if HasInsufficientMemory(events.value) {
        state, placementError := ErrorState, InsufficientMemoryError;
      } else {
        state, placementError := g.podState(pods[i]), "";
      }
      instances := instances + [Instance(index.value, state, placementError, since)];
    }
    assert pods[..|pods|] == pods;
    return Ok(instances);
  }

  /** The pods that yield an instance: readable events, latest one not a kill. */
  function Survivors(g: Getter, pods: seq<Pod>): seq<Pod>
  {
    if pods == [] then []
    else
      var p := pods[|pods| - 1];
      var kept := Survivors(g, pods[..|pods| - 1]);
      if g.eventsFor(p).Ok? && !IsStopped(g.eventsFor(p).value) then kept + [p] else kept
  }

  lemma {:induction false} SurvivorsMembership(g: Getter, pods: seq<Pod>, p: Pod)
    ensures p in Survivors(g, pods) <==> p in pods && g.eventsFor(p).Ok? && !IsStopped(g.eventsFor(p).value)
  {
    if pods != [] {
      var init := pods[..|pods| - 1];
      SurvivorsMembership(g, init, p);
      assert pods == init + [pods[|pods| - 1]];
    }
  }

  /** A successful result has one instance per surviving pod, in pod order,
      each the instance that pod yields; so it is never longer than the pod list. */
  lemma {:induction false} InstancesFollowSurvivors(g: Getter, pods: seq<Pod>)
    requires Instances(g, pods).Ok?
    ensures |Instances(g, pods).value| == |Survivors(g, pods)| <= |pods|
    ensures forall k :: 0 <= k < |Survivors(g, pods)| ==>
              PodStep(g, Survivors(g, pods)[k]) == Ok(Some(Instances(g, pods).value[k]))
  {
    if pods != [] {
      InstancesFollowSurvivors(g, pods[..|pods| - 1]);
    }
  }

  /** The call fails exactly when some pod's events or index cannot be read. */
  lemma {:induction false} InstancesFailOnAnyPod(g: Getter, pods: seq<Pod>)
    ensures Instances(g, pods).Err? <==> exists i :: 0 <= i < |pods| && PodStep(g, pods[i]).Err?
  {
    if pods != [] {
      var init := pods[..|pods| - 1];
      InstancesFailOnAnyPod(g, init);
      assert forall i :: 0 <= i < |init| ==> init[i] == pods[i];
    }
  }
}
