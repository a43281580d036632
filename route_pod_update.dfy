/** Keeping the router in step with a pod's readiness
    (k8s/informers/route/event/pod_update_handler.go). The collaborators are
    fields of `Handler`; the messages handed to the route emitter are returned,
    in order. */
module PodUpdateHandler {
  import opened Go
  import opened Kube

  /** `cf.Route`: a hostname and the container port it maps to. */
  datatype Route = Route(hostname: string, port: int)

  /** `route.Routes`: hostnames to add to and to remove from the router. */
  datatype Routes = Routes(registered: seq<string>, unregistered: seq<string>)

  /** `route.Message`, as the emitter receives it. */
  datatype RouteMessage = RouteMessage(name: string, instanceID: string, address: string, port: nat, routes: Routes)

  /** The collaborators a `PodUpdateHandler` is built from. */
  datatype Handler = Handler(
    getStatefulSet: (string, string) -> Result<StatefulSet>,      // StatefulSetGetter.Get(namespace, name)
    unmarshalRoutes: string -> Result<seq<Route>>,                  // json.Unmarshal into []cf.Route
    newRouteMessage: (Pod, nat, Routes) -> Result<RouteMessage>)    // route.NewRouteMessage

  /** Whether the messages add the route to the router or take it out. */
  datatype Direction = Register | Unregister

  /** The routes value of a message about one hostname. */
  function RoutesFor(direction: Direction, hostname: string): Routes
  {
    match direction
    case Register => Routes([hostname], [])
    case Unregister => Routes([], [hostname])
  }

  /** `isReady`: the status of the first Ready condition, false when there is none. */
  function IsReady(conditions: seq<PodCondition>): (r: bool)
    ensures r <==> exists i :: && 0 <= i < |conditions|
                              && conditions[i].conditionType == PodReady
                              && conditions[i].status == ConditionTrue
                              && forall j :: 0 <= j < i ==> conditions[j].conditionType != PodReady
    ensures (forall i :: 0 <= i < |conditions| ==> conditions[i].conditionType != PodReady) ==> !r
  {
    match FirstIndex(conditions, (c: PodCondition) => c.conditionType == PodReady)
    case None => false
    case Some(i) => conditions[i].status == ConditionTrue
  }

  /** `markedForDeletion`: the pod has a deletion timestamp. */
  function MarkedForDeletion(pod: Pod): (r: bool)
    ensures r <==> exists t :: pod.deletionTimestamp == Some(t)
  {
    match pod.deletionTimestamp
    case None => false
    case Some(_) => true
  }

  /** `getOwner`: the stateful set named by the first owner reference of kind StatefulSet. */
  function GetOwner(h: Handler, pod: Pod): (r: Result<StatefulSet>)
    ensures pod.meta.ownerReferences == [] ==> r == Err(NoOwners)
    ensures pod.meta.ownerReferences != [] &&
            (forall i :: 0 <= i < |pod.meta.ownerReferences| ==> pod.meta.ownerReferences[i].kind != "StatefulSet") ==>
              r == Err(NoStatefulSetOwner)
    // the first StatefulSet owner is the one asked for
    ensures forall i :: && 0 <= i < |pod.meta.ownerReferences|
                        && pod.meta.ownerReferences[i].kind == "StatefulSet"
                        && (forall j :: 0 <= j < i ==> pod.meta.ownerReferences[j].kind != "StatefulSet") ==>
              r == h.getStatefulSet(pod.meta.namespace, pod.meta.ownerReferences[i].name)
  {
    var owners := pod.meta.ownerReferences;
    if owners == [] then Err(NoOwners)
    else
      match FirstIndex(owners, (o: OwnerReference) => o.kind == "StatefulSet")
      case None => Err(NoStatefulSetOwner)
      case Some(i) => h.getStatefulSet(pod.meta.namespace, owners[i].name)
  }

  /** `decodeRoutes`: the routes annotation parsed as a JSON list of routes. */
  function DecodeRoutes(h: Handler, s: string): (r: Result<seq<Route>>)
    ensures h.unmarshalRoutes(s).Ok? ==> r == h.unmarshalRoutes(s)
    ensures h.unmarshalRoutes(s).Err? ==> r == Err(Wrapped("failed to unmarshal routes", h.unmarshalRoutes(s).error))
  {
    match h.unmarshalRoutes(s)
    case Ok(routes) => Ok(routes)
    case Err(e) => Err(Wrapped("failed to unmarshal routes", e))
  }

  /** `getUserDefinedRoutes`: the routes recorded on the pod's owning stateful set. */
  function UserDefinedRoutes(h: Handler, pod: Pod): (r: Result<seq<Route>>)
    ensures GetOwner(h, pod).Err? ==> r == Err(Wrapped("failed to get owner", GetOwner(h, pod).error))
    ensures GetOwner(h, pod).Ok? ==>
              r == DecodeRoutes(h, Lookup(GetOwner(h, pod).value.meta.annotations, AnnotationRegisteredRoutes))
  {
    match GetOwner(h, pod)
    case Err(e) => Err(Wrapped("failed to get owner", e))
    case Ok(owner) => DecodeRoutes(h, Lookup(owner.meta.annotations, AnnotationRegisteredRoutes))
  }

  /** Routes are found only for a pod that some stateful set owns, and only
      when that stateful set can be read and its annotation decoded. */
  lemma RoutesNeedStatefulSetOwner(h: Handler, pod: Pod)
    requires UserDefinedRoutes(h, pod).Ok?
    ensures exists i :: && 0 <= i < |pod.meta.ownerReferences|
                        && pod.meta.ownerReferences[i].kind == "StatefulSet"
                        && h.getStatefulSet(pod.meta.namespace, pod.meta.ownerReferences[i].name).Ok?
    ensures h.unmarshalRoutes(Lookup(GetOwner(h, pod).value.meta.annotations, AnnotationRegisteredRoutes)) ==
              UserDefinedRoutes(h, pod)
  {
  }

  /** The message about one route, if it can be built. */
  function MessageFor(h: Handler, pod: Pod, route: Route, direction: Direction): Result<RouteMessage>
  {
    h.newRouteMessage(pod, Uint32(route.port), RoutesFor(direction, route.hostname))
  }

  /** The messages emitted for a list of routes: one per route whose message
      can be built, in route order. */
  function Messages(h: Handler, pod: Pod, routes: seq<Route>, direction: Direction): seq<RouteMessage>
  {
    if routes == [] then []
    else
      var init := Messages(h, pod, routes[..|routes| - 1], direction);
      match MessageFor(h, pod, routes[|routes| - 1], direction)
      case Ok(message) => init + [message]
      case Err(_) => init
  }

  /** Messages for consecutive route lists are emitted back to back: a
      route that fails does not hold back the ones after it. */
  lemma {:induction false} MessagesAppend(h: Handler, pod: Pod, a: seq<Route>, b: seq<Route>, direction: Direction)
    ensures Messages(h, pod, a + b, direction) == Messages(h, pod, a, direction) + Messages(h, pod, b, direction)
    decreases |b|
  {
    if b == [] {
      assert a + b == a;
    } else {
      var init := b[..|b| - 1];
      assert (a + b)[..|a + b| - 1] == a + init;
      assert (a + b)[|a + b| - 1] == b[|b| - 1];
      MessagesAppend(h, pod, a, init, direction);
    }
  }

  /** A route whose message cannot be built is skipped, and only that route. */
  lemma {:induction false} FailedRouteSkipped(h: Handler, pod: Pod, routes: seq<Route>, k: nat, direction: Direction)
    requires k < |routes| && MessageFor(h, pod, routes[k], direction).Err?
    ensures Messages(h, pod, routes, direction) ==
              Messages(h, pod, routes[..k], direction) + Messages(h, pod, routes[k + 1..], direction)
  {
    assert routes == routes[..k] + ([routes[k]] + routes[k + 1..]);
    MessagesAppend(h, pod, routes[..k], [routes[k]] + routes[k + 1..], direction);
    MessagesAppend(h, pod, [routes[k]], routes[k + 1..], direction);
    assert [routes[k]][..0] == [];
  }

  /** At most one message per route; exactly one, the route's own, when every
      message can be built. */
  lemma {:induction false} MessagesPerRoute(h: Handler, pod: Pod, routes: seq<Route>, direction: Direction)
    ensures |Messages(h, pod, routes, direction)| <= |routes|
    ensures (forall k :: 0 <= k < |routes| ==> MessageFor(h, pod, routes[k], direction).Ok?) ==>
              && |Messages(h, pod, routes, direction)| == |routes|
              && forall k :: 0 <= k < |routes| ==>
                   Messages(h, pod, routes, direction)[k] == MessageFor(h, pod, routes[k], direction).value
  {
    if routes != [] {
      var init := routes[..|routes| - 1];
      MessagesPerRoute(h, pod, init, direction);
    }
  }

  /** The loop of `Handle` and of `unregisterPodRoutes`: build and emit a
      message per route, skipping those that cannot be built. */
  method EmitRoutes(h: Handler, pod: Pod, routes: seq<Route>, direction: Direction) returns (emitted: seq<RouteMessage>)
    ensures emitted == Messages(h, pod, routes, direction)
  {
    emitted := [];
    for i := 0 to |routes|
      invariant emitted == Messages(h, pod, routes[..i], direction)
    {
      assert routes[..i + 1][..i] == routes[..i];
      var message := h.newRouteMessage(pod, Uint32(routes[i].port), RoutesFor(direction, routes[i].hostname));
      if message.Err? {
        continue;
      }
      emitted := emitted + [message.value];
    }
    assert routes[..|routes|] == routes;
  }

  /** `unregisterPodRoutes`. */
  method UnregisterPodRoutes(h: Handler, pod: Pod, routes: seq<Route>) returns (emitted: seq<RouteMessage>)
    ensures emitted == Messages(h, pod, routes, Unregister)
  {
    emitted := EmitRoutes(h, pod, routes, Unregister);
  }

  /** The update takes the pod's routes out of the router: the pod is being
      deleted, or it was ready and no longer is. */
  predicate LosesRoutes(oldPod: Pod, updatedPod: Pod)
  {
    MarkedForDeletion(updatedPod) || (!IsReady(updatedPod.conditions) && IsReady(oldPod.conditions))
  }

  /** `PodUpdateHandler.Handle`. */
  method Handle(h: Handler, oldPod: Pod, updatedPod: Pod) returns (emitted: seq<RouteMessage>)
    // routes that cannot be resolved emit nothing
    ensures UserDefinedRoutes(h, updatedPod).Err? ==> emitted == []
    // a pod leaving service unregisters its owner's routes, as seen on the old pod
    ensures UserDefinedRoutes(h, updatedPod).Ok? && LosesRoutes(oldPod, updatedPod) ==>
              emitted == Messages(h, oldPod, UserDefinedRoutes(h, updatedPod).value, Unregister)
    // any other update registers them, on the updated pod
    ensures UserDefinedRoutes(h, updatedPod).Ok? && !LosesRoutes(oldPod, updatedPod) ==>
              emitted == Messages(h, updatedPod, UserDefinedRoutes(h, updatedPod).value, Register)
    // in particular a pod that stays not ready, and is not being deleted, registers
    ensures UserDefinedRoutes(h, updatedPod).Ok? && !MarkedForDeletion(updatedPod) &&
            !IsReady(oldPod.conditions) && !IsReady(updatedPod.conditions) ==>
              emitted == Messages(h, updatedPod, UserDefinedRoutes(h, updatedPod).value, Register)
  {
    var routes := UserDefinedRoutes(h, updatedPod);
    if routes.Err? {
      return [];
    }
    if LosesRoutes(oldPod, updatedPod) {
      emitted := UnregisterPodRoutes(h, oldPod, routes.value);
      return;
    }
    emitted := EmitRoutes(h, updatedPod, routes.value, Register);
  }
}
