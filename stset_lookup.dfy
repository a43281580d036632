/** Resolving an LRP identifier to its single stateful set (k8s/stset/get_stset.go). */
module StatefulSetLookup {
  import opened Go
  import opened Kube
  import opened Opi

  /** The function `newGetStatefulSetFunc` builds: list the stateful sets
      labelled with the identifier, then demand exactly one. */
  function GetStatefulSet(list: LRPIdentifier -> Result<seq<StatefulSet>>, id: LRPIdentifier): (r: Result<StatefulSet>)
    // a lister failure is passed on with context
    ensures list(id).Err? ==> r == Err(Wrapped("failed to list statefulsets", list(id).error))
    // success exactly when the listing holds one stateful set, and then it is that one
    ensures r.Ok? <==> list(id).Ok? && |list(id).value| == 1
    ensures r.Ok? ==> r.value == list(id).value[0]
    // nothing found is the NotFound sentinel, not a wrapped error
    ensures list(id).Ok? && |list(id).value| == 0 ==> r == Err(NotFound)
    // several matches are a consistency error that is never mistaken for NotFound
    ensures list(id).Ok? && |list(id).value| > 1 ==> r.Err? && !IsNotFound(r.error)
  {
    match list(id)
    case Err(e) => Err(Wrapped("failed to list statefulsets", e))
    case Ok(statefulSets) =>
      if |statefulSets| == 0 then Err(NotFound)
      else if |statefulSets| == 1 then Ok(statefulSets[0])
      else Err(MultipleStatefulSets(id.guid, id.version))
  }

  /** Whatever the listing, a lookup never returns a stateful set unless the
      listing held that stateful set and no other. */
  lemma {:induction false} NeverPicksAmongSeveral(list: LRPIdentifier -> Result<seq<StatefulSet>>, id: LRPIdentifier, s: StatefulSet)
    requires GetStatefulSet(list, id) == Ok(s)
    ensures list(id) == Ok([s])
  {
    var xs := list(id).value;
    assert xs == [xs[0]];
  }
}
