/** The event filter of the eirini controller (`labelPredicate` in
    cmd/eirini-controller/main.go): which pod events reach the reconciler. */
module ControllerPredicate {
  import opened Go
  import opened Kube

  /** The value of the source-type label that marks an app's pods. */
  const SourceTypeApp := "APP"

  /** The controller-runtime events the filter is asked about, reduced to the
      object metadata they carry. */
  datatype PodEvent =
    | CreateEvent(meta: ObjectMeta)
    | DeleteEvent(meta: ObjectMeta)
    | UpdateEvent(metaOld: ObjectMeta, metaNew: ObjectMeta)
    | GenericEvent(meta: ObjectMeta)

  /** `labelPredicate.Create`: creations are never processed. */
  function Create(e: PodEvent): (r: bool)
    requires e.CreateEvent?
    ensures !r
  {
    false
  }

  /** `labelPredicate.Delete`: deletions are never processed. */
  function Delete(e: PodEvent): (r: bool)
    requires e.DeleteEvent?
    ensures !r
  {
    false
  }

  /** `labelPredicate.Update`: an update is processed when the new object is an app's pod. */
  function Update(e: PodEvent): (r: bool)
    requires e.UpdateEvent?
    ensures r <==> LabelSourceType in e.metaNew.labels && e.metaNew.labels[LabelSourceType] == "APP"
  {
    Lookup(e.metaNew.labels, LabelSourceType) == SourceTypeApp
  }

  /** `labelPredicate.Generic`: generic events are never processed. */
  function Generic(e: PodEvent): (r: bool)
    requires e.GenericEvent?
    ensures !r
  {
    false
  }

  /** The filter the controller runs, dispatching on the kind of event. */
  function Admits(e: PodEvent): bool
  {
    match e
    case CreateEvent(_) => Create(e)
    case DeleteEvent(_) => Delete(e)
    case UpdateEvent(_, _) => Update(e)
    case GenericEvent(_) => Generic(e)
  }

  /** Only updates that leave a pod labelled as an app's pass the filter, and all of them do. */
  lemma OnlyAppUpdatesAdmitted(e: PodEvent)
    ensures Admits(e) <==>
              e.UpdateEvent? && LabelSourceType in e.metaNew.labels && e.metaNew.labels[LabelSourceType] == "APP"
  {
  }
}
