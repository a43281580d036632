/** The Kubernetes objects the decision layer reads and submits, reduced to
    the fields it looks at, and the label and annotation keys it uses. */
module Kube {
  import Go

  // Label and annotation keys (package k8s; their declarations are not part of this model).
  const LabelGUID := "cloudfoundry.org/guid"
  const LabelVersion := "cloudfoundry.org/version"
  const LabelSourceType := "cloudfoundry.org/source_type"
  const AnnotationAppName := "cloudfoundry.org/application_name"
  const AnnotationSpaceName := "cloudfoundry.org/space_name"
  const AnnotationCompletionCallback := "cloudfoundry.org/completion_callback"
  const AnnotationRegisteredRoutes := "cloudfoundry.org/routes"

  datatype OwnerReference = OwnerReference(kind: string, name: string)

  datatype ObjectMeta = ObjectMeta(
    name: string,
    namespace: string,
    labels: map<string, string>,
    annotations: map<string, string>,
    ownerReferences: seq<OwnerReference>)

  datatype StatefulSet = StatefulSet(meta: ObjectMeta, replicas: int)

  /** `corev1.PodCondition`: a condition type ("Ready", ...) and its status ("True", "False", "Unknown"). */
  datatype PodCondition = PodCondition(conditionType: string, status: string)

  const PodReady := "Ready"
  const ConditionTrue := "True"

  /** A pod: its metadata, status conditions, start time (Unix nanoseconds)
      and deletion timestamp, the last two absent when nil. */
  datatype Pod = Pod(
    meta: ObjectMeta,
    conditions: seq<PodCondition>,
    startTime: Go.Option<int>,
    deletionTimestamp: Go.Option<int>)

  /** `corev1.Event`, reduced to its reason and message. */
  datatype Event = Event(reason: string, message: string)

  /** `corev1.Secret`: its name, type and string data. */
  datatype Secret = Secret(name: string, secretType: string, stringData: map<string, string>)

  const SecretTypeDockerConfigJson := "kubernetes.io/dockerconfigjson"
  const DockerConfigKey := ".dockerconfigjson"

  /** `batchv1.Job`: metadata and the names of its pod template's image-pull secrets. */
  datatype Job = Job(meta: ObjectMeta, imagePullSecrets: seq<string>)
}
