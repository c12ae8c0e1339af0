/**
 * The part of the Kubernetes core/v1 object model that main.go fills in
 * (main.go:46-113), reduced to the fields the Pod literal sets. A field the
 * literal leaves unset is an empty sequence or map here.
 */
module Kube {

  datatype PullPolicy = PullAlways | PullNever | PullIfNotPresent

  datatype TolerationOperator = OpExists | OpEqual

  datatype TaintEffect = NoSchedule | PreferNoSchedule | NoExecute

  datatype RestartPolicy = RestartAlways | RestartOnFailure | RestartNever

  datatype ObjectMeta = ObjectMeta(name: string, namespace: string, labels: map<string, string>)

  datatype VolumeMount = VolumeMount(name: string, mountPath: string)

  datatype Container = Container(
    name: string,
    image: string,
    imagePullPolicy: PullPolicy,
    command: seq<string>,
    args: seq<string>,
    volumeMounts: seq<VolumeMount>)

  /** `NoSource` is a volume declared with no source, as "workdir" is in main.go. */
  datatype VolumeSource = NoSource | SecretVolume(secretName: string)

  datatype Volume = Volume(name: string, source: VolumeSource)

  datatype Toleration = Toleration(key: string, operator: TolerationOperator, value: string, effect: TaintEffect)

  datatype PodSpec = PodSpec(
    initContainers: seq<Container>,
    containers: seq<Container>,
    nodeSelector: map<string, string>,
    tolerations: seq<Toleration>,
    restartPolicy: RestartPolicy,
    volumes: seq<Volume>)

  datatype Pod = Pod(metadata: ObjectMeta, spec: PodSpec)

  /** A node taint, as the scheduler matches it against a Pod's tolerations. */
  datatype Taint = Taint(key: string, value: string, effect: TaintEffect)

  /**
   * Kubernetes' matching rule for a toleration that names an effect: the
   * effects agree, the key agrees (an empty key matching every key), and
   * with the Equal operator the value agrees too. An empty effect, which
   * matches every effect, is not representable here.
   */
  predicate ToleratesTaint(t: Toleration, taint: Taint) {
    && t.effect == taint.effect
    && (t.key == "" || t.key == taint.key)
    && match t.operator
       case OpExists => true
       case OpEqual => t.value == taint.value
  }

  predicate Tolerated(ts: seq<Toleration>, taint: Taint) {
    exists i | 0 <= i < |ts| :: ToleratesTaint(ts[i], taint)
  }

  /** Every container of the Pod, init containers first. */
  function AllContainers(spec: PodSpec): seq<Container> {
    spec.initContainers + spec.containers
  }

  function VolumeNames(vols: seq<Volume>): set<string> {
    set i | 0 <= i < |vols| :: vols[i].name
  }

  predicate Mounts(c: Container, volume: string) {
    exists j | 0 <= j < |c.volumeMounts| :: c.volumeMounts[j].name == volume
  }

  /** Every volume mount of every container names a volume the Pod declares. */
  predicate MountsDeclared(spec: PodSpec) {
    forall c, j | c in AllContainers(spec) && 0 <= j < |c.volumeMounts| ::
      c.volumeMounts[j].name in VolumeNames(spec.volumes)
  }
}
