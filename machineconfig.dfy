/**
 * The parts of the Kubernetes and machine-config-operator API types that the
 * rollout verifier reads or writes: a MachineConfigPool (MCP) with its metadata,
 * its machine-config and node selectors, its configuration sources and its
 * status conditions. Fields the verifier never touches are not modelled.
 */
module MachineConfig {
  import opened Wrappers

  /** The three named values of corev1.ConditionStatus (a string type). */
  const ConditionTrue: string := "True"
  const ConditionFalse: string := "False"
  const ConditionUnknown: string := "Unknown"

  /** metav1.NamespaceNone: the namespace of a cluster-scoped object. */
  const NamespaceNone: string := ""

  /** One entry of an MCP's status conditions. */
  datatype Condition = Condition(condType: string, status: string, reason: string)

  /** Operators of label-selector requirements (both metav1 and the labels library). */
  datatype Operator = In | NotIn | Equals | Exists | DoesNotExist

  /** A label-selector requirement: key, operator and values. */
  datatype Requirement = Requirement(key: string, operator: Operator, values: seq<string>)

  /** metav1.LabelSelector. */
  datatype LabelSelector = LabelSelector(matchLabels: map<string, string>, matchExpressions: seq<Requirement>)

  /** labels.Selector as the client builds it for a List call: a conjunction of requirements. */
  datatype Selector = Selector(requirements: seq<Requirement>)

  datatype ObjectMeta = ObjectMeta(name: string, namespace: string, labels: map<string, string>)

  /** corev1.ObjectReference; only its name is read. */
  datatype ObjectReference = ObjectReference(name: string)

  /** The pool's configuration: the rendered config name and the MachineConfigs it was rendered from. */
  datatype PoolConfiguration = PoolConfiguration(name: string, source: seq<ObjectReference>)

  /** Selectors are pointers in the API type; None stands for nil. */
  datatype PoolSpec = PoolSpec(
    machineConfigSelector: Option<LabelSelector>,
    nodeSelector: Option<LabelSelector>,
    configuration: PoolConfiguration)

  datatype PoolStatus = PoolStatus(conditions: seq<Condition>)

  datatype MachineConfigPool = MachineConfigPool(metadata: ObjectMeta, spec: PoolSpec, status: PoolStatus)

  /** A cluster node; only its identity matters to the verifier. */
  datatype Node = Node(name: string)

  /**
   * What one fetch of a pool by name returned: the pool, or None when the
   * client reported an error.
   */
  type Snapshot = Option<MachineConfigPool>
}
