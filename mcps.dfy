/**
 * The rollout-verification helpers for MachineConfigPools:
 * building a pool, looking up a pool's status conditions, waiting for a
 * condition to reach a status within a node-count-proportional timeout, and
 * waiting for a pool to pick up the MachineConfig generated for a profile.
 *
 * Every fetch from the API server is an input: a Snapshot for a fetch of the
 * pool by name, `listNodes` for the node list call, and, for the waits, one
 * snapshot and one clock reading per poll.
 */
module Mcps {
  import opened Wrappers
  import opened MachineConfig
  import opened Polling

  /** Minutes of rollout budget per targeted node. */
  const McpUpdateTimeoutPerNode: nat := 20

  /** Durations are in seconds. */
  const Minute: nat := 60

  /** Both waits poll every 30 seconds. */
  const PollInterval: nat := 30

  /** The pickup wait gives up after 10 minutes. */
  const PickupTimeout: nat := 10 * Minute

  /** components.MachineConfigRoleLabelKey. */
  const MachineConfigRoleLabelKey: string := "machineconfiguration.openshift.io/role"

  /** components.ComponentNamePrefix. */
  const ComponentNamePrefix: string := "performance"

  /** The assertion that failed, named by the message the helper gives it. */
  datatype Failure =
    | FetchFailed      // "Failed getting MCP by name"
    | NoNodeSelector   // nil-pointer panic: the pool's NodeSelector is nil
    | SelectorInvalid  // "Failed creating node selector"
    | NodeListFailed   // "Failed getting nodes by selector"
    | NoNodes          // "Found no CNF nodes"

  // ---------------------------------------------------------------------------
  // Pool construction

  /** A pool for role `mcpName` whose nodes are chosen by `nodeSelector`. */
  function New(mcpName: string, nodeSelector: map<string, string>): (m: MachineConfigPool)
    ensures m.metadata.name == mcpName && m.metadata.labels.Keys == {MachineConfigRoleLabelKey}
    ensures m.spec.machineConfigSelector.Some? && |m.spec.machineConfigSelector.value.matchExpressions| == 1
    // the pool selects MachineConfigs labelled with its own role, and worker ones
    ensures m.metadata.labels[MachineConfigRoleLabelKey] in m.spec.machineConfigSelector.value.matchExpressions[0].values
    ensures "worker" in m.spec.machineConfigSelector.value.matchExpressions[0].values
    ensures m.spec.nodeSelector.Some? && m.spec.nodeSelector.value.matchLabels == nodeSelector
  {
    MachineConfigPool(
      ObjectMeta(mcpName, NamespaceNone, map[MachineConfigRoleLabelKey := mcpName]),
      PoolSpec(
        Some(LabelSelector(map[], [Requirement(MachineConfigRoleLabelKey, In, ["worker", mcpName])])),
        Some(LabelSelector(nodeSelector, [])),
        PoolConfiguration("", [])),
      PoolStatus([]))
  }

  /**
   * The pool New builds: named mcpName, cluster-scoped, labelled with its role
   * only, selecting MachineConfigs of role "worker" or of its own role, and
   * selecting nodes by exactly the given labels; nothing else is set.
   */
  lemma NewPool(mcpName: string, nodeSelector: map<string, string>)
    ensures var m := New(mcpName, nodeSelector);
      && m.metadata.name == mcpName
      && m.metadata.namespace == NamespaceNone
      && m.metadata.labels.Keys == {MachineConfigRoleLabelKey}
      && m.metadata.labels[MachineConfigRoleLabelKey] == mcpName
      && m.spec.machineConfigSelector.Some?
      && m.spec.machineConfigSelector.value.matchLabels == map[]
      && |m.spec.machineConfigSelector.value.matchExpressions| == 1
      && m.spec.machineConfigSelector.value.matchExpressions[0].key == MachineConfigRoleLabelKey
      && m.spec.machineConfigSelector.value.matchExpressions[0].operator == In
      && m.spec.machineConfigSelector.value.matchExpressions[0].values == ["worker", mcpName]
      && m.spec.nodeSelector == Some(LabelSelector(nodeSelector, []))
      && m.spec.configuration == PoolConfiguration("", [])
      && m.status.conditions == []
  {
  }

  /** Distinct arguments give distinct pools. */
  lemma NewInjective(name1: string, sel1: map<string, string>, name2: string, sel2: map<string, string>)
    ensures New(name1, sel1) == New(name2, sel2) ==> name1 == name2 && sel1 == sel2
  {
  }

  // ---------------------------------------------------------------------------
  // Condition lookup

  /** Index i holds the first condition of type condType. */
  predicate FirstOfType(conditions: seq<Condition>, condType: string, i: nat)
  {
    i < |conditions| && conditions[i].condType == condType
    && forall j :: 0 <= j < i ==> conditions[j].condType != condType
  }

  /** No condition has type condType. */
  predicate NoneOfType(conditions: seq<Condition>, condType: string)
  {
    forall j :: 0 <= j < |conditions| ==> conditions[j].condType != condType
  }

  /** The index of the first condition of type condType, if any. */
  function FindCondition(conditions: seq<Condition>, condType: string): (r: Option<nat>)
    ensures r.Some? ==> FirstOfType(conditions, condType, r.value)
    ensures r.None? ==> NoneOfType(conditions, condType)
  {
    if conditions == [] then None
    else if conditions[0].condType == condType then Some(0)
    else match FindCondition(conditions[1..], condType)
      case None => None
      case Some(i) => Some(i + 1)
  }

  /** The status of the pool's first condition of the type, or Unknown when it has none. */
  function ConditionStatusOf(m: MachineConfigPool, condType: string): (s: string)
    ensures forall i: nat :: FirstOfType(m.status.conditions, condType, i) ==> s == m.status.conditions[i].status
    ensures NoneOfType(m.status.conditions, condType) ==> s == ConditionUnknown
  {
    match FindCondition(m.status.conditions, condType)
    case Some(i) => m.status.conditions[i].status
    case None => ConditionUnknown
  }

  /** The reason of the pool's first condition of the type, or "" when it has none. */
  function ConditionReasonOf(m: MachineConfigPool, condType: string): (s: string)
    ensures forall i: nat :: FirstOfType(m.status.conditions, condType, i) ==> s == m.status.conditions[i].reason
    ensures NoneOfType(m.status.conditions, condType) ==> s == ""
  {
    match FindCondition(m.status.conditions, condType)
    case Some(i) => m.status.conditions[i].reason
    case None => ""
  }

  /** Status and reason are read from the same entry, or both fall back. */
  lemma StatusAndReasonAgree(m: MachineConfigPool, condType: string)
    ensures var cs := m.status.conditions;
      || (NoneOfType(cs, condType)
          && ConditionStatusOf(m, condType) == ConditionUnknown && ConditionReasonOf(m, condType) == "")
      || (exists i: nat :: (FirstOfType(cs, condType, i)
            && ConditionStatusOf(m, condType) == cs[i].status && ConditionReasonOf(m, condType) == cs[i].reason))
  {
    var found := FindCondition(m.status.conditions, condType);
    if found.Some? {
      assert FirstOfType(m.status.conditions, condType, found.value);
    }
  }

  /** GetConditionStatus: fetch the pool, then search its conditions. */
  method GetConditionStatus(fetched: Snapshot, condType: string) returns (r: Result<string, Failure>)
    ensures fetched.None? ==> r == Err(FetchFailed)
    ensures fetched.Some? ==> r == Ok(ConditionStatusOf(fetched.value, condType))
  {
    if fetched.None? {
      return Err(FetchFailed);
    }
    var conditions := fetched.value.status.conditions;
    var i := 0;
    while i < |conditions|
      invariant 0 <= i <= |conditions|
      invariant forall j :: 0 <= j < i ==> conditions[j].condType != condType
    {
      if conditions[i].condType == condType {
        assert FirstOfType(conditions, condType, i);
        return Ok(conditions[i].status);
      }
      i := i + 1;
    }
    return Ok(ConditionUnknown);
  }

  /** GetConditionReason: fetch the pool, then search its conditions. */
  method GetConditionReason(fetched: Snapshot, condType: string) returns (r: Result<string, Failure>)
    ensures fetched.None? ==> r == Err(FetchFailed)
    ensures fetched.Some? ==> r == Ok(ConditionReasonOf(fetched.value, condType))
  {
    if fetched.None? {
      return Err(FetchFailed);
    }
    var conditions := fetched.value.status.conditions;
    var i := 0;
    while i < |conditions|
      invariant 0 <= i <= |conditions|
      invariant forall j :: 0 <= j < i ==> conditions[j].condType != condType
    {
      if conditions[i].condType == condType {
        assert FirstOfType(conditions, condType, i);
        return Ok(conditions[i].reason);
      }
      i := i + 1;
    }
    return Ok("");
  }

  // ---------------------------------------------------------------------------
  // Waiting for a condition

  /** The rollout budget, in seconds, for a pool targeting nodeCount nodes. */
  function RolloutTimeout(nodeCount: nat): (t: nat)
    ensures t % (McpUpdateTimeoutPerNode * Minute) == 0
    ensures t / (McpUpdateTimeoutPerNode * Minute) == nodeCount
  {
    nodeCount * McpUpdateTimeoutPerNode * Minute
  }

  /** The budget grows strictly with the node count and is 20 minutes per node. */
  lemma RolloutTimeoutScales(a: nat, b: nat)
    ensures a < b ==> RolloutTimeout(a) < RolloutTimeout(b)
    ensures RolloutTimeout(a) > 0 <==> a >= 1
    ensures RolloutTimeout(a) == a * 20 * Minute
    ensures RolloutTimeout(1) == 20 * Minute && RolloutTimeout(3) == 60 * Minute
    ensures RolloutTimeout(5) == 100 * Minute && RolloutTimeout(50) == 1000 * Minute
  {
  }

  /** The node query: a single Exists requirement on one key of the pool's node-selector labels. */
  function NodeQuery(key: string): (s: Selector)
    ensures |s.requirements| == 1
    ensures s.requirements[0].key == key && s.requirements[0].operator == Exists
    ensures s.requirements[0].values == []
  {
    Selector([Requirement(key, Exists, [])])
  }

  /**
   * `key` stands for what GetFirstKeyAndValue picks from the fetched pool's
   * node-selector labels: one of their keys, whenever there is one.
   */
  predicate KeyChosenFrom(initial: Snapshot, key: string)
  {
    (initial.Some? && initial.value.spec.nodeSelector.Some?
     && initial.value.spec.nodeSelector.value.matchLabels != map[])
    ==> key in initial.value.spec.nodeSelector.value.matchLabels
  }

  /**
   * The steps before polling: fetch the pool, read its node selector, build the
   * Exists requirement on the chosen key (validKey stands for the labels
   * library's key validation), list the nodes, and insist on at least one.
   */
  function TargetNodes(
    initial: Snapshot, key: string, validKey: string -> bool, listNodes: Selector -> Option<seq<Node>>)
    : (r: Result<seq<Node>, Failure>)
    ensures r.Ok? ==> |r.value| >= 1
    ensures r.Ok? <==>
      && initial.Some? && initial.value.spec.nodeSelector.Some? && validKey(key)
      && listNodes(NodeQuery(key)).Some? && listNodes(NodeQuery(key)).value != []
    ensures r.Ok? ==> r.value == listNodes(NodeQuery(key)).value
    ensures initial.None? ==> r == Err(FetchFailed)
    ensures initial.Some? && initial.value.spec.nodeSelector.None? ==> r == Err(NoNodeSelector)
    ensures initial.Some? && initial.value.spec.nodeSelector.Some? && !validKey(key)
      ==> r == Err(SelectorInvalid)
    ensures (initial.Some? && initial.value.spec.nodeSelector.Some? && validKey(key)
             && listNodes(NodeQuery(key)).None?) ==> r == Err(NodeListFailed)
    ensures (initial.Some? && initial.value.spec.nodeSelector.Some? && validKey(key)
             && listNodes(NodeQuery(key)) == Some([])) ==> r == Err(NoNodes)
  {
    if initial.None? then Err(FetchFailed)
    else if initial.value.spec.nodeSelector.None? then Err(NoNodeSelector)
    else if !validKey(key) then Err(SelectorInvalid)
    else match listNodes(NodeQuery(key))
      case None => Err(NodeListFailed)
      case Some(nodes) => if nodes == [] then Err(NoNodes) else Ok(nodes)
  }

  /** For a given chosen key, the target depends on neither the node-selector labels nor their values. */
  lemma TargetIgnoresLabelValues(
    m1: MachineConfigPool, m2: MachineConfigPool, key: string,
    validKey: string -> bool, listNodes: Selector -> Option<seq<Node>>)
    requires m1.spec.nodeSelector.Some? && m2.spec.nodeSelector.Some?
    ensures TargetNodes(Some(m1), key, validKey, listNodes) == TargetNodes(Some(m2), key, validKey, listNodes)
    ensures TargetNodes(Some(m1), key, validKey, listNodes).Ok? ==> listNodes(NodeQuery(key)).Some?
  {
  }

  /** A found target is never empty, so the timeout computed from it is never zero. */
  lemma NoZeroTimeout(
    initial: Snapshot, key: string, validKey: string -> bool, listNodes: Selector -> Option<seq<Node>>)
    ensures var t := TargetNodes(initial, key, validKey, listNodes);
      t.Ok? ==> RolloutTimeout(|t.value|) >= 20 * Minute
  {
  }

  /** What the condition callback returns at poll k. */
  function ConditionPoll(snapshots: nat -> Snapshot, condType: string): (f: nat -> Result<string, Failure>)
    ensures forall k: nat :: f(k).Ok? <==> snapshots(k).Some?
    ensures forall k: nat :: f(k).Err? ==> f(k).error == FetchFailed
    ensures forall k: nat :: snapshots(k).Some? ==> f(k).value == ConditionStatusOf(snapshots(k).value, condType)
  {
    (k: nat) => match snapshots(k)
      case None => Err(FetchFailed)
      case Some(m) => Ok(ConditionStatusOf(m, condType))
  }

  /**
   * WaitForCondition: find the target nodes, then poll the pool's condition
   * every 30 seconds for 20 minutes per node. A failure before polling is
   * reported with zero polls.
   */
  method WaitForCondition(
    initial: Snapshot, key: string, validKey: string -> bool, listNodes: Selector -> Option<seq<Node>>,
    snapshots: nat -> Snapshot, clock: nat -> nat, condType: string, desired: string)
    returns (r: WaitOutcome<string, Failure>)
    requires KeyChosenFrom(initial, key)
    requires Paced(clock, PollInterval)
    ensures var t := TargetNodes(initial, key, validKey, listNodes);
      t.Err? ==> r == Failed(0, t.error)
    ensures var t := TargetNodes(initial, key, validKey, listNodes);
      t.Ok? ==>
        && Describes(r, ConditionPoll(snapshots, condType), clock, RolloutTimeout(|t.value|), desired)
        && (r.Reached? <==>
              ObservedInTime(ConditionPoll(snapshots, condType), clock, RolloutTimeout(|t.value|), desired))
        && r.polls <= 40 * |t.value|
  {
    var target := TargetNodes(initial, key, validKey, listNodes);
    if target.Err? {
      return Failed(0, target.error);
    }
    var timeout := RolloutTimeout(|target.value|);
    r := Eventually(ConditionPoll(snapshots, condType), clock, timeout, PollInterval, desired);
    ReachedIff(r, ConditionPoll(snapshots, condType), clock, timeout, PollInterval, desired);
  }

  // ---------------------------------------------------------------------------
  // Waiting for the profile's MachineConfig to be picked up

  /** The name of the MachineConfig generated for a profile. */
  function PickupName(profileName: string): (name: string)
    ensures |name| == |ComponentNamePrefix| + 1 + |profileName|
    ensures name[..|ComponentNamePrefix|] == ComponentNamePrefix && name[|ComponentNamePrefix|] == '-'
    ensures name[|ComponentNamePrefix| + 1..] == profileName
  {
    ComponentNamePrefix + "-" + profileName
  }

  /** Different profiles never share a generated MachineConfig name. */
  lemma PickupNameInjective(a: string, b: string)
    ensures PickupName(a) == PickupName(b) ==> a == b
  {
    var n := |ComponentNamePrefix| + 1;
    assert PickupName(a)[n..] == a;
    assert PickupName(b)[n..] == b;
  }

  /** The pool's configuration sources include the profile's MachineConfig. */
  predicate PickedUp(m: MachineConfigPool, profileName: string): (b: bool)
    ensures b <==> PickupName(profileName) in (set s | s in m.spec.configuration.source :: s.name)
  {
    exists i :: 0 <= i < |m.spec.configuration.source|
      && m.spec.configuration.source[i].name == PickupName(profileName)
  }

  /** Pickup looks at the configuration sources only: conditions do not matter. */
  lemma PickupIgnoresStatus(m: MachineConfigPool, status: PoolStatus, profileName: string)
    ensures PickedUp(m.(status := status), profileName) == PickedUp(m, profileName)
  {
  }

  /** The pickup callback: fetch the pool, then search its configuration sources. */
  method ProfilePickedUp(fetched: Snapshot, profileName: string) returns (r: Result<bool, Failure>)
    ensures fetched.None? ==> r == Err(FetchFailed)
    ensures fetched.Some? ==> r == Ok(PickedUp(fetched.value, profileName))
  {
    if fetched.None? {
      return Err(FetchFailed);
    }
    var sources := fetched.value.spec.configuration.source;
    var wanted := PickupName(profileName);
    var i := 0;
    while i < |sources|
      invariant 0 <= i <= |sources|
      invariant forall j :: 0 <= j < i ==> sources[j].name != wanted
    {
      if sources[i].name == wanted {
        return Ok(true);
      }
      i := i + 1;
    }
    return Ok(false);
  }

  /** What the pickup callback returns at poll k. */
  function PickupPoll(snapshots: nat -> Snapshot, profileName: string): (f: nat -> Result<bool, Failure>)
    ensures forall k: nat :: f(k).Ok? <==> snapshots(k).Some?
    ensures forall k: nat :: f(k).Err? ==> f(k).error == FetchFailed
    ensures forall k: nat :: snapshots(k).Some? ==> f(k).value == PickedUp(snapshots(k).value, profileName)
  {
    (k: nat) => match snapshots(k)
      case None => Err(FetchFailed)
      case Some(m) => Ok(PickedUp(m, profileName))
  }

  /** WaitForProfilePickedUp: poll every 30 seconds, for at most 10 minutes, until picked up. */
  method WaitForProfilePickedUp(snapshots: nat -> Snapshot, clock: nat -> nat, profileName: string)
    returns (r: WaitOutcome<bool, Failure>)
    requires Paced(clock, PollInterval)
    ensures Describes(r, PickupPoll(snapshots, profileName), clock, PickupTimeout, true)
    ensures r.Reached? <==> ObservedInTime(PickupPoll(snapshots, profileName), clock, PickupTimeout, true)
    ensures r.polls <= 20
  {
    r := Eventually(PickupPoll(snapshots, profileName), clock, PickupTimeout, PollInterval, true);
    ReachedIff(r, PickupPoll(snapshots, profileName), clock, PickupTimeout, PollInterval, true);
  }
}
