/**
 * Two rollouts worked through the model: a three-node pool that finishes its
 * update on the third poll, and a pool whose Updated condition is still true
 * from an earlier rollout but which never picks up the profile's MachineConfig.
 */
module Scenarios {
  import opened Wrappers
  import opened MachineConfig
  import opened Polling
  import opened Mcps

  const WorkerCnf: string := "worker-cnf"
  const WorkerCnfLabel: string := "node-role.kubernetes.io/worker-cnf"

  /** The pool as fetched at poll k: Updated is False for the first two polls, True after. */
  function Rolling(k: nat): Snapshot
  {
    var pool := New(WorkerCnf, map[WorkerCnfLabel := ""]);
    Some(pool.(status := PoolStatus([Condition("Updated", if k < 2 then ConditionFalse else ConditionTrue, "")])))
  }

  /** At poll k the pool reports Updated False before the third poll and True from then on. */
  lemma RollingStatus(k: nat)
    ensures ConditionPoll(Rolling, "Updated")(k) == Ok(if k < 2 then ConditionFalse else ConditionTrue)
  {
    var pool := Rolling(k).value;
    assert FirstOfType(pool.status.conditions, "Updated", 0);
    assert ConditionStatusOf(pool, "Updated") == (if k < 2 then ConditionFalse else ConditionTrue);
  }

  /** Three nodes carry the label the pool selects by. */
  function ThreeNodes(s: Selector): Option<seq<Node>>
  {
    if s == NodeQuery(WorkerCnfLabel) then Some([Node("a"), Node("b"), Node("c")]) else Some([])
  }

  /** Polls every 30 seconds exactly. */
  function Every30(k: nat): nat
  {
    30 * k
  }

  /** The three-node pool gets 60 minutes and is seen Updated on the third poll. */
  method RolloutOfThreeNodes() returns (r: WaitOutcome<string, Failure>)
    ensures r == Reached(3)
  {
    var initial := Some(New(WorkerCnf, map[WorkerCnfLabel := ""]));
    assert Paced(Every30, PollInterval);
    r := WaitForCondition(initial, WorkerCnfLabel, _ => true, ThreeNodes, Rolling, Every30, "Updated", ConditionTrue);
    var target := TargetNodes(initial, WorkerCnfLabel, _ => true, ThreeNodes);
    assert target == Ok([Node("a"), Node("b"), Node("c")]);
    assert RolloutTimeout(3) == 60 * Minute;
    var observe := ConditionPoll(Rolling, "Updated");
    RollingStatus(0);
    RollingStatus(1);
    RollingStatus(2);
    assert Describes(Reached(3), observe, Every30, RolloutTimeout(3), ConditionTrue);
    DescribesUnique(r, Reached(3), observe, Every30, RolloutTimeout(3), ConditionTrue);
  }

  /** The pool as fetched at every poll: Updated from a past rollout, no source for the profile. */
  function Stale(k: nat): Snapshot
  {
    var pool := New(WorkerCnf, map[WorkerCnfLabel := ""]);
    Some(pool.(status := PoolStatus([Condition("Updated", ConditionTrue, "")])))
  }

  /** A stale Updated=True does not count as pickup: the wait times out after its 20 polls. */
  method StaleUpdatedIsNotPickup() returns (r: WaitOutcome<bool, Failure>)
    ensures r == TimedOut(20, false)
  {
    assert Paced(Every30, PollInterval);
    r := WaitForProfilePickedUp(Stale, Every30, "manual");
    var observe := PickupPoll(Stale, "manual");
    forall k: nat ensures observe(k) == Ok(false) {
      assert Stale(k).value.spec.configuration.source == [];
    }
  }
}
