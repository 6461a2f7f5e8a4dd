# Rollout verifier for MachineConfigPools

This project models the rollout-verification helpers of the performance-addon-operators
functional tests (`functests/utils/mcps/mcps.go`). A MachineConfigPool (MCP) is a group of
nodes selected by labels. It carries the MachineConfigs it has been rendered from (its
configuration sources) and status conditions such as `Updated` or `Updating`. The helpers:

- build a pool with a fixed label and selector layout (`New`);
- read the status and the reason of a pool's condition of a given type, with the fallbacks
  `Unknown` and `""`;
- wait until a pool's condition reaches a status (`WaitForCondition`). The wait first finds
  the nodes the pool targets and refuses an empty target. It then polls every 30 seconds for
  20 minutes per targeted node;
- wait until a pool lists, among its configuration sources, the MachineConfig generated for a
  profile, named `<ComponentNamePrefix>-<profileName>` (`WaitForProfilePickedUp`). This wait
  polls every 30 seconds for at most 10 minutes.

Modules:

- `Wrappers` (wrappers.dfy): `Option` and `Result`.
- `MachineConfig` (machineconfig.dfy): the parts of the MCP, condition, label-selector and node
  API types that the helpers read or write. A `Snapshot` is one fetch of a pool by name:
  the pool, or `None` when the client returned an error.
- `Polling` (polling.dfy): gomega's `Eventually(...).Should(Equal(v))` as a method. The
  callback's result at each poll and the time of each poll are inputs (`observe(k)`,
  `clock(k)`, an infinite schedule indexed by poll number). The first poll is always taken;
  a later poll is taken only while its time is below the timeout. `Describes` states exactly
  which outcome a schedule produces: `Reached`, `TimedOut` with the last value seen, or
  `Failed` when an assertion inside the callback failed.
- `Mcps` (mcps.dfy): the helpers themselves.
- `Scenarios` (scenarios.dfy): two rollouts worked through the model. In the first, a
  three-node pool gets 60 minutes and is seen `Updated=True` on its third poll. In the
  second, a pool whose `Updated` condition is still true from an earlier rollout never
  lists the profile's MachineConfig, so the pickup wait times out after 20 polls.

Inputs stand for what the helpers receive from outside:

- each fetch of the pool by name (`GetByName`) is a `Snapshot`;
- nodes.GetBySelector is a function `listNodes` from a selector to a node list, or `None`
  on a client error;
- the labels library's validation of a label key (done inside `labels.NewRequirement`)
  is a predicate `validKey`;
- `components.GetFirstKeyAndValue` is the parameter `key`. The requires clause
  `KeyChosenFrom` says it is some key of the pool's node-selector labels whenever those
  are non-empty. Which key it is depends on Go map order, so the model does not fix it;
- a nil `NodeSelector` makes the Go code panic on a nil-pointer dereference
  (mcps.go:109); the model reports that panic as the `Failure` `NoNodeSelector`;
- a gomega or Expect assertion failure is a `Failure` value. It is carried in
  `Failed(polls, failure)`, with zero polls when the failure came before polling began.

Durations are in seconds. `components.MachineConfigRoleLabelKey` and
`components.ComponentNamePrefix` are defined in the components package, which is not part of
this model. The model fixes them to the upstream values
`"machineconfiguration.openshift.io/role"` and `"performance"`. No proof depends on
which values they are.

Facts about the code that shape the model:

- the per-node budget is the constant 20 minutes (functests/utils/mcps/mcps.go:26);
- the waits return nothing and fail the test through assertions;
- the pickup wait derives the MachineConfig name from the profile name;
- the code itself does not order the pickup wait before condition polling.

## Model

| member | source | states |
|---|---|---|
| `Mcps.NewPool` | functests/utils/mcps/mcps.go:56-77 | The pool built by `New` has the given name and an empty namespace. Its labels are exactly the role label, set to its name. Its machine-config selector is one `In` requirement on the role label with values `["worker", mcpName]`. Its node selector's labels are exactly the given map. Its configuration is the zero value (empty name, no sources) and it has no conditions. |
| `Mcps.New` | functests/utils/mcps/mcps.go:56-77 | The pool is named `mcpName` and labelled with its role only. Its machine-config selector has one requirement, whose values include both the pool's own role label value and `"worker"`. Its node selector's labels are the given map. |
| `Mcps.NewInjective` | functests/utils/mcps/mcps.go:56-77 | `New` keeps both of its arguments: two equal pools come from the same name and node selector. |
| `Mcps.FindCondition` | functests/utils/mcps/mcps.go:84-88 | The search finds the index of the first condition of the requested type, or reports that no condition has that type. |
| `Mcps.ConditionStatusOf` | functests/utils/mcps/mcps.go:84-89 | The status is that of the first condition of the type; `Unknown` when no condition has the type. |
| `Mcps.ConditionReasonOf` | functests/utils/mcps/mcps.go:96-101 | The reason is that of the first condition of the type; `""` when no condition has the type. |
| `Mcps.StatusAndReasonAgree` | functests/utils/mcps/mcps.go:80-102 | Status and reason are read from the same entry (the first of the type), or both fall back together. |
| `Mcps.GetConditionStatus` | functests/utils/mcps/mcps.go:81-90 | A failed fetch fails the "Failed getting MCP by name" assertion. Otherwise the loop with early return yields the first-match status, or `Unknown`. |
| `Mcps.GetConditionReason` | functests/utils/mcps/mcps.go:93-102 | A failed fetch fails the "Failed getting MCP by name" assertion. Otherwise the loop yields the first-match reason, or `""`. |
| `Mcps.RolloutTimeoutScales` | functests/utils/mcps/mcps.go:122-126 | The timeout is node count × 20 minutes. It is strictly increasing in the node count and positive exactly when there is at least one node. For 1, 3, 5 and 50 nodes it is 20, 60, 100 and 1000 minutes. |
| `Mcps.RolloutTimeout` | functests/utils/mcps/mcps.go:122-126 | The timeout is a whole number of 20-minute budgets, and dividing it by the budget gives back the node count. |
| `Mcps.NodeQuery` | functests/utils/mcps/mcps.go:111-115 | The node query is a single `Exists` requirement on the chosen key, with no values. |
| `Mcps.TargetNodes` | functests/utils/mcps/mcps.go:106-118 | The pre-poll steps succeed exactly when all of these hold: the pool was fetched, it has a node selector, the key is valid, and the Exists query on the key returned a non-empty node list. The result is that list, which always has at least one node. Each failing step reports its own failure: `FetchFailed`, `NoNodeSelector`, `SelectorInvalid`, `NodeListFailed` or `NoNodes`. |
| `Mcps.TargetIgnoresLabelValues` | functests/utils/mcps/mcps.go:109-116 | For a given chosen key, the target does not depend on the node-selector labels' values. |
| `Mcps.NoZeroTimeout` | functests/utils/mcps/mcps.go:116-122 | Whenever a target was found, the computed timeout is at least 20 minutes; it is never zero. |
| `Mcps.ConditionPoll` | functests/utils/mcps/mcps.go:124-125 | The condition callback at poll k fails with `FetchFailed` exactly when that poll's fetch failed. Otherwise it returns the fetched pool's condition status. |
| `Mcps.WaitForCondition` | functests/utils/mcps/mcps.go:105-127 | Any pre-poll failure is reported with zero polls. Otherwise the outcome is the one the schedule produces under a timeout of node count × 20 minutes and a 30-second interval. The wait is Reached exactly when some poll taken in time sees the desired status with no earlier failed fetch. At most 40 polls are taken per node. |
| `Mcps.PickupName` | functests/utils/mcps/mcps.go:135 | The generated name is the prefix, then `-`, then the profile name; each part can be read back from its position. |
| `Mcps.PickupNameInjective` | functests/utils/mcps/mcps.go:135 | Different profile names give different generated MachineConfig names. |
| `Mcps.PickedUp` | functests/utils/mcps/mcps.go:134-139 | A pool has picked up a profile exactly when the generated name is among the names of its configuration sources. |
| `Mcps.PickupIgnoresStatus` | functests/utils/mcps/mcps.go:134-139 | Whether a pool has picked up a profile does not depend on its status conditions. |
| `Mcps.ProfilePickedUp` | functests/utils/mcps/mcps.go:132-139 | A failed fetch fails the assertion. Otherwise the callback returns true exactly when some configuration source is named `<ComponentNamePrefix>-<profileName>`. |
| `Mcps.PickupPoll` | functests/utils/mcps/mcps.go:131-140 | The pickup callback at poll k fails with `FetchFailed` exactly when that poll's fetch failed. Otherwise it returns whether the fetched pool has picked up the profile. |
| `Mcps.WaitForProfilePickedUp` | functests/utils/mcps/mcps.go:130-141 | The outcome is the one the schedule produces under a 10-minute timeout and a 30-second interval, with `true` as the desired value. It is Reached exactly when some poll taken in time sees the profile's MachineConfig among the sources. At most 20 polls are taken. |
| `Polling.Eventually` | functests/utils/mcps/mcps.go:124-126 | The poll loop produces exactly the outcome `Describes` prescribes. When the interval is positive, the polls after the initial one fit in the timeout, so there are at most timeout / interval + 1 polls. |
| `Polling.SpacedPolls` | functests/utils/mcps/mcps.go:126 | With polls at least one interval apart, poll k comes at least k intervals after the first. |
| `Polling.ClockMonotone` | functests/utils/mcps/mcps.go:126 | Later polls never come earlier. |
| `Polling.PollsWithinBudget` | functests/utils/mcps/mcps.go:124-126 | If the n-th poll is taken, then (n - 1) × interval < timeout, so n ≤ timeout / interval + 1. |
| `Polling.ReachedIff` | functests/utils/mcps/mcps.go:124-126 | A wait is Reached if and only if some poll taken within the timeout observes the desired value, with no earlier poll aborted by a failed assertion. |
| `Polling.DescribesUnique` | functests/utils/mcps/mcps.go:124-126 | The callback's results and the clock determine the outcome: two outcomes that both fit a schedule are equal. |
| `Scenarios.RolloutOfThreeNodes` | functests/utils/mcps/mcps.go:105-127 | A three-node pool whose `Updated` turns true at the third poll is Reached after exactly 3 polls. |
| `Scenarios.StaleUpdatedIsNotPickup` | functests/utils/mcps/mcps.go:130-141 | A pool still `Updated=True` from an earlier rollout, without the profile's MachineConfig, makes the pickup wait time out after exactly 20 polls. |

## Left out

- main.go: flag parsing, scheme registration, manager, leader election, webhooks and signal handling are process wiring with no logic of this component.
- The reconciler, the API version conversion and the webhook validation live in packages that are not part of this model.
- `GetByLabel` (functests/utils/mcps/mcps.go:30-42), a client List by label, is not used by the modelled helpers and is left out; the label filtering is done by the API server.
- `GetByName` (functests/utils/mcps/mcps.go:45-53), a client Get with retry: each of its results is a `Snapshot` input, with `None` for an error.
- `components.GetFirstKeyAndValue`: not part of this model. It depends on Go map iteration order, so its choice is an input constrained to a key of the map.
- `Mcps.KeyChosenFrom`: when the pool's `MatchLabels` is empty, the model puts no constraint on the chosen key, so with a key that `validKey` accepts such a pool can reach polling. In the source, the outcome depends on what `GetFirstKeyAndValue` returns for an empty map; an empty key makes `NewRequirement` fail. The model over-approximates here because `GetFirstKeyAndValue` is not part of this model.
- `labels.NewRequirement` key validation and `nodes.GetBySelector`: library and client code, injected as `validKey` and `listNodes`.
- `Mcps.RolloutTimeout`: computed over unbounded integers. In Go, `time.Duration` is int64 nanoseconds, so `n * 20 * time.Minute` wraps for more than 7,686,143 nodes.
- `Polling.Eventually`: real time, timers and goroutines are replaced by the injected clock. A poll whose time equals the timeout is treated as too late: gomega resolves that tie by a race between two timers.
- `Polling.Eventually`: a matcher's "no future change is possible" early exit is not modelled. Neither `Equal` nor `BeTrue`, the two matchers used here, takes it.
- klog logging and the text of assertion messages: the failure kind is kept, the message text is not.
- A condition's message and last-transition time are not read by the helpers, and are not part of the model.
