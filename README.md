# GKE node-pool shifter, modelled in Dafny

The shifter moves capacity between two GKE node pools, one node per zone per cycle.
Each cycle it lists the source pool's nodes and counts the target pool's nodes per
zone. It then decides whether the source pool still holds more than a per-zone
minimum. If it does, it runs a two-phase shift: grow the target pool by one node per
zone, re-count the target pool and check a gate, then shrink the source pool by one.
Sleeps between cycles are jittered.

The project has four modules:

- `Wrappers` (wrappers.dfy, shared by the other modules): errors, `Option` (None plays Go's nil error) and `Result`.
- `Helpers` (helpers.dfy, models helpers.go): `Sum` and `FindMinAndMax` as loops proved against the
  reference functions `SumOf`, `MinOf` and `MaxOf`. `ApplyJitter` is a function that
  takes the random draw as a parameter.
- `Kubernetes` (kubernetes.dfy, models kubernetes.go): the node directory is a sequence of nodes with label
  maps. `List` is an exact-match conjunctive label filter, and each List request can
  fail according to a per-request script. `GetNodeList` picks its selector from the
  pool name. `GetRegions` is the counting loop over the fixed zone list
  europe-west1-b, -c and -d.
- `Shifter` (shifter.dfy, models main.go): the decision `ShouldShift`; the cloud as a class `Cloud` that
  records every `SetNodePoolSize(pool, size)` call in `trace` and answers each with a
  scripted error; `ShiftNode` (an imperative method, proved against `ShiftNodeSpec`);
  one iteration of the control loop, `RunIteration` (an imperative method, proved
  against `IterationSpec`).

main.go calls `GetZones`, which the source does not define. The only zone-counting code
is `GetRegions` (kubernetes.go:81-103), so every zone fetch in main.go is modelled as a
result shaped like a `GetRegions` result. That result is a `ZoneFetch` of the counts
gathered so far plus the error. `RegionsShaped` states that shape, and `GetRegions`
proves that its results have it. Each fetch in an iteration is an independent oracle
value in `Observations`, because the cluster changes between the queries.

Where the design description and the code differ, the model follows the code:

- Zones are not discovered from node labels. `GetRegions` counts a fixed list of three zones.
- The cycle-time jitter is used after every attempted shift, whether it failed or not.
- When the gate blocks the shrink, `shiftNode` returns the error of the verification
  fetch. That error is nil whenever the fetch succeeded, so the iteration counts "shifted".
- Panics are part of the model, as the `Panicked` outcome:
  - `rand.Intn` with a non-positive bound, i.e. an interval below 4;
  - division by a zone count of zero;
  - `FindMinAndMax` on the empty slice that a fresh fetch returns when its first List
    request fails. The code discards that fetch's error.

## Model

| member | source | states |
|---|---|---|
| Helpers.SumAppend | helpers.go:31-37 | the sum of `a + [v]` is the sum of `a` plus `v` (the loop invariant of Sum) |
| Helpers.Sum | helpers.go:31-37 | the accumulator loop returns the sum of all elements (0 for the empty slice) |
| Helpers.MaxOf | helpers.go:17-29 | the maximum of a non-empty slice is one of its elements and at least every element |
| Helpers.MinOf | helpers.go:17-29 | the minimum of a non-empty slice is one of its elements and at most every element |
| Helpers.FindMinAndMax | helpers.go:17-29 | requires a non-empty slice (a[0]); returns min and max that are elements of the slice and bound every element |
| Helpers.MinMaxSingleton | helpers.go:18-28 | a single-element slice `[v]` gives `(v, v)` |
| Helpers.MinAtMostMax | helpers.go:17-29 | min never exceeds max |
| Helpers.HelperExamples | helpers.go:17-37 | worked values: `[3,7,1,9]` gives `(1,9)`, `[2,0,4]` sums to 6, `[]` sums to 0 |
| Helpers.ApplyJitter | helpers.go:12-15 | for a valid draw, the result lies in `[input - input/4, input + input/4)`, between 3/4 and 5/4 of the input, and is positive |
| Helpers.JitterDefinedIff | helpers.go:14 | rand.Intn's bound `2*d` is positive exactly when the input is at least 4 |
| Kubernetes.Filter | kubernetes.go:94 | a selector keeps exactly the nodes that carry every selected label with that value, and never more nodes than given |
| Kubernetes.FilterEmptySelector | kubernetes.go:64-75 | the empty selector returns every node, in order |
| Kubernetes.List | kubernetes.go:94-97 | a List request fails exactly when its scripted fault is set, with that error; otherwise it returns the filtered nodes |
| Kubernetes.PoolSelector | kubernetes.go:65-73 | the selector choice of GetNodeList: no selector for the empty name, the pool label `cloud.google.com/gke-nodepool` equal to the name otherwise |
| Kubernetes.GetNodeList | kubernetes.go:64-77 | one List request with the pool selector (none for the empty name): the empty name returns all nodes, a non-empty name exactly the nodes whose pool label equals it, in directory order; a list error is returned as is |
| Kubernetes.GetRegions | kubernetes.go:81-103 | on success, three counts in zone order, each the number of nodes with both the pool and that zone label; on the first failing request, that error and only the counts of the zones before it |
| Kubernetes.CountedNodesBounded | kubernetes.go:84-98 | the three zone counts together never exceed the pool's node list, since a node is in at most one zone and other zones are not counted |
| Kubernetes.CountedNodesExact | kubernetes.go:84-98 | when every node of a named pool is in one of the three zones, the zone counts add up to the pool's node list |
| Kubernetes.RegionsSumCounted | kubernetes.go:87-100 | the sum of a full GetRegions result is the number of pool nodes in the three zones |
| Kubernetes.RegionsSumBounded | kubernetes.go:81-103 | the sum of any GetRegions result, full or the partial counts returned beside an error (as shiftNode sums it), is at most the size of GetNodeList(name) |
| Kubernetes.RegionsSumExact | kubernetes.go:81-103 | with all pool nodes in the listed zones, the sum equals the size of GetNodeList(name) |
| Shifter.Cloud.SetNodePoolSize | main.go:222 | a resize call appends `(pool, size)` to the trace and answers with the scripted error for that call |
| Shifter.ShouldShift | main.go:167-177 | the rebalance decision: source node count divided by the target zone count exceeds the minimum, and the source pool is non-empty; requires a non-zero zone count (the division) |
| Shifter.ShouldShiftIff | main.go:167-177 | a shift is chosen exactly when the source pool is non-empty and holds at least (minimum+1) nodes per target zone |
| Shifter.ShouldShiftStrict | main.go:167-177 | a per-zone size equal to the minimum is skipped (strict comparison) |
| Shifter.ShouldShiftNonNegativeMin | main.go:38-41 | with a non-negative minimum (default 0) the per-zone comparison alone decides |
| Shifter.GateBlocks | main.go:233-241 | the verification gate: the new per-zone size times the number of zones in the fetch is below the sum of the fetched counts |
| Shifter.ShiftNodeSpec | main.go:214-265 | first call grows the target pool to current+1; a grow error is returned with no further call; a shrink of the source pool to current-1 is issued only after a nil grow and a passed gate, and its answer is returned; a blocked gate returns the unchecked fetch error; a fetch still showing fewer nodes than expected lets the shrink through; at most two calls |
| Shifter.ShiftNode | main.go:214-265 | the step-by-step protocol appends exactly ShiftNodeSpec's calls to the cloud trace and returns its error |
| Shifter.IterationSpec | main.go:130-207 | a failed fetch gives "failed" with the interval jitter and no shift; a negative decision gives "skipped" with the interval jitter; resize calls happen exactly when a shift is attempted and are shiftNode's on the fresh maxima; an attempted shift gives "failed" iff shiftNode errs, else "shifted", with the cycle-time jitter |
| Shifter.RunIteration | main.go:130-207 | the loop body as written returns IterationSpec's outcome and appends exactly its resize calls to the trace |
| Shifter.IterationPanics | main.go:151-192 | with GetRegions-shaped fetches and intervals of at least 4, the iteration panics only when the decision is true and a fresh fetch failed on its first zone |
| Shifter.ScenarioShifted | main.go:130-207 | 9 source nodes over 3 target zones of 3, floor 2: resizes `(to,4)` then `(from,2)`, outcome "shifted" |
| Shifter.ScenarioSkipped | main.go:167-183 | the same pools with floor 3: no resize, outcome "skipped" |
| Shifter.ScenarioGrowFails | main.go:214-230 | a failing grow call: only the grow call is issued, outcome "failed" |

## Left out

- Flag parsing (main.go:16-49): the flags are the fields of `Config`. Their defaults are interval 300, cycle time 10 and minimum 0.
- The Prometheus counter (main.go:52-73): each completed iteration returns the one status it would increment.
- Logging, the liveness endpoint and metrics initialisation (main.go:81-93): no observable effect on the model.
- Client construction and startup discovery (main.go:86-123; kubernetes.go:28-55, 106-137), and `GetNode` (kubernetes.go:58-61): foreign client-go and GCloud calls.
- `NewGCloudClient`, `GetProjectDetailsFromNode` and `SetNodePoolSize`: their bodies are not part of this model. `SetNodePoolSize` is a traced call with a scripted error.
- The goroutine, the wait group, graceful shutdown, `time.Sleep` and the endless `for` (main.go:126-129, 184, 201, 206, 210): concurrency and timing. One iteration is modelled, and its sleep is returned as a value.
- Randomness: the `rand.Intn` results are parameters (`Draws`).
- Helpers.ApplyJitter: the float product `0.25*float64(input)` (helpers.go:13) is modelled as `input / 4`. The two agree for 0 <= input < 2^53. Larger inputs are not modelled: there `float64` rounds the input (2^54+3 becomes 2^54+4), so Go's deviation can differ from `input / 4`.
- The `int`/`int64` conversions (main.go:216, 234, 249): sizes are unbounded integers.
- How a resize changes the counts seen by later fetches: each fetch is an independent oracle value, so the model does not relate the grow call to the verification fetch.
