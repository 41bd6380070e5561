/**
 * The control loop of main.go: the rebalance decision, the two-phase shiftNode
 * protocol against a traced cloud, and one iteration of the loop body.
 */
module Shifter {
  import opened Wrappers
  import opened Helpers
  import opened Kubernetes

  /** One SetNodePoolSize call: the pool and the per-zone size asked for. */
  datatype Resize = Resize(pool: string, size: int)

  /**
   * The cloud's node-pool manager. Every SetNodePoolSize call is recorded in `trace`;
   * the error it answers with is scripted per call (script[k] for the k-th call of
   * the cloud's lifetime; past the end of the script every call succeeds).
   */
  class Cloud {
    const script: seq<Option<Error>>
    var trace: seq<Resize>

    constructor (script: seq<Option<Error>>)
      ensures this.script == script && trace == []
    {
      this.script := script;
      trace := [];
    }

    /** The scripted answer to the k-th resize call. */
    function Response(k: nat): Option<Error>
    {
      if k < |script| then script[k] else None
    }

    /** SetNodePoolSize: records the call and answers with the scripted result. */
    method SetNodePoolSize(pool: string, size: int) returns (err: Option<Error>)
      modifies this
      ensures trace == old(trace) + [Resize(pool, size)]
      ensures err == Response(|old(trace)|)
    {
      err := Response(|trace|);
      trace := trace + [Resize(pool, size)];
    }
  }

  /**
   * The rebalance decision: the source pool's node count divided by the target pool's
   * zone count must exceed the per-zone minimum, and the source pool must not be empty.
   * The division panics on zero zones, hence the precondition.
   */
  predicate ShouldShift(fromCount: nat, zoneCount: int, minNode: int)
    requires zoneCount > 0
  {
    fromCount / zoneCount > minNode && fromCount > 0
  }

  /**
   * The decision without division: a shift is chosen exactly when the source pool holds
   * at least minNode + 1 nodes for every zone, and at least one node.
   */
  lemma ShouldShiftIff(fromCount: nat, zoneCount: int, minNode: int)
    requires zoneCount > 0
    ensures ShouldShift(fromCount, zoneCount, minNode) <==>
      fromCount > 0 && fromCount >= (minNode + 1) * zoneCount
  {
    var q := fromCount / zoneCount;
    var m := minNode + 1;
    assert fromCount == q * zoneCount + fromCount % zoneCount;
    if q >= m {
      MulMonotone(m, q, zoneCount);
    } else {
      MulMonotone(q + 1, m, zoneCount);
      assert (q + 1) * zoneCount == q * zoneCount + zoneCount;
    }
  }

  /** Multiplying by a positive factor keeps the order. */
  lemma MulMonotone(a: int, b: int, z: int)
    requires a <= b && z > 0
    ensures a * z <= b * z
  {
    assert b * z - a * z == (b - a) * z;
  }

  /** The comparison is strict: a per-zone size equal to the minimum is skipped. */
  lemma ShouldShiftStrict(fromCount: nat, zoneCount: int, minNode: int)
    requires zoneCount > 0 && fromCount / zoneCount == minNode
    ensures !ShouldShift(fromCount, zoneCount, minNode)
  {
  }

  /**
   * With a non-negative minimum (the default is 0) the second conjunct is implied by
   * the first: the per-zone size alone decides.
   */
  lemma ShouldShiftNonNegativeMin(fromCount: nat, zoneCount: int, minNode: int)
    requires zoneCount > 0 && minNode >= 0
    ensures ShouldShift(fromCount, zoneCount, minNode) <==> fromCount / zoneCount > minNode
  {
    if fromCount == 0 {
      assert fromCount / zoneCount == 0;
    }
  }

  /** What shiftNode does: the resize calls it issues, in order, and the error it returns. */
  datatype Shift = Shift(calls: seq<Resize>, err: Option<Error>)

  /**
   * The verification gate after the grow step: it stops the shrink when the expected
   * node count (new per-zone size times the number of zones) is below the actual sum.
   */
  predicate GateBlocks(toNewSize: int, zoneInfo: seq<int>)
  {
    toNewSize * |zoneInfo| < SumOf(zoneInfo)
  }

  /**
   * shiftNode as a function of the verification fetch and of the cloud's answers to
   * the grow call and to the shrink call. Its contract is the safety protocol: the
   * first call grows the target pool by one; a shrink of the source pool by one is
   * issued only after a grow answered nil and a gate that passed; an error of the grow
   * step is returned with no further call; a blocked gate returns the (unchecked)
   * error of the verification fetch; a shrink's answer is the returned error. The
   * gate only catches over-provisioning: a verification fetch that still shows fewer
   * nodes than expected lets the shrink through.
   */
  function ShiftNodeSpec(fromName: string, toName: string, fromCurrentSize: int, toCurrentSize: int,
                         verify: ZoneFetch, grow: Option<Error>, shrink: Option<Error>): (s: Shift)
    ensures 1 <= |s.calls| <= 2
    ensures s.calls[0] == Resize(toName, toCurrentSize + 1)
    ensures |s.calls| == 2 <==> grow.None? && !GateBlocks(toCurrentSize + 1, verify.counts)
    ensures |s.calls| == 2 ==> s.calls[1] == Resize(fromName, fromCurrentSize - 1) && s.err == shrink
    ensures grow.Some? ==> s.err == grow
    ensures grow.None? && GateBlocks(toCurrentSize + 1, verify.counts) ==> s.err == verify.err
    ensures grow.None? && SumOf(verify.counts) < (toCurrentSize + 1) * |verify.counts| ==>
      |s.calls| == 2 && s.calls[1] == Resize(fromName, fromCurrentSize - 1)
  {
    var growCall := Resize(toName, toCurrentSize + 1);
    if grow.Some? then Shift([growCall], grow)
    else if GateBlocks(toCurrentSize + 1, verify.counts) then Shift([growCall], verify.err)
    else Shift([growCall, Resize(fromName, fromCurrentSize - 1)], shrink)
  }

  /**
   * shiftNode: grow the target pool, re-fetch its zone distribution (`verify`, whose
   * error is never looked at), check the gate, then shrink the source pool.
   */
  method ShiftNode(g: Cloud, fromName: string, toName: string, fromCurrentSize: int, toCurrentSize: int,
                   verify: ZoneFetch) returns (err: Option<Error>)
    modifies g
    ensures var s := ShiftNodeSpec(fromName, toName, fromCurrentSize, toCurrentSize, verify,
                                   g.Response(|old(g.trace)|), g.Response(|old(g.trace)| + 1));
            g.trace == old(g.trace) + s.calls && err == s.err
  {
    var toNewSize := toCurrentSize + 1;
    err := g.SetNodePoolSize(toName, toNewSize);
    if err.Some? {
      return;
    }
    var zoneInfo := verify.counts;
    err := verify.err;
    var actualNodeCount := Sum(zoneInfo);
    var amountOfZones := |zoneInfo|;
    var expectedNodeCount := toNewSize * amountOfZones;
    if expectedNodeCount < actualNodeCount {
      return;
    }
    var fromNewSize := fromCurrentSize - 1;
    err := g.SetNodePoolSize(fromName, fromNewSize);
  }

  /** The outcome label of the Prometheus counter, incremented once per completed iteration. */
  datatype Status = Shifted | Skipped | Failed

  /** Which configured interval the iteration's sleep was jittered from. */
  datatype Interval = BaseInterval | CycleInterval

  /** The runtime panics a loop iteration can hit. */
  datatype Panic =
    | JitterDrawPanic     // rand.Intn(2*d) with 2*d <= 0, i.e. an interval below 4
    | DivisionByZero      // a successful zone fetch with no zones
    | EmptyDistribution   // FindMinAndMax on the empty slice of a failed fresh fetch

  /** How an iteration ends: a status and a sleep, or a panic that stops the process. */
  datatype Outcome = Completed(status: Status, sleep: int, interval: Interval) | Panicked(cause: Panic)

  /** The flags the loop reads: intervals in seconds, the two pools and the per-zone floor. */
  datatype Config = Config(interval: int, cycleTime: int, nodePoolFrom: string, nodePoolTo: string,
                           nodePoolFromMinNode: int)

  /** The random draws of the iteration's two ApplyJitter calls. */
  datatype Draws = Draws(base: int, cycle: int)

  /**
   * What the iteration's cluster queries return, in call order: GetNodeList of the
   * source pool, the zone fetch of the target pool for the decision, the fresh zone
   * fetches of the target and the source pools, and shiftNode's verification fetch.
   */
  datatype Observations = Observations(nodesFrom: Result<seq<Node>>, zoneInfo: ZoneFetch,
                                       freshTo: ZoneFetch, freshFrom: ZoneFetch, verify: ZoneFetch)

  /** A loop iteration: how it ends and the resize calls it issued. */
  datatype Iteration = Iteration(outcome: Outcome, calls: seq<Resize>)

  /** Each draw is one rand.Intn can return, whenever its ApplyJitter call does not panic. */
  predicate DrawsValid(cfg: Config, draws: Draws)
  {
    (cfg.interval >= 4 ==> ValidDraw(cfg.interval, draws.base)) &&
    (cfg.cycleTime >= 4 ==> ValidDraw(cfg.cycleTime, draws.cycle))
  }

  /** Do both fetches of the decision step succeed, with at least one zone? */
  predicate FetchesUsable(obs: Observations)
  {
    obs.nodesFrom.Ok? && obs.zoneInfo.err.None? && |obs.zoneInfo.counts| > 0
  }

  /** The decision of main.go:167,177 on the iteration's first two fetches. */
  predicate Decided(cfg: Config, obs: Observations)
  {
    FetchesUsable(obs) &&
    ShouldShift(|obs.nodesFrom.value|, |obs.zoneInfo.counts|, cfg.nodePoolFromMinNode)
  }

  /** Does a shift get attempted: a positive decision and two non-empty fresh distributions? */
  predicate ShiftAttempted(cfg: Config, obs: Observations)
  {
    cfg.interval >= 4 && Decided(cfg, obs) && |obs.freshTo.counts| > 0 && |obs.freshFrom.counts| > 0
  }

  /** The shift the iteration performs, with the maxima of the fresh distributions as sizes. */
  function IterationShift(cfg: Config, obs: Observations, grow: Option<Error>, shrink: Option<Error>): Shift
    requires |obs.freshTo.counts| > 0 && |obs.freshFrom.counts| > 0
  {
    ShiftNodeSpec(cfg.nodePoolFrom, cfg.nodePoolTo, MaxOf(obs.freshFrom.counts), MaxOf(obs.freshTo.counts),
                  obs.verify, grow, shrink)
  }

  /**
   * One iteration of the loop body as a function of the flags, the random draws, the
   * query results and the cloud's answers to the grow and shrink calls.
   */
  function IterationSpec(cfg: Config, draws: Draws, obs: Observations,
                         grow: Option<Error>, shrink: Option<Error>): (it: Iteration)
    requires DrawsValid(cfg, draws)
    // A failed fetch: "failed", the base-interval jitter, no shift.
    ensures cfg.interval >= 4 && (obs.nodesFrom.Err? || obs.zoneInfo.err.Some?) ==>
      it == Iteration(Completed(Failed, ApplyJitter(cfg.interval, draws.base), BaseInterval), [])
    // A negative decision: "skipped", the base-interval jitter, no shift.
    ensures cfg.interval >= 4 && FetchesUsable(obs) && !Decided(cfg, obs) ==>
      it == Iteration(Completed(Skipped, ApplyJitter(cfg.interval, draws.base), BaseInterval), [])
    // Resize calls happen only in an attempted shift, and then they are shiftNode's.
    ensures it.calls != [] <==> ShiftAttempted(cfg, obs)
    ensures ShiftAttempted(cfg, obs) ==> it.calls == IterationShift(cfg, obs, grow, shrink).calls
    // An attempted shift: "failed" iff shiftNode errs, else "shifted", with the cycle-time jitter.
    ensures ShiftAttempted(cfg, obs) && cfg.cycleTime >= 4 ==>
      it.outcome == Completed(if IterationShift(cfg, obs, grow, shrink).err.Some? then Failed else Shifted,
                              ApplyJitter(cfg.cycleTime, draws.cycle), CycleInterval)
    // The cycle-time interval is used exactly after an attempted shift.
    ensures it.outcome.Completed? ==> (it.outcome.interval == CycleInterval <==> it.calls != [])
  {
    if cfg.interval < 4 then Iteration(Panicked(JitterDrawPanic), [])
    else
      var sleep := ApplyJitter(cfg.interval, draws.base);
      if obs.nodesFrom.Err? || obs.zoneInfo.err.Some? then Iteration(Completed(Failed, sleep, BaseInterval), [])
      else if |obs.zoneInfo.counts| == 0 then Iteration(Panicked(DivisionByZero), [])
      else if !Decided(cfg, obs) then Iteration(Completed(Skipped, sleep, BaseInterval), [])
      else if |obs.freshTo.counts| == 0 || |obs.freshFrom.counts| == 0 then Iteration(Panicked(EmptyDistribution), [])
      else
        var s := IterationShift(cfg, obs, grow, shrink);
        if cfg.cycleTime < 4 then Iteration(Panicked(JitterDrawPanic), s.calls)
        else
          var status := if s.err.Some? then Failed else Shifted;
          Iteration(Completed(status, ApplyJitter(cfg.cycleTime, draws.cycle), CycleInterval), s.calls)
  }

  /**
   * One iteration of the loop body, step by step: jitter the base interval, fetch,
   * decide, and on a positive decision re-fetch, shift and jitter the cycle time.
   */
  method RunIteration(g: Cloud, cfg: Config, draws: Draws, obs: Observations) returns (out: Outcome)
    requires DrawsValid(cfg, draws)
    modifies g
    ensures var it := IterationSpec(cfg, draws, obs, g.Response(|old(g.trace)|), g.Response(|old(g.trace)| + 1));
            out == it.outcome && g.trace == old(g.trace) + it.calls
  {
    if cfg.interval < 4 {
      return Panicked(JitterDrawPanic);
    }
    var sleepTime := ApplyJitter(cfg.interval, draws.base);
    var nodesFrom := obs.nodesFrom;
    if nodesFrom.Err? {
      return Completed(Failed, sleepTime, BaseInterval);
    }
    var zoneInfo := obs.zoneInfo;
    if zoneInfo.err.Some? {
      return Completed(Failed, sleepTime, BaseInterval);
    }
    if |zoneInfo.counts| == 0 {
      return Panicked(DivisionByZero);
    }
    var status := Skipped;
    var interval := BaseInterval;
    if ShouldShift(|nodesFrom.value|, |zoneInfo.counts|, cfg.nodePoolFromMinNode) {
      status := Shifted;
      var nodesTo := obs.freshTo.counts;
      if |nodesTo| == 0 {
        return Panicked(EmptyDistribution);
      }
      var minTo, maxTo := FindMinAndMax(nodesTo);
      var freshFrom := obs.freshFrom.counts;
      if |freshFrom| == 0 {
        return Panicked(EmptyDistribution);
      }
      var minFrom, maxFrom := FindMinAndMax(freshFrom);
      var err := ShiftNode(g, cfg.nodePoolFrom, cfg.nodePoolTo, maxFrom, maxTo, obs.verify);
      if err.Some? {
        status := Failed;
      }
      if cfg.cycleTime < 4 {
        return Panicked(JitterDrawPanic);
      }
      sleepTime := ApplyJitter(cfg.cycleTime, draws.cycle);
      interval := CycleInterval;
    }
    out := Completed(status, sleepTime, interval);
  }

  /**
   * With zone fetches shaped like GetRegions results and intervals of at least 4, the
   * only panic left is FindMinAndMax on the empty slice of a fresh fetch whose first
   * List request failed.
   */
  lemma IterationPanics(cfg: Config, draws: Draws, obs: Observations, grow: Option<Error>, shrink: Option<Error>)
    requires DrawsValid(cfg, draws) && cfg.interval >= 4 && cfg.cycleTime >= 4
    requires RegionsShaped(obs.zoneInfo) && RegionsShaped(obs.freshTo) && RegionsShaped(obs.freshFrom)
    ensures var out := IterationSpec(cfg, draws, obs, grow, shrink).outcome;
            out.Panicked? <==> Decided(cfg, obs) && (obs.freshTo.counts == [] || obs.freshFrom.counts == [])
    ensures var out := IterationSpec(cfg, draws, obs, grow, shrink).outcome;
            out.Panicked? ==> out.cause == EmptyDistribution && (obs.freshTo.err.Some? || obs.freshFrom.err.Some?)
  {
  }

  /**
   * Source pool of 9 nodes, target pool at 3 nodes in each of 3 zones, floor 2: the
   * target grows to 4 per zone, the gate sees 12 of 12 expected, the source shrinks
   * to 2 per zone, and the iteration counts "shifted".
   */
  lemma ScenarioShifted(nodes: seq<Node>, from: string, to: string)
    requires |nodes| == 9
    ensures var cfg := Config(300, 10, from, to, 2);
            var obs := Observations(Ok(nodes), ZoneFetch([3, 3, 3], None), ZoneFetch([3, 3, 3], None),
                                    ZoneFetch([3, 3, 3], None), ZoneFetch([4, 4, 4], None));
            var it := IterationSpec(cfg, Draws(0, 0), obs, None, None);
            it.calls == [Resize(to, 4), Resize(from, 2)] && it.outcome.Completed? &&
            it.outcome.status == Shifted && it.outcome.interval == CycleInterval
  {
    assert MaxOf([3, 3, 3]) == 3;
    assert SumOf([4, 4, 4]) == 12;
  }

  /** The same pools with floor 3: 9 / 3 is not above 3, so "skipped" with no resize. */
  lemma ScenarioSkipped(nodes: seq<Node>, from: string, to: string)
    requires |nodes| == 9
    ensures var cfg := Config(300, 10, from, to, 3);
            var obs := Observations(Ok(nodes), ZoneFetch([3, 3, 3], None), ZoneFetch([3, 3, 3], None),
                                    ZoneFetch([3, 3, 3], None), ZoneFetch([4, 4, 4], None));
            var it := IterationSpec(cfg, Draws(0, 0), obs, None, None);
            it.calls == [] && it.outcome.Completed? && it.outcome.status == Skipped
  {
  }

  /** A grow call that errs: "failed", and the shrink call is never issued. */
  lemma ScenarioGrowFails(nodes: seq<Node>, from: string, to: string, e: Error)
    requires |nodes| == 9
    ensures var cfg := Config(300, 10, from, to, 2);
            var obs := Observations(Ok(nodes), ZoneFetch([3, 3, 3], None), ZoneFetch([3, 3, 3], None),
                                    ZoneFetch([3, 3, 3], None), ZoneFetch([4, 4, 4], None));
            var it := IterationSpec(cfg, Draws(0, 0), obs, Some(e), None);
            it.calls == [Resize(to, 4)] && it.outcome.Completed? && it.outcome.status == Failed
  {
    assert MaxOf([3, 3, 3]) == 3;
  }
}
