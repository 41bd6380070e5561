/**
 * The node directory queries of kubernetes.go: the pool selector of GetNodeList
 * and the per-zone counting loop of GetRegions, over a snapshot of the cluster's nodes.
 */
module Kubernetes {
  import opened Wrappers
  import opened Helpers

  /** The label GKE puts on every node to name its node pool. */
  const PoolLabel := "cloud.google.com/gke-nodepool"
  /** The label that carries a node's availability zone. */
  const ZoneLabel := "failure-domain.beta.kubernetes.io/zone"
  /** The zones GetRegions counts, in this order; the list is fixed in the source. */
  const Zones := ["europe-west1-b", "europe-west1-c", "europe-west1-d"]

  /** A cluster node, as far as label selection sees it. */
  datatype Node = Node(labels: map<string, string>)

  /** A label selector built from a set: every key must be present with exactly that value. */
  type Selector = map<string, string>

  /**
   * The node directory behind the List call: the nodes it holds, and the scripted
   * outcome of each List request an operation makes (faults[k] for the k-th request;
   * a missing or None entry means that request succeeds).
   */
  datatype Directory = Directory(nodes: seq<Node>, faults: seq<Option<Error>>)

  /** What a zone-count fetch hands back: the counts gathered so far and the error, if any. */
  datatype ZoneFetch = ZoneFetch(counts: seq<int>, err: Option<Error>)

  /** Exact-match conjunction of the selector's key/value pairs. */
  predicate Matches(n: Node, sel: Selector)
  {
    forall k :: k in sel ==> k in n.labels && n.labels[k] == sel[k]
  }

  /** The nodes a selector lets through, in directory order. */
  function Filter(nodes: seq<Node>, sel: Selector): (r: seq<Node>)
    ensures |r| <= |nodes|
    ensures forall n :: n in r <==> n in nodes && Matches(n, sel)
  {
    if nodes == [] then []
    else if Matches(nodes[0], sel) then [nodes[0]] + Filter(nodes[1..], sel)
    else Filter(nodes[1..], sel)
  }

  /** The empty selector lets every node through, in order. */
  lemma {:induction false} FilterEmptySelector(nodes: seq<Node>)
    ensures Filter(nodes, map[]) == nodes
  {
    if nodes != [] {
      FilterEmptySelector(nodes[1..]);
    }
  }

  /** The scripted outcome of the k-th List request. */
  function Fault(dir: Directory, k: nat): Option<Error>
  {
    if k < |dir.faults| then dir.faults[k] else None
  }

  /** The k-th List request against the directory with the given selector. */
  function List(dir: Directory, k: nat, sel: Selector): (r: Result<seq<Node>>)
    ensures r.Err? <==> Fault(dir, k).Some?
    ensures r.Err? ==> r.error == Fault(dir, k).value
    ensures r.Ok? ==> r.value == Filter(dir.nodes, sel)
  {
    match Fault(dir, k)
    case Some(e) => Err(e)
    case None => Ok(Filter(dir.nodes, sel))
  }

  /** The selector GetNodeList uses: none for the empty name, the pool label otherwise. */
  function PoolSelector(name: string): Selector
  {
    if name != "" then map[PoolLabel := name] else map[]
  }

  /**
   * GetNodeList: one List request, filtered on the pool label only when a name is
   * given, so the empty name returns every node.
   */
  method GetNodeList(dir: Directory, name: string) returns (nodes: Result<seq<Node>>)
    ensures nodes.Err? <==> Fault(dir, 0).Some?
    ensures nodes.Err? ==> nodes.error == Fault(dir, 0).value
    ensures nodes.Ok? ==> nodes.value == Filter(dir.nodes, PoolSelector(name))
    ensures nodes.Ok? && name == "" ==> nodes.value == dir.nodes
    ensures nodes.Ok? && name != "" ==>
      forall n :: n in nodes.value <==> n in dir.nodes && PoolLabel in n.labels && n.labels[PoolLabel] == name
  {
    var selector: Selector := map[];
    if name != "" {
      selector := map[PoolLabel := name];
    }
    nodes := List(dir, 0, selector);
    if name == "" {
      FilterEmptySelector(dir.nodes);
    }
  }

  /** The selector for one zone of one pool. */
  function ZoneSelector(name: string, zone: string): Selector
  {
    map[PoolLabel := name, ZoneLabel := zone]
  }

  /** Does the node belong to pool `name` and sit in `zone`? */
  predicate InZone(n: Node, name: string, zone: string)
  {
    PoolLabel in n.labels && n.labels[PoolLabel] == name &&
    ZoneLabel in n.labels && n.labels[ZoneLabel] == zone
  }

  /** The number of nodes of pool `name` in `zone`. */
  function CountInZone(nodes: seq<Node>, name: string, zone: string): nat
  {
    |Filter(nodes, ZoneSelector(name, zone))|
  }

  /** What a fetch returned by GetRegions can look like: three counts, or fewer and an error. */
  predicate RegionsShaped(f: ZoneFetch)
  {
    (f.err.None? ==> |f.counts| == |Zones|) &&
    (f.err.Some? ==> |f.counts| < |Zones|) &&
    (forall i :: 0 <= i < |f.counts| ==> f.counts[i] >= 0)
  }

  /**
   * GetRegions: for each zone of the fixed list, one List request with both the pool
   * and the zone label; the first failing request stops the loop and its error is
   * returned beside the counts of the zones before it.
   */
  method GetRegions(dir: Directory, name: string) returns (regions: seq<int>, err: Option<Error>)
    ensures err.None? ==> |regions| == |Zones|
    ensures err.Some? ==> |regions| < |Zones| && err == Fault(dir, |regions|)
    ensures forall i :: 0 <= i < |regions| ==> Fault(dir, i).None?
    ensures forall i :: 0 <= i < |regions| ==> regions[i] == CountInZone(dir.nodes, name, Zones[i])
    ensures RegionsShaped(ZoneFetch(regions, err))
  {
    regions := [];
    err := None;
    var i := 0;
    while i < |Zones|
      invariant 0 <= i <= |Zones| && |regions| == i
      invariant forall j :: 0 <= j < i ==> Fault(dir, j).None?
      invariant forall j :: 0 <= j < i ==> regions[j] == CountInZone(dir.nodes, name, Zones[j])
    {
      var zone := Zones[i];
      var selector := map[PoolLabel := name, ZoneLabel := zone];
      var nodes := List(dir, i, selector);
      if nodes.Err? {
        err := Some(nodes.error);
        return;
      }
      regions := regions + [|nodes.value|];
      i := i + 1;
    }
  }

  /** Number of nodes of pool `name` whose zone is one of the three counted zones. */
  function CountedNodes(nodes: seq<Node>, name: string): nat
  {
    CountInZone(nodes, name, Zones[0]) + CountInZone(nodes, name, Zones[1]) + CountInZone(nodes, name, Zones[2])
  }

  /** A node's contribution to one zone count: 1 when it matches, 0 otherwise. */
  lemma {:induction false} CountInZoneCons(nodes: seq<Node>, name: string, zone: string)
    requires nodes != []
    ensures CountInZone(nodes, name, zone) ==
      (if InZone(nodes[0], name, zone) then 1 else 0) + CountInZone(nodes[1..], name, zone)
  {
    var sel := ZoneSelector(name, zone);
    assert Matches(nodes[0], sel) <==> InZone(nodes[0], name, zone) by {
      assert PoolLabel in sel && ZoneLabel in sel;
    }
  }

  /**
   * The three zone counts never exceed the nodes GetNodeList(name) returns: a node
   * sits in at most one zone, and nodes outside the three listed zones are not counted.
   */
  lemma {:induction false} CountedNodesBounded(nodes: seq<Node>, name: string)
    ensures CountedNodes(nodes, name) <= |Filter(nodes, PoolSelector(name))|
  {
    if nodes != [] {
      CountedNodesBounded(nodes[1..], name);
      CountInZoneCons(nodes, name, Zones[0]);
      CountInZoneCons(nodes, name, Zones[1]);
      CountInZoneCons(nodes, name, Zones[2]);
      var n := nodes[0];
      if InZone(n, name, Zones[0]) || InZone(n, name, Zones[1]) || InZone(n, name, Zones[2]) {
        assert Matches(n, PoolSelector(name));
      }
    }
  }

  /**
   * When every node of the pool carries one of the three zones, the zone counts add
   * up to exactly the pool's node list: the distribution accounts for every node.
   */
  lemma {:induction false} CountedNodesExact(nodes: seq<Node>, name: string)
    requires name != ""
    requires forall n :: n in nodes && Matches(n, PoolSelector(name)) ==>
      ZoneLabel in n.labels && n.labels[ZoneLabel] in Zones
    ensures CountedNodes(nodes, name) == |Filter(nodes, PoolSelector(name))|
  {
    if nodes != [] {
      CountedNodesExact(nodes[1..], name);
      CountInZoneCons(nodes, name, Zones[0]);
      CountInZoneCons(nodes, name, Zones[1]);
      CountInZoneCons(nodes, name, Zones[2]);
      var n := nodes[0];
      if Matches(n, PoolSelector(name)) {
        assert PoolLabel in PoolSelector(name);
        assert InZone(n, name, Zones[0]) || InZone(n, name, Zones[1]) || InZone(n, name, Zones[2]);
      } else {
        assert !InZone(n, name, Zones[0]) && !InZone(n, name, Zones[1]) && !InZone(n, name, Zones[2]);
      }
    }
  }

  /** The sum of a full GetRegions result is the number of pool nodes in the three zones. */
  lemma RegionsSumCounted(regions: seq<int>, dir: Directory, name: string)
    requires |regions| == |Zones|
    requires forall i :: 0 <= i < |regions| ==> regions[i] == CountInZone(dir.nodes, name, Zones[i])
    ensures SumOf(regions) == CountedNodes(dir.nodes, name)
  {
    var rest := regions[1..];
    assert SumOf(regions) == regions[0] + SumOf(rest);
    assert SumOf(rest) == rest[0] + SumOf(rest[1..]);
    assert SumOf(rest[1..]) == rest[1];
  }

  /**
   * The sum of any GetRegions result, full or the partial counts returned beside an
   * error, is at most the size of GetNodeList(name).
   */
  lemma RegionsSumBounded(regions: seq<int>, dir: Directory, name: string)
    requires |regions| <= |Zones|
    requires forall i :: 0 <= i < |regions| ==> regions[i] == CountInZone(dir.nodes, name, Zones[i])
    ensures SumOf(regions) <= |Filter(dir.nodes, PoolSelector(name))|
  {
    CountedNodesBounded(dir.nodes, name);
    if |regions| == |Zones| {
      RegionsSumCounted(regions, dir, name);
    } else if |regions| == 2 {
      assert SumOf(regions) == regions[0] + SumOf(regions[1..]);
      assert SumOf(regions[1..]) == regions[1] + SumOf(regions[2..]);
    } else if |regions| == 1 {
      assert SumOf(regions) == regions[0] + SumOf(regions[1..]);
    }
  }

  /**
   * When every node of a named pool is in one of the three zones, a successful
   * GetRegions result sums to the size of GetNodeList(name).
   */
  lemma RegionsSumExact(regions: seq<int>, dir: Directory, name: string)
    requires name != ""
    requires forall n :: n in dir.nodes && Matches(n, PoolSelector(name)) ==>
      ZoneLabel in n.labels && n.labels[ZoneLabel] in Zones
    requires |regions| == |Zones|
    requires forall i :: 0 <= i < |regions| ==> regions[i] == CountInZone(dir.nodes, name, Zones[i])
    ensures SumOf(regions) == |Filter(dir.nodes, PoolSelector(name))|
  {
    RegionsSumCounted(regions, dir, name);
    CountedNodesExact(dir.nodes, name);
  }
}
