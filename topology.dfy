/**
  The cluster's shape: the size check and replica correction run before any
  remote work, and the split of the ordered node pool into the management
  node, the data nodes and the SQL nodes.
*/
module Topology {

  /** A provisioned machine, known to the plugin by its alias. */
  datatype Node = Node(alias: string)

  /** The aliases of `nodes`, in the same order. */
  function Aliases(nodes: seq<Node>): (r: seq<string>)
    ensures |r| == |nodes|
    ensures forall i :: 0 <= i < |nodes| ==> r[i] == nodes[i].alias
  {
    if nodes == [] then [] else [nodes[0].alias] + Aliases(nodes[1..])
  }

  /** One more node adds its alias at the end. */
  lemma AliasesPrefix(nodes: seq<Node>, i: nat)
    requires i < |nodes|
    ensures Aliases(nodes[..i + 1]) == Aliases(nodes[..i]) + [nodes[i].alias]
  {
    assert nodes[..i + 1] == nodes[..i] + [nodes[i]];
    AliasesAppend(nodes[..i], [nodes[i]]);
  }

  /** Aliases distribute over concatenation, so the alias lists follow the node partition. */
  lemma AliasesAppend(a: seq<Node>, b: seq<Node>)
    ensures Aliases(a + b) == Aliases(a) + Aliases(b)
  {
  }

  /** The size test: one management node plus the requested SQL and data nodes. */
  predicate SizeMatches(poolSize: int, dataCount: int, sqlCount: int) {
    poolSize == 1 + sqlCount + dataCount
  }

  /** A replica count the cluster accepts for `dataCount` data nodes. */
  predicate ReplicasConsistent(replicas: int, dataCount: int) {
    (replicas == 1 || replicas == 2) && (replicas == 2 ==> dataCount % 2 == 0)
  }

  /**
    The replica count after the two corrections: anything but 1 or 2 becomes
    2, and 2 with an odd number of data nodes becomes 1. (Python's `%` floors
    and Dafny's is Euclidean; for the divisor 2 they agree on every integer.)
  */
  function CorrectedReplicas(replicas: int, dataCount: int): (r: int)
    ensures ReplicasConsistent(r, dataCount)
    ensures ReplicasConsistent(replicas, dataCount) ==> r == replicas
    ensures r == 1 ==> replicas == 1 || dataCount % 2 != 0
  {
    var first := if replicas == 1 || replicas == 2 then replicas else 2;
    if first == 2 && dataCount % 2 != 0 then 1 else first
  }

  /** Correcting an already corrected count changes nothing. */
  lemma CorrectedReplicasIdempotent(replicas: int, dataCount: int)
    ensures CorrectedReplicas(CorrectedReplicas(replicas, dataCount), dataCount)
         == CorrectedReplicas(replicas, dataCount)
  {
  }

  /** Python's normalisation of a slice bound `i` for a sequence of length `n`. */
  function SliceBound(i: int, n: nat): (k: nat)
    ensures k <= n
    ensures 0 <= i <= n ==> k == i
  {
    if i < 0 then (if i + n < 0 then 0 else i + n) else if i > n then n else i
  }

  /**
    Python's `s[lo:hi]`: a negative bound counts from the end, a bound past
    the end stops at the end, and a range whose end is not after its start
    is empty.
  */
  function PySlice<T>(s: seq<T>, lo: int, hi: int): (r: seq<T>)
    ensures |r| <= |s|
    ensures 0 <= lo <= hi <= |s| ==> r == s[lo..hi]
    ensures -|s| <= lo < 0 && |s| + lo <= hi <= |s| ==> r == s[|s| + lo..hi]
    ensures 0 <= lo <= |s| <= hi ==> r == s[lo..]
    ensures 0 <= hi <= lo ==> r == []
  {
    var a := SliceBound(lo, |s|);
    var b := SliceBound(hi, |s|);
    if a <= b then s[a..b] else []
  }

  /** `nodes[1:dataCount + 1]`: the data nodes. */
  function DataNodes(nodes: seq<Node>, dataCount: int): seq<Node> {
    PySlice(nodes, 1, dataCount + 1)
  }

  /** `nodes[dataCount + 1:]`: the SQL nodes. */
  function SqlNodes(nodes: seq<Node>, dataCount: int): seq<Node> {
    PySlice(nodes, dataCount + 1, |nodes|)
  }

  /**
    Once the size test passes with counts that are not negative, the pool is
    split exactly: the first node, then `dataCount` data nodes, then
    `sqlCount` SQL nodes, in pool order, with nothing left out or repeated.
  */
  lemma PartitionExact(nodes: seq<Node>, dataCount: int, sqlCount: int)
    requires SizeMatches(|nodes|, dataCount, sqlCount)
    requires dataCount >= 0 && sqlCount >= 0
    ensures |DataNodes(nodes, dataCount)| == dataCount
    ensures |SqlNodes(nodes, dataCount)| == sqlCount
    ensures [nodes[0]] + DataNodes(nodes, dataCount) + SqlNodes(nodes, dataCount) == nodes
  {
    assert [nodes[0]] + nodes[1..dataCount + 1] + nodes[dataCount + 1..] == nodes;
  }

  /**
    The size test alone does not protect the split: with 3 nodes, -1 data
    nodes and 3 SQL nodes it passes, and every node, the first one included,
    ends up among the SQL nodes.
  */
  lemma NegativeCountBreaksPartition()
    ensures var nodes := [Node("master"), Node("node001"), Node("node002")];
      && SizeMatches(|nodes|, -1, 3)
      && DataNodes(nodes, -1) == []
      && SqlNodes(nodes, -1) == nodes
  {
  }
}
