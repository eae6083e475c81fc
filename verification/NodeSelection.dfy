/** The ranking that picks the node to move to. */
module NodeSelection {
  import opened Wrappers
  import opened ProbeHealth
  import opened Subscriptions
  import opened Sorting

  type HealthMap = map<string, NodeHealth>

  function Lookup(health: HealthMap, id: string): NodeHealth {
    if id in health then health[id] else UNKNOWN
  }

  datatype Ranked = Ranked(node: Node, healthy: bool, cost: int, score: real)

  function Rank(node: Node, health: HealthMap): Ranked {
    var h := Lookup(health, node.id);
    Ranked(node, h.healthy, Cost(h), Score(h))
  }

  predicate Acceptable(cost: int) {
    0 < cost <= HEALTHY_LATENCY_CEILING
  }

  predicate RanksBefore(a: Ranked, b: Ranked) {
    if a.healthy != b.healthy then a.healthy
    else if Acceptable(a.cost) != Acceptable(b.cost) then Acceptable(a.cost)
    else if a.cost > 0 && b.cost <= 0 then true
    else if a.cost <= 0 && b.cost > 0 then false
    else if a.cost > 0 && b.cost > 0 && a.cost != b.cost then a.cost < b.cost
    else a.score > b.score
  }

  lemma RanksBeforeIsOrder()
    ensures IsOrder(RanksBefore)
  {
  }

  function Ranks(nodes: seq<Node>, health: HealthMap): (ranks: seq<Ranked>)
    ensures |ranks| == |nodes|
    ensures forall i :: 0 <= i < |nodes| ==> ranks[i] == Rank(nodes[i], health)
  {
    seq(|nodes|, i requires 0 <= i < |nodes| => Rank(nodes[i], health))
  }

  function Best(nodes: seq<Node>, health: HealthMap): (best: Node)
    requires nodes != []
    ensures best in nodes
  {
    RanksBeforeIsOrder();
    var ranks := Ranks(nodes, health);
    FirstIsLeast(ranks, RanksBefore);
    First(ranks, RanksBefore).node
  }

  /** No node at all is the only error. */
  method SelectBestNode(nodes: seq<Node>, health: HealthMap) returns (best: Option<Node>)
    ensures best == if nodes == [] then None else Some(Best(nodes, health))
  {
    if nodes == [] {
      return None;
    }
    var candidates: seq<Ranked> := [];
    var i := 0;
    while i < |nodes|
      invariant 0 <= i <= |nodes|
      invariant candidates == Ranks(nodes, health)[..i]
    {
      candidates := candidates + [Rank(nodes[i], health)];
      i := i + 1;
    }
    assert candidates == Ranks(nodes, health);
    var sorted := StableSort(candidates, RanksBefore);
    RanksBeforeIsOrder();
    SortHead(candidates, RanksBefore);
    best := Some(sorted[0].node);
  }

  /** The pick is healthy when any node is; among equally healthy nodes with a known cost none is cheaper,
      and one with a known cost is never passed over for one without; so the acceptable ceiling,
      which the ranking looks at first, decides nothing. */
  lemma BestIsCheapest(nodes: seq<Node>, health: HealthMap, other: Node)
    requires other in nodes
    ensures var best, rival := Rank(Best(nodes, health), health), Rank(other, health);
            && (rival.healthy ==> best.healthy)
            && (best.healthy == rival.healthy && rival.cost > 0 ==> 0 < best.cost <= rival.cost)
            && (best.healthy == rival.healthy && best.cost <= 0 ==> best.score >= rival.score)
  {
    var ranks := Ranks(nodes, health);
    RanksBeforeIsOrder();
    FirstIsLeast(ranks, RanksBefore);
    var i :| 0 <= i < |nodes| && nodes[i] == other;
    assert ranks[i] in ranks && !RanksBefore(ranks[i], First(ranks, RanksBefore));
    FirstRank(nodes, health);
  }

  lemma FirstRank(nodes: seq<Node>, health: HealthMap)
    requires nodes != []
    ensures First(Ranks(nodes, health), RanksBefore) == Rank(Best(nodes, health), health)
  {
    RanksBeforeIsOrder();
    FirstIsLeast(Ranks(nodes, health), RanksBefore);
  }
}
