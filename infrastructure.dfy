/** Node-health classification of the cluster cards
    (src/components/infrastructure.js): the threshold rules, the clamped
    percentages of an up node, and the per-node status building of
    `fetchStatus`, where one node's failure is caught and recorded for that
    node alone. Prometheus answers are given per node and query; each value
    arrives already parsed and rounded. */
module Infrastructure {
  import opened Common

  /** The fixed node list, in card order. */
  const Nodes: seq<string> := ["babbage", "epimetheus", "kabandha"]

  /** The record `fetchStatus` stores per node: status 'up', 'down' or 'error'. */
  datatype NodeData = NodeData(status: string, cpu: int, memory: int, pods: int)

  // ---------------------------------------------------------------- classifiers

  /** `getClusterHealth(upCount)`. */
  function ClusterHealth(upCount: int): (r: string)
    ensures r == "healthy" <==> upCount == 3
    ensures r == "warning" <==> upCount == 2
    ensures r == "critical" <==> upCount != 3 && upCount != 2
  {
    if upCount == 3 then "healthy" else if upCount == 2 then "warning" else "critical"
  }

  /** `getNodeStatusClass(nodeData)`. */
  function NodeStatusClass(n: NodeData): (r: string)
    ensures r == "healthy" || r == "warning" || r == "critical"
    ensures n.status != "up" ==> r == "critical"
    ensures r == "healthy" <==> n.status == "up" && n.cpu < 60 && n.memory < 80
  {
    if n.status != "up" then "critical"
    else if n.cpu < 60 && n.memory < 80 then "healthy"
    else if (n.cpu >= 60 && n.cpu <= 85) || (n.memory >= 80 && n.memory <= 95) then "warning"
    else "critical"
  }

  /** An up node is critical exactly when one of its metrics is over the red line
      and neither metric sits in its yellow band. */
  lemma NodeCriticalIff(n: NodeData)
    requires n.status == "up"
    ensures NodeStatusClass(n) == "critical" <==>
      (n.cpu > 85 || n.memory > 95) && !(60 <= n.cpu <= 85) && !(80 <= n.memory <= 95)
    ensures NodeStatusClass(n) == "warning" <==>
      !(n.cpu < 60 && n.memory < 80) && ((60 <= n.cpu <= 85) || (80 <= n.memory <= 95))
  {
  }

  /** A yellow band catches a node before the red rule is reached: cpu 90 with
      memory 85 is a warning, while cpu 90 with memory 70 is critical. */
  lemma WarningBandWins()
    ensures NodeStatusClass(NodeData("up", 90, 85, 0)) == "warning"
    ensures NodeStatusClass(NodeData("up", 90, 70, 0)) == "critical"
  {
  }

  /** `getMetricStatus(value)`. */
  function MetricStatus(value: int): (r: string)
    ensures r == "normal" <==> value < 60
    ensures r == "warning" <==> 60 <= value < 85
    ensures r == "critical" <==> 85 <= value
  {
    if value < 60 then "normal" else if value < 85 then "warning" else "critical"
  }

  function MetricRank(s: string): nat {
    if s == "normal" then 0 else if s == "warning" then 1 else 2
  }

  /** A higher value never gets a milder metric status. */
  lemma MetricMonotone(v: int, w: int)
    requires v <= w
    ensures MetricRank(MetricStatus(v)) <= MetricRank(MetricStatus(w))
  {
  }

  /** At exactly 85 the metric rule says critical while the node rule still says warning. */
  lemma MetricAndNodeDisagreeAt85()
    ensures MetricStatus(85) == "critical"
    ensures NodeStatusClass(NodeData("up", 85, 0, 0)) == "warning"
  {
  }

  /** `getStatusColor(status)`. */
  function StatusColor(status: string): (r: string)
    ensures status == "up" ==> r == "var(--accent-green)"
    ensures status == "down" ==> r == "var(--accent-red)"
    ensures status != "up" && status != "down" ==> r == "var(--accent-yellow)"
  {
    if status == "up" then "var(--accent-green)"
    else if status == "down" then "var(--accent-red)"
    else "var(--accent-yellow)"
  }

  // ---------------------------------------------------------------- one node

  datatype Query = UpQuery | CpuQuery | MemoryQuery | PodsQuery

  /** The answer to one query: a throw (fetch or JSON), or the first result's
      value text with its number as parsed and rounded. */
  datatype QueryResult = QueryThrew | QueryValue(value: Option<string>, number: int)

  /** The answer of Prometheus for a node and a query. */
  type Probe = (string, Query) -> QueryResult

  /** `Math.round(parseFloat(value || 0))`: a missing value reads as 0. */
  function MetricOf(r: QueryResult): int
    requires r.QueryValue?
  {
    if r.value.None? then 0 else r.number
  }

  function Zeroed(status: string): NodeData {
    NodeData(status, 0, 0, 0)
  }

  /** The record of one node: up only when the up value is exactly "1" and every
      metric query answered; a throw anywhere makes it 'error'. */
  function NodeOf(node: string, probe: Probe): (n: NodeData)
    ensures n.status == "up" || n.status == "down" || n.status == "error"
    ensures n.status != "up" ==> n.cpu == 0 && n.memory == 0 && n.pods == 0
    ensures n.status == "up" ==> 0 <= n.cpu <= 100 && 0 <= n.memory <= 100
    ensures n.status == "down" <==> probe(node, UpQuery).QueryValue? && probe(node, UpQuery).value != Some("1")
    ensures n.status == "up" <==>
      probe(node, UpQuery).QueryValue? && probe(node, UpQuery).value == Some("1") &&
      probe(node, CpuQuery).QueryValue? && probe(node, MemoryQuery).QueryValue? && probe(node, PodsQuery).QueryValue?
  {
    var up := probe(node, UpQuery);
    if up.QueryThrew? then Zeroed("error")
    else if up.value != Some("1") then Zeroed("down")
    else
      var cpu := probe(node, CpuQuery);
      var memory := probe(node, MemoryQuery);
      var pods := probe(node, PodsQuery);
      if cpu.QueryThrew? || memory.QueryThrew? || pods.QueryThrew? then Zeroed("error")
      else NodeData("up", Clamp(MetricOf(cpu), 0, 100), Clamp(MetricOf(memory), 0, 100), MetricOf(pods))
  }

  /** An up node reports its metrics clamped to [0, 100], and its pods unclamped. */
  lemma UpNodeMetrics(node: string, probe: Probe)
    requires NodeOf(node, probe).status == "up"
    ensures var n := NodeOf(node, probe);
      n.cpu == Clamp(MetricOf(probe(node, CpuQuery)), 0, 100) &&
      n.memory == Clamp(MetricOf(probe(node, MemoryQuery)), 0, 100) &&
      n.pods == MetricOf(probe(node, PodsQuery))
  {
  }

  /** A node's record depends on its own answers only. */
  lemma NodeIsolation(node: string, p: Probe, q: Probe)
    requires forall k: Query :: p(node, k) == q(node, k)
    ensures NodeOf(node, p) == NodeOf(node, q)
  {
    assert p(node, UpQuery) == q(node, UpQuery);
    assert p(node, CpuQuery) == q(node, CpuQuery);
    assert p(node, MemoryQuery) == q(node, MemoryQuery);
    assert p(node, PodsQuery) == q(node, PodsQuery);
  }

  /** The queries a node is asked, in order: a down or failed up query stops there. */
  function QueriesOf(node: string, probe: Probe): (r: seq<Query>)
    ensures 1 <= |r| <= 4 && r[0] == UpQuery
    ensures |r| > 1 <==> probe(node, UpQuery).QueryValue? && probe(node, UpQuery).value == Some("1")
  {
    var up := probe(node, UpQuery);
    if up.QueryThrew? || up.value != Some("1") then [UpQuery]
    else if probe(node, CpuQuery).QueryThrew? then [UpQuery, CpuQuery]
    else if probe(node, MemoryQuery).QueryThrew? then [UpQuery, CpuQuery, MemoryQuery]
    else [UpQuery, CpuQuery, MemoryQuery, PodsQuery]
  }

  // ---------------------------------------------------------------- the pass over the nodes

  /** True iff the map holds exactly the listed nodes, each with its own record. */
  ghost predicate IsNodeMap(m: map<string, NodeData>, nodes: seq<string>, probe: Probe) {
    (forall node :: node in m <==> node in nodes) &&
    (forall node :: node in m ==> m[node] == NodeOf(node, probe))
  }

  /** The loop of `fetchStatus` over the nodes. */
  method CollectNodes(nodes: seq<string>, probe: Probe) returns (nodeData: map<string, NodeData>, asked: seq<(string, Query)>)
    ensures IsNodeMap(nodeData, nodes, probe)
    ensures |asked| <= 4 * |nodes|
  {
    nodeData := map[];
    asked := [];
    var i := 0;
    while i < |nodes|
      invariant 0 <= i <= |nodes|
      invariant IsNodeMap(nodeData, nodes[..i], probe)
      invariant |asked| <= 4 * i
    {
      var node := nodes[i];
      var qs := QueriesOf(node, probe);
      asked := asked + seq(|qs|, k requires 0 <= k < |qs| => (node, qs[k]));
      nodeData := nodeData[node := NodeOf(node, probe)];
      assert nodes[..i + 1] == nodes[..i] + [node];
      i := i + 1;
    }
    assert nodes[..i] == nodes;
  }

  /** How many of the listed nodes are up. */
  function UpCount(nodes: seq<string>, m: map<string, NodeData>): (r: nat)
    ensures r <= |nodes|
  {
    if nodes == [] then 0
    else UpCount(nodes[..|nodes| - 1], m) +
         (if nodes[|nodes| - 1] in m && m[nodes[|nodes| - 1]].status == "up" then 1 else 0)
  }

  /** With the fixed node list the cluster is healthy iff all three nodes are up. */
  lemma HealthyIffAllUp(m: map<string, NodeData>)
    requires forall node :: node in Nodes ==> node in m
    ensures ClusterHealth(UpCount(Nodes, m)) == "healthy" <==>
      m["babbage"].status == "up" && m["epimetheus"].status == "up" && m["kabandha"].status == "up"
  {
    var one := if m["babbage"].status == "up" then 1 else 0;
    var two := if m["epimetheus"].status == "up" then 1 else 0;
    var three := if m["kabandha"].status == "up" then 1 else 0;
    assert Nodes[..2] == ["babbage", "epimetheus"];
    assert Nodes[..2][..1] == ["babbage"];
    assert ["babbage"][..0] == [];
    assert UpCount(["babbage"], m) == one;
    assert UpCount(["babbage", "epimetheus"], m) == one + two;
    assert UpCount(Nodes, m) == one + two + three;
  }

  /** What the component shows. */
  datatype Display =
    | ErrorBox(message: string)
    | Status(nodeData: map<string, NodeData>, health: string)

  /** How `configManager.get('prometheusUrl')` went: a throw or the value ("" for unset). */
  datatype Lookup = LookupThrew(message: string) | LookupValue(url: string)

  /** `fetchStatus` of the component; `lookup` is the configuration read. */
  method FetchStatus(lookup: Lookup, probe: Probe) returns (display: Display)
    ensures lookup.LookupThrew? ==> display == ErrorBox(lookup.message)
    ensures lookup == LookupValue("") ==> display == ErrorBox("Prometheus URL not configured")
    ensures lookup.LookupValue? && lookup.url != "" ==>
      display.Status? && IsNodeMap(display.nodeData, Nodes, probe) &&
      display.health == ClusterHealth(UpCount(Nodes, display.nodeData))
  {
    if lookup.LookupThrew? {
      return ErrorBox(lookup.message);
    }
    if lookup.url == "" {
      return ErrorBox("Prometheus URL not configured");
    }
    var nodeData, _ := CollectNodes(Nodes, probe);
    display := Status(nodeData, ClusterHealth(UpCount(Nodes, nodeData)));
  }
}
