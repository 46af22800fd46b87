/** The resilient cluster-status component
    (src/components/infrastructure-status/infrastructure-status.js). It shares
    the classification rules and the per-node record of `Infrastructure`, fetches
    each query through `fetchWithRetry` starting from retry count 0, keeps the
    last completed pass in `lastSuccessfulData`, and redraws that cache when the
    configuration read fails. Drawing goes through the template that
    `connectedCallback` puts in the shadow root, which `showError` removes. */
module InfrastructureStatus {
  import opened Common
  import opened Infrastructure
  import BaseComponent

  // ---------------------------------------------------------------- queries through the retry policy

  /** The fetch outcomes of the attempts for a node's query. */
  type Attempts = (string, Query) -> (nat -> BaseComponent.FetchOutcome)

  /** `fetchWithRetry(url, {}, 0)` with the component defaults (3 retries, 5 s). */
  function QueryRetry(attempts: Attempts, node: string, q: Query): (r: BaseComponent.Retried)
    ensures 1 <= r.attempts <= 4
  {
    BaseComponent.RetrySchedule(attempts(node, q), 0, 3, 5000);
    BaseComponent.Retry(attempts(node, q), 0, 3, 5000)
  }

  /** A query throws when its retries run out; otherwise its JSON gives `answers`. */
  function ProbeOf(attempts: Attempts, answers: Probe): Probe {
    (node: string, q: Query) => if QueryRetry(attempts, node, q).result.Err? then QueryThrew else answers(node, q)
  }

  /** Starting from 0 is the full budget, not a shortcut: a query that keeps
      failing is tried four times, with waits of 5, 10 and 15 seconds, before it
      throws, and a node whose up query does so is recorded as 'error'. */
  lemma FullBudgetPerQuery(attempts: Attempts, answers: Probe, node: string, q: Query)
    requires forall k :: 0 <= k <= 3 ==> !BaseComponent.Succeeds(attempts(node, q)(k))
    ensures QueryRetry(attempts, node, q).attempts == 4
    ensures QueryRetry(attempts, node, q).waits == [5000, 10000, 15000]
    ensures ProbeOf(attempts, answers)(node, q) == QueryThrew
    ensures q == UpQuery ==> NodeOf(node, ProbeOf(attempts, answers)) == NodeData("error", 0, 0, 0)
  {
    BaseComponent.DefaultBudget(attempts(node, q));
  }

  /** A query whose response arrives on some attempt gives its JSON answer. */
  lemma AnsweredQuery(attempts: Attempts, answers: Probe, node: string, q: Query, j: nat)
    requires j <= 3 && BaseComponent.Succeeds(attempts(node, q)(j))
    requires forall k :: 0 <= k < j ==> !BaseComponent.Succeeds(attempts(node, q)(k))
    ensures ProbeOf(attempts, answers)(node, q) == answers(node, q)
    ensures QueryRetry(attempts, node, q).attempts == j + 1
  {
    BaseComponent.RetryFindsFirstSuccess(attempts(node, q), 0, 3, 5000, j);
  }

  // ---------------------------------------------------------------- cards

  /** `name.charAt(0).toUpperCase() + name.slice(1)` for ASCII letters. */
  function DisplayName(name: string): (r: string)
    ensures |r| == |name| && (|name| > 0 ==> r[1..] == name[1..])
  {
    if name != [] && 'a' <= name[0] <= 'z' then [(name[0] as int - 32) as char] + name[1..] else name
  }

  datatype Card =
    | DownCard(name: string, statusClass: string, statusText: string)
    | UpCard(name: string, statusClass: string, cpuClass: string, memoryClass: string, cpu: int, memory: int, pods: int)

  /** `createNodeCard(node, data)`. */
  function CardOf(node: string, n: NodeData): (c: Card)
    ensures c.name == DisplayName(node) && c.statusClass == NodeStatusClass(n)
    ensures c.DownCard? <==> n.status != "up"
    ensures c.DownCard? ==> (c.statusText == "Node Down" <==> n.status == "down")
    ensures c.UpCard? ==> c.cpuClass == MetricStatus(n.cpu) && c.memoryClass == MetricStatus(n.memory) &&
                          c.cpu == n.cpu && c.memory == n.memory && c.pods == n.pods
  {
    if n.status != "up" then DownCard(DisplayName(node), NodeStatusClass(n), if n.status == "down" then "Node Down" else "Error")
    else UpCard(DisplayName(node), NodeStatusClass(n), MetricStatus(n.cpu), MetricStatus(n.memory), n.cpu, n.memory, n.pods)
  }

  /** The cards of `updateGrid`, one per node in the fixed order. */
  function CardsOf(m: map<string, NodeData>): (cards: seq<Card>)
    requires forall node :: node in Nodes ==> node in m
    ensures |cards| == |Nodes| && forall k :: 0 <= k < |Nodes| ==> cards[k] == CardOf(Nodes[k], m[Nodes[k]])
  {
    seq(|Nodes|, k requires 0 <= k < |Nodes| => CardOf(Nodes[k], m[Nodes[k]]))
  }

  /** The cards read Babbage, Epimetheus, Kabandha, in that order. */
  lemma CardOrder(m: map<string, NodeData>)
    requires forall node :: node in Nodes ==> node in m
    ensures var cards := CardsOf(m);
      cards[0].name == "Babbage" && cards[1].name == "Epimetheus" && cards[2].name == "Kabandha"
  {
    var cards := CardsOf(m);
    DisplayNames();
    assert cards[0].name == DisplayName(Nodes[0]);
    assert cards[1].name == DisplayName(Nodes[1]);
    assert cards[2].name == DisplayName(Nodes[2]);
  }

  lemma DisplayNames()
    ensures DisplayName(Nodes[0]) == "Babbage" && DisplayName(Nodes[1]) == "Epimetheus" && DisplayName(Nodes[2]) == "Kabandha"
  {
    assert DisplayName("babbage") == "B" + "abbage";
    assert DisplayName("epimetheus") == "E" + "pimetheus";
    assert DisplayName("kabandha") == "K" + "abandha";
  }

  // ---------------------------------------------------------------- the component

  /** What the panel shows. `showError(message)` replaces the whole shadow
      root with a box reading "Error: " and the message; the template, and with
      it `#infrastructureGrid`, is then gone. */
  datatype Panel =
    | Blank                                          // the template, before the first pass
    | Grid(cards: seq<Card>)
    | CachedGrid(cards: seq<Card>, notice: string)   // the grid with a transient notice over it
    | Failure(message: string)                       // the error box of `showError(message)`
    | NoticedFailure(message: string, notice: string) // that box with a transient notice appended

  /** Whether the shadow root still holds the template, so that `updateGrid` finds its grid. */
  predicate Templated(d: Panel) {
    !d.Failure? && !d.NoticedFailure?
  }

  const CachedNotice := "Using cached cluster data (connection issue)"

  /** `updateGrid(nodeData)` and then, on the cached path, `showTransientError`:
      with the template present the grid shows `cards`; without it the grid is
      not found and only the notice is added. */
  function Redraw(d: Panel, cards: seq<Card>, notice: Option<string>): (r: Panel)
    ensures Templated(d) <==> Templated(r)
    ensures Templated(d) ==> r == if notice.Some? then CachedGrid(cards, notice.value) else Grid(cards)
    ensures !Templated(d) ==> r == if notice.Some? then NoticedFailure(d.message, notice.value) else d
  {
    if Templated(d) then (if notice.Some? then CachedGrid(cards, notice.value) else Grid(cards))
    else if notice.Some? then NoticedFailure(d.message, notice.value) else d
  }

  /** As written, once an error box is up no later pass brings the cards back,
      whatever the configuration and the cluster answer. */
  lemma ErrorBoxSticks(d: Panel, cards: seq<Card>, notice: Option<string>, message: string)
    requires !Templated(d)
    ensures !Templated(Redraw(d, cards, notice)) && !Templated(Failure(message))
    ensures notice.None? ==> Redraw(d, cards, notice) == d
  {
  }

  class StatusPanel {
    /** The node records of the last completed pass. */
    var lastSuccessfulData: Option<map<string, NodeData>>
    var display: Panel

    ghost predicate Valid()
      reads this
    {
      lastSuccessfulData.Some? ==> forall node :: node in Nodes ==> node in lastSuccessfulData.value
    }

    /** The element, after `connectedCallback` has put the template in place. */
    constructor()
      ensures Valid() && lastSuccessfulData.None? && display == Blank
    {
      lastSuccessfulData := None;
      display := Blank;
    }

    /** One `fetchStatus` pass with the template put back before drawing, so
        that the grid is found again after an error box. A missing URL leaves
        the cache alone; a completed pass replaces it, whatever its nodes'
        states, and shows it; a failed configuration read redraws the cache
        with a notice, or shows an error when there is none. */
    method FetchStatus(lookup: Lookup, probe: Probe)
      requires Valid()
      modifies this
      ensures Valid()
      ensures lookup == LookupValue("") ==>
        display == Failure("Prometheus URL not configured") && lastSuccessfulData == old(lastSuccessfulData)
      ensures lookup.LookupValue? && lookup.url != "" ==>
        lastSuccessfulData.Some? && IsNodeMap(lastSuccessfulData.value, Nodes, probe) &&
        display == Grid(CardsOf(lastSuccessfulData.value))
      ensures lookup.LookupThrew? ==> lastSuccessfulData == old(lastSuccessfulData)
      ensures lookup.LookupThrew? && old(lastSuccessfulData).Some? ==>
        display == CachedGrid(CardsOf(old(lastSuccessfulData).value), CachedNotice)
      ensures lookup.LookupThrew? && old(lastSuccessfulData).None? ==>
        display == Failure("Infrastructure unavailable: " + lookup.message)
    {
      if lookup.LookupThrew? {
        if lastSuccessfulData.Some? {
          display := Redraw(Blank, CardsOf(lastSuccessfulData.value), Some(CachedNotice));
        } else {
          display := Failure("Infrastructure unavailable: " + lookup.message);
        }
        return;
      }
      if lookup.url == "" {
        display := Failure("Prometheus URL not configured");
        return;
      }
      var nodeData, _ := CollectNodes(Nodes, probe);
      lastSuccessfulData := Some(nodeData);
      display := Redraw(Blank, CardsOf(nodeData), None);
    }

    /** `fetchStatus()` as written: after an error box the redraws find no grid. */
    method FetchStatusAsWritten(lookup: Lookup, probe: Probe)
      requires Valid()
      modifies this
      ensures Valid()
      ensures lookup == LookupValue("") ==>
        display == Failure("Prometheus URL not configured") && lastSuccessfulData == old(lastSuccessfulData)
      ensures lookup.LookupValue? && lookup.url != "" ==>
        lastSuccessfulData.Some? && IsNodeMap(lastSuccessfulData.value, Nodes, probe) &&
        display == Redraw(old(display), CardsOf(lastSuccessfulData.value), None)
      ensures lookup.LookupThrew? ==> lastSuccessfulData == old(lastSuccessfulData)
      ensures lookup.LookupThrew? && old(lastSuccessfulData).Some? ==>
        display == Redraw(old(display), CardsOf(old(lastSuccessfulData).value), Some(CachedNotice))
      ensures lookup.LookupThrew? && old(lastSuccessfulData).None? ==>
        display == Failure("Infrastructure unavailable: " + lookup.message)
    {
      if lookup.LookupThrew? {
        if lastSuccessfulData.Some? {
          display := Redraw(display, CardsOf(lastSuccessfulData.value), Some(CachedNotice));
        } else {
          display := Failure("Infrastructure unavailable: " + lookup.message);
        }
        return;
      }
      if lookup.url == "" {
        display := Failure("Prometheus URL not configured");
        return;
      }
      var nodeData, _ := CollectNodes(Nodes, probe);
      lastSuccessfulData := Some(nodeData);
      display := Redraw(display, CardsOf(nodeData), None);
    }
  }

  /** The discrepancy on one input: a first pass with the URL not yet
      configured, then a pass that completes. As written the error box stays;
      with the template put back the cards are shown. */
  method StuckAfterMissingUrl(probe: Probe, url: string) returns (asWritten: Panel, corrected: Panel)
    requires url != ""
    ensures asWritten == Failure("Prometheus URL not configured")
    ensures corrected.Grid? && |corrected.cards| == |Nodes|
  {
    var p := new StatusPanel();
    p.FetchStatusAsWritten(LookupValue(""), probe);
    p.FetchStatusAsWritten(LookupValue(url), probe);
    asWritten := p.display;
    var q := new StatusPanel();
    q.FetchStatus(LookupValue(""), probe);
    q.FetchStatus(LookupValue(url), probe);
    corrected := q.display;
  }

  /** Even a pass where every node errored is cached: the cards then all read 'Error'. */
  lemma AllErroredPassIsCached(probe: Probe, m: map<string, NodeData>)
    requires IsNodeMap(m, Nodes, probe)
    requires forall node :: node in Nodes ==> probe(node, UpQuery) == QueryThrew
    ensures forall k :: 0 <= k < |Nodes| ==> CardsOf(m)[k] == DownCard(DisplayName(Nodes[k]), "critical", "Error")
  {
  }
}
