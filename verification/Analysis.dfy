/** The whole analysis: from the cluster's pods and nodes, over any run of the protocol, to the report. */
module Analysis {
  import opened Cluster
  import opened Capacity
  import opened FakeClient
  import opened Sync
  import opened Simulator
  import opened Protocol
  import opened Invariant
  import opened Outcome
  import opened Histogram
  import opened StopReason
  import opened Report
  import opened Text
  import Decimal

  /** The listed objects of the cluster. */
  datatype Listing = Listing(pods: seq<Pod>, nodes: seq<Node>)

  datatype Settings = Settings(template: Pod, maxSimulated: int, scheduler: string, excluded: set<string>)

  function ConfigFor(opts: Settings, nodes: seq<Node>): Config {
    Config(opts.template, opts.maxSimulated, opts.scheduler, seq(|nodes|, i requires 0 <= i < |nodes| => nodes[i].name))
  }

  /** What each copied node has left once the listed pods bound to it are counted. */
  function FreeOn(nodes: seq<Node>, pods: seq<Pod>): seq<Free> {
    seq(|nodes|, i requires 0 <= i < |nodes| => Remaining(nodes[i].name, nodes[i].allocatable, pods))
  }

  function SnapshotFor(listing: Listing, nodes: seq<Node>): Snapshot {
    Snapshot(CopyPods(map[], listing.pods).0, FreeOn(nodes, listing.pods))
  }

  /** The listing can be copied, and all its nodes have names. */
  ghost predicate Copyable(opts: Settings, listing: Listing) {
    && !Clash(map[], listing.pods)
    && DistinctNodes(Kept(listing.nodes, opts.excluded))
    && forall i | 0 <= i < |listing.nodes| :: listing.nodes[i].name != ""
  }

  /** The template carries no refusal, no live pod waits for the simulated scheduler, and none is named like
      a generated one. */
  ghost predicate Untroubled(opts: Settings, listing: Listing) {
    && (forall c | c in opts.template.conditions :: !IsRefusal(c))
    && (forall pod | pod in listing.pods && Live(pod) :: pod.nodeName == "" ==> pod.schedulerName != opts.scheduler)
    && (forall pod, k: nat | pod in listing.pods && Live(pod) ::
          KeyOf(pod) != Key(opts.template.namespace, CopyName(opts.template, k)))
  }

  lemma {:induction false} KeptNodes(items: seq<Node>, excluded: set<string>)
    ensures forall node | node in Kept(items, excluded) :: node in items && node.name !in excluded
  {
    if items != [] {
      KeptNodes(items[1..], excluded);
    }
  }

  lemma CopiedListing(opts: Settings, listing: Listing, cfg: Config, snap: Snapshot)
    requires Copyable(opts, listing)
    requires cfg == ConfigFor(opts, Kept(listing.nodes, opts.excluded))
    requires snap == SnapshotFor(listing, Kept(listing.nodes, opts.excluded))
    ensures Sound(cfg, snap)
    ensures forall i, j | 0 <= i < j < |cfg.nodes| :: cfg.nodes[i] != cfg.nodes[j]
  {
    hide Clash, Copy, CopyName;
    var kept := Kept(listing.nodes, opts.excluded);
    KeptNodes(listing.nodes, opts.excluded);
    CopiedPods(map[], listing.pods);
    forall i | 0 <= i < |cfg.nodes|
      ensures cfg.nodes[i] != ""
    {
      assert kept[i] in kept;
    }
  }

  /** The usual case meets the hypotheses under which runs have been analysed. */
  lemma UntroubledListing(opts: Settings, listing: Listing, cfg: Config, snap: Snapshot)
    requires Copyable(opts, listing) && Untroubled(opts, listing)
    requires cfg == ConfigFor(opts, Kept(listing.nodes, opts.excluded))
    requires snap == SnapshotFor(listing, Kept(listing.nodes, opts.excluded))
    ensures Inert(cfg, snap) && Calm(cfg) && NamesFree(cfg, snap, Needed(cfg, snap))
  {
    hide Clash, Copy, CopyName;
    CopiedPods(map[], listing.pods);
  }

  // ---------------------------------------------------------------- the distribution

  /** The report's count for a node is the number of placements the scheduler made there. */
  lemma {:induction false} PlacementsPerNode(cfg: Config, pods: seq<Pod>, assumed: seq<Assumption>, i: nat)
    requires |pods| == |assumed| && i < |cfg.nodes|
    requires forall j | 0 <= j < |pods| ::
               assumed[j].node < |cfg.nodes| && pods[j].nodeName == cfg.nodes[assumed[j].node]
    requires forall a, b | 0 <= a < b < |cfg.nodes| :: cfg.nodes[a] != cfg.nodes[b]
    ensures PlacedOn(pods, 1, 0, cfg.nodes[i]) == CountOn(assumed, i)
    decreases |pods|
  {
    if pods != [] {
      var n := |pods| - 1;
      PlacementsPerNode(cfg, pods[..n], assumed[..n], i);
    }
  }

  lemma NothingLeft(frees: seq<Free>, request: Request, i: nat)
    requires TotalCapacity(frees, request) == 0 && i < |frees|
    ensures NodeCapacity(frees[i], request) == 0
  {
    TotalIsZero(frees, request);
  }

  /** Whatever stopped the run, no node has been given more pods than it takes. A run that filled the
      cluster has put on every node exactly as many as it takes. */
  lemma NodesAreFilled(cfg: Config, snap: Snapshot, s: State, i: nat)
    requires Sound(cfg, snap) && Inert(cfg, snap) && Calm(cfg) && Reachable(cfg, snap, s)
    requires s.main == Returned(true) && i < |cfg.nodes|
    requires forall a, b | 0 <= a < b < |cfg.nodes| :: cfg.nodes[a] != cfg.nodes[b]
    ensures PlacedOn(s.data.pods, 1, 0, cfg.nodes[i]) <= NodeCapacity(snap.free[i], cfg.template.requests)
    ensures !LimitApplies(cfg, snap) ==>
              PlacedOn(s.data.pods, 1, 0, cfg.nodes[i]) == NodeCapacity(snap.free[i], cfg.template.requests)
  {
    var ph := ReachableInv(cfg, snap, s);
    StopReasonIsExact(cfg, snap, s);
    FinalPlacements(cfg, snap, s, ph);
    forall j | 0 <= j < |s.data.pods|
      ensures s.assumed[j].node < |cfg.nodes| && s.data.pods[j].nodeName == cfg.nodes[s.assumed[j].node]
    {
      PlacedPod(cfg, snap, s, j);
    }
    hide Inv, TotalCapacity, NodeCapacity;
    PlacementsPerNode(cfg, s.data.pods, s.assumed, i);
    if !LimitApplies(cfg, snap) {
      NothingLeft(s.free, cfg.template.requests, i);
    }
  }

  lemma PlacedPod(cfg: Config, snap: Snapshot, s: State, j: nat)
    requires Placements(cfg, snap, s.assumed, s.free)
    requires Records(cfg, s.data.store, s.data.pods, s.assumed) && j < |s.data.pods|
    ensures s.assumed[j].node < |cfg.nodes| && s.data.pods[j].nodeName == cfg.nodes[s.assumed[j].node]
  {
    GeneratedPods(cfg, j);
  }

  lemma FinalPlacements(cfg: Config, snap: Snapshot, s: State, ph: Phase)
    requires Inv(cfg, snap, s, ph) && s.main == Returned(true)
    ensures |s.data.pods| == |s.assumed| && |s.free| == |snap.free|
    ensures |s.data.pods| == Total(cfg, snap) ==> TotalCapacity(s.free, cfg.template.requests) == 0
    ensures forall i | 0 <= i < |s.free| ::
              CountOn(s.assumed, i) + NodeCapacity(s.free[i], cfg.template.requests)
              == NodeCapacity(snap.free[i], cfg.template.requests)
  {
    hide Records, Storage, QueuedBystanders, IgnoredEvents, TotalCapacity, StoppedFull, StoppedAtLimit, LimitReason,
      CountOn, NodeCapacity;
  }

  lemma {:induction false} PlacedSomewhere(pods: seq<Pod>, node: string)
    ensures PlacedOn(pods, 1, 0, node) > 0 ==> exists j | 0 <= j < |pods| :: pods[j].nodeName == node
  {
    if pods != [] {
      PlacedSomewhere(pods[..|pods| - 1], node);
    }
  }

  /** The nodes on which pods have been placed are nodes of the simulation. */
  lemma PlacedOnKnownNode(cfg: Config, snap: Snapshot, s: State, node: string)
    requires Sound(cfg, snap) && Inert(cfg, snap) && Calm(cfg) && Reachable(cfg, snap, s)
    requires PlacedOn(s.data.pods, 1, 0, node) > 0
    ensures node in cfg.nodes
  {
    PlacedSomewhere(s.data.pods, node);
    RecordMirrorsGeneration(cfg, snap, s);
  }

  // ---------------------------------------------------------------- end to end

  /** How many replicas a node takes beside the listed pods bound to it. */
  function CapacityOf(opts: Settings, listing: Listing, node: Node): nat {
    NodeCapacity(Remaining(node.name, node.allocatable, listing.pods), opts.template.requests)
  }

  /** The limit's reason gives the limit in decimal. Otherwise the reason gives the trimmed first line of a
      message with which the scheduler refused the last generated pod. */
  ghost predicate Explains(maxSimulated: int, limited: bool, verdicts: seq<Condition>, fail: FailReason) {
    if limited then
      exists numeral | Decimal.IsNumeral(numeral) ::
        && Decimal.Read(numeral) == maxSimulated
        && fail == FailReason("LimitReached", "Maximum number of pods simulated: " + numeral)
    else
      exists message: string ::
        && Condition("PodScheduled", "False", "Unschedulable", message) in verdicts
        && fail == FailReason("Unschedulable", Trim(Split(message, '\n')[0], ' '))
  }

  /** The conditions of the pod after the last that fits. */
  function LastVerdicts(cfg: Config, snap: Snapshot, s: State): seq<Condition> {
    var key := TemplateKey(cfg, Total(cfg, snap));
    if key in s.data.store then s.data.store[key].conditions else []
  }

  /** What the printed review says when the analysis is over, and the last generated pod got `verdicts`. */
  ghost predicate Answers(opts: Settings, listing: Listing, verdicts: seq<Condition>, review: Review) {
    var kept := Kept(listing.nodes, opts.excluded);
    var total := TotalCapacity(FreeOn(kept, listing.pods), opts.template.requests);
    var limited := opts.maxSimulated > 0 && opts.maxSimulated <= total;
    && review.specReplicas == Int32(opts.maxSimulated)
    && review.replicas == Int32(if limited then opts.maxSimulated else total)
    && Explains(opts.maxSimulated, limited, verdicts, review.failReason)
    && review.templates == [opts.template]
    && |review.pods| == 1 && review.pods[0].podName == opts.template.name
    && InstancesSum(review.pods[0].replicasOnNodes) == (if limited then opts.maxSimulated else total)
    && Distribution(opts, listing, limited, review.pods[0].replicasOnNodes)
  }

  /** The entry is for a node that is not excluded, and does not ask more of it than it takes. */
  ghost predicate Justified(opts: Settings, listing: Listing, limited: bool, entry: Entry) {
    var kept := Kept(listing.nodes, opts.excluded);
    exists i | 0 <= i < |kept| ::
      && kept[i].name == entry.nodeName
      && 0 < entry.replicas <= CapacityOf(opts, listing, kept[i])
      && (!limited ==> entry.replicas == CapacityOf(opts, listing, kept[i]))
  }

  /** Each entry is for another node that is not excluded, with at least one replica and no more than the
      node takes; unless the limit was reached, exactly the nodes that take some are listed, each with
      exactly as many as it takes. */
  ghost predicate Distribution(opts: Settings, listing: Listing, limited: bool, entries: seq<Entry>) {
    var kept := Kept(listing.nodes, opts.excluded);
    && DistinctNames(entries)
    && (forall a | 0 <= a < |entries| :: Justified(opts, listing, limited, entries[a]))
    && (!limited ==>
          forall i | 0 <= i < |kept| :: Names(entries, kept[i].name) <==> CapacityOf(opts, listing, kept[i]) > 0)
  }

  lemma ReadReason(cfg: Config, snap: Snapshot, s: State)
    requires Succeeded(cfg, snap, s)
    ensures MainFailReason(s.data.stopReason).Some?
    ensures Explains(cfg.maxSimulated, LimitApplies(cfg, snap), LastVerdicts(cfg, snap, s),
                     MainFailReason(s.data.stopReason).value)
  {
    hide MainFailReason, LimitReason, RefusalReason, Total, TemplateKey, Trim, Split, Decimal.Print;
    if LimitApplies(cfg, snap) {
      Decimal.PrintThenRead(cfg.maxSimulated);
      LimitRoundTrip(cfg, Decimal.Print(cfg.maxSimulated));
    } else {
      var key := TemplateKey(cfg, Total(cfg, snap));
      var message: string :| Refusal(message) in s.data.store[key].conditions
                             && s.data.stopReason == RefusalReason(Refusal(message));
      RefusalRoundTrip(message);
    }
  }

  /** The printed list is distributed over the nodes as promised. */
  lemma ListIsDistributed(opts: Settings, listing: Listing, cfg: Config, snap: Snapshot, s: State)
    requires Copyable(opts, listing)
    requires cfg == ConfigFor(opts, Kept(listing.nodes, opts.excluded))
    requires snap == SnapshotFor(listing, Kept(listing.nodes, opts.excluded))
    requires Inert(cfg, snap) && Calm(cfg) && Reachable(cfg, snap, s) && s.main == Returned(true)
    ensures Distribution(opts, listing, LimitApplies(cfg, snap), Tally(s.data.pods, 1, 0))
  {
    hide Copyable, Sound, Inert, Reachable, Tally, Names, TotalCapacity, NodeCapacity, PlacedOn, Calm, Remaining,
      CopyPods;
    var kept, pods := Kept(listing.nodes, opts.excluded), s.data.pods;
    var entries, limited := Tally(pods, 1, 0), LimitApplies(cfg, snap);
    CopiedListing(opts, listing, cfg, snap);
    TallyCounts(pods, 1, 0);
    forall i: nat | i < |kept|
      ensures PlacedOn(pods, 1, 0, kept[i].name) <= CapacityOf(opts, listing, kept[i])
      ensures !limited ==> PlacedOn(pods, 1, 0, kept[i].name) == CapacityOf(opts, listing, kept[i])
    {
      NodesAreFilled(cfg, snap, s, i);
    }
    forall a | 0 <= a < |entries|
      ensures Justified(opts, listing, limited, entries[a])
    {
      PlacedOnKnownNode(cfg, snap, s, entries[a].nodeName);
      var i :| 0 <= i < |cfg.nodes| && cfg.nodes[i] == entries[a].nodeName;
      assert kept[i].name == entries[a].nodeName;
    }
  }

  /** The analysis is deterministic although its run is not: for every interleaving and every choice of
      nodes, a complete run returns, reports the capacity of the cluster up to the limit, names the
      matching reason, and lists nodes with no more than their own capacity, below the limit with all of it. */
  lemma AnalysisIsExact(opts: Settings, listing: Listing, cfg: Config, snap: Snapshot, s: State)
    requires Copyable(opts, listing)
    requires cfg == ConfigFor(opts, Kept(listing.nodes, opts.excluded))
    requires snap == SnapshotFor(listing, Kept(listing.nodes, opts.excluded))
    requires Inert(cfg, snap) && Calm(cfg) && NamesFree(cfg, snap, Needed(cfg, snap))
    requires Reachable(cfg, snap, s) && Complete(cfg, s)
    ensures s.main == Returned(true)
    ensures var report := FreshReport(opts.template, opts.maxSimulated, s.data.pods, s.data.stopReason);
            report.Some? && Answers(opts, listing, LastVerdicts(cfg, snap, s), report.value)
  {
    hide Clash, Copyable, Sound, Inert, Reachable, Complete, MainFailReason, Tally, InstancesSum, TotalCapacity,
      NamesFree, CountsMade, MadeKeys, Calm, Distribution;
    CopiedListing(opts, listing, cfg, snap);
    GreedyCount(cfg, snap, s);
    ReadReason(cfg, snap, s);
    var firsts := ReviewCounts(opts.template, opts.maxSimulated, s.data.pods, s.data.stopReason);
    ListIsDistributed(opts, listing, cfg, snap, s);
  }

  /** A report taken once `Run` has returned stays the report of the current status: whatever still runs,
      computing it anew would give the same. This is what makes caching it safe. */
  lemma ReportStaysCurrent(cfg: Config, snap: Snapshot, s: State, actions: seq<Action>, t: State)
    requires Sound(cfg, snap) && Inert(cfg, snap) && Calm(cfg) && Reachable(cfg, snap, s)
    requires s.main == Returned(true) && Runs(cfg, s, actions, t)
    ensures FreshReport(cfg.template, cfg.maxSimulated, t.data.pods, t.data.stopReason)
         == FreshReport(cfg.template, cfg.maxSimulated, s.data.pods, s.data.stopReason)
    ensures FreshReport(cfg.template, cfg.maxSimulated, s.data.pods, s.data.stopReason).Some?
  {
    RecordIsFrozen(cfg, snap, s, actions, t);
    StopReasonIsExact(cfg, snap, s);
    ReadReason(cfg, snap, s);
  }

  /** Before a stop there is no readable reason: asking for a report then panics. */
  lemma NoReportBeforeStop(template: Pod, maxSimulated: int, pods: seq<Pod>)
    ensures FreshReport(template, maxSimulated, pods, "").None?
  {
    EmptyReason();
  }
}
