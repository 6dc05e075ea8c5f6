/** Bookkeeping when the snapshot does have unbound pods of its own, the hooks run one after the other
    and every creation succeeds: what the counters then mean, and by how much the report overcounts. */
module Ledger {
  import opened Cluster
  import opened Simulator
  import opened Invariant

  datatype Binding = Binding(key: Key, node: string)

  /** The recorded pods that came with the snapshot, and those that the simulator made. */
  function ForeignCount(snap: Store, pods: seq<Pod>): nat {
    if pods == [] then 0
    else ForeignCount(snap, pods[..|pods| - 1]) + if KeyOf(pods[|pods| - 1]) in snap then 1 else 0
  }

  function SimulatedCount(snap: Store, pods: seq<Pod>): nat {
    if pods == [] then 0
    else SimulatedCount(snap, pods[..|pods| - 1]) + if KeyOf(pods[|pods| - 1]) in snap then 0 else 1
  }

  /** The pods the simulator has made and that are not bound yet. */
  function InFlight(snap: Store, d: Data): set<Key> {
    set key | key in d.store && key !in snap && d.store[key].nodeName == ""
  }

  /** Between two hooks, before a stop. */
  ghost predicate Balanced(cfg: Config, snap: Store, d: Data) {
    && d.simulated == |d.pods| + 1 && d.counter == d.simulated
    && |InFlight(snap, d)| == 1 + ForeignCount(snap, d.pods)
    && (cfg.maxSimulated > 0 ==> d.simulated <= cfg.maxSimulated)
    && WellKeyed(d.store) && snap.Keys <= d.store.Keys
  }

  /** The scheduler binds a stored pod that has no node yet. */
  predicate Bindable(d: Data, b: Binding) {
    b.key in d.store && d.store[b.key].nodeName == "" && b.node != ""
  }

  /** Hooks one after the other, each of which goes on to create another pod. */
  predicate Serial(cfg: Config, d: Data, bindings: seq<Binding>, e: Data)
    decreases |bindings|
  {
    if bindings == [] then d == e
    else
      Bindable(d, bindings[0]) &&
      var (next, result) := Bind(cfg, d, bindings[0].key, bindings[0].node);
      result.Continues? && Serial(cfg, next, bindings[1..], e)
  }

  lemma StartIsBalanced(cfg: Config, snap: Store)
    requires WellKeyed(snap) && TemplateKey(cfg, 0) !in snap
    ensures var (d, ok) := CreateNextPod(cfg, Fresh(snap));
            ok && Balanced(cfg, snap, d)
  {
    GeneratedPods(cfg, 0);
    var (d, ok) := CreateNextPod(cfg, Fresh(snap));
    assert InFlight(snap, d) == {TemplateKey(cfg, 0)};
  }

  /** Placing one pod takes it out of flight if the simulator had made it. */
  lemma PlacingChangesFlight(snap: Store, d: Data, b: Binding)
    requires Bindable(d, b) && WellKeyed(d.store)
    ensures var placed := Place(d.store[b.key], b.node);
            var d' := d.(store := d.store[b.key := placed]);
            KeyOf(placed) == b.key && InFlight(snap, d') == InFlight(snap, d) - {b.key}
  {
  }

  /** Inside a hook, after the append: the record has caught up with `simulated`. */
  ghost predicate CaughtUp(cfg: Config, snap: Store, d: Data) {
    && d.simulated == |d.pods| && d.counter == d.simulated
    && |InFlight(snap, d)| == ForeignCount(snap, d.pods)
    && (cfg.maxSimulated > 0 ==> d.simulated <= cfg.maxSimulated)
    && WellKeyed(d.store) && snap.Keys <= d.store.Keys
  }

  /** The data at the limit test of a binding. */
  function Appended(d: Data, b: Binding): Data
    requires b.key in d.store
  {
    var placed := Place(d.store[b.key], b.node);
    d.(store := d.store[b.key := placed], pods := d.pods + [placed])
  }

  lemma AppendCatchesUp(cfg: Config, snap: Store, d: Data, b: Binding)
    requires Balanced(cfg, snap, d) && Bindable(d, b)
    ensures CaughtUp(cfg, snap, Appended(d, b))
  {
    PlacingChangesFlight(snap, d, b);
    var bound := Appended(d, b);
    assert InFlight(snap, bound) == InFlight(snap, d) - {b.key};
    assert bound.pods[..|d.pods|] == d.pods;
    assert b.key !in snap <==> b.key in InFlight(snap, d);
  }

  lemma CreationJoinsFlight(cfg: Config, snap: Store, d: Data)
    requires CreateNextPod(cfg, d).1 && snap.Keys <= d.store.Keys
    ensures var next := CreateNextPod(cfg, d).0;
            && InFlight(snap, next) == InFlight(snap, d) + {TemplateKey(cfg, d.counter)}
            && TemplateKey(cfg, d.counter) !in d.store
            && (WellKeyed(d.store) ==> WellKeyed(next.store)) && snap.Keys <= next.store.Keys
  {
    GeneratedPods(cfg, d.counter);
    hide Copy, CopyName, Made;
  }

  lemma CreationBalances(cfg: Config, snap: Store, d: Data)
    requires CaughtUp(cfg, snap, d) && !LimitReached(cfg, d) && CreateNextPod(cfg, d).1
    ensures Balanced(cfg, snap, CreateNextPod(cfg, d).0)
  {
    CreationJoinsFlight(cfg, snap, d);
    hide WellKeyed, Made, TemplateKey, ForeignCount;
    assert TemplateKey(cfg, d.counter) !in InFlight(snap, d);
    hide InFlight;
  }

  lemma BindKeepsBalance(cfg: Config, snap: Store, d: Data, b: Binding)
    requires Balanced(cfg, snap, d) && Bindable(d, b)
    ensures var (next, result) := Bind(cfg, d, b.key, b.node);
            && (result.Continues? ==> Balanced(cfg, snap, next))
            && (result.OffersStop? <==> cfg.maxSimulated > 0 && d.simulated == cfg.maxSimulated)
            && (result.OffersStop? ==> next.simulated == |next.pods| == cfg.maxSimulated
                                       && next.stopReason == LimitReason(cfg))
  {
    hide CreateNextPod, InFlight, ForeignCount, LimitReason;
    AppendCatchesUp(cfg, snap, d, b);
    var bound := Appended(d, b);
    if !LimitReached(cfg, bound) && CreateNextPod(cfg, bound).1 {
      CreationBalances(cfg, snap, bound);
    }
  }

  /** The ledger: between hooks `simulated` is one more than the record, and the pods in flight are one
      more than the snapshot's pods bound so far. */
  lemma {:induction false} LedgerHolds(cfg: Config, snap: Store, d: Data, bindings: seq<Binding>, e: Data)
    requires Balanced(cfg, snap, d) && Serial(cfg, d, bindings, e)
    ensures Balanced(cfg, snap, e)
    decreases |bindings|
  {
    if bindings != [] {
      BindKeepsBalance(cfg, snap, d, bindings[0]);
      var (next, _) := Bind(cfg, d, bindings[0].key, bindings[0].node);
      hide Balanced, Bind;
      LedgerHolds(cfg, snap, next, bindings[1..], e);
    }
  }

  lemma {:induction false} CountsSplit(snap: Store, pods: seq<Pod>)
    ensures ForeignCount(snap, pods) + SimulatedCount(snap, pods) == |pods|
  {
    if pods != [] {
      CountsSplit(snap, pods[..|pods| - 1]);
    }
  }

  /** At the first stop by the limit the record has exactly maxSimulated entries, but only those that do
      not come from the snapshot are replicas: the report overcounts by the snapshot's pods bound. */
  lemma LimitCountsForeignPods(cfg: Config, snap: Store, bindings: seq<Binding>, d: Data, last: Binding, e: Data)
    requires WellKeyed(snap) && TemplateKey(cfg, 0) !in snap
    requires Serial(cfg, CreateNextPod(cfg, Fresh(snap)).0, bindings, d)
    requires Bindable(d, last) && Bind(cfg, d, last.key, last.node) == (e, OffersStop)
    ensures e.simulated == |e.pods| == cfg.maxSimulated && e.stopReason == LimitReason(cfg)
    ensures SimulatedCount(snap, e.pods) == cfg.maxSimulated - ForeignCount(snap, e.pods)
    ensures SimulatedCount(snap, e.pods) == cfg.maxSimulated <==> ForeignCount(snap, e.pods) == 0
  {
    StartIsBalanced(cfg, snap);
    LedgerHolds(cfg, snap, CreateNextPod(cfg, Fresh(snap)).0, bindings, d);
    BindKeepsBalance(cfg, snap, d, last);
    CountsSplit(snap, e.pods);
  }
}
