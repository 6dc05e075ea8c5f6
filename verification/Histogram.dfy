/** The replicas-per-node histograms of the report: one list per template, filled round-robin from the
    recorded pods. First the lists as values, then the loops over heap objects that build them. */
module Histogram {
  import opened Cluster

  datatype Entry = Entry(nodeName: string, replicas: nat)

  // ---------------------------------------------------------------- the lists as values

  predicate Names(entries: seq<Entry>, node: string) {
    exists a | 0 <= a < |entries| :: entries[a].nodeName == node
  }

  ghost predicate DistinctNames(entries: seq<Entry>) {
    forall a, b | 0 <= a < b < |entries| :: entries[a].nodeName != entries[b].nodeName
  }

  /** One more pod on `node`: every entry of that name is incremented, and a missing one is appended. */
  function Bump(entries: seq<Entry>, node: string): seq<Entry> {
    if Names(entries, node) then
      seq(|entries|, a requires 0 <= a < |entries| =>
        if entries[a].nodeName == node then entries[a].(replicas := entries[a].replicas + 1) else entries[a])
    else entries + [Entry(node, 1)]
  }

  /** The list of template t out of `templates` after all pods have been looked at in order. */
  function Tally(pods: seq<Pod>, templates: nat, t: nat): seq<Entry>
    requires templates > 0
  {
    if pods == [] then []
    else
      var i := |pods| - 1;
      var before := Tally(pods[..i], templates, t);
      if i % templates == t then Bump(before, pods[i].nodeName) else before
  }

  /** How many pods of template t were placed on `node`: the reference for the counts. */
  function PlacedOn(pods: seq<Pod>, templates: nat, t: nat, node: string): nat
    requires templates > 0
  {
    if pods == [] then 0
    else
      var i := |pods| - 1;
      PlacedOn(pods[..i], templates, t, node) + if i % templates == t && pods[i].nodeName == node then 1 else 0
  }

  /** Pod i is the first of its template on its node. */
  predicate FirstThere(pods: seq<Pod>, templates: nat, t: nat, i: nat)
    requires templates > 0
  {
    && i < |pods| && i % templates == t
    && forall j: nat | j < i :: !(j % templates == t && pods[j].nodeName == pods[i].nodeName)
  }

  /** Some pod of template t is on `node`. */
  ghost predicate Hosts(pods: seq<Pod>, templates: nat, t: nat, node: string)
    requires templates > 0
  {
    exists j: nat :: j < |pods| && j % templates == t && pods[j].nodeName == node
  }

  /** `firsts` lists, in increasing order, exactly the pods that are the first of template t on their node. */
  ghost predicate Appearances(pods: seq<Pod>, templates: nat, t: nat, firsts: seq<nat>)
    requires templates > 0
  {
    && (forall a, b | 0 <= a < b < |firsts| :: firsts[a] < firsts[b])
    && (forall i: nat :: i in firsts <==> FirstThere(pods, templates, t, i))
  }

  /** The counts are right, for every node, listed or not. */
  lemma {:induction false} TallyCounts(pods: seq<Pod>, templates: nat, t: nat)
    requires templates > 0
    ensures var tally := Tally(pods, templates, t);
            && (forall a | 0 <= a < |tally| ::
                  tally[a].replicas == PlacedOn(pods, templates, t, tally[a].nodeName) && tally[a].replicas > 0)
            && DistinctNames(tally)
            && (forall node :: Names(tally, node) <==> PlacedOn(pods, templates, t, node) > 0)
  {
    if pods != [] {
      var i := |pods| - 1;
      TallyCounts(pods[..i], templates, t);
      var before, tally := Tally(pods[..i], templates, t), Tally(pods, templates, t);
      forall node
        ensures Names(tally, node) <==> PlacedOn(pods, templates, t, node) > 0
      {
        if i % templates == t {
          BumpNames(before, pods[i].nodeName, node);
        }
      }
    }
  }

  lemma BumpKeepsNames(entries: seq<Entry>, node: string)
    ensures var bumped := Bump(entries, node);
            && |bumped| == |entries| + (if Names(entries, node) then 0 else 1)
            && (forall a | 0 <= a < |entries| :: bumped[a].nodeName == entries[a].nodeName)
            && (!Names(entries, node) ==> bumped[|entries|].nodeName == node)
  {
    hide Names;
  }

  lemma BumpNames(entries: seq<Entry>, node: string, other: string)
    ensures Names(Bump(entries, node), other) <==> Names(entries, other) || other == node
  {
    BumpKeepsNames(entries, node);
    hide Bump;
    if Names(entries, other) {
      var a :| 0 <= a < |entries| && entries[a].nodeName == other;
      assert Bump(entries, node)[a].nodeName == other;
    }
  }

  /** Looking at one more pod changes who is first only for that pod itself. */
  lemma FirstsGrow(pods: seq<Pod>, templates: nat, t: nat)
    requires templates > 0 && pods != []
    ensures var i := |pods| - 1;
            && (forall j: nat | j != i :: FirstThere(pods, templates, t, j) <==> FirstThere(pods[..i], templates, t, j))
            && (FirstThere(pods, templates, t, i) <==>
                  i % templates == t && !Hosts(pods[..i], templates, t, pods[i].nodeName))
  {
    assert forall j: nat | j < |pods| - 1 :: pods[..|pods| - 1][j] == pods[j];
  }

  /** So the list of first appearances grows at its end, and only if the pod is one. */
  lemma AppearancesGrow(pods: seq<Pod>, templates: nat, t: nat, firsts: seq<nat>) returns (grown: seq<nat>)
    requires templates > 0 && pods != [] && Appearances(pods[..|pods| - 1], templates, t, firsts)
    ensures Appearances(pods, templates, t, grown)
    ensures grown == if FirstThere(pods, templates, t, |pods| - 1) then firsts + [|pods| - 1] else firsts
  {
    var i := |pods| - 1;
    grown := if FirstThere(pods, templates, t, i) then firsts + [i] else firsts;
    FirstsGrow(pods, templates, t);
    forall a | 0 <= a < |firsts|
      ensures firsts[a] < i
    {
      assert firsts[a] in firsts;
    }
    assert !FirstThere(pods[..i], templates, t, i);
    hide FirstThere;
    assert forall j: nat :: j in firsts + [i] <==> j in firsts || j == i;
  }

  /** The nodes are listed in the order in which the pods of the template first appear on them. */
  lemma {:induction false} TallyOrder(pods: seq<Pod>, templates: nat, t: nat) returns (firsts: seq<nat>)
    requires templates > 0
    ensures Appearances(pods, templates, t, firsts) && |firsts| == |Tally(pods, templates, t)|
    ensures forall a | 0 <= a < |firsts| ::
              firsts[a] < |pods| && Tally(pods, templates, t)[a].nodeName == pods[firsts[a]].nodeName
  {
    if pods == [] {
      firsts := [];
    } else {
      var i := |pods| - 1;
      var shorter := pods[..i];
      var earlier := TallyOrder(shorter, templates, t);
      var before := Tally(shorter, templates, t);
      assert Tally(pods, templates, t) == if i % templates == t then Bump(before, pods[i].nodeName) else before;
      hide FirstThere, Tally, Names, Appearances, Bump, Hosts;
      BumpKeepsNames(before, pods[i].nodeName);
      FirstsGrow(pods, templates, t);
      NamedByFirst(shorter, templates, t, earlier, pods[i].nodeName);
      firsts := AppearancesGrow(pods, templates, t, earlier);
    }
  }

  lemma NamedByFirst(pods: seq<Pod>, templates: nat, t: nat, firsts: seq<nat>, node: string)
    requires templates > 0 && |firsts| == |Tally(pods, templates, t)| && Appearances(pods, templates, t, firsts)
    requires forall a | 0 <= a < |firsts| ::
               firsts[a] < |pods| && Tally(pods, templates, t)[a].nodeName == pods[firsts[a]].nodeName
    ensures Names(Tally(pods, templates, t), node) <==> Hosts(pods, templates, t, node)
  {
    hide Tally;
    if Names(Tally(pods, templates, t), node) {
      var a :| 0 <= a < |firsts| && Tally(pods, templates, t)[a].nodeName == node;
      assert firsts[a] in firsts;
      assert FirstThere(pods, templates, t, firsts[a]);
    }
    if j: nat :| j < |pods| && j % templates == t && pods[j].nodeName == node {
      var first := FirstOf(pods, templates, t, node, j);
      assert first in firsts;
      var a :| 0 <= a < |firsts| && firsts[a] == first;
      assert Tally(pods, templates, t)[a].nodeName == node;
    }
  }

  lemma {:induction false} FirstOf(pods: seq<Pod>, templates: nat, t: nat, node: string, j: nat) returns (i: nat)
    requires templates > 0 && j < |pods| && j % templates == t && pods[j].nodeName == node
    ensures FirstThere(pods, templates, t, i) && pods[i].nodeName == node
    decreases j
  {
    i := j;
    if k: nat :| k < j && k % templates == t && pods[k].nodeName == pods[j].nodeName {
      i := FirstOf(pods, templates, t, node, k);
    }
  }

  // ---------------------------------------------------------------- conservation

  function InstancesSum(entries: seq<Entry>): nat {
    if entries == [] then 0
    else InstancesSum(entries[..|entries| - 1]) + entries[|entries| - 1].replicas
  }

  lemma {:induction false} BumpAddsOne(entries: seq<Entry>, node: string)
    requires DistinctNames(entries)
    ensures InstancesSum(Bump(entries, node)) == InstancesSum(entries) + 1
  {
    var bumped := Bump(entries, node);
    if !Names(entries, node) {
      assert bumped[..|entries|] == entries;
    } else {
      var n := |entries| - 1;
      var init := entries[..n];
      if entries[n].nodeName == node {
        assert bumped[..n] == init;
      } else {
        var a :| 0 <= a < |entries| && entries[a].nodeName == node;
        assert init[a].nodeName == node;
        BumpAddsOne(init, node);
        assert bumped[..n] == Bump(init, node);
      }
    }
  }

  /** The instances over the templates below m. */
  function AllInstances(pods: seq<Pod>, templates: nat, m: nat): nat
    requires templates > 0
  {
    if m == 0 then 0 else AllInstances(pods, templates, m - 1) + InstancesSum(Tally(pods, templates, m - 1))
  }

  lemma {:induction false} OnePodCounts(pods: seq<Pod>, templates: nat, m: nat)
    requires templates > 0 && pods != []
    ensures AllInstances(pods, templates, m)
         == AllInstances(pods[..|pods| - 1], templates, m) + if (|pods| - 1) % templates < m then 1 else 0
    decreases m
  {
    var i := |pods| - 1;
    if m > 0 {
      OnePodCounts(pods, templates, m - 1);
      TallyCounts(pods[..i], templates, m - 1);
      BumpAddsOne(Tally(pods[..i], templates, m - 1), pods[i].nodeName);
    }
  }

  /** Conservation: the instances printed for all templates add up to the recorded pods. */
  lemma {:induction false} InstancesAddUp(pods: seq<Pod>, templates: nat)
    requires templates > 0
    ensures AllInstances(pods, templates, templates) == |pods|
  {
    if pods == [] {
      NoInstances(templates, templates);
    } else {
      OnePodCounts(pods, templates, templates);
      InstancesAddUp(pods[..|pods| - 1], templates);
    }
  }

  lemma {:induction false} NoInstances(templates: nat, m: nat)
    requires templates > 0
    ensures AllInstances([], templates, m) == 0
  {
    if m > 0 {
      NoInstances(templates, m - 1);
    }
  }

  // ---------------------------------------------------------------- the heap objects

  class ReplicasOnNode {
    var nodeName: string
    var replicas: nat

    constructor (nodeName: string)
      ensures this.nodeName == nodeName && replicas == 1
    {
      this.nodeName := nodeName;
      this.replicas := 1;
    }

    function Value(): Entry
      reads this
    {
      Entry(nodeName, replicas)
    }
  }

  class ReviewResult {
    const podName: string
    var replicasOnNodes: seq<ReplicasOnNode>

    constructor (podName: string)
      ensures this.podName == podName && replicasOnNodes == []
    {
      this.podName := podName;
      this.replicasOnNodes := [];
    }

    function Contents(): seq<Entry>
      reads this, replicasOnNodes
    {
      Values(replicasOnNodes)
    }

    method Append(node: string)
      modifies this
      ensures |replicasOnNodes| > 0 && fresh(replicasOnNodes[|replicasOnNodes| - 1])
      ensures replicasOnNodes[..|replicasOnNodes| - 1] == old(replicasOnNodes)
      ensures Contents() == old(Contents()) + [Entry(node, 1)]
    {
      var entry := new ReplicasOnNode(node);
      replicasOnNodes := replicasOnNodes + [entry];
    }
  }

  function Values(nodes: seq<ReplicasOnNode>): (entries: seq<Entry>)
    reads nodes
    ensures |entries| == |nodes| && forall a | 0 <= a < |nodes| :: entries[a] == nodes[a].Value()
  {
    seq(|nodes|, a requires 0 <= a < |nodes| reads nodes => nodes[a].Value())
  }

  /** The entries of a template are distinct objects. */
  ghost predicate NoAlias(nodes: seq<ReplicasOnNode>) {
    forall a, b | 0 <= a < b < |nodes| :: nodes[a] != nodes[b]
  }

  /** No result and no entry is shared between two templates. */
  ghost predicate Separate(results: seq<ReviewResult>)
    reads results
  {
    && (forall t, u | 0 <= t < u < |results| :: results[t] != results[u])
    && (forall t | 0 <= t < |results| :: NoAlias(results[t].replicasOnNodes))
    && (forall t, u, a, b | 0 <= t < u < |results| && 0 <= a < |results[t].replicasOnNodes|
                            && 0 <= b < |results[u].replicasOnNodes| ::
          results[t].replicasOnNodes[a] != results[u].replicasOnNodes[b])
  }

  /** The inner loop: all entries of the name are incremented, for there is no break. */
  method Increment(nodes: seq<ReplicasOnNode>, node: string) returns (first: bool)
    requires NoAlias(nodes)
    modifies nodes
    ensures first <==> !Names(old(Values(nodes)), node)
    ensures !first ==> Values(nodes) == Bump(old(Values(nodes)), node)
    ensures first ==> Values(nodes) == old(Values(nodes))
  {
    ghost var was := Values(nodes);
    first := true;
    for k := 0 to |nodes|
      invariant first <==> forall a | 0 <= a < k :: was[a].nodeName != node
      invariant forall a | 0 <= a < |nodes| :: nodes[a].nodeName == was[a].nodeName
      invariant forall a | 0 <= a < |nodes| ::
                  nodes[a].replicas == was[a].replicas + if a < k && was[a].nodeName == node then 1 else 0
    {
      var sum := nodes[k];
      if sum.nodeName == node {
        sum.replicas := sum.replicas + 1;
        first := false;
      }
    }
    assert first <==> !Names(was, node);
    assert forall a | 0 <= a < |nodes| :: Values(nodes)[a] == Entry(nodes[a].nodeName, nodes[a].replicas);
    if first {
      assert Values(nodes) == was;
    } else {
      assert Values(nodes) == Bump(was, node);
    }
  }

  method IncrementFor(results: seq<ReviewResult>, t: nat, node: string) returns (first: bool)
    requires t < |results| && Separate(results)
    modifies results[t].replicasOnNodes
    ensures first <==> !Names(old(results[t].Contents()), node)
    ensures results[t].Contents()
         == if first then old(results[t].Contents()) else Bump(old(results[t].Contents()), node)
    ensures forall u | 0 <= u < |results| && u != t ::
              results[u].replicasOnNodes == old(results[u].replicasOnNodes)
              && results[u].Contents() == old(results[u].Contents())
  {
    hide Names, Values, Bump;
    first := Increment(results[t].replicasOnNodes, node);
  }

  method AppendTo(results: seq<ReviewResult>, t: nat, node: string)
    requires t < |results| && Separate(results)
    modifies results[t]
    ensures Separate(results)
    ensures results[t].Contents() == old(results[t].Contents()) + [Entry(node, 1)]
    ensures forall u | 0 <= u < |results| && u != t ::
              results[u].replicasOnNodes == old(results[u].replicasOnNodes)
              && results[u].Contents() == old(results[u].Contents())
    ensures old(results[t].replicasOnNodes) <= results[t].replicasOnNodes
    ensures forall a | old(|results[t].replicasOnNodes|) <= a < |results[t].replicasOnNodes| ::
              fresh(results[t].replicasOnNodes[a])
  {
    hide Values;
    results[t].Append(node);
  }

  /** The pod is counted for template t, and no other list changes. */
  method Count(results: seq<ReviewResult>, t: nat, node: string)
    requires t < |results| && Separate(results)
    modifies results[t], results[t].replicasOnNodes
    ensures Separate(results)
    ensures results[t].Contents() == Bump(old(results[t].Contents()), node)
    ensures forall u | 0 <= u < |results| && u != t ::
              results[u].replicasOnNodes == old(results[u].replicasOnNodes)
              && results[u].Contents() == old(results[u].Contents())
    ensures old(results[t].replicasOnNodes) <= results[t].replicasOnNodes
    ensures forall a | old(|results[t].replicasOnNodes|) <= a < |results[t].replicasOnNodes| ::
              fresh(results[t].replicasOnNodes[a])
  {
    hide Values;
    var first := IncrementFor(results, t, node);
    if first {
      AppendTo(results, t, node);
    }
  }

  lemma TallyStep(pods: seq<Pod>, templates: nat, i: nat)
    requires templates > 0 && i < |pods|
    ensures forall t: nat | t < templates ::
              Tally(pods[..i + 1], templates, t)
              == if t == i % templates then Bump(Tally(pods[..i], templates, t), pods[i].nodeName)
                 else Tally(pods[..i], templates, t)
  {
    assert pods[..i + 1][..i] == pods[..i];
  }

  method EmptyResults(templatePods: seq<Pod>) returns (results: seq<ReviewResult>)
    ensures |results| == |templatePods| && Separate(results)
    ensures forall t | 0 <= t < |results| ::
              fresh(results[t]) && results[t].podName == templatePods[t].name && results[t].replicasOnNodes == []
  {
    results := [];
    for i := 0 to |templatePods|
      invariant |results| == i
      invariant forall t | 0 <= t < i ::
                  fresh(results[t]) && results[t].podName == templatePods[t].name && results[t].replicasOnNodes == []
      invariant forall t, u | 0 <= t < u < i :: results[t] != results[u]
    {
      var result := new ReviewResult(templatePods[i].name);
      results := results + [result];
    }
  }

  /** One turn of the outer loop over all templates: from the lists of i pods to those of i + 1. */
  method CountPod(results: seq<ReviewResult>, pods: seq<Pod>, i: nat)
    requires results != [] && i < |pods| && Separate(results)
    requires forall t: nat | t < |results| :: results[t].Contents() == Tally(pods[..i], |results|, t)
    modifies results[i % |results|], results[i % |results|].replicasOnNodes
    ensures Separate(results)
    ensures forall t: nat | t < |results| :: results[t].Contents() == Tally(pods[..i + 1], |results|, t)
    ensures forall t, a | 0 <= t < |results| && 0 <= a < |results[t].replicasOnNodes| ::
              fresh(results[t].replicasOnNodes[a]) || results[t].replicasOnNodes[a] in old(results[t].replicasOnNodes)
  {
    hide Names, Values, Bump, Tally, Separate, NoAlias;
    TallyStep(pods, |results|, i);
    Count(results, i % |results|, pods[i].nodeName);
  }

  /** The outer loop, over results that are still empty. */
  method CountAll(results: seq<ReviewResult>, pods: seq<Pod>)
    requires results != [] && Separate(results)
    requires forall t | 0 <= t < |results| :: results[t].replicasOnNodes == []
    modifies results
    ensures Separate(results)
    ensures forall t, a | 0 <= t < |results| && 0 <= a < |results[t].replicasOnNodes| ::
              fresh(results[t].replicasOnNodes[a])
    ensures forall t: nat | t < |results| :: results[t].Contents() == Tally(pods, |results|, t)
  {
    var templatesCount := |results|;
    assert forall t: nat | t < templatesCount :: results[t].Contents() == Tally(pods[..0], templatesCount, t);
    hide Names, Values, Bump, Tally, Separate, NoAlias;
    for i := 0 to |pods|
      invariant Separate(results)
      invariant forall t, a | 0 <= t < templatesCount && 0 <= a < |results[t].replicasOnNodes| ::
                  fresh(results[t].replicasOnNodes[a])
      invariant forall t: nat | t < templatesCount :: results[t].Contents() == Tally(pods[..i], templatesCount, t)
    {
      CountPod(results, pods, i);
    }
    assert pods[..|pods|] == pods;
  }

  /** The histograms of all templates. Without a template the division in `i % templatesCount` panics
      as soon as there is a pod. */
  method ParsePodsReview(templatePods: seq<Pod>, pods: seq<Pod>) returns (results: seq<ReviewResult>)
    requires templatePods == [] ==> pods == []
    ensures |results| == |templatePods| && Separate(results)
    ensures forall t | 0 <= t < |results| :: fresh(results[t])
    ensures forall t, a | 0 <= t < |results| && 0 <= a < |results[t].replicasOnNodes| ::
              fresh(results[t].replicasOnNodes[a])
    ensures forall t: nat | t < |templatePods| ::
              results[t].podName == templatePods[t].name
              && results[t].Contents() == Tally(pods, |templatePods|, t)
  {
    hide Names, Values, Bump, Tally, Separate, NoAlias;
    results := EmptyResults(templatePods);
    if templatePods != [] {
      CountAll(results, pods);
    }
  }

  /** The sum that is printed for one template. */
  method Instances(replicasOnNodes: seq<ReplicasOnNode>) returns (result: nat)
    ensures result == InstancesSum(Values(replicasOnNodes))
  {
    result := 0;
    ghost var entries := Values(replicasOnNodes);
    for k := 0 to |replicasOnNodes|
      invariant result == InstancesSum(entries[..k])
    {
      assert entries[..k + 1][..k] == entries[..k];
      result := result + replicasOnNodes[k].replicas;
    }
    assert entries[..|replicasOnNodes|] == entries;
  }
}
