/** Copying the cluster into the fake client: pods that are not terminal, nodes that are not excluded. */
module Sync {
  import opened Cluster
  import opened Capacity
  import opened FakeClient

  // ---------------------------------------------------------------- what is copied

  predicate Live(pod: Pod) {
    pod.phase != "Succeeded" && pod.phase != "Failed"
  }

  /** The store after the loop over the pods, and whether no creation failed. */
  function CopyPods(store: Store, items: seq<Pod>): (Store, bool)
    decreases |items|
  {
    if items == [] then (store, true)
    else if !Live(items[0]) then CopyPods(store, items[1..])
    else if KeyOf(items[0]) in store then (store, false)
    else CopyPods(store[KeyOf(items[0]) := items[0]], items[1..])
  }

  function CopyNodes(nodes: seq<Node>, items: seq<Node>, excluded: set<string>): (seq<Node>, bool)
    decreases |items|
  {
    if items == [] then (nodes, true)
    else if items[0].name in excluded then CopyNodes(nodes, items[1..], excluded)
    else if HasNode(nodes, items[0].name) then (nodes, false)
    else CopyNodes(nodes + [items[0]], items[1..], excluded)
  }

  /** Two live pods of the list share a key, or one of them is in the store already. */
  ghost predicate Clash(store: Store, items: seq<Pod>) {
    || (exists i | 0 <= i < |items| :: Live(items[i]) && KeyOf(items[i]) in store)
    || (exists i, j | 0 <= i < j < |items| :: Live(items[i]) && Live(items[j]) && KeyOf(items[i]) == KeyOf(items[j]))
  }

  lemma ClashUnfolds(store: Store, items: seq<Pod>)
    requires items != []
    ensures !Live(items[0]) ==> (Clash(store, items) <==> Clash(store, items[1..]))
    ensures Live(items[0]) && KeyOf(items[0]) !in store ==>
              (Clash(store, items) <==> Clash(store[KeyOf(items[0]) := items[0]], items[1..]))
  {
    var rest := items[1..];
    assert forall i | 0 < i < |items| :: items[i] == rest[i - 1];
    assert forall i | 0 <= i < |rest| :: rest[i] == items[i + 1];
  }

  /** The copy fails exactly on a clash; otherwise the store gains exactly the live pods. */
  lemma {:induction false} CopiedPods(store: Store, items: seq<Pod>)
    ensures CopyPods(store, items).1 <==> !Clash(store, items)
    ensures CopyPods(store, items).1 ==>
              var copied := CopyPods(store, items).0;
              && (forall key | key in store :: key in copied && copied[key] == store[key])
              && (forall pod | pod in items && pod.phase != "Succeeded" && pod.phase != "Failed" ::
                    Key(pod.namespace, pod.name) in copied && copied[Key(pod.namespace, pod.name)] == pod)
              && (forall key | key in copied :: key in store
                    || (copied[key] in items && copied[key].phase != "Succeeded" && copied[key].phase != "Failed"))
    ensures WellKeyed(store) ==> WellKeyed(CopyPods(store, items).0)
    decreases |items|
  {
    if items != [] {
      var rest := items[1..];
      assert items == [items[0]] + rest;
      ClashUnfolds(store, items);
      if !Live(items[0]) {
        CopiedPods(store, rest);
      } else if KeyOf(items[0]) !in store {
        CopiedPods(store[KeyOf(items[0]) := items[0]], rest);
      }
      hide Clash;
    }
  }

  /** The nodes that the exclusion list leaves, in order. */
  function Kept(items: seq<Node>, excluded: set<string>): seq<Node> {
    if items == [] then []
    else if items[0].name in excluded then Kept(items[1..], excluded)
    else [items[0]] + Kept(items[1..], excluded)
  }

  /** Every node is kept as often as it is listed, or not at all if it is excluded by name. */
  lemma {:induction false} KeptCounts(items: seq<Node>, excluded: set<string>, node: Node)
    ensures multiset(Kept(items, excluded))[node] == if node.name in excluded then 0 else multiset(items)[node]
  {
    if items != [] {
      KeptCounts(items[1..], excluded, node);
      assert items == [items[0]] + items[1..];
    }
  }

  /** The kept nodes stay in the order in which they are listed. */
  lemma {:induction false} KeptInOrder(first: seq<Node>, second: seq<Node>, excluded: set<string>)
    ensures Kept(first + second, excluded) == Kept(first, excluded) + Kept(second, excluded)
  {
    if first == [] {
      assert first + second == second;
    } else {
      assert (first + second)[1..] == first[1..] + second;
      KeptInOrder(first[1..], second, excluded);
    }
  }

  ghost predicate DistinctNodes(nodes: seq<Node>) {
    forall i, j | 0 <= i < j < |nodes| :: nodes[i].name != nodes[j].name
  }

  /** Exactly the nodes that are not excluded are copied, unless two of them share a name. */
  lemma {:induction false} CopiedNodes(nodes: seq<Node>, items: seq<Node>, excluded: set<string>)
    requires DistinctNodes(nodes)
    ensures CopyNodes(nodes, items, excluded).1 <==> DistinctNodes(nodes + Kept(items, excluded))
    ensures CopyNodes(nodes, items, excluded).1 ==> CopyNodes(nodes, items, excluded).0 == nodes + Kept(items, excluded)
    decreases |items|
  {
    if items == [] {
      assert nodes + [] == nodes;
    } else if items[0].name in excluded {
      CopiedNodes(nodes, items[1..], excluded);
    } else {
      var all := nodes + Kept(items, excluded);
      assert all == (nodes + [items[0]]) + Kept(items[1..], excluded);
      if HasNode(nodes, items[0].name) {
        var i :| 0 <= i < |nodes| && nodes[i].name == items[0].name;
        assert all[i] == nodes[i] && all[|nodes|] == items[0];
      } else {
        CopiedNodes(nodes + [items[0]], items[1..], excluded);
      }
    }
  }

  // ---------------------------------------------------------------- what is left on each node

  /** What the live pods of the list that are bound to a node leave of it. */
  function Remaining(name: string, free: Free, items: seq<Pod>): Free
    decreases |items|
  {
    if items == [] then free
    else
      var next := if Live(items[0]) && items[0].nodeName == name then Shrink(free, items[0].requests) else free;
      Remaining(name, next, items[1..])
  }

  function BoundTo(name: string, items: seq<Pod>): nat {
    if items == [] then 0
    else (if Live(items[0]) && items[0].nodeName == name then 1 else 0) + BoundTo(name, items[1..])
  }

  function Requested(name: string, r: string, items: seq<Pod>): nat {
    if items == [] then 0
    else
      var requests := items[0].requests;
      (if Live(items[0]) && items[0].nodeName == name && r in requests then requests[r] else 0)
      + Requested(name, r, items[1..])
  }

  /** What is left is the allocatable amount minus the sums over the pods bound there. */
  lemma {:induction false} RemainingIsDifference(name: string, free: Free, items: seq<Pod>, r: string)
    ensures Remaining(name, free, items).slots == free.slots - BoundTo(name, items)
    ensures var left := Remaining(name, free, items).amounts;
            (if r in left then left[r] else 0)
            == (if r in free.amounts then free.amounts[r] else 0) - Requested(name, r, items)
    decreases |items|
  {
    if items != [] {
      var next := if Live(items[0]) && items[0].nodeName == name then Shrink(free, items[0].requests) else free;
      RemainingIsDifference(name, next, items[1..], r);
    }
  }
}
