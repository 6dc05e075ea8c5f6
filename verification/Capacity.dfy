/** Per-node fit arithmetic: what a pod takes from a node, and how many copies a node holds. */
module Capacity {

  /** What a node has left. Both parts may be negative on an overcommitted node. */
  datatype Free = Free(slots: int, amounts: map<string, int>)

  type Request = map<string, nat>

  function Amount(free: Free, r: string): int {
    if r in free.amounts then free.amounts[r] else 0
  }

  function Wanted(request: Request, r: string): nat {
    if r in request then request[r] else 0
  }

  /** One more pod fits: a pod slot is left, and so is every resource the pod asks some of. */
  predicate Fits(free: Free, request: Request) {
    && free.slots >= 1
    && forall r | r in request :: request[r] > 0 ==> request[r] <= Amount(free, r)
  }

  /** The node after one pod has been placed on it. */
  function Shrink(free: Free, request: Request): Free {
    Free(free.slots - 1,
         map r | r in free.amounts.Keys + request.Keys :: Amount(free, r) - Wanted(request, r))
  }

  /** How many copies of the pod a node takes when they are placed one by one. */
  function NodeCapacity(free: Free, request: Request): nat
    decreases if free.slots > 0 then free.slots else 0
  {
    if Fits(free, request) then 1 + NodeCapacity(Shrink(free, request), request) else 0
  }

  /** k copies fit at once: the reference definition, with no order of placement. Every resource that the
      pod asks some of has to be listed by the node. */
  ghost predicate FitsTogether(free: Free, request: Request, k: nat) {
    k > 0 ==>
      && k <= free.slots
      && forall r | r in request && request[r] > 0 :: r in free.amounts && k * request[r] <= free.amounts[r]
  }

  /** Placing one by one loses nothing: the capacity is the largest k that fits at once. */
  lemma {:induction false} CapacityIsLargest(free: Free, request: Request, k: nat)
    ensures FitsTogether(free, request, k) <==> k <= NodeCapacity(free, request)
    decreases k
  {
    if k > 0 {
      var next := Shrink(free, request);
      CapacityIsLargest(next, request, k - 1);
      forall r | r in request && request[r] > 0
        ensures k * request[r] <= Amount(free, r)
           <==> (k - 1) * request[r] <= Amount(next, r)
        ensures k * request[r] <= Amount(free, r) ==> request[r] <= Amount(free, r)
        ensures r !in free.amounts ==> k * request[r] > Amount(free, r)
      {
        assert k * request[r] == (k - 1) * request[r] + request[r];
        assert Amount(next, r) == Amount(free, r) - request[r];
        assert (k - 1) * request[r] >= 0;
      }
    }
  }

  /** A resource that the pod asks for and the node does not list leaves no room for a single copy. */
  lemma MissingResource(free: Free, request: Request, r: string)
    requires r in request && request[r] > 0 && r !in free.amounts
    ensures NodeCapacity(free, request) == 0
  {
    CapacityIsLargest(free, request, 1);
  }

  /** Taking resources away never makes a pod fit that did not fit before. */
  lemma ShrinkKeepsUnfit(free: Free, taken: Request, request: Request)
    requires !Fits(free, request)
    ensures !Fits(Shrink(free, taken), request)
  {
    if free.slots >= 1 {
      var r :| r in request && request[r] > 0 && request[r] > Amount(free, r);
      assert Amount(Shrink(free, taken), r) <= Amount(free, r);
    }
  }

  predicate FitsSomewhere(frees: seq<Free>, request: Request) {
    exists i | 0 <= i < |frees| :: Fits(frees[i], request)
  }

  /** The capacity of the whole cluster. */
  function TotalCapacity(frees: seq<Free>, request: Request): nat {
    if frees == [] then 0
    else NodeCapacity(frees[0], request) + TotalCapacity(frees[1..], request)
  }

  /** Replacing one node changes the total by what changes on that node. */
  lemma {:induction false} TotalAfterUpdate(frees: seq<Free>, i: nat, free: Free, request: Request)
    requires i < |frees|
    ensures TotalCapacity(frees[i := free], request) + NodeCapacity(frees[i], request)
         == TotalCapacity(frees, request) + NodeCapacity(free, request)
  {
    if i == 0 {
      assert frees[0 := free][1..] == frees[1..];
    } else {
      assert frees[i := free][1..] == frees[1..][i - 1 := free];
      TotalAfterUpdate(frees[1..], i - 1, free, request);
    }
  }

  /** Nothing fits anywhere exactly when the remaining capacity is zero. */
  lemma {:induction false} TotalIsZero(frees: seq<Free>, request: Request)
    ensures TotalCapacity(frees, request) == 0 <==> !FitsSomewhere(frees, request)
  {
    if frees != [] {
      TotalIsZero(frees[1..], request);
      if i :| 0 <= i < |frees| && Fits(frees[i], request) {
        assert i > 0 ==> frees[1..][i - 1] == frees[i];
      }
      forall i | 0 <= i < |frees[1..]| && Fits(frees[1..][i], request)
        ensures FitsSomewhere(frees, request)
      {
        assert frees[1..][i] == frees[i + 1];
      }
    }
  }

  /** Pod slots left over all nodes: a bound on how many more pods of any kind can be placed. */
  function TotalSlots(frees: seq<Free>): nat {
    if frees == [] then 0
    else (if frees[0].slots > 0 then frees[0].slots else 0) + TotalSlots(frees[1..])
  }

  lemma {:induction false} SlotsAfterShrink(frees: seq<Free>, i: nat, request: Request)
    requires i < |frees| && frees[i].slots >= 1
    ensures TotalSlots(frees[i := Shrink(frees[i], request)]) + 1 == TotalSlots(frees)
  {
    var free := Shrink(frees[i], request);
    if i == 0 {
      assert frees[0 := free][1..] == frees[1..];
    } else {
      assert frees[i := free][1..] == frees[1..][i - 1 := free];
      SlotsAfterShrink(frees[1..], i - 1, request);
    }
  }

  /** Equal nodes contribute equally. */
  lemma {:induction false} TotalOfEqualNodes(n: nat, free: Free, request: Request)
    ensures TotalCapacity(seq(n, _ => free), request) == n * NodeCapacity(free, request)
  {
    if n > 0 {
      assert seq(n, _ => free)[1..] == seq(n - 1, _ => free);
      TotalOfEqualNodes(n - 1, free, request);
    }
  }

  /** The documented example: a node with 2000m of CPU takes thirteen pods of 150m, and four such nodes 52. */
  lemma DocumentedExample(slots: int)
    requires slots >= 13
    ensures var node := Free(slots, map["cpu" := 2000]);
            var request: Request := map["cpu" := 150];
            NodeCapacity(node, request) == 13 && TotalCapacity(seq(4, _ => node), request) == 52
  {
    var node := Free(slots, map["cpu" := 2000]);
    var request: Request := map["cpu" := 150];
    assert NodeCapacity(node, request) == 13 by {
      CapacityIsLargest(node, request, 13);
      CapacityIsLargest(node, request, 14);
      assert request["cpu"] == 150 && Amount(node, "cpu") == 2000;
    }
    TotalOfEqualNodes(4, node, request);
  }
}
