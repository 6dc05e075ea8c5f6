/** The printed requirements of a pod: sums over its containers. Amounts are exact integers in units of
    10^-9; a scalar resource is rounded up to whole units per container and summed in 64 bits. */
module Requirements {
  import opened Options

  type Requests = map<string, int>

  const CPU := "cpu"
  const MEMORY := "memory"
  const UNIT := 1_000_000_000

  /** Quantity.Value: rounded to a whole number away from zero. */
  function Value(q: int): (v: int)
    ensures q >= 0 ==> 1_000_000_000 * (v - 1) < q <= 1_000_000_000 * v
    ensures q <= 0 ==> 1_000_000_000 * v <= q < 1_000_000_000 * (v + 1)
  {
    if q >= 0 then (q + UNIT - 1) / UNIT else -((-q + UNIT - 1) / UNIT)
  }

  /** Two's complement wrap-around of a signed 64-bit sum. */
  function Wrap64(x: int): (r: int)
    ensures -0x8000_0000_0000_0000 <= r < 0x8000_0000_0000_0000
    ensures (r - x) % 0x1_0000_0000_0000_0000 == 0
    ensures -0x8000_0000_0000_0000 <= x < 0x8000_0000_0000_0000 ==> r == x
  {
    var m := x % 0x1_0000_0000_0000_0000;
    if m < 0x8000_0000_0000_0000 then m else m - 0x1_0000_0000_0000_0000
  }

  /** Wrapping after every addition is wrapping once at the end. */
  lemma WrapSum(a: int, b: int)
    ensures Wrap64(Wrap64(a) + b) == Wrap64(a + b)
  {
    var n, w := 0x1_0000_0000_0000_0000, Wrap64(a);
    var k := (a - w) / n;
    assert a - w == k * n;
    var q, q' := (w + b) / n, (a + b) / n;
    assert (a + b) % n - (w + b) % n == (k + q - q') * n;
  }

  // ---------------------------------------------------------------- the sums

  function Asked(requests: Requests, r: string): int {
    if r in requests then requests[r] else 0
  }

  function Sum(containers: seq<Requests>, r: string): int {
    if containers == [] then 0
    else Sum(containers[..|containers| - 1], r) + Asked(containers[|containers| - 1], r)
  }

  function RoundedSum(containers: seq<Requests>, r: string): int {
    if containers == [] then 0
    else RoundedSum(containers[..|containers| - 1], r) + Value(Asked(containers[|containers| - 1], r))
  }

  /** How many containers name the resource. */
  function Naming(containers: seq<Requests>, r: string): nat {
    if containers == [] then 0
    else Naming(containers[..|containers| - 1], r) + if r in containers[|containers| - 1] then 1 else 0
  }

  /** Rounding up each container never loses anything, and adds less than one unit for each container
      that names the resource. */
  lemma {:induction false} RoundingError(containers: seq<Requests>, r: string)
    requires forall c | c in containers && r in c :: c[r] >= 0
    ensures UNIT * RoundedSum(containers, r) >= Sum(containers, r)
    ensures Naming(containers, r) > 0 ==>
              UNIT * RoundedSum(containers, r) < Sum(containers, r) + UNIT * Naming(containers, r)
    ensures Naming(containers, r) == 0 ==> RoundedSum(containers, r) == Sum(containers, r) == 0
  {
    if containers != [] {
      RoundingError(containers[..|containers| - 1], r);
      assert containers[|containers| - 1] in containers;
    }
  }

  lemma {:induction false} SumsWithout(containers: seq<Requests>, i: nat, r: string)
    requires i < |containers|
    ensures var rest := containers[..i] + containers[i + 1..];
            && Sum(containers, r) == Sum(rest, r) + Asked(containers[i], r)
            && RoundedSum(containers, r) == RoundedSum(rest, r) + Value(Asked(containers[i], r))
  {
    hide Value;
    var n := |containers| - 1;
    var rest := containers[..i] + containers[i + 1..];
    if i == n {
      assert rest == containers[..n];
    } else {
      SumsWithout(containers[..n], i, r);
      assert rest[..|rest| - 1] == containers[..n][..i] + containers[..n][i + 1..];
      assert rest[|rest| - 1] == containers[n];
    }
  }

  /** Removing one element that two permuted lists share leaves permuted lists. */
  lemma RemoveShared(containers: seq<Requests>, other: seq<Requests>) returns (i: nat)
    requires containers != [] && multiset(containers) == multiset(other)
    ensures i < |other| && other[i] == containers[|containers| - 1]
    ensures multiset(containers[..|containers| - 1]) == multiset(other[..i] + other[i + 1..])
  {
    var n := |containers| - 1;
    assert containers == containers[..n] + [containers[n]];
    assert containers[n] in multiset(other);
    i :| 0 <= i < |other| && other[i] == containers[n];
    assert other == other[..i] + [other[i]] + other[i + 1..];
    assert multiset(containers[..n]) == multiset(containers) - multiset{containers[n]};
    assert multiset(other[..i] + other[i + 1..]) == multiset(other) - multiset{containers[n]};
  }

  /** The order of the containers does not matter. */
  lemma {:induction false} SumsIgnoreOrder(containers: seq<Requests>, other: seq<Requests>, r: string)
    requires multiset(containers) == multiset(other)
    ensures Sum(containers, r) == Sum(other, r) && RoundedSum(containers, r) == RoundedSum(other, r)
    decreases |containers|
  {
    hide Value, Asked;
    if containers == [] {
      assert |multiset(other)| == 0;
    } else {
      var i := RemoveShared(containers, other);
      SumsIgnoreOrder(containers[..|containers| - 1], other[..i] + other[i + 1..], r);
      SumsWithout(other, i, r);
    }
  }

  // ---------------------------------------------------------------- the loops

  /** Primary amounts are quantities, that of the GPU resource being a constant entry; the scalar map stays
      nil until a scalar resource is met. */
  datatype Resources = Resources(memory: int, cpu: int, gpu: int, scalars: Option<map<string, int>>)

  function Scalar(resources: Resources, r: string): int {
    if resources.scalars.Some? && r in resources.scalars.value then resources.scalars.value[r] else 0
  }

  predicate IsScalar(isScalarResourceName: string -> bool, r: string) {
    r != CPU && r != MEMORY && isScalarResourceName(r)
  }

  /** What a container with the given requests adds. */
  ghost predicate Added(before: Resources, requests: Requests, names: set<string>,
                        isScalarResourceName: string -> bool, after: Resources) {
    && after.memory == before.memory + (if MEMORY in names then Asked(requests, MEMORY) else 0)
    && after.cpu == before.cpu + (if CPU in names then Asked(requests, CPU) else 0)
    && after.gpu == before.gpu
    && (forall r :: Scalar(after, r) ==
          if r in names && IsScalar(isScalarResourceName, r) then Wrap64(Scalar(before, r) + Value(Asked(requests, r)))
          else Scalar(before, r))
    && (after.scalars.Some? <==> before.scalars.Some? || exists r | r in names :: IsScalar(isScalarResourceName, r))
    && (after.scalars.Some? ==> forall r :: r in after.scalars.value <==>
          (before.scalars.Some? && r in before.scalars.value) || (r in names && IsScalar(isScalarResourceName, r)))
  }

  /** One entry of a container's requests. */
  function AddEntry(resources: Resources, r: string, q: int, isScalarResourceName: string -> bool): Resources {
    if r == MEMORY then resources.(memory := q + resources.memory)
    else if r == CPU then resources.(cpu := q + resources.cpu)
    else if isScalarResourceName(r) then
      var scalars := if resources.scalars.None? then map[] else resources.scalars.value;
      resources.(scalars := Some(scalars[r := Wrap64(Scalar(resources, r) + Value(q))]))
    else resources
  }

  lemma EntryAdds(before: Resources, r: string, q: int, isScalarResourceName: string -> bool)
    ensures var after := AddEntry(before, r, q, isScalarResourceName);
            && after.memory == before.memory + (if r == MEMORY then q else 0)
            && after.cpu == before.cpu + (if r == CPU then q else 0)
            && after.gpu == before.gpu
            && (forall other :: Scalar(after, other) ==
                  if other == r && IsScalar(isScalarResourceName, r) then Wrap64(Scalar(before, r) + Value(q))
                  else Scalar(before, other))
            && (after.scalars.Some? <==> before.scalars.Some? || IsScalar(isScalarResourceName, r))
            && (after.scalars.Some? ==> forall other :: other in after.scalars.value <==>
                  (before.scalars.Some? && other in before.scalars.value)
                  || (other == r && IsScalar(isScalarResourceName, r)))
  {
    hide Wrap64, Value;
  }

  lemma AddedNothing(before: Resources, requests: Requests, isScalarResourceName: string -> bool)
    ensures Added(before, requests, {}, isScalarResourceName, before)
  {
  }

  lemma AddedMore(before: Resources, requests: Requests, names: set<string>, isScalarResourceName: string -> bool,
                  after: Resources, r: string)
    requires Added(before, requests, names, isScalarResourceName, after)
    requires r !in names && r in requests
    ensures Added(before, requests, names + {r}, isScalarResourceName,
                  AddEntry(after, r, requests[r], isScalarResourceName))
  {
    hide Wrap64, Value;
    EntryAdds(after, r, requests[r], isScalarResourceName);
    assert Asked(requests, r) == requests[r];
    hide AddEntry, Scalar, Asked, IsScalar;
  }

  method AddOne(before: Resources, rName: string, rQuantity: int, isScalarResourceName: string -> bool)
    returns (result: Resources)
    ensures result == AddEntry(before, rName, rQuantity, isScalarResourceName)
  {
    hide Wrap64, Value;
    result := before;
    if rName == MEMORY {
      result := result.(memory := rQuantity + result.memory);
    } else if rName == CPU {
      result := result.(cpu := rQuantity + result.cpu);
    } else if isScalarResourceName(rName) {
      if result.scalars == None {
        result := result.(scalars := Some(map[]));
      }
      var amount := if rName in result.scalars.value then result.scalars.value[rName] else 0;
      result := result.(scalars := Some(result.scalars.value[rName := Wrap64(amount + Value(rQuantity))]));
    }
  }

  /** The inner loop, over one container's requests in whatever order the map is walked. */
  method AddContainer(before: Resources, requests: Requests, isScalarResourceName: string -> bool)
    returns (result: Resources)
    ensures Added(before, requests, requests.Keys, isScalarResourceName, result)
  {
    hide Value, Wrap64, Added, AddEntry;
    result := before;
    var names := requests.Keys;
    ghost var seen: set<string> := {};
    AddedNothing(before, requests, isScalarResourceName);
    while names != {}
      invariant seen !! names && seen + names == requests.Keys
      invariant Added(before, requests, seen, isScalarResourceName, result)
      decreases |names|
    {
      var rName :| rName in names;
      names := names - {rName};
      AddedMore(before, requests, seen, isScalarResourceName, result, rName);
      result := AddOne(result, rName, requests[rName], isScalarResourceName);
      seen := seen + {rName};
    }
  }

  /** The totals: memory and CPU are exact sums, and the primary GPU entry stays zero; a scalar resource is
      the sum of the rounded amounts in 64 bits, and is listed exactly when some container names it. */
  method GetResourceRequest(containers: seq<Requests>, isScalarResourceName: string -> bool) returns (result: Resources)
    ensures result.memory == Sum(containers, "memory") && result.cpu == Sum(containers, "cpu") && result.gpu == 0
    ensures forall r | IsScalar(isScalarResourceName, r) :: Scalar(result, r) == Wrap64(RoundedSum(containers, r))
    ensures result.scalars.Some? ==>
              forall r :: r in result.scalars.value <==> IsScalar(isScalarResourceName, r) && Naming(containers, r) > 0
    ensures result.scalars.None? ==> forall r | IsScalar(isScalarResourceName, r) :: Naming(containers, r) == 0
  {
    result := Resources(0, 0, 0, None);
    for i := 0 to |containers|
      invariant Totals(containers[..i], isScalarResourceName, result)
    {
      var before := result;
      result := AddContainer(before, containers[i], isScalarResourceName);
      TotalsGrow(containers[..i], containers[i], isScalarResourceName, before, result);
      assert containers[..i] + [containers[i]] == containers[..i + 1];
    }
    assert containers[..|containers|] == containers;
  }

  ghost predicate Totals(containers: seq<Requests>, isScalarResourceName: string -> bool, result: Resources) {
    && result.memory == Sum(containers, MEMORY) && result.cpu == Sum(containers, CPU) && result.gpu == 0
    && (forall r | IsScalar(isScalarResourceName, r) :: Scalar(result, r) == Wrap64(RoundedSum(containers, r)))
    && (result.scalars.Some? ==>
          forall r :: r in result.scalars.value <==> IsScalar(isScalarResourceName, r) && Naming(containers, r) > 0)
    && (result.scalars.None? ==> forall r | IsScalar(isScalarResourceName, r) :: Naming(containers, r) == 0)
  }

  lemma TotalsGrow(containers: seq<Requests>, requests: Requests, isScalarResourceName: string -> bool,
                   before: Resources, after: Resources)
    requires Totals(containers, isScalarResourceName, before)
    requires Added(before, requests, requests.Keys, isScalarResourceName, after)
    ensures Totals(containers + [requests], isScalarResourceName, after)
  {
    hide Wrap64, Value, Sum, RoundedSum, Naming;
    forall r {
      TotalGrows(containers, requests, r);
    }
  }

  lemma TotalGrows(containers: seq<Requests>, requests: Requests, r: string)
    ensures var more := containers + [requests];
            && Sum(more, r) == Sum(containers, r) + Asked(requests, r)
            && Naming(more, r) == Naming(containers, r) + (if r in requests then 1 else 0)
            && Wrap64(RoundedSum(more, r)) == Wrap64(Wrap64(RoundedSum(containers, r)) + Value(Asked(requests, r)))
            && (r !in requests ==> RoundedSum(more, r) == RoundedSum(containers, r))
  {
    SumsGrow(containers, requests, r);
    hide Wrap64, RoundedSum;
    WrapSum(RoundedSum(containers, r), Value(Asked(requests, r)));
  }

  lemma SumsGrow(containers: seq<Requests>, requests: Requests, r: string)
    ensures var more := containers + [requests];
            && Sum(more, r) == Sum(containers, r) + Asked(requests, r)
            && RoundedSum(more, r) == RoundedSum(containers, r) + Value(Asked(requests, r))
            && Naming(more, r) == Naming(containers, r) + if r in requests then 1 else 0
  {
    var more := containers + [requests];
    assert more[..|more| - 1] == containers;
  }
}
