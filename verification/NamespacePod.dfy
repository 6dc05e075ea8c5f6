/** The resources of a namespace's stub pod: the least maximum of every tracked resource over all
    pod-level items of the namespace's limit ranges. Quantities are exact scaled integers. */
module NamespacePod {
  import opened Options

  datatype LimitItem = LimitItem(kind: string, max: map<string, int>)

  type LimitRange = seq<LimitItem>

  const POD := "Pod"
  const TRACKED := {"memory", "cpu", "nvdia.com/gpu"}

  datatype Resources = Untouched | Resources(limits: map<string, int>, requests: map<string, int>)

  // ---------------------------------------------------------------- the least maximum

  /** Some pod-level item limits resource r to `amount`. */
  predicate Mentions(limits: seq<LimitRange>, r: string, amount: int) {
    exists i, j | 0 <= i < |limits| && 0 <= j < |limits[i]| :: Caps(limits[i][j], r, amount)
  }

  predicate Caps(item: LimitItem, r: string, amount: int) {
    item.kind == "Pod" && r in item.max && item.max[r] == amount
  }

  /** `best` is the least amount mentioned for r, and absent when none is. */
  ghost predicate IsLeast(limits: seq<LimitRange>, r: string, best: Option<int>) {
    && (best.None? ==> forall amount :: !Mentions(limits, r, amount))
    && (best.Some? ==> Mentions(limits, r, best.value))
    && (best.Some? ==> forall amount | Mentions(limits, r, amount) :: best.value <= amount)
  }

  function Least(best: Option<int>, item: LimitItem, r: string): Option<int> {
    if item.kind != POD || r !in item.max then best
    else if best.None? || best.value > item.max[r] then Some(item.max[r])
    else best
  }

  function LeastOfItems(best: Option<int>, items: seq<LimitItem>, r: string): Option<int> {
    if items == [] then best
    else Least(LeastOfItems(best, items[..|items| - 1], r), items[|items| - 1], r)
  }

  function LeastMax(limits: seq<LimitRange>, r: string): Option<int> {
    if limits == [] then None
    else LeastOfItems(LeastMax(limits[..|limits| - 1], r), limits[|limits| - 1], r)
  }

  /** The amounts mentioned by a list of ranges followed by the first items of one more. */
  predicate MentionsUpTo(limits: seq<LimitRange>, items: seq<LimitItem>, r: string, amount: int) {
    Mentions(limits, r, amount) || exists j | 0 <= j < |items| :: Caps(items[j], r, amount)
  }

  lemma {:induction false} LeastOfItemsIsLeast(limits: seq<LimitRange>, items: seq<LimitItem>, r: string)
    requires IsLeast(limits, r, LeastMax(limits, r))
    ensures var best := LeastOfItems(LeastMax(limits, r), items, r);
            && (best.None? ==> forall amount :: !MentionsUpTo(limits, items, r, amount))
            && (best.Some? ==> MentionsUpTo(limits, items, r, best.value))
            && (best.Some? ==> forall amount | MentionsUpTo(limits, items, r, amount) :: best.value <= amount)
  {
    hide LeastMax, Mentions;
    if items != [] {
      var n := |items| - 1;
      LeastOfItemsIsLeast(limits, items[..n], r);
      forall amount
        ensures MentionsUpTo(limits, items, r, amount)
           <==> MentionsUpTo(limits, items[..n], r, amount) || Caps(items[n], r, amount)
      {
        assert forall j | 0 <= j < n :: items[..n][j] == items[j];
      }
    }
  }

  /** What the loops compute is the minimum. */
  lemma {:induction false} LeastMaxIsLeast(limits: seq<LimitRange>, r: string)
    ensures IsLeast(limits, r, LeastMax(limits, r))
  {
    if limits != [] {
      var n := |limits| - 1;
      LeastMaxIsLeast(limits[..n], r);
      LeastOfItemsIsLeast(limits[..n], limits[n], r);
      forall amount
        ensures Mentions(limits, r, amount) <==> MentionsUpTo(limits[..n], limits[n], r, amount)
      {
        assert forall i | 0 <= i < n :: limits[..n][i] == limits[i];
      }
      hide Mentions, MentionsUpTo;
    }
  }

  /** Neither order nor grouping matters: ranges that mention the same amounts give the same result. */
  lemma LeastMaxIsCanonical(limits: seq<LimitRange>, other: seq<LimitRange>, r: string)
    requires forall amount :: Mentions(limits, r, amount) <==> Mentions(other, r, amount)
    ensures LeastMax(limits, r) == LeastMax(other, r)
  {
    LeastMaxIsLeast(limits, r);
    LeastMaxIsLeast(other, r);
    hide Mentions, LeastMax;
  }

  // ---------------------------------------------------------------- the loops

  ghost predicate IsNonzero(resources: map<string, Option<int>>) {
    exists r | r in resources :: resources[r].Some? && resources[r].value != 0
  }

  /** The tracked amounts that are present. */
  function Present(resources: map<string, Option<int>>): map<string, int> {
    map r | r in resources && resources[r].Some? :: resources[r].value
  }

  /** One item: every tracked resource it caps is lowered, in whatever order the map is walked. */
  method LowerTo(resources: map<string, Option<int>>, item: LimitItem) returns (lowered: map<string, Option<int>>)
    ensures lowered == map r | r in resources :: Least(resources[r], item, r)
  {
    lowered := resources;
    if item.kind != POD {
      return;
    }
    var keys := resources.Keys;
    while keys != {}
      invariant keys <= resources.Keys && lowered.Keys == resources.Keys
      invariant forall r | r in resources ::
                  lowered[r] == if r in keys then resources[r] else Least(resources[r], item, r)
      decreases |keys|
    {
      var resourceType :| resourceType in keys;
      keys := keys - {resourceType};
      if resourceType in item.max {
        var amount := item.max[resourceType];
        if lowered[resourceType] == None || lowered[resourceType].value > amount {
          lowered := lowered[resourceType := Some(amount)];
        }
      }
    }
  }

  method CollectMinimums(limits: seq<LimitRange>) returns (resources: map<string, Option<int>>)
    ensures resources == map r | r in TRACKED :: LeastMax(limits, r)
  {
    resources := map["memory" := None, "cpu" := None, "nvdia.com/gpu" := None];
    for i := 0 to |limits|
      invariant resources == map r | r in TRACKED :: LeastMax(limits[..i], r)
    {
      var limit := limits[i];
      for j := 0 to |limit|
        invariant resources == map r | r in TRACKED :: LeastOfItems(LeastMax(limits[..i], r), limit[..j], r)
      {
        assert limit[..j + 1][..j] == limit[..j];
        resources := LowerTo(resources, limit[j]);
      }
      assert limit[..|limit|] == limit;
      assert limits[..i + 1][..i] == limits[..i];
    }
    assert limits[..|limits|] == limits;
  }

  method AnyNonzero(resources: map<string, Option<int>>) returns (nonzero: bool)
    ensures nonzero <==> IsNonzero(resources)
  {
    nonzero := false;
    var keys := resources.Keys;
    while keys != {}
      invariant keys <= resources.Keys
      invariant nonzero ==> IsNonzero(resources)
      invariant !nonzero ==> forall r | r in resources && r !in keys :: resources[r].None? || resources[r].value == 0
      decreases |keys|
    {
      var key :| key in keys;
      keys := keys - {key};
      var quantity := resources[key];
      if quantity.Some? && quantity.value != 0 {
        nonzero := true;
        break;
      }
    }
  }

  method ToLists(resources: map<string, Option<int>>)
    returns (limitsResourceList: map<string, int>, requestsResourceList: map<string, int>)
    ensures limitsResourceList == requestsResourceList == Present(resources)
  {
    limitsResourceList, requestsResourceList := map[], map[];
    var keys := resources.Keys;
    while keys != {}
      invariant keys <= resources.Keys
      invariant limitsResourceList == requestsResourceList
      invariant limitsResourceList == map r | r in resources && r !in keys && resources[r].Some? :: resources[r].value
      decreases |keys|
    {
      var key :| key in keys;
      keys := keys - {key};
      if resources[key].Some? {
        limitsResourceList := limitsResourceList[key := resources[key].value];
        requestsResourceList := requestsResourceList[key := resources[key].value];
      }
    }
  }

  /** Some tracked resource has a minimum, and it is not zero. */
  ghost predicate SomeMinimum(limits: seq<LimitRange>) {
    exists r | r in TRACKED :: LeastMax(limits, r).Some? && LeastMax(limits, r).value != 0
  }

  /** The container's resources: limits and requests are both the minimums, and they are set exactly
      when some tracked minimum is nonzero. */
  method RetrieveResources(limits: seq<LimitRange>) returns (result: Resources)
    ensures result.Resources? <==> SomeMinimum(limits)
    ensures result.Resources? ==>
              && result.limits == result.requests
              && (forall r :: r in result.limits <==> r in TRACKED && LeastMax(limits, r).Some?)
              && (forall r | r in result.limits :: Some(result.limits[r]) == LeastMax(limits, r))
  {
    hide LeastMax;
    var resources := CollectMinimums(limits);
    var nonzero := AnyNonzero(resources);
    assert nonzero <==> SomeMinimum(limits) by {
      assert forall r | r in TRACKED :: r in resources && resources[r] == LeastMax(limits, r);
    }
    result := Untouched;
    if nonzero {
      var limitsResourceList, requestsResourceList := ToLists(resources);
      result := Resources(limitsResourceList, requestsResourceList);
    }
  }
}
