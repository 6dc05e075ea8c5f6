/** The review built from a status: its values, and what they say about the recorded pods. */
module Report {
  import opened Options
  import opened Cluster
  import opened Histogram
  import opened StopReason
  import opened Text
  import Decimal

  datatype PodResult = PodResult(podName: string, replicasOnNodes: seq<Entry>)

  datatype Review = Review(
    templates: seq<Pod>,
    specReplicas: int,
    replicas: int,
    failReason: FailReason,
    pods: seq<PodResult>
  )

  /** The truncating conversion to a signed 32-bit number. */
  function Int32(x: int): (r: int)
    ensures -0x8000_0000 <= r < 0x8000_0000
    ensures (r - x) % 0x1_0000_0000 == 0
    ensures -0x8000_0000 <= x < 0x8000_0000 ==> r == x
  {
    var m := x % 0x1_0000_0000;
    if m < 0x8000_0000 then m else m - 0x1_0000_0000
  }

  function PodResults(templates: seq<Pod>, pods: seq<Pod>): seq<PodResult>
    requires templates == [] ==> pods == []
  {
    seq(|templates|, t requires 0 <= t < |templates| =>
      PodResult(templates[t].name, Tally(pods, |templates|, t)))
  }

  /** The review of a status, or None where reading its stop reason panics. */
  function GetReport(templates: seq<Pod>, pods: seq<Pod>, stopReason: string): (review: Option<Review>)
    requires templates == [] ==> pods == []
    ensures review.Some? ==>
              && review.value.specReplicas == 0 && review.value.templates == templates
              && review.value.replicas == Int32(|pods|) && |review.value.pods| == |templates|
              && forall t | 0 <= t < |templates| ::
                   review.value.pods[t] == PodResult(templates[t].name, Tally(pods, |templates|, t))
  {
    match MainFailReason(stopReason)
    case None => None
    case Some(fail) =>
      Some(Review(templates, 0, Int32(|pods|), fail, PodResults(templates, pods)))
  }

  /** What the simulator's `Report` computes when nothing is cached. */
  function FreshReport(template: Pod, maxSimulated: int, pods: seq<Pod>, stopReason: string): Option<Review> {
    match GetReport([template], pods, stopReason)
    case None => None
    case Some(review) => Some(review.(specReplicas := Int32(maxSimulated)))
  }

  /** The review is about the one template. Its printed sum, the length of the record and its replica count
      are one number, as long as it fits in 32 bits; each listed node is listed once, with its own count, in
      the order in which the pods at `firsts` were the first on their nodes. */
  lemma ReviewCounts(template: Pod, maxSimulated: int, pods: seq<Pod>, stopReason: string) returns (firsts: seq<nat>)
    requires FreshReport(template, maxSimulated, pods, stopReason).Some?
    ensures var review := FreshReport(template, maxSimulated, pods, stopReason).value;
            && review.templates == [template] && review.specReplicas == Int32(maxSimulated)
            && Some(review.failReason) == MainFailReason(stopReason)
            && |review.pods| == 1 && review.pods[0].podName == template.name
            && review.replicas == Int32(|pods|)
            && InstancesSum(review.pods[0].replicasOnNodes) == |pods|
            && (|pods| < 0x8000_0000 ==> review.replicas == |pods|)
            && DistinctNames(review.pods[0].replicasOnNodes)
            && forall a | 0 <= a < |review.pods[0].replicasOnNodes| ::
                 var entry := review.pods[0].replicasOnNodes[a];
                 entry.replicas == PlacedOn(pods, 1, 0, entry.nodeName) > 0
    ensures var entries := FreshReport(template, maxSimulated, pods, stopReason).value.pods[0].replicasOnNodes;
            && |firsts| == |entries|
            && (forall a, b | 0 <= a < b < |firsts| :: firsts[a] < firsts[b])
            && forall a | 0 <= a < |firsts| ::
                 && firsts[a] < |pods| && entries[a].nodeName == pods[firsts[a]].nodeName
                 && forall j | 0 <= j < firsts[a] :: pods[j].nodeName != entries[a].nodeName
  {
    firsts := TallyOrder(pods, 1, 0);
    FirstsAreFirst(pods, firsts);
    InstancesAddUp(pods, 1);
    assert AllInstances(pods, 1, 1) == AllInstances(pods, 1, 0) + InstancesSum(Tally(pods, 1, 0));
    TallyCounts(pods, 1, 0);
  }

  lemma FirstsAreFirst(pods: seq<Pod>, firsts: seq<nat>)
    requires Appearances(pods, 1, 0, firsts)
    ensures forall a | 0 <= a < |firsts| ::
              firsts[a] < |pods| && forall j | 0 <= j < firsts[a] :: pods[j].nodeName != pods[firsts[a]].nodeName
  {
    forall a | 0 <= a < |firsts|
      ensures firsts[a] < |pods| && forall j | 0 <= j < firsts[a] :: pods[j].nodeName != pods[firsts[a]].nodeName
    {
      assert firsts[a] in firsts;
      assert FirstThere(pods, 1, 0, firsts[a]);
    }
  }

  /** The printed reason of a refusal is the trimmed first line of the scheduler's message; that of the limit
      is its text with the limit in decimal. */
  lemma ReviewTellsWhy(template: Pod, maxSimulated: int, pods: seq<Pod>, message: string, numeral: string)
    requires Decimal.IsNumeral(numeral)
    ensures var review := FreshReport(template, maxSimulated, pods, "Unschedulable: " + message);
            review.Some?
            && review.value.failReason == FailReason("Unschedulable", Trim(Split(message, '\n')[0], ' '))
    ensures var review := FreshReport(template, maxSimulated, pods,
                                      "LimitReached: Maximum number of pods simulated: " + numeral);
            review.Some?
            && review.value.failReason == FailReason("LimitReached", "Maximum number of pods simulated: " + numeral)
  {
    RefusalRoundTrip(message);
    LimitIsRead(numeral);
    hide MainFailReason, Trim, Split;
  }
}
