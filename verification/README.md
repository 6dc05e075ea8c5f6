# Cluster capacity: a verified model

Cluster-capacity copies a cluster into a fake API server, runs the real scheduler against it, and keeps
creating copies of one pod until no copy fits or a limit is reached. The number of copies that were bound
is the answer. This project models that simulation and proves what its answer means.

## How the simulation is modelled

The simulator has no lock around its record. It relies on creating the next pod as the last act of binding
the previous one. `Protocol` models this as interleaved goroutines with program counters: the main
goroutine in `Run`, one binder goroutine per binding, and the informer's listener. Every access to the
shared fields is a micro-step of its own: naming, counting and stamping a pod, remembering it, storing it,
fetching, writing back, appending, the limit test, writing the stop reason, closing, sending, receiving
and closing the stop channel. Every write to a stored pod is announced to the listener: the scheduler's
verdict, and also the binder's own write of the placed pod. The listener goes through the announced pod's
conditions one by one and takes every refusal among them for a new one. Sending on a closed channel, closing
it twice and writing into a nil map are modelled as panics.

The scheduler is an environment with this contract:

- it places a pod only if the pod is queued, has no node, and fits on the chosen node;
- it refuses a pod only if the pod fits on no node;
- either decision is final; a refusal replaces the pod's first scheduling condition, or is appended if there
  is none, and is announced once, unless the pod carries the very same verdict already: then nothing is
  written;
- fit is per-node arithmetic: a free pod slot, and for every resource of which the pod asks some, at least
  that much left after the pods already placed there.

Which pod it decides on, which fitting node it takes, in which order announcements arrive and when each
goroutine moves are unrestricted.

There are two hypotheses, both of which a caller can check beforehand.

- `Inert`, on the snapshot: its own waiting pods fit nowhere and do not carry the provisioner annotation. A
  snapshot without unbound pods (the TODO at pkg/framework/simulator.go:362) is the usual case.
- `Calm`, on the template: its status lists no refusal. A hand-written pod is calm. A podspec that was taken
  from a pending pod of a cluster need not be, and nothing clears its status on the way: every copy then
  carries the old refusal, and is annotated.

`Races.ExclusiveExactly` proves that mutual exclusion holds in all interleavings exactly if the snapshot is
inert and, should any replica be bound at all, the template is calm. `Promises.KeptExactly` proves that all
runs deliver the promised record, count and reason, return, and never panic exactly if both hypotheses hold,
wherever the names they need are free. Each way of failing is a lemma that constructs the run.

The main results are `Outcome.GreedyCount`, `Races.ExclusiveExactly`, `Promises.KeptExactly` and
`Analysis.AnalysisIsExact`; `Invariant.StepKeeps` is the inductive step under all of them.

| files | part |
|---|---|
| `Capacity`, `Cluster`, `Decimal`, `Options`, `Text` | fit arithmetic, pods and keys, number printing, string operations |
| `Simulator`, `Protocol` | the shared data with its uninterleaved functions, and the interleaved steps |
| `Invariant`, `Outcome`, `Termination` | what every interleaving keeps, how runs end, and that they end |
| `Unbound`, `Offers`, `Races`, `Promises` | runs without a binding, surplus stop tokens, and exactly when runs race or break their promises |
| `FakeClient`, `Objects`, `Refinement` | the objects with their fields, and the proof that their methods are runs of the protocol |
| `Ledger`, `CloseMutex` | bookkeeping with foreign pods, and `Close` under its mutex |
| `Sync`, `Histogram`, `StopReason`, `Report`, `Analysis` | copying the cluster, the report, and the whole analysis end to end |
| `NamespacePod`, `Requirements`, `Regex`, `Version` | the stub pod of a namespace, resource totals, version strings |

## What the proofs found

- If a name that a run needs is taken in the snapshot, `Run` does not always report it. With name 0 taken it
  returns an error. With a later name taken the failing creation happens inside a binding, nobody sends the
  stop token any more, and `Run` waits forever (`Outcome.GreedyCount`).
- A refusal in the template's own status misleads the simulation. The binder's first write announces the bound
  pod together with that condition; the listener then writes the stop reason and offers the token while the
  binder is in its hook, and `Run` can return with nothing recorded (`Races.StaleRefusalRaces`,
  `Promises.StaleRefusalEndsRun`). On a full cluster `Run` waits forever if the scheduler's message is the one
  the template carries (`Promises.SameRefusalHangs`), and a refusal behind another scheduling condition makes
  the token be offered twice, which panics (`Promises.HiddenRefusalPanics`).
- A waiting pod of the snapshot that fits can be recorded as if it were a replica. The refusal of one that
  carries the provisioner annotation can end the run with nothing recorded; on a full cluster it makes the
  program panic, because the refusal of the first replica follows (`Promises.ForeignPodIsRecorded`,
  `Promises.ForeignRefusalEndsRun`, `Promises.ForeignRefusalPanics`).
- With unbound pods of its own in the snapshot, the report at the limit overcounts by exactly those that
  were bound (`Ledger.LimitCountsForeignPods`).
- Asking for a report before a stop panics, because the empty stop reason has no colon
  (`Analysis.NoReportBeforeStop`).
- README.md:55 shows the reason `FailedScheduling`. The code writes the condition's reason, which is
  `Unschedulable` (pkg/framework/simulator.go:331-335); the model follows the code.
- The GPU resource is spelled `nvdia.com/gpu` in pkg/client/nspod.go:31; the model keeps the spelling.

## Model

| member | source | states |
|---|---|---|
| `Outcome.GreedyCount` | pkg/framework/simulator.go:300-384 | for every interleaving and every choice of nodes, a complete run succeeds if and only if the names it needs are free; it then records min(limit, capacity) pods with the matching reason and final counters; otherwise the first taken name decides between an error and waiting forever |
| `Outcome.StopReasonIsExact` | pkg/framework/simulator.go:303-343 | whenever `Run` has returned without error: LimitReached with exactly maxSimulated pods if and only if the limit is positive and at most the capacity (equality included), otherwise Unschedulable with exactly the capacity, and the message with which the status of the next generated pod records its refusal |
| `Outcome.RunsAgree` | README.md:44-66 | two complete runs on one snapshot record the same number of pods and leave `Run` in the same place |
| `Outcome.SomeRunCompletes` | pkg/framework/simulator.go:359-384 | a complete run exists for every snapshot, so the count is always reached by some run |
| `Outcome.MutualExclusion` | pkg/framework/plugins/clustercapacitybinder/plugin.go:48-68 | no reachable state has two goroutines inside the unlocked section |
| `Races.ExclusiveExactly` | pkg/framework/plugins/clustercapacitybinder/plugin.go:48-68 | all interleavings are exclusive if and only if the snapshot's own waiting pods are inert and, if the first name is free and the capacity is not zero, the template carries no refusal |
| `Races.ForeignBindingRaces` | pkg/framework/simulator.go:362-373 | any waiting snapshot pod that fits can be bound while the main goroutine is still creating the first pod |
| `Races.ForeignRefusalRaces` | pkg/framework/simulator.go:330-343 | the refusal of an annotated snapshot pod can write the stop reason during the first creation |
| `Races.StaleRefusalRaces` | pkg/framework/simulator.go:401-414 | if the template carries a refusal, the listener can be inside its section while the binder of the first pod is inside its own |
| `Unbound.ExclusiveWithoutBinding` | pkg/framework/simulator.go:359-384 | if no replica fits or the first name is taken, all interleavings are exclusive, whatever the template carries |
| `Promises.KeptExactly` | pkg/framework/simulator.go:300-384 | where the needed names are free: no run panics, records anything but generated pods in order, returns another count or reason than promised, or comes to rest without returning, if and only if the waiting pods are inert and the template carries no refusal |
| `Promises.ForeignPodIsRecorded` | pkg/framework/simulator.go:300-301 | any waiting snapshot pod that fits can become the first recorded replica |
| `Promises.ForeignRefusalEndsRun` | pkg/framework/simulator.go:330-343 | the refusal of an annotated snapshot pod can make `Run` return without error and with an empty record |
| `Promises.ForeignRefusalPanics` | pkg/framework/simulator.go:330-343 | on a full cluster that refusal and the first replica's own lead to a send on the closed channel |
| `Promises.StaleRefusalEndsRun` | pkg/framework/plugins/clustercapacitybinder/plugin.go:59-63 | if the template carries a refusal, `Run` can return without error and with an empty record although replicas fit |
| `Promises.SameRefusalHangs` | vendor/k8s.io/kubernetes/pkg/scheduler/schedule_one.go:1299-1302 | on a full cluster, a refusal that the template carries already is not announced, and `Run` waits for ever in every continuation |
| `Promises.HiddenRefusalPanics` | vendor/k8s.io/kubernetes/pkg/api/v1/pod/util.go:363-387 | on a full cluster, a refusal behind another scheduling condition is announced together with the new one, and some run panics |
| `Offers.TwoOffersPanic` | pkg/framework/simulator.go:337-343 | from any reachable state that has received or still owes two tokens, every complete run ends with a send on the closed channel |
| `Unbound.StuckForever` | pkg/framework/simulator.go:380-380 | a `Run` that waits while nothing annotated is queued, announced or being looked at waits for ever |
| `Simulator.MarkedRefusals` | vendor/k8s.io/kubernetes/pkg/api/v1/pod/util.go:363-387 | a verdict adds one refusal or replaces one, and changes nothing exactly if it is the one the pod carries |
| `Simulator.UpdateAllOffers` | pkg/framework/simulator.go:401-414 | an announced pod offers one token for each refusal it carries if it is annotated, and otherwise changes nothing |
| `Protocol.WritesHappenInSection` | pkg/framework/simulator.go:300-357 | every step that changes the record, the reason, the counters or the last pod is taken by a goroutine inside the section |
| `Outcome.StopHandshake` | pkg/framework/simulator.go:372-383 | no reachable state has panicked; at most one token crosses the stop channel; the channel is closed exactly when `Run` has returned, with the token received unless the start failed |
| `Outcome.BatonMoves` | pkg/framework/simulator.go:300-384 | until the run has ended or a name collided, the goroutine or scheduler decision holding the baton is enabled |
| `Outcome.AtRest` | pkg/framework/simulator.go:359-384 | a state in which nothing can move is a returned `Run` or the consequence of a name collision |
| `Outcome.CreationNeverFails` | pkg/framework/simulator.go:347-357 | if the needed names are free, no reachable state has a failed creation or binding, nor a nil-map write |
| `Outcome.RecordMirrorsGeneration` | pkg/framework/podgenerator.go:43-61 | in every reachable state the i-th recorded pod is the template under the i-th name, running on a simulated node, with the provisioner annotation added to its own and otherwise unchanged, and equals the store's entry; names are pairwise distinct |
| `Outcome.RecordIsFrozen` | pkg/framework/simulator.go:380-383 | after `Run` returned without error no continuation of the run changes the record, reason or counters |
| `Outcome.EndedCounts` | pkg/framework/simulator.go:300-343 | the count and reason at the end follow from the invariant, and all needed names were free |
| `Outcome.CollidedCounts` | pkg/framework/simulator.go:347-357 | a collision happens at the first taken name and below the number of pods needed |
| `Invariant.StartsInInv` | pkg/framework/simulator.go:123-135 | the initial state satisfies the invariant for every sound and inert snapshot and every calm template |
| `Invariant.StepKeeps` | pkg/framework/simulator.go:300-384 | every enabled step of every goroutine and of the scheduler preserves the invariant: one baton, capacity used up per placement on its node and in total, record equal to store, bystanders inert |
| `Invariant.ReachableInv` | pkg/framework/simulator.go:300-384 | the invariant holds in every reachable state |
| `Invariant.AssumeKeeps` | vendor/k8s.io/kubernetes/pkg/scheduler/schedule_one.go:119-142 | a placement can only concern the baton's pod and hands the baton to its new binder |
| `Invariant.OwnRefused` | pkg/framework/simulator.go:330-343 | the baton's pod is refused only when the remaining capacity is zero |
| `Invariant.BystanderRefused` | pkg/framework/simulator.go:333-334 | refusing an inert snapshot pod changes nothing that matters |
| `Invariant.BindingKeeps` | pkg/framework/plugins/clustercapacitybinder/plugin.go:49-68 | the micro-steps of a binding, the announcement of its write included, keep the invariant up to the send or the next creation |
| `Invariant.CreatorKeeps` | pkg/framework/simulator.go:347-357 | the micro-steps of a creation by a binder keep the invariant and end queued or collided |
| `Invariant.MainKeeps` | pkg/framework/simulator.go:373-383 | the main goroutine's steps keep the invariant |
| `Invariant.ListenerKeeps` | pkg/framework/simulator.go:401-414 | the listener's steps keep the invariant: of all announced pods, bound ones included, only the baton's refusal makes it send |
| `Invariant.StoreKeeps` | vendor/k8s.io/client-go/testing/fixture.go:662-683 | the next creation collides exactly if the snapshot holds the name, and otherwise extends the store by one key |
| `Termination.StepDecreases` | pkg/framework/simulator.go:300-384 | every step, for every snapshot and template, decreases a weight over pod slots, queue, announcements and program counters |
| `Termination.RunsAreFinite` | pkg/framework/simulator.go:300-315 | every snapshot has a number of steps that no run exceeds, with or without a limit |
| `Termination.RunsComplete` | pkg/framework/simulator.go:359-384 | every run can be continued to a complete one |
| `Capacity.CapacityIsLargest` | vendor/k8s.io/kubernetes/pkg/scheduler/framework/plugins/noderesources/fit.go:710-799 | placing one by one reaches k pods if and only if k pods fit at once: enough slots, and every resource asked for is listed with at least k times the request |
| `Capacity.MissingResource` | vendor/k8s.io/kubernetes/pkg/scheduler/framework/plugins/noderesources/fit.go:786-786 | a node that does not list a resource the pod asks for takes no copy |
| `Capacity.TotalIsZero` | vendor/k8s.io/kubernetes/pkg/scheduler/framework/plugins/noderesources/fit.go:710-799 | a pod fits on no node if and only if the cluster's capacity for it is zero |
| `Capacity.ShrinkKeepsUnfit` | vendor/k8s.io/kubernetes/pkg/scheduler/framework/plugins/noderesources/fit.go:710-799 | placing any pod never makes another pod fit that did not |
| `Capacity.TotalAfterUpdate` | doc/cluster-capacity.md:84-92 | changing one node changes the total by that node's difference |
| `Capacity.DocumentedExample` | README.md:44-66 | a 2000m node takes thirteen pods of 150m, and four such nodes take 52 |
| `Simulator.GeneratedPods` | pkg/framework/podgenerator.go:43-61 | every generated pod can be annotated, is unbound, keeps the template's request, and its key is shared with no other index |
| `Simulator.MadeFromTemplate` | pkg/framework/simulator.go:347-350 | a generated pod is the template under its name and the decimal numeral of its index, unbound, for the simulated scheduler, with the provisioner annotation beside the annotations it had, and otherwise unchanged |
| `Simulator.UpdateActsOn` | pkg/framework/simulator.go:330-343 | the callback acts exactly on a PodScheduled condition that is False for the reason Unschedulable, of a pod with the provisioner annotation; it writes the reason and the message and closes |
| `Simulator.KeysDiffer` | pkg/framework/podgenerator.go:49-58 | equal generated keys come from equal counters |
| `Decimal.PrintIsTheNumeral` | pkg/framework/podgenerator.go:49-50 | what is printed for n is the one string of digits without a leading zero that reads as n |
| `Decimal.PrintInjective` | pkg/framework/podgenerator.go:49-50 | numbers that print alike are equal |
| `Objects.SinglePodGenerator.Generate` | pkg/framework/podgenerator.go:43-61 | returns the template unbound, under its name and the numeral of the old counter, with a map of annotations, and otherwise unchanged; advances the counter by one |
| `Objects.ClusterCapacity.constructor` | pkg/framework/simulator.go:123-135 | starts with an empty record over the client's store and an open simulator |
| `Objects.ClusterCapacity.SyncWithClient` | pkg/framework/simulator.go:191-218 | the loops leave exactly the copied pods and nodes, also when a creation fails half way |
| `Objects.ClusterCapacity.Close` | pkg/framework/simulator.go:317-328 | sets `closed`, changes nothing else of the shared data, and closes the informers only the first time |
| `Objects.ClusterCapacity.CreateNextPod` | pkg/framework/simulator.go:347-357 | the shared data become those of the specification: one more simulated and generated, the stamped pod remembered, and stored unless its name is taken, which is the one case of failure |
| `Objects.ClusterCapacity.PostBindHook` | pkg/framework/simulator.go:300-315 | the bound pod is recorded; exactly if the field maxSimulated is positive and reached, the limit's text is written, everything is closed, no pod is created and a token is offered; otherwise the next pod is created |
| `Objects.ClusterCapacity.Update` | pkg/framework/simulator.go:330-345 | only a refusal of a pod with the provisioner annotation changes anything: its reason and message are written, and one token is offered |
| `Objects.ClusterCapacity.OnUpdate` | pkg/framework/simulator.go:401-414 | the handler's loop has the specified effect on the shared data and offers the specified number of tokens |
| `Objects.ClusterCapacity.RunToReceive` | pkg/framework/simulator.go:373-379 | either the first pod is created, or everything is closed and the start fails |
| `Objects.ClusterCapacity.RunFromReceive` | pkg/framework/simulator.go:380-383 | consumes one offered token, closes the channel and leaves the record alone |
| `Objects.ClusterCapacity.Report` | pkg/framework/simulator.go:163-173 | returns the cached review if there is one; an agreeing cache stays agreeing and equals the freshly computed review |
| `Objects.ClusterCapacityBinder.Bind` | pkg/framework/plugins/clustercapacitybinder/plugin.go:49-68 | the shared data and the result are those of the specification of fetch, place, write back and hook, and exactly the written pod is announced |
| `FakeClient.Clientset.CreatePod` | vendor/k8s.io/client-go/testing/fixture.go:662-684 | fails exactly on an existing key, and then changes nothing |
| `FakeClient.Clientset.UpdatePod` | vendor/k8s.io/client-go/testing/fixture.go:662-680 | fails exactly on a missing key, and then changes and announces nothing; otherwise the new value is announced |
| `Refinement.HookIsARun` | pkg/framework/simulator.go:300-315 | a hook left alone is a run of the protocol with the specified data and end |
| `Refinement.BindingIsARun` | pkg/framework/plugins/clustercapacitybinder/plugin.go:49-68 | a binding left alone is a run of the protocol with the specified data, announcement and end |
| `Refinement.MainCreates` | pkg/framework/simulator.go:373-380 | the first creation left alone is a run of the protocol |
| `Refinement.MainAborts` | pkg/framework/simulator.go:373-379 | a failed start left alone is a run of the protocol that ends with everything closed |
| `Refinement.CallbackIsARun` | pkg/framework/simulator.go:330-345 | a callback left alone is a run of the protocol up to its send |
| `Ledger.StartIsBalanced` | pkg/framework/simulator.go:373-373 | after the first creation the counters are one ahead of the record and one pod is in flight |
| `Ledger.BindKeepsBalance` | pkg/framework/simulator.go:300-314 | each serial hook keeps the balance, and stops exactly when `simulated` equals the limit |
| `Ledger.LedgerHolds` | pkg/framework/simulator.go:300-314 | over any serial hooks, for any snapshot pods: `simulated` is the record plus one, and the pods in flight are one plus the snapshot's pods bound so far |
| `Ledger.LimitCountsForeignPods` | pkg/framework/simulator.go:303-308 | at the first stop by the limit the record has exactly maxSimulated entries, of which the snapshot's own bound pods are no replicas |
| `CloseMutex.CloseIsSafe` | pkg/framework/simulator.go:317-328 | for any number of callers and interleavings the informer channel is closed at most once, and outside the critical section it is closed, and the scheduler's context cancelled, exactly when `closed` is set |
| `CloseMutex.InterleavingsAreSerial` | pkg/framework/simulator.go:317-328 | every interleaving ends like whole calls made one after the other, each of which sets `closed` at once |
| `CloseMutex.CloseReturns` | pkg/framework/simulator.go:317-328 | while a caller has not returned, some caller can move |
| `Sync.CopiedPods` | pkg/framework/simulator.go:196-204 | the copy fails exactly if two live pods share a key; otherwise the store holds exactly the live pods |
| `Sync.KeptCounts` | pkg/framework/simulator.go:211-214 | a node is kept as often as it is listed, or not at all if its name is excluded |
| `Sync.KeptInOrder` | pkg/framework/simulator.go:211-214 | the kept nodes stay in the listed order |
| `Sync.CopiedNodes` | pkg/framework/simulator.go:211-218 | exactly the nodes that are not excluded are copied, unless two of them share a name |
| `Sync.RemainingIsDifference` | vendor/k8s.io/kubernetes/pkg/scheduler/framework/plugins/noderesources/fit.go:710-799 | what is left on a node is its allocatable amount minus the sums over the live pods bound to it |
| `Histogram.ParsePodsReview` | pkg/framework/report.go:146-172 | builds fresh, unshared objects whose contents are the specified list for every template |
| `Histogram.Increment` | pkg/framework/report.go:159-165 | without a break, the loop increments exactly the entries of the name and tells whether there was none |
| `Histogram.TallyCounts` | pkg/framework/report.go:157-172 | each node is listed once, exactly if a pod of the template is on it, with the number of such pods |
| `Histogram.TallyOrder` | pkg/framework/report.go:157-172 | nodes are listed in the order of their first appearance among the template's pods |
| `Histogram.InstancesAddUp` | pkg/framework/report.go:211-233 | the printed sums over all templates add up to the number of recorded pods |
| `Histogram.Instances` | pkg/framework/report.go:227-233 | the loop computes the sum of the replicas |
| `Report.ReviewCounts` | pkg/framework/report.go:211-233 | the review is about the one template, with the reason as read; the printed sum, the record's length and the replica count agree, the latter while the length fits in 32 bits; nodes are listed in the order of first appearance with their counts |
| `Report.ReviewTellsWhy` | pkg/framework/report.go:100-109 | the review's reason is Unschedulable with the trimmed first line of the message, or LimitReached with the limit's text in decimal |
| `Report.Int32` | pkg/framework/simulator.go:169-169 | the result is in range, congruent to the argument, and equal to it if that fits |
| `StopReason.LimitRoundTrip` | pkg/framework/report.go:100-109 | the limit's reason is the fixed text with the limit in decimal, and is read back as LimitReached and the text behind the colon |
| `StopReason.RefusalRoundTrip` | pkg/framework/report.go:100-109 | a refusal is read back as Unschedulable and the trimmed first line, for any colons and newlines in the message |
| `StopReason.ReadableExactly` | pkg/framework/report.go:100-109 | reading panics exactly if the first line has no colon; the type read is the text before it |
| `StopReason.MessageIsTheRest` | pkg/framework/report.go:106-106 | the message read is the trimmed rest of the first line |
| `Analysis.AnalysisIsExact` | cmd/cluster-capacity/app/server.go:165-183 | from the listed cluster to the review: every complete run reports the capacity up to the limit and the matching reason with its message, which without a limit is the scheduler's on the last generated pod, lists only kept nodes, each once and with no more than its own capacity, and below the limit all that take some with exactly that |
| `Analysis.NodesAreFilled` | README.md:61-65 | the pods recorded on a node are never more than it takes, and exactly as many unless the limit was reached |
| `Analysis.ListIsDistributed` | pkg/framework/report.go:157-172 | the printed list names only simulated nodes, each once and within its capacity, and unless the limit was reached all that take some |
| `Analysis.ReportStaysCurrent` | pkg/framework/simulator.go:163-173 | a report taken after `Run` returned equals the report of any later state, so the cache never goes stale |
| `Analysis.NoReportBeforeStop` | pkg/framework/report.go:100-109 | with an empty stop reason there is no report |
| `Analysis.UntroubledListing` | pkg/framework/simulator.go:362-373 | a template without a refusal and a listing without waiting pods and without generated names meet the hypotheses of the analysis |
| `Analysis.CopiedListing` | pkg/framework/simulator.go:191-218 | a copyable listing gives a sound snapshot with distinct node names |
| `NamespacePod.RetrieveResources` | pkg/client/nspod.go:66-117 | limits equal requests, hold exactly the minimums found, and are set exactly if some tracked minimum is nonzero, in whatever order the map is walked |
| `NamespacePod.CollectMinimums` | pkg/client/nspod.go:66-89 | the nested loops compute the least maximum of every tracked resource |
| `NamespacePod.LeastMaxIsLeast` | pkg/client/nspod.go:73-89 | the result is the least amount any pod-level item names, and absent exactly if none does |
| `NamespacePod.LeastMaxIsCanonical` | README.md:245-246 | limit ranges that name the same amounts give the same result, whatever their order and grouping |
| `Requirements.GetResourceRequest` | pkg/framework/report.go:111-144 | CPU and memory are exact sums and the primary GPU entry stays zero; a scalar is the 64-bit sum of rounded amounts and is listed exactly if some container names it |
| `Requirements.RoundingError` | pkg/framework/report.go:133-139 | rounding never loses anything and adds less than one unit for each container naming the resource |
| `Requirements.SumsIgnoreOrder` | pkg/framework/report.go:120-121 | the totals do not depend on the order of the containers |
| `Requirements.WrapSum` | pkg/framework/report.go:138-138 | wrapping after each addition is wrapping once at the end |
| `Requirements.Value` | vendor/k8s.io/apimachinery/pkg/api/resource/quantity.go:813-816 | the result is the whole number next to the quantity, away from zero |
| `Version.PrintThenSplit` | pkg/version/version.go:72-100 | every well-formed version of each format is split into its first number and the other two |
| `Version.FourFormats` | pkg/version/version.go:77-97 | the four formats written out with fields given by character ranges: each is split into its first number and the other two |
| `Version.NothingElse` | pkg/version/version.go:77-99 | any string that is not of one of these forms gives two empty results |
| `Version.DocumentedVersions` | pkg/version/version.go:77-81 | the two versions given as examples in the source split into 0 and 18.0 |
| `Version.OtherwiseEmpty` | pkg/version/version.go:72-100 | the result is empty exactly for strings that no format accepts |
| `Version.AcceptsExactlyPrinted` | pkg/version/version.go:77-86 | a pattern accepts exactly the printed forms of its format |
| `Version.FormatsAreDisjoint` | pkg/version/version.go:77-86 | no string is accepted in two formats |
| `Version.SplitInRange` | pkg/version/version.go:88-96 | every index into the split parts of an accepted string is in range |
| `Text.SplitThenJoin` | pkg/framework/report.go:101-102 | joining the parts gives the string back, and no part contains the separator |
| `Text.JoinThenSplit` | pkg/version/version.go:88-96 | parts without the separator are what splitting their join gives back |
| `Text.TrimTakesEnds` | pkg/framework/report.go:106-106 | trimming takes away exactly the surrounding run of the character |

## Left out

- The scheduler's queues, scoring, preemption, affinity and plugins: external, reduced to the contract above.
- Repeated notifications for one pod and retried bindings: excluded by the contract, as the code calls them implementation specific (pkg/framework/simulator.go:337-338).
- Informer and watch machinery, contexts, the 100 ms sleep and the cancellation of the scheduler: reduced to steps that may come at any time.
- What the scheduler does about a binding that failed: it writes a condition with another reason, which the callback ignores, and does not queue the placed pod again.
- Status writes of the scheduler that are no verdict, such as a nominated node.
- A pod that lists its scheduling condition twice is marked in the first place only, as the source's helper does; merging such lists in the fake server's patch is not modelled.
- Data races below the micro-steps, such as a torn append: the micro-steps are atomic, and under `Inert` and `Calm` no two of them ever compete.
- Pods are values: pointers, deep copies and the sharing of a recorded pod between the store and the record are not modelled.
- The UID of a generated pod, timestamps, and defaulting and validation of pods.
- The generator's counter and `simulated` are unbounded; the model does not wrap them at 64 bits.
- The loops of `SyncWithClient` over namespaces and the other object kinds: the same loop again.
- `Report.Review` has no pod requirements and no node selectors; the requirements are modelled separately.
- `Requirements.Value`: quantities are exact integers; formats, the decimal backing and values that overflow 64 bits before summing are not modelled.
- `Requirements.GetResourceRequest`: which names are scalar resources is a parameter.
- The node selector annotation and the fixed fields of the namespace stub pod.
- `Ledger.LedgerHolds`: hooks that overlap are not covered, because then the counters race (`Races.ForeignBindingRaces`).
- The command line, configuration loading, printing in JSON or YAML, the event recorder and the other packages.
