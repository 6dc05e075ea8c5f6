/** What every interleaving keeps, when the snapshot's own waiting pods are inert and the template carries
    no refusal: one baton passes from the creator of a pod to the scheduler's queue, to the binder of that
    pod, and on to the creation of the next one, until the stop token ends the run. */
module Invariant {
  import opened Options
  import opened Cluster
  import opened Capacity
  import opened Simulator
  import opened Protocol

  // ---------------------------------------------------------------- hypotheses

  /** The store is keyed by its pods, and the scheduler's cache has one entry per named node. */
  ghost predicate Sound(cfg: Config, snap: Snapshot) {
    && WellKeyed(snap.store)
    && |snap.free| == |cfg.nodes|
    && forall i | 0 <= i < |cfg.nodes| :: cfg.nodes[i] != ""
  }

  /** A pod that the scheduler cannot place and whose refusal the simulator ignores. */
  predicate InertPod(pod: Pod, free: seq<Free>) {
    !Provisioned(pod) && !FitsSomewhere(free, pod.requests)
  }

  /** None of the snapshot's own waiting pods can move the simulation. A snapshot without
      unbound pods is the usual case. */
  ghost predicate Inert(cfg: Config, snap: Snapshot) {
    forall key | key in Waiting(cfg, snap.store) :: InertPod(snap.store[key], snap.free)
  }

  // ---------------------------------------------------------------- who holds the baton

  datatype Phase =
    | BeingMade(pc: CreatePc)
    | Queued
    | BeingBound
    | RefusalPending(at: nat)
    | RefusalHandled
    | Ended(made: nat)
    | Collided

  /** The number of placements made so far, and so the index of the next pod. */
  function Placed(s: State): nat {
    |s.assumed|
  }

  /** How many generated pods have reached the store. */
  function MadeCount(s: State, ph: Phase): nat {
    match ph
    case BeingMade(_) => Placed(s)
    case Queued => Placed(s) + 1
    case BeingBound => Placed(s)
    case RefusalPending(_) => Placed(s) + 1
    case RefusalHandled => Placed(s) + 1
    case Ended(made) => made
    case Collided => Placed(s)
  }

  function MadeKeys(cfg: Config, m: nat): set<Key> {
    set j: nat | j < m :: TemplateKey(cfg, j)
  }

  function CountOn(assumed: seq<Assumption>, i: nat): nat {
    if assumed == [] then 0
    else CountOn(assumed[..|assumed| - 1], i) + if assumed[|assumed| - 1].node == i then 1 else 0
  }

  // ---------------------------------------------------------------- the parts of the invariant

  /** Each placement used up one copy's worth of capacity, on its own node and in total. */
  ghost predicate Placements(cfg: Config, snap: Snapshot, assumed: seq<Assumption>, free: seq<Free>) {
    && |free| == |snap.free|
    && (forall j | 0 <= j < |assumed| :: assumed[j].key == TemplateKey(cfg, j) && assumed[j].node < |cfg.nodes|)
    && |assumed| + TotalCapacity(free, cfg.template.requests) == TotalCapacity(snap.free, cfg.template.requests)
    && forall i | 0 <= i < |free| ::
         CountOn(assumed, i) + NodeCapacity(free[i], cfg.template.requests)
         == NodeCapacity(snap.free[i], cfg.template.requests)
  }

  /** Every recorded pod is the next generated one, bound, and is what the store holds. */
  ghost predicate Records(cfg: Config, store: Store, pods: seq<Pod>, assumed: seq<Assumption>) {
    && |pods| <= |assumed|
    && forall j | 0 <= j < |pods| ::
         && pods[j] == Recorded(cfg, j, NodeName(cfg, assumed[j].node))
         && TemplateKey(cfg, j) in store
         && store[TemplateKey(cfg, j)] == pods[j]
  }

  function Unmarked(pod: Pod): Pod {
    pod.(conditions := [])
  }

  /** The store is the snapshot's, up to conditions, and the pods made since. */
  ghost predicate Storage(cfg: Config, snap: Snapshot, store: Store, m: nat) {
    && store.Keys == snap.store.Keys + MadeKeys(cfg, m)
    && (forall j: nat | j < m :: TemplateKey(cfg, j) !in snap.store)
    && forall key | key in snap.store :: Unmarked(store[key]) == Unmarked(snap.store[key])
  }

  /** Apart from the baton's pod, only inert pods of the snapshot wait to be decided. */
  ghost predicate QueuedBystanders(snap: Snapshot, queue: set<Key>, store: Store, free: seq<Free>, own: set<Key>) {
    && (forall key | key in queue :: key in snap.store || key in own)
    && (forall key | key in queue && key in snap.store :: key in store && InertPod(store[key], free))
  }

  /** The simulator ignores every one of the pod's conditions that are still to be looked at. */
  predicate Harmless(pod: Pod, conditions: seq<Condition>) {
    Provisioned(pod) ==> Refusals(conditions) == 0
  }

  /** Apart from the baton's refusal, the informer only delivers updates that are ignored. */
  ghost predicate IgnoredEvents(events: seq<Pod>, own: Option<nat>) {
    forall e: nat | e < |events| :: Harmless(events[e], events[e].conditions) || own == Some(e)
  }

  function OwnQueued(cfg: Config, s: State, ph: Phase): set<Key> {
    if ph.Queued? then {TemplateKey(cfg, Placed(s))} else {}
  }

  function OwnEvent(ph: Phase): Option<nat> {
    if ph.RefusalPending? then Some(ph.at) else None
  }

  predicate IdleOrBystander(listener: Listener) {
    listener.Busy? ==> listener.tell.Deciding? && Harmless(listener.pod, listener.conditions)
  }

  /** No pod has been made beyond the limit. */
  predicate BelowLimit(cfg: Config, n: nat) {
    cfg.maxSimulated > 0 ==> n < cfg.maxSimulated
  }

  ghost predicate AllFinished(binders: seq<BinderPc>, n: nat) {
    n <= |binders| && forall j | 0 <= j < n :: binders[j] == Finished(true)
  }

  /** The n-th pod as its refusal reaches the listener. */
  predicate IsRefusedPod(cfg: Config, n: nat, pod: Pod) {
    && pod == Made(cfg, n).(conditions := pod.conditions)
    && Refusals(pod.conditions) == 1
  }

  predicate CreationState(cfg: Config, d: Data, n: nat, pc: CreatePc) {
    && |d.pods| == n
    && match pc
       case Naming => d.counter == n && d.simulated == n
       case Counting(pod) => pod == Generated(cfg, n) && d.counter == n && d.simulated == n
       case Stamping(pod) => pod == Generated(cfg, n) && d.counter == n + 1 && d.simulated == n
       case Remembering(pod) => pod == Made(cfg, n) && d.counter == n + 1 && d.simulated == n + 1
       case Storing(pod) =>
         pod == Made(cfg, n) && d.counter == n + 1 && d.simulated == n + 1 && d.last == Some(pod)
  }

  /** The counters and the last pod agree with m pods made. */
  predicate CountsMade(cfg: Config, d: Data, m: nat)
    requires m > 0
  {
    d.counter == m && d.simulated == m && d.last == Some(Made(cfg, m - 1))
  }

  /** The binder of pod n - 1, which was placed on `node`. */
  predicate BindingState(cfg: Config, d: Data, n: nat, node: string, pc: BinderPc)
    requires n > 0
  {
    var key := TemplateKey(cfg, n - 1);
    && d.counter == n && d.simulated == n && d.last == Some(Made(cfg, n - 1))
    && key in d.store
    && match pc
       case Fetching => |d.pods| == n - 1 && d.store[key] == Made(cfg, n - 1)
       case Writing(pod) => |d.pods| == n - 1 && pod == Recorded(cfg, n - 1, node)
       case Appending(pod) => |d.pods| == n - 1 && pod == Recorded(cfg, n - 1, node) == d.store[key]
       case Testing => |d.pods| == n
       case GivingReason => |d.pods| == n && LimitReached(cfg, d)
       case Closing => |d.pods| == n && LimitReached(cfg, d) && d.stopReason == LimitReason(cfg)
       case Sending => |d.pods| == n && LimitReached(cfg, d) && d.stopReason == LimitReason(cfg) && d.closed
       case Creating(_) => false
       case Finished(_) => false
  }

  predicate TellingState(cfg: Config, n: nat, listener: Listener, d: Data) {
    && listener.Busy?
    && IsRefusedPod(cfg, n, listener.pod)
    && TemplateKey(cfg, n) in d.store && d.store[TemplateKey(cfg, n)] == listener.pod
    && (forall c | c in listener.conditions :: c in listener.pod.conditions)
    && Refusals(listener.conditions) == 1
    && (listener.tell.Deciding? || IsRefusal(listener.conditions[0]))
    && (listener.tell.Deciding? || listener.tell.Explaining?
        || d.stopReason == RefusalReason(listener.conditions[0]))
    && (listener.tell.Stopping? || listener.tell.Telling? ==> d.closed)
    && (d.stopped <==> listener.tell.Telling?)
  }

  /** The two ways a run can stop. */
  predicate StoppedAtLimit(cfg: Config, n: nat, stopReason: string) {
    cfg.maxSimulated > 0 && n == cfg.maxSimulated && stopReason == LimitReason(cfg)
  }

  /** The stored pod has been refused once, and the stop reason is that refusal with its message. */
  ghost predicate VerdictOn(store: Store, key: Key, stopReason: string) {
    && key in store && Refusals(store[key].conditions) == 1
    && exists message: string ::
         Refusal(message) in store[key].conditions && stopReason == RefusalReason(Refusal(message))
  }

  ghost predicate StoppedFull(cfg: Config, n: nat, left: nat, stopReason: string, store: Store) {
    BelowLimit(cfg, n) && left == 0 && VerdictOn(store, TemplateKey(cfg, n), stopReason)
  }

  ghost predicate Baton(cfg: Config, snap: Snapshot, s: State, ph: Phase)
    requires |s.binders| == |s.assumed|
  {
    var n, left := Placed(s), TotalCapacity(s.free, cfg.template.requests);
    match ph
    case BeingMade(pc) =>
      && BelowLimit(cfg, n) && CreationState(cfg, s.data, n, pc) && !s.data.stopped
      && s.tokens == 0 && !s.stopClosed
      && if n == 0 then s.main == MainCreating(pc)
         else s.main == Receiving && AllFinished(s.binders, n - 1) && s.binders[n - 1] == Creating(pc)
    case Queued =>
      && BelowLimit(cfg, n) && |s.data.pods| == n && CountsMade(cfg, s.data, n + 1) && !s.data.stopped
      && s.tokens == 0 && !s.stopClosed && s.main == Receiving && AllFinished(s.binders, n)
      && TemplateKey(cfg, n) in s.queue
      && TemplateKey(cfg, n) in s.data.store && s.data.store[TemplateKey(cfg, n)] == Made(cfg, n)
    case BeingBound =>
      && n > 0 && (cfg.maxSimulated > 0 ==> n <= cfg.maxSimulated) && !s.data.stopped
      && s.tokens == 0 && !s.stopClosed && s.main == Receiving && AllFinished(s.binders, n - 1)
      && BindingState(cfg, s.data, n, NodeName(cfg, s.assumed[n - 1].node), s.binders[n - 1])
    case RefusalPending(at) =>
      && BelowLimit(cfg, n) && |s.data.pods| == n && CountsMade(cfg, s.data, n + 1) && !s.data.stopped
      && s.tokens == 0 && !s.stopClosed && s.main == Receiving && AllFinished(s.binders, n)
      && left == 0
      && at < |s.events| && IsRefusedPod(cfg, n, s.events[at])
      && TemplateKey(cfg, n) in s.data.store && s.data.store[TemplateKey(cfg, n)] == s.events[at]
    case RefusalHandled =>
      && BelowLimit(cfg, n) && |s.data.pods| == n && CountsMade(cfg, s.data, n + 1)
      && s.tokens == 0 && !s.stopClosed && s.main == Receiving && AllFinished(s.binders, n)
      && left == 0
      && TellingState(cfg, n, s.listener, s.data)
    case Ended(made) =>
      && s.tokens == 1 && |s.data.pods| == n && AllFinished(s.binders, n)
      && made > 0 && CountsMade(cfg, s.data, made) && s.data.closed && (s.data.stopped <==> made == n + 1)
      && ((s.main == ClosingStop && !s.stopClosed) || (s.main == Returned(true) && s.stopClosed))
      && (if made == n then StoppedAtLimit(cfg, n, s.data.stopReason)
          else made == n + 1 && StoppedFull(cfg, n, left, s.data.stopReason, s.data.store))
    case Collided =>
      && BelowLimit(cfg, n) && |s.data.pods| == n && s.tokens == 0
      && TemplateKey(cfg, n) in snap.store
      && if n == 0 then ((s.main.AbortClosing? || (s.main.AbortClosingStop? && s.data.closed)) && !s.stopClosed)
                        || (s.main == Returned(false) && s.stopClosed && s.data.closed)
         else
           && s.main == Receiving && !s.stopClosed
           && AllFinished(s.binders, n - 1) && s.binders[n - 1] == Finished(false)
  }

  ghost predicate Inv(cfg: Config, snap: Snapshot, s: State, ph: Phase) {
    && !s.panicked && Refusals(cfg.template.conditions) == 0
    && |s.binders| == |s.assumed|
    && Placements(cfg, snap, s.assumed, s.free)
    && Records(cfg, s.data.store, s.data.pods, s.assumed)
    && Storage(cfg, snap, s.data.store, MadeCount(s, ph))
    && QueuedBystanders(snap, s.queue, s.data.store, s.free, OwnQueued(cfg, s, ph))
    && IgnoredEvents(s.events, OwnEvent(ph))
    && (ph.RefusalHandled? || IdleOrBystander(s.listener))
    && Baton(cfg, snap, s, ph)
  }

  // ---------------------------------------------------------------- it holds at the start

  lemma StartsInInv(cfg: Config, snap: Snapshot)
    requires Sound(cfg, snap) && Inert(cfg, snap) && Calm(cfg)
    ensures Inv(cfg, snap, Start(cfg, snap), BeingMade(Naming))
  {
    NoRefusals(cfg.template.conditions);
    assert MadeKeys(cfg, 0) == {};
  }

  // ---------------------------------------------------------------- every step keeps it

  lemma MadeKeysGrow(cfg: Config, m: nat)
    ensures MadeKeys(cfg, m + 1) == MadeKeys(cfg, m) + {TemplateKey(cfg, m)}
    ensures TemplateKey(cfg, m) !in MadeKeys(cfg, m)
  {
    forall j: nat | j < m
      ensures TemplateKey(cfg, j) != TemplateKey(cfg, m)
    {
      if TemplateKey(cfg, j) == TemplateKey(cfg, m) {
        KeysDiffer(cfg, j, m);
      }
    }
  }

  lemma ShrinkKeepsInert(free: seq<Free>, i: nat, taken: Request, pod: Pod)
    requires i < |free| && InertPod(pod, free)
    ensures InertPod(pod, free[i := Shrink(free[i], taken)])
  {
    ShrinkKeepsUnfit(free[i], taken, pod.requests);
  }

  /** Only the pod that holds the baton is undecided, besides the bystanders. */
  lemma OwnPod(cfg: Config, snap: Snapshot, s: State, ph: Phase, key: Key)
    requires Inv(cfg, snap, s, ph) && key in s.queue && key !in snap.store
    ensures ph.Queued? && key == TemplateKey(cfg, Placed(s)) && s.data.store[key] == Made(cfg, Placed(s))
  {
  }

  /** Only the pod that holds the baton can be placed. */
  lemma AssumedPod(cfg: Config, snap: Snapshot, s: State, ph: Phase, key: Key, i: nat)
    requires Inv(cfg, snap, s, ph) && CanAssume(cfg, s, key, i)
    ensures ph.Queued? && key == TemplateKey(cfg, Placed(s)) && key !in snap.store
    ensures s.data.store[key] == Made(cfg, Placed(s))
    ensures Made(cfg, Placed(s)).requests == cfg.template.requests
  {
    assert FitsSomewhere(s.free, s.data.store[key].requests);
    GeneratedPods(cfg, Placed(s));
    assert TemplateKey(cfg, Placed(s)) in MadeKeys(cfg, Placed(s) + 1);
  }

  lemma AssumePlaces(cfg: Config, snap: Snapshot, assumed: seq<Assumption>, free: seq<Free>, i: nat)
    requires Placements(cfg, snap, assumed, free) && i < |free| && i < |cfg.nodes|
    requires Fits(free[i], cfg.template.requests)
    ensures Placements(cfg, snap, assumed + [Assumption(TemplateKey(cfg, |assumed|), i)],
                       free[i := Shrink(free[i], cfg.template.requests)])
  {
    var request := cfg.template.requests;
    TotalAfterUpdate(free, i, Shrink(free[i], request), request);
    assert (assumed + [Assumption(TemplateKey(cfg, |assumed|), i)])[..|assumed|] == assumed;
  }

  lemma ShrinkKeepsBystanders(snap: Snapshot, queue: set<Key>, store: Store, free: seq<Free>, key: Key,
                              i: nat, taken: Request)
    requires QueuedBystanders(snap, queue, store, free, {key}) && i < |free|
    ensures QueuedBystanders(snap, queue - {key}, store, free[i := Shrink(free[i], taken)], {})
  {
    forall k | k in queue - {key} && k in snap.store
      ensures InertPod(store[k], free[i := Shrink(free[i], taken)])
    {
      ShrinkKeepsInert(free, i, taken, store[k]);
    }
  }

  lemma AssumeKeeps(cfg: Config, snap: Snapshot, s: State, ph: Phase, key: Key, i: nat)
    requires Inv(cfg, snap, s, ph) && CanAssume(cfg, s, key, i)
    ensures Inv(cfg, snap, StepAssume(cfg, s, key, i), BeingBound)
  {
    hide Placements, QueuedBystanders, IgnoredEvents, Storage, Records, FitsSomewhere, TotalCapacity, LimitReason,
      RefusalReason, Made, TemplateKey, CreationState, TellingState, StoppedFull, StoppedAtLimit, NodeName, Fits,
      Shrink;
    AssumedPod(cfg, snap, s, ph, key, i);
    AssumePlaces(cfg, snap, s.assumed, s.free, i);
    ShrinkKeepsBystanders(snap, s.queue, s.data.store, s.free, key, i, cfg.template.requests);
    RecordsKept(cfg, s.data.store, s.data.pods, s.assumed, Assumption(key, i));
  }

  lemma RecordsKept(cfg: Config, store: Store, pods: seq<Pod>, assumed: seq<Assumption>, next: Assumption)
    requires Records(cfg, store, pods, assumed)
    ensures Records(cfg, store, pods, assumed + [next])
  {
  }

  // Marking a pod that is neither recorded nor queued any more.

  lemma MarkKeeps(cfg: Config, snap: Snapshot, s: State, m: nat, key: Key, conditions: seq<Condition>,
                  own: set<Key>, own': set<Key>)
    requires key in s.data.store
    requires Storage(cfg, snap, s.data.store, m)
    requires Records(cfg, s.data.store, s.data.pods, s.assumed)
    requires QueuedBystanders(snap, s.queue, s.data.store, s.free, own) && own <= own' + {key}
    requires forall j: nat | j < |s.data.pods| :: TemplateKey(cfg, j) != key
    ensures var store := s.data.store[key := s.data.store[key].(conditions := conditions)];
            && Storage(cfg, snap, store, m)
            && Records(cfg, store, s.data.pods, s.assumed)
            && QueuedBystanders(snap, s.queue - {key}, store, s.free, own')
  {
    hide InertPod, MadeKeys, Recorded, NodeName, TemplateKey;
  }

  lemma EventAppended(events: seq<Pod>, own: Option<nat>, pod: Pod)
    requires IgnoredEvents(events, own) && (own.Some? ==> own.value < |events|)
    ensures Harmless(pod, pod.conditions) ==> IgnoredEvents(events + [pod], own)
    ensures own.None? ==> IgnoredEvents(events + [pod], Some(|events|))
  {
  }

  lemma MadeKeysApart(cfg: Config, k: nat)
    ensures forall j: nat | j != k :: TemplateKey(cfg, j) != TemplateKey(cfg, k)
  {
    GeneratedPods(cfg, k);
  }

  lemma Bystander(cfg: Config, snap: Snapshot, s: State, m: nat, own: set<Key>, key: Key)
    requires Storage(cfg, snap, s.data.store, m) && key in snap.store
    requires Records(cfg, s.data.store, s.data.pods, s.assumed) && Placed(s) <= m
    requires QueuedBystanders(snap, s.queue, s.data.store, s.free, own) && key in s.queue
    ensures forall j: nat | j < |s.data.pods| || j < m :: TemplateKey(cfg, j) != key
    ensures key in s.data.store && !Provisioned(s.data.store[key])
  {
  }

  lemma BatonBounds(cfg: Config, snap: Snapshot, s: State, ph: Phase)
    requires |s.binders| == |s.assumed| && Baton(cfg, snap, s, ph)
    ensures Placed(s) <= MadeCount(s, ph)
    ensures OwnEvent(ph).Some? ==> OwnEvent(ph).value < |s.events|
  {
    hide TotalCapacity, TemplateKey, CreationState, BindingState, TellingState, LimitReason, StoppedAtLimit,
      IsRefusedPod, CountsMade, AllFinished;
  }

  lemma VerdictKept(store: Store, key: Key, stopReason: string, other: Key, pod: Pod)
    requires VerdictOn(store, key, stopReason)
    ensures other != key ==> VerdictOn(store[other := pod], key, stopReason)
  {
  }

  /** Whoever holds the baton does not notice that another pod is marked. */
  lemma BatonIgnoresMark(cfg: Config, snap: Snapshot, s: State, ph: Phase, key: Key, pod: Pod, events: seq<Pod>)
    requires |s.binders| == |s.assumed| && Baton(cfg, snap, s, ph)
    requires forall j: nat | j < MadeCount(s, ph) :: TemplateKey(cfg, j) != key
    requires events == s.events || events == s.events + [pod]
    ensures Baton(cfg, snap, s.(queue := s.queue - {key}, data := s.data.(store := s.data.store[key := pod]),
                                events := events), ph)
  {
    hide TotalCapacity, TemplateKey, Generated, LimitReason, Made, Recorded, NodeName, AllFinished, RefusalReason,
      StoppedAtLimit, IsRefusedPod, Refusals, VerdictOn;
    if VerdictOn(s.data.store, TemplateKey(cfg, Placed(s)), s.data.stopReason) && ph.Ended? {
      VerdictKept(s.data.store, TemplateKey(cfg, Placed(s)), s.data.stopReason, key, pod);
    }
  }

  lemma BystanderRefused(cfg: Config, snap: Snapshot, s: State, ph: Phase, key: Key, message: string)
    requires Inv(cfg, snap, s, ph) && CanRefuse(s, key) && key in snap.store
    ensures Inv(cfg, snap, StepRefuse(s, key, message), ph)
  {
    hide Placements, Records, Storage, QueuedBystanders, IgnoredEvents, FitsSomewhere, MadeKeys, TemplateKey, Baton,
      NodeName, Marked, Refusals, OwnEvent;
    BatonBounds(cfg, snap, s, ph);
    var m, own := MadeCount(s, ph), OwnQueued(cfg, s, ph);
    Bystander(cfg, snap, s, m, own, key);
    var refused := Refused(s.data.store[key], message);
    MarkKeeps(cfg, snap, s, m, key, refused.conditions, own, own);
    EventAppended(s.events, OwnEvent(ph), refused);
    BatonIgnoresMark(cfg, snap, s, ph, key, refused, StepRefuse(s, key, message).events);
  }

  /** The baton's pod is refused only when the cluster is full of its copies. */
  lemma OwnRefused(cfg: Config, snap: Snapshot, s: State, ph: Phase, key: Key, message: string)
    requires Inv(cfg, snap, s, ph) && CanRefuse(s, key) && key !in snap.store
    ensures Inv(cfg, snap, StepRefuse(s, key, message), RefusalPending(|s.events|))
  {
    hide Placements, Records, Storage, QueuedBystanders, IgnoredEvents, FitsSomewhere, MadeKeys, TemplateKey, Generated,
      LimitReason, Made, Recorded, TotalCapacity, NodeName, AllFinished, LimitReached,
      CreationState, RefusalReason, StoppedAtLimit, StoppedFull, TellingState, BindingState;
    var n := Placed(s);
    OwnPod(cfg, snap, s, ph, key);
    TotalIsZero(s.free, cfg.template.requests);
    GeneratedPods(cfg, n);
    MadeKeysApart(cfg, n);
    MarkedRefusals(cfg.template.conditions, message);
    var refused := Refused(s.data.store[key], message);
    MarkKeeps(cfg, snap, s, n + 1, key, refused.conditions, {key}, {});
    EventAppended(s.events, None, refused);
  }

  /** Where an announcement stands once the one at position `at` has been taken out. */
  function Shifted(own: Option<nat>, at: nat): Option<nat> {
    if own.None? || own.value == at then None
    else if at < own.value then Some(own.value - 1)
    else own
  }

  lemma EventTaken(events: seq<Pod>, own: Option<nat>, at: nat)
    requires at < |events| && IgnoredEvents(events, own) && (own.Some? ==> own.value < |events|)
    ensures var rest, own' := events[..at] + events[at + 1..], Shifted(own, at);
            && IgnoredEvents(rest, own')
            && (own'.Some? ==> own'.value < |rest| && rest[own'.value] == events[own.value])
            && (own != Some(at) ==> Harmless(events[at], events[at].conditions))
  {
    hide Harmless;
    var rest := events[..at] + events[at + 1..];
    assert forall e: nat | e < |rest| :: rest[e] == events[if e < at then e else e + 1];
  }

  lemma DeliverKeeps(cfg: Config, snap: Snapshot, s: State, ph: Phase, at: nat)
    returns (ph': Phase)
    requires Inv(cfg, snap, s, ph) && s.listener.Idle? && at < |s.events|
    ensures Inv(cfg, snap, StepDeliver(cfg, s, at), ph')
  {
    hide Placements, Records, Storage, QueuedBystanders, FitsSomewhere, MadeKeys, TemplateKey, Generated, LimitReason,
      RefusalReason, Recorded, StoppedAtLimit, StoppedFull, TotalCapacity, NodeName, Provisioned, AllFinished,
      LimitReached, BindingState, CreationState, IsRefusal, IgnoredEvents, Harmless, Refusals;
    GeneratedPods(cfg, Placed(s));
    hide Made;
    EventTaken(s.events, OwnEvent(ph), at);
    ph' := match Shifted(OwnEvent(ph), at)
           case Some(later) => RefusalPending(later)
           case None => if ph.RefusalPending? then RefusalHandled else ph;
  }

  /** A listener at work on a bystander, or on a bound pod, drops one condition after the other. */
  lemma ListenerIgnores(cfg: Config, snap: Snapshot, s: State, ph: Phase)
    requires Inv(cfg, snap, s, ph) && ListenerCanStep(s) && !ph.RefusalHandled?
    ensures Inv(cfg, snap, StepListener(s), ph)
  {
    hide Placements, Records, Storage, QueuedBystanders, IgnoredEvents, MadeKeys, TemplateKey, Generated, LimitReason,
      Made, Recorded, TotalCapacity, NodeName, AllFinished, LimitReached, StoppedAtLimit, StoppedFull, BindingState,
      CreationState, TellingState, IsRefusal, CountsMade, IsRefusedPod, Provisioned, RefusalReason;
  }

  /** The listener at work on the baton's refusal writes the reason, closes, and sends the token. */
  lemma ListenerTells(cfg: Config, snap: Snapshot, s: State)
    returns (ph: Phase)
    requires Inv(cfg, snap, s, RefusalHandled) && ListenerCanStep(s)
    ensures Inv(cfg, snap, StepListener(s), ph)
  {
    hide Placements, Records, Storage, QueuedBystanders, IgnoredEvents, MadeKeys, TemplateKey, Generated, LimitReason,
      Recorded, TotalCapacity, NodeName, AllFinished, LimitReached, StoppedAtLimit, BindingState, CreationState;
    GeneratedPods(cfg, Placed(s));
    hide Made;
    ph := if s.listener.tell.Telling? then Ended(Placed(s) + 1) else RefusalHandled;
    if s.listener.tell.Telling? {
      var c := s.listener.conditions[0];
      assert c == Refusal(c.message);
    }
  }

  lemma ListenerKeeps(cfg: Config, snap: Snapshot, s: State, ph: Phase)
    returns (ph': Phase)
    requires Inv(cfg, snap, s, ph) && ListenerCanStep(s)
    ensures Inv(cfg, snap, StepListener(s), ph')
  {
    hide Inv;
    if ph.RefusalHandled? {
      ph' := ListenerTells(cfg, snap, s);
    } else {
      ListenerIgnores(cfg, snap, s, ph);
      ph' := ph;
    }
  }

  /** Storing the next pod extends the store by its key, unless the snapshot already has it. */
  lemma StoreKeeps(cfg: Config, snap: Snapshot, s: State, n: nat)
    requires Storage(cfg, snap, s.data.store, n) && n == |s.data.pods|
    requires Records(cfg, s.data.store, s.data.pods, s.assumed)
    requires QueuedBystanders(snap, s.queue, s.data.store, s.free, {})
    ensures TemplateKey(cfg, n) in s.data.store <==> TemplateKey(cfg, n) in snap.store
    ensures TemplateKey(cfg, n) !in s.data.store ==>
              var store := s.data.store[TemplateKey(cfg, n) := Made(cfg, n)];
              && Storage(cfg, snap, store, n + 1)
              && Records(cfg, store, s.data.pods, s.assumed)
              && QueuedBystanders(snap, s.queue + {TemplateKey(cfg, n)}, store, s.free, {TemplateKey(cfg, n)})
  {
    hide InertPod, MadeKeys, TemplateKey, Recorded, NodeName, Made;
    MadeKeysGrow(cfg, n);
    MadeKeysApart(cfg, n);
  }

  /** One step of creating pod n, whoever takes it. */
  lemma CreationKeeps(cfg: Config, s: State, n: nat, pc: CreatePc)
    requires CreationState(cfg, s.data, n, pc)
    ensures var c := CreateStep(cfg, s.data, pc);
            match c
            case Onward(d, next) => CreationState(cfg, d, n, next) && d.store == s.data.store
                                    && d.stopReason == s.data.stopReason && d.pods == s.data.pods
                                    && d.stopped == s.data.stopped
            case Stored(d, key) =>
              && TemplateKey(cfg, n) !in s.data.store && key == TemplateKey(cfg, n)
              && d == s.data.(store := s.data.store[key := Made(cfg, n)])
              && CountsMade(cfg, d, n + 1)
            case Rejected(d) => TemplateKey(cfg, n) in s.data.store && d == s.data
            case NilMapWrite => false
  {
    GeneratedPods(cfg, n);
  }

  lemma MainKeeps(cfg: Config, snap: Snapshot, s: State, ph: Phase)
    returns (ph': Phase)
    requires Inv(cfg, snap, s, ph) && MainCanStep(s)
    ensures Inv(cfg, snap, StepMain(cfg, s), ph')
  {
    hide Placements, Records, Storage, QueuedBystanders, IgnoredEvents, FitsSomewhere, MadeKeys, TemplateKey, Generated,
      LimitReason, Made, Recorded, TotalCapacity, NodeName, CreateStep, LimitReached,
      StoppedAtLimit, BindingState, StoppedFull, TellingState;
    ph' := ph;
    if ph.BeingMade? {
      CreationKeeps(cfg, s, 0, ph.pc);
      StoreKeeps(cfg, snap, s, 0);
      match CreateStep(cfg, s.data, ph.pc) {
        case Onward(_, next) => ph' := BeingMade(next);
        case Stored(_, _) => ph' := Queued;
        case _ => ph' := Collided;
      }
    }
  }

  lemma CreatorKeeps(cfg: Config, snap: Snapshot, s: State, ph: Phase, id: nat)
    returns (ph': Phase)
    requires Inv(cfg, snap, s, ph) && BinderCanStep(s, id) && ph.BeingMade?
    ensures Inv(cfg, snap, StepBinder(cfg, s, id), ph')
  {
    hide Placements, Records, Storage, QueuedBystanders, IgnoredEvents, FitsSomewhere, MadeKeys, TemplateKey, Generated,
      LimitReason, Made, Recorded, TotalCapacity, NodeName, CreateStep, LimitReached,
      StoppedAtLimit, BindingState, StoppedFull, TellingState;
    var n := Placed(s);
    assert id == n - 1;
    CreationKeeps(cfg, s, n, ph.pc);
    StoreKeeps(cfg, snap, s, n);
    match CreateStep(cfg, s.data, ph.pc) {
      case Onward(_, next) => ph' := BeingMade(next);
      case Stored(_, _) => ph' := Queued;
      case _ => ph' := Collided;
    }
  }

  /** Writing the placed pod back replaces the entry of a pod made earlier and recorded by nobody yet. */
  lemma WriteKeeps(cfg: Config, snap: Snapshot, s: State, n: nat, pod: Pod)
    requires n > 0 && |s.data.pods| == n - 1
    requires Storage(cfg, snap, s.data.store, n)
    requires Records(cfg, s.data.store, s.data.pods, s.assumed)
    requires QueuedBystanders(snap, s.queue, s.data.store, s.free, {})
    ensures var store := s.data.store[TemplateKey(cfg, n - 1) := pod];
            && Storage(cfg, snap, store, n)
            && Records(cfg, store, s.data.pods, s.assumed)
            && QueuedBystanders(snap, s.queue, store, s.free, {})
  {
    hide InertPod, MadeKeys, TemplateKey, Recorded, NodeName;
    MadeKeysGrow(cfg, n - 1);
    MadeKeysApart(cfg, n - 1);
    assert TemplateKey(cfg, n - 1) in MadeKeys(cfg, n);
  }

  lemma AppendKeeps(cfg: Config, s: State, n: nat, pod: Pod)
    requires n > 0 && |s.data.pods| == n - 1 && n <= |s.assumed|
    requires Records(cfg, s.data.store, s.data.pods, s.assumed)
    requires TemplateKey(cfg, n - 1) in s.data.store && s.data.store[TemplateKey(cfg, n - 1)] == pod
    requires pod == Recorded(cfg, n - 1, NodeName(cfg, s.assumed[n - 1].node))
    ensures Records(cfg, s.data.store, s.data.pods + [pod], s.assumed)
  {
  }

  lemma BindingKeeps(cfg: Config, snap: Snapshot, s: State, ph: Phase, id: nat)
    returns (ph': Phase)
    requires Inv(cfg, snap, s, ph) && BinderCanStep(s, id) && ph.BeingBound?
    ensures Inv(cfg, snap, StepBinder(cfg, s, id), ph')
  {
    hide Placements, Records, Storage, QueuedBystanders, IgnoredEvents, FitsSomewhere, MadeKeys, TemplateKey, Generated,
      LimitReason, Made, TotalCapacity, NodeName, RefusalReason, StoppedFull, TellingState, CreateStep;
    var n := Placed(s);
    PlacedKey(cfg, snap, s, id);
    GeneratedPods(cfg, n - 1);
    match s.binders[id]
    case Writing(pod) =>
      ph' := BeingBound;
      WriteKeeps(cfg, snap, s, n, pod);
      EventAppended(s.events, None, pod);
    case Appending(pod) =>
      ph' := BeingBound;
      AppendKeeps(cfg, s, n, pod);
    case Testing => ph' := if LimitReached(cfg, s.data) then BeingBound else BeingMade(Naming);
    case Sending => ph' := Ended(n);
    case _ => ph' := BeingBound;
  }

  lemma PlacedKey(cfg: Config, snap: Snapshot, s: State, id: nat)
    requires |s.binders| == |s.assumed| && id < |s.assumed| && !s.binders[id].Finished?
    requires Placements(cfg, snap, s.assumed, s.free) && AllFinished(s.binders, |s.assumed| - 1)
    ensures id == Placed(s) - 1 && s.assumed[id].key == TemplateKey(cfg, id)
  {
  }

  lemma BinderPhase(cfg: Config, snap: Snapshot, s: State, ph: Phase, id: nat)
    requires Inv(cfg, snap, s, ph) && BinderCanStep(s, id)
    ensures ph.BeingMade? || ph.BeingBound?
  {
    hide Placements, Records, Storage, QueuedBystanders, IgnoredEvents, TotalCapacity, LimitReason, RefusalReason,
      Made, TemplateKey, CreationState, BindingState, TellingState, StoppedFull, StoppedAtLimit, CountsMade, NodeName;
  }

  lemma BinderKeeps(cfg: Config, snap: Snapshot, s: State, ph: Phase, id: nat)
    returns (ph': Phase)
    requires Inv(cfg, snap, s, ph) && BinderCanStep(s, id)
    ensures Inv(cfg, snap, StepBinder(cfg, s, id), ph')
  {
    BinderPhase(cfg, snap, s, ph, id);
    hide Inv, StepBinder;
    if ph.BeingMade? {
      ph' := CreatorKeeps(cfg, snap, s, ph, id);
    } else {
      ph' := BindingKeeps(cfg, snap, s, ph, id);
    }
  }

  /** The invariant is inductive: whatever is enabled, some phase holds again afterwards. */
  lemma StepKeeps(cfg: Config, snap: Snapshot, s: State, ph: Phase, a: Action)
    returns (ph': Phase)
    requires Inv(cfg, snap, s, ph) && Enabled(cfg, s, a)
    ensures Inv(cfg, snap, Apply(cfg, s, a), ph')
  {
    hide Inv;
    match a
    case Assume(key, i) =>
      AssumeKeeps(cfg, snap, s, ph, key, i);
      ph' := BeingBound;
    case Refuse(key, message) =>
      if key in snap.store {
        BystanderRefused(cfg, snap, s, ph, key, message);
        ph' := ph;
      } else {
        OwnRefused(cfg, snap, s, ph, key, message);
        ph' := RefusalPending(|s.events|);
      }
    case Deliver(at) => ph' := DeliverKeeps(cfg, snap, s, ph, at);
    case MainStep => ph' := MainKeeps(cfg, snap, s, ph);
    case BinderStep(id) => ph' := BinderKeeps(cfg, snap, s, ph, id);
    case ListenerStep => ph' := ListenerKeeps(cfg, snap, s, ph);
  }

  lemma {:induction false} RunKeeps(cfg: Config, snap: Snapshot, s: State, ph: Phase, actions: seq<Action>, t: State)
    returns (ph': Phase)
    requires Inv(cfg, snap, s, ph) && Runs(cfg, s, actions, t)
    ensures Inv(cfg, snap, t, ph')
    decreases |actions|
  {
    hide Inv, Apply, Enabled;
    if actions == [] {
      ph' := ph;
    } else {
      var next := StepKeeps(cfg, snap, s, ph, actions[0]);
      ph' := RunKeeps(cfg, snap, Apply(cfg, s, actions[0]), next, actions[1..], t);
    }
  }

  /** Every reachable state satisfies the invariant, whatever interleaving led to it. */
  lemma ReachableInv(cfg: Config, snap: Snapshot, s: State) returns (ph: Phase)
    requires Sound(cfg, snap) && Inert(cfg, snap) && Calm(cfg) && Reachable(cfg, snap, s)
    ensures Inv(cfg, snap, s, ph)
  {
    StartsInInv(cfg, snap);
    var actions :| Runs(cfg, Start(cfg, snap), actions, s);
    ph := RunKeeps(cfg, snap, Start(cfg, snap), BeingMade(Naming), actions, s);
  }
}
