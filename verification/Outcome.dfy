/** What the invariant says about runs: who may be in the hook section, how a run ends, what it has
    recorded by then, and that the record is frozen afterwards. */
module Outcome {
  import opened Options
  import opened Cluster
  import opened Capacity
  import opened Simulator
  import opened Protocol
  import opened Invariant
  import Decimal
  import Termination

  // ---------------------------------------------------------------- what is promised

  /** The capacity of the cluster for the simulated pod. */
  function Total(cfg: Config, snap: Snapshot): nat {
    TotalCapacity(snap.free, cfg.template.requests)
  }

  predicate LimitApplies(cfg: Config, snap: Snapshot) {
    cfg.maxSimulated > 0 && cfg.maxSimulated <= Total(cfg, snap)
  }

  /** The number of replicas the analysis reports. */
  function Expected(cfg: Config, snap: Snapshot): nat {
    if LimitApplies(cfg, snap) then cfg.maxSimulated else Total(cfg, snap)
  }

  /** The number of pods that have to be created: below the limit, one more than fit. */
  function Needed(cfg: Config, snap: Snapshot): nat {
    if LimitApplies(cfg, snap) then cfg.maxSimulated else Total(cfg, snap) + 1
  }

  /** None of the first m generated names is taken in the snapshot. */
  predicate NamesFree(cfg: Config, snap: Snapshot, m: nat) {
    forall j: nat | j < m :: TemplateKey(cfg, j) !in snap.store
  }

  // ---------------------------------------------------------------- mutual exclusion and the handshake

  lemma BatonIsExclusive(cfg: Config, snap: Snapshot, s: State, ph: Phase)
    requires Inv(cfg, snap, s, ph)
    ensures Exclusive(s)
  {
    hide Placements, Records, Storage, QueuedBystanders, IgnoredEvents, TotalCapacity, StoppedFull, StoppedAtLimit,
      CreationState, TemplateKey, Made, LimitReason, IsRefusedPod, NodeName, RefusalReason;
  }

  /** From appending the bound pod to storing the next one, or to sending the token. */
  predicate InHook(pc: BinderPc) {
    pc.Appending? || pc.Testing? || pc.GivingReason? || pc.Closing? || pc.Sending? || pc.Creating?
  }

  /** No interleaving ever has two goroutines inside the hook section, although nothing is locked. */
  lemma MutualExclusion(cfg: Config, snap: Snapshot, s: State)
    requires Sound(cfg, snap) && Inert(cfg, snap) && Calm(cfg) && Reachable(cfg, snap, s)
    ensures Exclusive(s)
    ensures forall i, j | 0 <= i < |s.binders| && 0 <= j < |s.binders| && i != j ::
              !(InHook(s.binders[i]) && InHook(s.binders[j]))
    ensures forall i | 0 <= i < |s.binders| && InHook(s.binders[i]) ::
              !s.main.MainCreating? && (s.listener.Busy? ==> s.listener.tell.Deciding?)
    ensures s.main.MainCreating? ==> s.listener.Busy? ==> s.listener.tell.Deciding?
  {
    var ph := ReachableInv(cfg, snap, s);
    BatonIsExclusive(cfg, snap, s, ph);
    assert forall i: nat | i < |s.binders| && InHook(s.binders[i]) :: BinderInSection(s, i);
  }

  /** No send or close hits a closed channel, no nil map is written, at most one token crosses the
      stop channel, and `stop` is closed only by a `Run` that has received it or could not start. */
  lemma StopHandshake(cfg: Config, snap: Snapshot, s: State)
    requires Sound(cfg, snap) && Inert(cfg, snap) && Calm(cfg) && Reachable(cfg, snap, s)
    ensures !s.panicked && s.tokens <= 1
    ensures s.stopClosed <==> s.main.Returned?
    ensures s.main == Returned(true) ==> s.tokens == 1
    ensures s.main == Returned(false) ==> s.tokens == 0 && s.data.pods == []
    ensures s.main.Returned? ==> s.data.closed
  {
    var ph := ReachableInv(cfg, snap, s);
    hide Placements, Records, Storage, QueuedBystanders, IgnoredEvents, TotalCapacity, StoppedFull, StoppedAtLimit,
      TemplateKey, Made, LimitReason, IsRefusedPod, NodeName, RefusalReason, BindingState;
  }

  // ---------------------------------------------------------------- progress

  lemma QueuedMoves(cfg: Config, s: State, key: Key) returns (a: Action)
    requires !s.panicked && Undecided(s, key) && |s.free| == |cfg.nodes|
    ensures Enabled(cfg, s, a)
  {
    if FitsSomewhere(s.free, s.data.store[key].requests) {
      var i :| 0 <= i < |s.free| && Fits(s.free[i], s.data.store[key].requests);
      a := Assume(key, i);
    } else {
      a := Refuse(key, "");
    }
  }

  /** While the baton has not come to rest, its holder can move. */
  lemma BatonMoves(cfg: Config, snap: Snapshot, s: State, ph: Phase) returns (a: Action)
    requires Inv(cfg, snap, s, ph) && |snap.free| == |cfg.nodes|
    requires !ph.Collided? && !(ph.Ended? && s.main.Returned?)
    ensures Enabled(cfg, s, a)
  {
    var n := Placed(s);
    hide Records, Storage, QueuedBystanders, IgnoredEvents, TotalCapacity, NodeName, TemplateKey, CountOn, NodeCapacity,
      Fits, FitsSomewhere, Made, AllFinished, StoppedFull, StoppedAtLimit, Stamp, Generated, LimitReason, CreationState,
      RefusalReason, Recorded, LimitReached;
    assert |s.free| == |snap.free|;
    hide Placements;
    GeneratedPods(cfg, n);
    match ph
    case BeingMade(_) => a := if n == 0 then MainStep else BinderStep(n - 1);
    case Queued => a := QueuedMoves(cfg, s, TemplateKey(cfg, n));
    case BeingBound => a := BinderStep(n - 1);
    case RefusalPending(_) => a := if s.listener.Idle? then Deliver(0) else ListenerStep;
    case RefusalHandled => a := ListenerStep;
    case Ended(_) => a := MainStep;
  }

  /** Where a complete run has come to rest. */
  lemma AtRest(cfg: Config, snap: Snapshot, s: State, ph: Phase)
    requires Inv(cfg, snap, s, ph) && |snap.free| == |cfg.nodes| && Complete(cfg, s)
    ensures (ph.Ended? && s.main == Returned(true))
         || (ph.Collided? && s.main == if Placed(s) == 0 then Returned(false) else Receiving)
  {
    hide Inv;
    if !ph.Collided? && !(ph.Ended? && s.main.Returned?) {
      var a := BatonMoves(cfg, snap, s, ph);
      assert false;
    }
    assert !Enabled(cfg, s, MainStep);
    AtRestMain(cfg, snap, s, ph);
  }

  lemma AtRestMain(cfg: Config, snap: Snapshot, s: State, ph: Phase)
    requires Inv(cfg, snap, s, ph) && !Enabled(cfg, s, MainStep) && (ph.Ended? || ph.Collided?)
    ensures ph.Ended? ==> s.main == Returned(true)
    ensures ph.Collided? ==> s.main == if Placed(s) == 0 then Returned(false) else Receiving
  {
    hide Placements, Records, Storage, QueuedBystanders, IgnoredEvents, TotalCapacity, StoppedFull, StoppedAtLimit;
  }

  // ---------------------------------------------------------------- how a run ends

  /** What a run that returned without error has recorded. The pod after the last recorded one is the one
      that was refused. */
  ghost predicate Succeeded(cfg: Config, snap: Snapshot, s: State) {
    && s.main == Returned(true)
    && |s.data.pods| == Expected(cfg, snap)
    && CountsMade(cfg, s.data, Needed(cfg, snap))
    && s.data.store.Keys == snap.store.Keys + MadeKeys(cfg, Needed(cfg, snap))
    && s.data.closed && (s.data.stopped <==> !LimitApplies(cfg, snap))
    && (if LimitApplies(cfg, snap) then s.data.stopReason == LimitReason(cfg)
        else VerdictOn(s.data.store, TemplateKey(cfg, Total(cfg, snap)), s.data.stopReason))
  }

  lemma EndedCounts(cfg: Config, snap: Snapshot, s: State, ph: Phase)
    requires Inv(cfg, snap, s, ph) && ph.Ended? && s.main == Returned(true)
    ensures Succeeded(cfg, snap, s) && NamesFree(cfg, snap, Needed(cfg, snap))
  {
    hide Records, QueuedBystanders, IgnoredEvents, TotalCapacity, CountOn, NodeCapacity, LimitReason, RefusalReason,
      TemplateKey;
  }

  lemma CollidedCounts(cfg: Config, snap: Snapshot, s: State, ph: Phase)
    requires Inv(cfg, snap, s, ph) && ph.Collided?
    ensures var k := |s.data.pods|;
            k < Needed(cfg, snap) && TemplateKey(cfg, k) in snap.store && NamesFree(cfg, snap, k) && k == Placed(s)
  {
    hide Records, QueuedBystanders, IgnoredEvents, TotalCapacity, CountOn, NodeCapacity, LimitReason, RefusalReason,
      TemplateKey;
  }

  /** The greedy count theorem. Whatever nodes the scheduler picks and however the goroutines interleave,
      a complete run ends in the one way the snapshot determines. If the names it needs are free, `Run`
      returns without error, has recorded exactly the expected number of pods, and gives the matching
      reason. Otherwise the first taken name decides: with name 0 taken `Run` returns an error, and with
      a later name taken `Run` waits for the stop token forever. */
  lemma GreedyCount(cfg: Config, snap: Snapshot, s: State)
    requires Sound(cfg, snap) && Inert(cfg, snap) && Calm(cfg) && Reachable(cfg, snap, s) && Complete(cfg, s)
    ensures NamesFree(cfg, snap, Needed(cfg, snap)) <==> s.main == Returned(true)
    ensures NamesFree(cfg, snap, Needed(cfg, snap)) ==> Succeeded(cfg, snap, s)
    ensures !NamesFree(cfg, snap, Needed(cfg, snap)) ==>
              var k := |s.data.pods|;
              && k < Needed(cfg, snap) && TemplateKey(cfg, k) in snap.store && NamesFree(cfg, snap, k)
              && s.main == if k == 0 then Returned(false) else Receiving
  {
    var ph := ReachableInv(cfg, snap, s);
    AtRest(cfg, snap, s, ph);
    hide Inv, TemplateKey, Needed, Expected, Succeeded;
    if ph.Ended? {
      EndedCounts(cfg, snap, s, ph);
    } else {
      CollidedCounts(cfg, snap, s, ph);
    }
  }

  /** The stop reason and the count of every run that returned without error, complete or not. */
  lemma StopReasonIsExact(cfg: Config, snap: Snapshot, s: State)
    requires Sound(cfg, snap) && Inert(cfg, snap) && Calm(cfg) && Reachable(cfg, snap, s) && s.main == Returned(true)
    ensures Succeeded(cfg, snap, s)
  {
    var ph := ReachableInv(cfg, snap, s);
    assert ph.Ended? by {
      hide Placements, Records, Storage, QueuedBystanders, IgnoredEvents, TotalCapacity;
    }
    EndedCounts(cfg, snap, s, ph);
  }

  /** There is a complete run, so the count above is always reached. */
  lemma SomeRunCompletes(cfg: Config, snap: Snapshot) returns (s: State)
    ensures Reachable(cfg, snap, s) && Complete(cfg, s)
  {
    var actions;
    actions, s := Termination.RunsComplete(cfg, snap, [], Start(cfg, snap));
  }

  /** Two complete runs agree on the number of recorded pods, whatever the scheduler did in each. */
  lemma RunsAgree(cfg: Config, snap: Snapshot, s: State, t: State)
    requires Sound(cfg, snap) && Inert(cfg, snap) && Calm(cfg)
    requires Reachable(cfg, snap, s) && Complete(cfg, s) && Reachable(cfg, snap, t) && Complete(cfg, t)
    ensures |s.data.pods| == |t.data.pods| && s.main == t.main
  {
    hide Needed, Expected, TemplateKey, Total, Sound, Inert, Reachable, Complete;
    GreedyCount(cfg, snap, s);
    GreedyCount(cfg, snap, t);
    if !NamesFree(cfg, snap, Needed(cfg, snap)) {
      var j, k := |s.data.pods|, |t.data.pods|;
      assert !(j < k) && !(k < j);
    }
  }

  lemma NothingFailedYet(cfg: Config, snap: Snapshot, s: State, ph: Phase, id: nat)
    requires Inv(cfg, snap, s, ph) && !ph.Collided?
    ensures !s.panicked && !s.main.AbortClosing? && !s.main.AbortClosingStop? && s.main != Returned(false)
    ensures id < |s.binders| ==> s.binders[id] != Finished(false)
  {
    hide Placements, Records, Storage, QueuedBystanders, IgnoredEvents, TotalCapacity, StoppedFull, StoppedAtLimit,
      Made, LimitReason, RefusalReason, TemplateKey, NodeName, TellingState, CreationState, CountsMade, Recorded;
  }

  /** If the names a run needs are free, no creation and no binding of any run ever fails. */
  lemma CreationNeverFails(cfg: Config, snap: Snapshot, s: State, id: nat)
    requires Sound(cfg, snap) && Inert(cfg, snap) && Calm(cfg) && Reachable(cfg, snap, s)
    requires NamesFree(cfg, snap, Needed(cfg, snap))
    ensures !s.panicked && !s.main.AbortClosing? && !s.main.AbortClosingStop? && s.main != Returned(false)
    ensures id < |s.binders| ==> s.binders[id] != Finished(false)
  {
    var ph := ReachableInv(cfg, snap, s);
    hide Inv, Needed, TemplateKey;
    if ph.Collided? {
      CollidedCounts(cfg, snap, s, ph);
      assert false;
    }
    NothingFailedYet(cfg, snap, s, ph, id);
  }

  // ---------------------------------------------------------------- what is recorded

  /** In every reachable state the i-th recorded pod is the i-th generated one: named after its index,
      running on a named node, annotated, and equal to the store's entry; all names differ. */
  lemma RecordMirrorsGeneration(cfg: Config, snap: Snapshot, s: State)
    requires Sound(cfg, snap) && Inert(cfg, snap) && Calm(cfg) && Reachable(cfg, snap, s)
    ensures forall i | 0 <= i < |s.data.pods| ::
              var pod := s.data.pods[i];
              && pod.name == TemplateName(cfg, i) && pod.namespace == cfg.template.namespace
              && pod.phase == RUNNING && pod.nodeName in cfg.nodes && pod.nodeName != "" && Provisioned(pod)
              && KeyOf(pod) in s.data.store && s.data.store[KeyOf(pod)] == pod
    ensures forall i, numeral | 0 <= i < |s.data.pods| && Decimal.IsNumeral(numeral) && Decimal.Read(numeral) == i ::
              Replica(cfg, numeral, s.data.pods[i])
    ensures forall i, j | 0 <= i < j < |s.data.pods| :: s.data.pods[i].name != s.data.pods[j].name
  {
    var ph := ReachableInv(cfg, snap, s);
    forall i | 0 <= i < |s.data.pods|
      ensures var pod := s.data.pods[i];
              && pod.name == TemplateName(cfg, i) && pod.namespace == cfg.template.namespace
              && pod.phase == RUNNING && pod.nodeName in cfg.nodes && pod.nodeName != "" && Provisioned(pod)
              && KeyOf(pod) in s.data.store && s.data.store[KeyOf(pod)] == pod
    {
      RecordedPod(cfg, snap, s, i);
    }
    forall i, numeral | 0 <= i < |s.data.pods| && Decimal.IsNumeral(numeral) && Decimal.Read(numeral) == i
      ensures Replica(cfg, numeral, s.data.pods[i])
    {
      RecordedPodIsReplica(cfg, snap, s, i, numeral);
    }
    hide Inv, Replica;
    forall i, j | 0 <= i < j < |s.data.pods|
      ensures s.data.pods[i].name != s.data.pods[j].name
    {
      if TemplateName(cfg, i) == TemplateName(cfg, j) {
        KeysDiffer(cfg, i, j);
      }
    }
  }

  /** The template as it runs: under its numbered name, on some node, with the provisioner annotation added to
      those it had, and otherwise unchanged. */
  predicate Replica(cfg: Config, numeral: string, pod: Pod) {
    var noted := if cfg.template.annotations.Some? then cfg.template.annotations.value else map[];
    pod == cfg.template.(
      name := cfg.template.name + "-" + numeral,
      nodeName := pod.nodeName,
      schedulerName := cfg.scheduler,
      phase := "Running",
      annotations := Some(noted["cc.kubernetes.io/provisioned-by" := cfg.scheduler]))
  }

  lemma RecordedPodIsReplica(cfg: Config, snap: Snapshot, s: State, i: nat, numeral: string)
    requires Sound(cfg, snap) && i < |s.data.pods| && Decimal.IsNumeral(numeral) && Decimal.Read(numeral) == i
    requires Placements(cfg, snap, s.assumed, s.free) && Records(cfg, s.data.store, s.data.pods, s.assumed)
    ensures Replica(cfg, numeral, s.data.pods[i])
  {
    MadeFromTemplate(cfg, i, numeral);
    assert s.data.pods[i].nodeName == cfg.nodes[s.assumed[i].node];
    hide TotalCapacity, NodeCapacity, Made;
  }

  lemma RecordedPod(cfg: Config, snap: Snapshot, s: State, i: nat)
    requires Sound(cfg, snap) && i < |s.data.pods|
    requires Placements(cfg, snap, s.assumed, s.free) && Records(cfg, s.data.store, s.data.pods, s.assumed)
    ensures var pod := s.data.pods[i];
            && pod.name == TemplateName(cfg, i) && pod.namespace == cfg.template.namespace
            && pod.phase == RUNNING && pod.nodeName in cfg.nodes && pod.nodeName != "" && Provisioned(pod)
            && KeyOf(pod) in s.data.store && s.data.store[KeyOf(pod)] == pod
  {
    GeneratedPods(cfg, i);
    assert s.data.pods[i].nodeName == cfg.nodes[s.assumed[i].node];
  }

  // ---------------------------------------------------------------- the record is frozen

  lemma ReturnedStays(cfg: Config, snap: Snapshot, s: State, ph: Phase, a: Action)
    requires Inv(cfg, snap, s, ph) && s.main == Returned(true) && Enabled(cfg, s, a)
    ensures Apply(cfg, s, a).main == Returned(true) && SameUnlocked(s.data, Apply(cfg, s, a).data)
  {
    assert ph.Ended? by {
      hide Placements, Records, Storage, QueuedBystanders, IgnoredEvents, TotalCapacity;
    }
    hide Placements, Records, Storage, QueuedBystanders, IgnoredEvents, TotalCapacity, StoppedFull, StoppedAtLimit;
  }

  lemma {:induction false} ReturnedRunsStay(cfg: Config, snap: Snapshot, s: State, ph: Phase, actions: seq<Action>,
                                            t: State)
    requires Inv(cfg, snap, s, ph) && s.main == Returned(true) && Runs(cfg, s, actions, t)
    ensures t.main == Returned(true) && SameUnlocked(s.data, t.data)
    decreases |actions|
  {
    hide Inv, Apply, Enabled;
    if actions != [] {
      ReturnedStays(cfg, snap, s, ph, actions[0]);
      var next := StepKeeps(cfg, snap, s, ph, actions[0]);
      ReturnedRunsStay(cfg, snap, Apply(cfg, s, actions[0]), next, actions[1..], t);
    }
  }

  /** Once `Run` has returned without error, nothing that still runs changes what was recorded. */
  lemma RecordIsFrozen(cfg: Config, snap: Snapshot, s: State, actions: seq<Action>, t: State)
    requires Sound(cfg, snap) && Inert(cfg, snap) && Calm(cfg) && Reachable(cfg, snap, s)
    requires s.main == Returned(true) && Runs(cfg, s, actions, t)
    ensures t.main == Returned(true) && SameUnlocked(s.data, t.data)
    ensures t.data.pods == s.data.pods && t.data.stopReason == s.data.stopReason
    ensures t.data.simulated == s.data.simulated && t.data.counter == s.data.counter && t.data.last == s.data.last
  {
    var ph := ReachableInv(cfg, snap, s);
    ReturnedRunsStay(cfg, snap, s, ph, actions, t);
  }
}
