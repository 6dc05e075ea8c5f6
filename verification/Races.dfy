/** When doing without a lock goes wrong: a waiting pod of the snapshot that could be placed or carries the
    provisioner annotation, or a template that carries a refusal from an earlier life. In each case some
    interleaving puts two goroutines inside the unlocked section; in no other case does any. */
module Races {
  import opened Options
  import opened Cluster
  import opened Capacity
  import opened Simulator
  import opened Protocol
  import opened Invariant
  import Outcome
  import Refinement
  import Unbound

  // ---------------------------------------------------------------- building runs

  lemma Then(cfg: Config, s0: State, before: seq<Action>, s: State, a: Action) returns (after: seq<Action>, t: State)
    requires Runs(cfg, s0, before, s) && Enabled(cfg, s, a)
    ensures t == Apply(cfg, s, a) && Runs(cfg, s0, after, t)
  {
    RunsThenStep(cfg, s0, before, s, a);
    after, t := before + [a], Apply(cfg, s, a);
  }

  /** A message that differs from what the pod was told before. */
  function News(pod: Pod): string {
    if Verdict(pod.conditions) == Some(Refusal("")) then "again" else ""
  }

  /** A listener at work on an annotated pod with a refusal among its conditions gets to that refusal. */
  lemma {:induction false} ListenerFinds(cfg: Config, s0: State, before: seq<Action>, s: State)
    returns (after: seq<Action>, t: State)
    requires Runs(cfg, s0, before, s) && !s.panicked && s.listener.Busy? && s.listener.tell.Deciding?
    requires Provisioned(s.listener.pod) && Refusals(s.listener.conditions) > 0
    ensures Runs(cfg, s0, after, t) && t.listener.Busy? && t == s.(listener := t.listener)
    ensures t.listener.tell.Deciding? && t.listener.conditions != []
    ensures StopsRun(t.listener.pod, t.listener.conditions[0])
    decreases |s.listener.conditions|
  {
    if IsRefusal(s.listener.conditions[0]) {
      after, t := before, s;
    } else {
      hide Runs, IsRefusal, RefusalReason, Provisioned;
      var next, s1 := Then(cfg, s0, before, s, ListenerStep);
      after, t := ListenerFinds(cfg, s0, next, s1);
    }
  }

  /** The refusal of an annotated pod, with news, reaches an idle listener. */
  lemma RefusalIsHeard(cfg: Config, s0: State, before: seq<Action>, s: State, key: Key)
    returns (after: seq<Action>, t: State)
    requires Runs(cfg, s0, before, s) && !s.panicked && s.listener.Idle? && s.events == [] && CanRefuse(s, key)
    requires Provisioned(s.data.store[key]) && s.data.store[key].schedulerName == cfg.scheduler
    ensures Runs(cfg, s0, after, t) && !t.panicked && t.main == s.main && t.stopClosed == s.stopClosed
    ensures t.data.pods == s.data.pods
    ensures t.listener.Busy? && t.listener.tell.Deciding? && t.listener.conditions != []
    ensures StopsRun(t.listener.pod, t.listener.conditions[0])
  {
    hide FitsSomewhere, Marked, Runs, Verdict;
    var pod := s.data.store[key];
    MarkedRefusals(pod.conditions, News(pod));
    var first, s1 := Then(cfg, s0, before, s, Refuse(key, News(pod)));
    assert s1.events == [Refused(pod, News(pod))];
    var second, s2 := Then(cfg, s0, first, s1, Deliver(0));
    hide Enabled, Apply;
    after, t := ListenerFinds(cfg, s0, second, s2);
  }

  // ---------------------------------------------------------------- pods of the snapshot that can move

  /** A foreign pod that fits is bound while the main goroutine still creates the first pod. */
  lemma ForeignBindingRaces(cfg: Config, snap: Snapshot, key: Key, i: nat) returns (s: State)
    requires Sound(cfg, snap) && key in snap.store
    requires snap.store[key].nodeName == "" && snap.store[key].schedulerName == cfg.scheduler
    requires i < |snap.free| && Fits(snap.free[i], snap.store[key].requests)
    ensures Reachable(cfg, snap, s) && MainInSection(s) && BinderInSection(s, 0)
  {
    var s0 := Start(cfg, snap);
    assert Runs(cfg, s0, [], s0);
    hide Fits, Shrink, Runs;
    var first, s1 := Then(cfg, s0, [], s0, Assume(key, i));
    var second, s2 := Then(cfg, s0, first, s1, BinderStep(0));
    var third;
    third, s := Then(cfg, s0, second, s2, BinderStep(0));
  }

  /** The refusal of an annotated foreign pod writes the stop reason while the first pod is created. */
  lemma ForeignRefusalRaces(cfg: Config, snap: Snapshot, key: Key) returns (s: State)
    requires Sound(cfg, snap) && key in snap.store
    requires snap.store[key].nodeName == "" && snap.store[key].schedulerName == cfg.scheduler
    requires Provisioned(snap.store[key]) && !FitsSomewhere(snap.free, snap.store[key].requests)
    ensures Reachable(cfg, snap, s) && MainInSection(s) && ListenerInSection(s)
  {
    hide FitsSomewhere, StopsRun;
    var s0 := Start(cfg, snap);
    assert Runs(cfg, s0, [], s0);
    var heard, s1 := RefusalIsHeard(cfg, s0, [], s0, key);
    var actions;
    actions, s := Then(cfg, s0, heard, s1, ListenerStep);
  }

  // ---------------------------------------------------------------- a template that carries a refusal

  /** The first pod is bound, and its binder has written it back but not recorded it yet. */
  lemma FirstPodWritten(cfg: Config, snap: Snapshot, i: nat) returns (actions: seq<Action>, s: State)
    requires Sound(cfg, snap) && TemplateKey(cfg, 0) !in snap.store
    requires i < |snap.free| && Fits(snap.free[i], cfg.template.requests)
    ensures Runs(cfg, Start(cfg, snap), actions, s) && !s.panicked && s.main == Receiving && !s.stopClosed
    ensures BinderInSection(s, 0) && s.data.pods == [] && s.listener.Idle? && |s.events| == 1
    ensures Provisioned(s.events[0]) && s.events[0].schedulerName == cfg.scheduler
    ensures s.events[0].conditions == cfg.template.conditions
  {
    var s0, key := Start(cfg, snap), TemplateKey(cfg, 0);
    GeneratedPods(cfg, 0);
    var made := Refinement.MainCreates(cfg, s0);
    hide Fits, Shrink, Runs, Refinement.Alone, Copy, CopyName, NodeName, Made;
    var first, s1 := Then(cfg, s0, Refinement.Alone(MainStep, 5), made, Assume(key, i));
    var second, s2 := Then(cfg, s0, first, s1, BinderStep(0));
    actions, s := Then(cfg, s0, second, s2, BinderStep(0));
  }

  /** Announcing the bound pod makes the listener believe that it has just been refused. */
  lemma StaleRefusalIsHeard(cfg: Config, snap: Snapshot, i: nat) returns (actions: seq<Action>, s: State)
    requires Sound(cfg, snap) && TemplateKey(cfg, 0) !in snap.store && !Calm(cfg)
    requires i < |snap.free| && Fits(snap.free[i], cfg.template.requests)
    ensures Runs(cfg, Start(cfg, snap), actions, s) && !s.panicked && s.main == Receiving && !s.stopClosed
    ensures BinderInSection(s, 0) && s.data.pods == []
    ensures s.listener.Busy? && s.listener.tell.Deciding? && s.listener.conditions != []
    ensures StopsRun(s.listener.pod, s.listener.conditions[0])
  {
    NoRefusals(cfg.template.conditions);
    var s0 := Start(cfg, snap);
    var written, s1 := FirstPodWritten(cfg, snap, i);
    hide Runs, Fits, IsRefusal, Provisioned, TemplateKey;
    var delivered, s2 := Then(cfg, s0, written, s1, Deliver(0));
    actions, s := ListenerFinds(cfg, s0, delivered, s2);
  }

  /** So the listener writes the stop reason while the binder of the first pod is in its hook. */
  lemma StaleRefusalRaces(cfg: Config, snap: Snapshot, i: nat) returns (s: State)
    requires Sound(cfg, snap) && TemplateKey(cfg, 0) !in snap.store && !Calm(cfg)
    requires i < |snap.free| && Fits(snap.free[i], cfg.template.requests)
    ensures Reachable(cfg, snap, s) && BinderInSection(s, 0) && ListenerInSection(s)
  {
    var heard, s1 := StaleRefusalIsHeard(cfg, snap, i);
    hide Runs, StopsRun, TemplateKey, Fits, Calm;
    var actions;
    actions, s := Then(cfg, Start(cfg, snap), heard, s1, ListenerStep);
  }

  // ---------------------------------------------------------------- the exact condition

  /** Whether the simulator ever binds one of its own pods. */
  predicate BindsSome(cfg: Config, snap: Snapshot) {
    TotalCapacity(snap.free, cfg.template.requests) > 0 && TemplateKey(cfg, 0) !in snap.store
  }

  lemma SafeIsExclusive(cfg: Config, snap: Snapshot, s: State)
    requires Sound(cfg, snap) && Inert(cfg, snap) && (BindsSome(cfg, snap) ==> Calm(cfg))
    requires Reachable(cfg, snap, s)
    ensures Exclusive(s)
  {
    if Calm(cfg) {
      Outcome.MutualExclusion(cfg, snap, s);
    } else {
      Unbound.ExclusiveWithoutBinding(cfg, snap, s);
    }
  }

  /** Doing without a lock is safe in all interleavings exactly when the snapshot's own waiting pods are
      inert and, should any replica be bound, the template carries no refusal. */
  lemma ExclusiveExactly(cfg: Config, snap: Snapshot)
    requires Sound(cfg, snap)
    ensures (forall s :: Reachable(cfg, snap, s) ==> Exclusive(s))
       <==> Inert(cfg, snap) && (BindsSome(cfg, snap) ==> Calm(cfg))
  {
    hide Sound, Reachable, Exclusive, Calm, TotalCapacity, TemplateKey;
    if Inert(cfg, snap) && (BindsSome(cfg, snap) ==> Calm(cfg)) {
      forall s | Reachable(cfg, snap, s)
        ensures Exclusive(s)
      {
        SafeIsExclusive(cfg, snap, s);
      }
    } else {
      var s := SomeRace(cfg, snap);
    }
  }

  lemma SomeRace(cfg: Config, snap: Snapshot) returns (s: State)
    requires Sound(cfg, snap) && !(Inert(cfg, snap) && (BindsSome(cfg, snap) ==> Calm(cfg)))
    ensures Reachable(cfg, snap, s) && !Exclusive(s)
  {
    hide Sound, Reachable, Calm, TotalCapacity, TemplateKey, Provisioned;
    if key :| key in Waiting(cfg, snap.store) && !InertPod(snap.store[key], snap.free) {
      if i :| 0 <= i < |snap.free| && Fits(snap.free[i], snap.store[key].requests) {
        s := ForeignBindingRaces(cfg, snap, key, i);
      } else {
        s := ForeignRefusalRaces(cfg, snap, key);
      }
    } else {
      TotalIsZero(snap.free, cfg.template.requests);
      var i :| 0 <= i < |snap.free| && Fits(snap.free[i], cfg.template.requests);
      s := StaleRefusalRaces(cfg, snap, i);
    }
  }
}
