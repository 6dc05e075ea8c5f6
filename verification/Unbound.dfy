/** Runs in which nothing is ever bound, because the cluster takes no replica or because the first name is
    taken. They need no assumption on the template: there is no binder to race with. */
module Unbound {
  import opened Cluster
  import opened Capacity
  import opened Simulator
  import opened Protocol
  import opened Invariant

  /** No pod has been placed, and none of those that wait fits. */
  ghost predicate NothingBound(snap: Snapshot, s: State) {
    && s.assumed == [] && s.binders == [] && s.free == snap.free
    && snap.store.Keys <= s.data.store.Keys
    && forall key | key in s.queue && key in s.data.store :: !FitsSomewhere(s.free, s.data.store[key].requests)
  }

  /** Nothing that waits, is announced or is being looked at carries the provisioner annotation. */
  ghost predicate Silent(s: State) {
    && (forall key | key in s.queue && key in s.data.store :: !Provisioned(s.data.store[key]))
    && (forall pod | pod in s.events :: !Provisioned(pod))
    && (s.listener.Busy? ==> s.listener.tell.Deciding? && !Provisioned(s.listener.pod))
  }

  lemma StartsUnbound(cfg: Config, snap: Snapshot)
    requires Inert(cfg, snap)
    ensures NothingBound(snap, Start(cfg, snap)) && Silent(Start(cfg, snap))
  {
    hide FitsSomewhere, Provisioned;
  }

  lemma NothingToAssume(cfg: Config, snap: Snapshot, s: State)
    requires NothingBound(snap, s)
    ensures forall key, i :: !CanAssume(cfg, s, key, i)
  {
    forall key, i
      ensures !CanAssume(cfg, s, key, i)
    {
      if Undecided(s, key) {
        assert !FitsSomewhere(s.free, s.data.store[key].requests);
      }
    }
  }

  lemma StaysUnbound(cfg: Config, snap: Snapshot, s: State, a: Action)
    requires NothingBound(snap, s) && Enabled(cfg, s, a) && !a.MainStep?
    ensures NothingBound(snap, Apply(cfg, s, a))
  {
    NothingToAssume(cfg, snap, s);
    hide StopsRun, RefusalReason, Provisioned, CanAssume, FitsSomewhere, CanSend;
  }

  lemma StaysSilent(cfg: Config, snap: Snapshot, s: State, a: Action)
    requires NothingBound(snap, s) && Silent(s) && Enabled(cfg, s, a) && !a.MainStep?
    ensures var t := Apply(cfg, s, a);
            Silent(t) && t.main == s.main && t.panicked == s.panicked && t.data == s.data.(store := t.data.store)
  {
    NothingToAssume(cfg, snap, s);
    hide RefusalReason, IsRefusal, CanSend, CanAssume, FitsSomewhere;
  }

  // ---------------------------------------------------------------- without a binder there is no race

  ghost predicate CreatesAlone(cfg: Config, snap: Snapshot, s: State) {
    && NothingBound(snap, s)
    && (s.main.MainCreating? ==> Silent(s) && CreationState(cfg, s.data, 0, s.main.creating))
  }

  lemma MainCreatesAlone(cfg: Config, snap: Snapshot, s: State)
    requires CreatesAlone(cfg, snap, s) && Enabled(cfg, s, MainStep)
    requires TotalCapacity(snap.free, cfg.template.requests) == 0 || TemplateKey(cfg, 0) in snap.store
    ensures CreatesAlone(cfg, snap, Apply(cfg, s, MainStep))
  {
    if s.main.MainCreating? {
      CreationKeeps(cfg, s, 0, s.main.creating);
      TotalIsZero(snap.free, cfg.template.requests);
      GeneratedPods(cfg, 0);
    }
    hide CreateStep, TotalCapacity, FitsSomewhere, Made, Generated, TemplateKey, Provisioned, CreationState, Silent;
    var t := Apply(cfg, s, MainStep);
    if t.main.MainCreating? {
      SilentFrame(s, t);
    }
  }

  lemma SilentFrame(s: State, t: State)
    requires Silent(s) && t.queue == s.queue && t.data.store == s.data.store
    requires t.events == s.events && t.listener == s.listener
    ensures Silent(t)
  {
  }

  lemma {:induction false} RunCreatesAlone(cfg: Config, snap: Snapshot, s: State, actions: seq<Action>, t: State)
    requires CreatesAlone(cfg, snap, s) && Runs(cfg, s, actions, t)
    requires TotalCapacity(snap.free, cfg.template.requests) == 0 || TemplateKey(cfg, 0) in snap.store
    ensures CreatesAlone(cfg, snap, t)
    decreases |actions|
  {
    hide Enabled, Apply, NothingBound, Silent, TotalCapacity, TemplateKey;
    if actions != [] {
      var a := actions[0];
      if a.MainStep? {
        MainCreatesAlone(cfg, snap, s);
      } else {
        StaysUnbound(cfg, snap, s, a);
        MainStays(cfg, snap, s, a);
        if s.main.MainCreating? {
          StaysSilent(cfg, snap, s, a);
        }
      }
      RunCreatesAlone(cfg, snap, Apply(cfg, s, a), actions[1..], t);
    }
  }

  lemma MainStays(cfg: Config, snap: Snapshot, s: State, a: Action)
    requires NothingBound(snap, s) && Enabled(cfg, s, a) && !a.MainStep?
    ensures Apply(cfg, s, a).main.MainCreating? ==> s.main.MainCreating?
  {
    NothingToAssume(cfg, snap, s);
    hide StopsRun, RefusalReason, FitsSomewhere, CanAssume;
  }

  /** If nothing can be bound, no interleaving has two goroutines inside the section. */
  lemma ExclusiveWithoutBinding(cfg: Config, snap: Snapshot, s: State)
    requires Inert(cfg, snap) && Reachable(cfg, snap, s)
    requires TotalCapacity(snap.free, cfg.template.requests) == 0 || TemplateKey(cfg, 0) in snap.store
    ensures Exclusive(s)
  {
    var actions :| Runs(cfg, Start(cfg, snap), actions, s);
    StartsUnbound(cfg, snap);
    RunCreatesAlone(cfg, snap, Start(cfg, snap), actions, s);
  }

  // ---------------------------------------------------------------- nobody left to send the token

  /** `Run` waits and nothing is left that could make anyone send. */
  ghost predicate Stuck(snap: Snapshot, s: State) {
    NothingBound(snap, s) && Silent(s) && s.main == Receiving && !s.panicked
  }

  lemma {:induction false} StuckForever(cfg: Config, snap: Snapshot, s: State, actions: seq<Action>, t: State)
    requires Stuck(snap, s) && Runs(cfg, s, actions, t)
    ensures Stuck(snap, t)
    decreases |actions|
  {
    if actions != [] {
      assert !Enabled(cfg, s, MainStep);
      hide Enabled, Apply, NothingBound, Silent;
      StaysUnbound(cfg, snap, s, actions[0]);
      StaysSilent(cfg, snap, s, actions[0]);
      StuckForever(cfg, snap, Apply(cfg, s, actions[0]), actions[1..], t);
    }
  }
}
