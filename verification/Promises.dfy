/** What a run promises its user, and exactly when every run keeps it. */
module Promises {
  import opened Cluster
  import opened Capacity
  import opened Simulator
  import opened Protocol
  import opened Invariant
  import opened Offers
  import opened Races
  import Outcome
  import Refinement
  import Termination
  import Unbound

  /** Nothing has panicked, the record consists of the generated pods in order, a returned `Run` has the
      promised count and reason, and a complete run has returned. */
  ghost predicate Keeps(cfg: Config, snap: Snapshot, s: State) {
    && !s.panicked
    && (forall i | 0 <= i < |s.data.pods| :: KeyOf(s.data.pods[i]) == TemplateKey(cfg, i))
    && (s.main == Returned(true) ==> Outcome.Succeeded(cfg, snap, s))
    && (Complete(cfg, s) ==> s.main == Returned(true))
  }

  // ---------------------------------------------------------------- how promises are broken

  /** A foreign pod that fits can become the first recorded replica. */
  lemma ForeignPodIsRecorded(cfg: Config, snap: Snapshot, key: Key, i: nat) returns (s: State)
    requires Sound(cfg, snap) && key in snap.store
    requires snap.store[key].nodeName == "" && snap.store[key].schedulerName == cfg.scheduler
    requires i < |snap.free| && Fits(snap.free[i], snap.store[key].requests)
    ensures Reachable(cfg, snap, s) && |s.data.pods| == 1 && KeyOf(s.data.pods[0]) == key
  {
    var s0 := Start(cfg, snap);
    assert Runs(cfg, s0, [], s0);
    hide Fits, Shrink, Runs;
    var first, s1 := Then(cfg, s0, [], s0, Assume(key, i));
    var second, s2 := Then(cfg, s0, first, s1, BinderStep(0));
    var third, s3 := Then(cfg, s0, second, s2, BinderStep(0));
    var fourth;
    fourth, s := Then(cfg, s0, third, s3, BinderStep(0));
  }

  /** Once the listener has decided on a refusal while `Run` waits, `Run` can return with the record as it
      stands. */
  lemma RefusalEndsRun(cfg: Config, s0: State, before: seq<Action>, s: State) returns (after: seq<Action>, t: State)
    requires Runs(cfg, s0, before, s) && !s.panicked && s.main == Receiving && !s.stopClosed
    requires s.listener.Busy? && s.listener.tell.Deciding? && s.listener.conditions != []
    requires StopsRun(s.listener.pod, s.listener.conditions[0])
    ensures t.main == Returned(true) && t.data.pods == s.data.pods && Runs(cfg, s0, after, t)
  {
    hide StopsRun, RefusalReason, Runs;
    var told, k := Refinement.CallbackIsARun(cfg, s);
    RunsCompose(cfg, s0, before, s, Refinement.Alone(ListenerStep, k), told);
    var sent, s1 := Then(cfg, s0, before + Refinement.Alone(ListenerStep, k), told, ListenerStep);
    after, t := Then(cfg, s0, sent, s1, MainStep);
  }

  /** The state in which `Run` waits for the fate of the first pod. */
  lemma FirstPodMade(cfg: Config, snap: Snapshot) returns (actions: seq<Action>, s: State)
    requires TemplateKey(cfg, 0) !in snap.store
    ensures Runs(cfg, Start(cfg, snap), actions, s)
    ensures s.data.store == snap.store[TemplateKey(cfg, 0) := Made(cfg, 0)] && s.data.pods == []
    ensures s == Start(cfg, snap).(data := s.data, main := Receiving,
                                   queue := Waiting(cfg, snap.store) + {TemplateKey(cfg, 0)})
  {
    GeneratedPods(cfg, 0);
    s := Refinement.MainCreates(cfg, Start(cfg, snap));
    actions := Refinement.Alone(MainStep, 5);
  }

  /** The refusal of an annotated foreign pod can end the run before any replica is placed. */
  lemma ForeignRefusalEndsRun(cfg: Config, snap: Snapshot, key: Key) returns (s: State)
    requires Sound(cfg, snap) && key in snap.store && TemplateKey(cfg, 0) !in snap.store
    requires snap.store[key].nodeName == "" && snap.store[key].schedulerName == cfg.scheduler
    requires Provisioned(snap.store[key]) && !FitsSomewhere(snap.free, snap.store[key].requests)
    ensures Reachable(cfg, snap, s) && s.main == Returned(true) && s.data.pods == []
  {
    hide FitsSomewhere, StopsRun, TemplateKey, Runs;
    var s0 := Start(cfg, snap);
    var made, s1 := FirstPodMade(cfg, snap);
    var heard, s2 := RefusalIsHeard(cfg, s0, made, s1, key);
    var ended;
    ended, s := RefusalEndsRun(cfg, s0, heard, s2);
  }

  /** A refusal in the template ends the run at the first binding, with nothing recorded. */
  lemma StaleRefusalEndsRun(cfg: Config, snap: Snapshot, i: nat) returns (s: State)
    requires Sound(cfg, snap) && TemplateKey(cfg, 0) !in snap.store && !Calm(cfg)
    requires i < |snap.free| && Fits(snap.free[i], cfg.template.requests)
    ensures Reachable(cfg, snap, s) && s.main == Returned(true) && s.data.pods == []
  {
    hide StopsRun, TemplateKey, Fits, Runs, Calm;
    var heard, s1 := StaleRefusalIsHeard(cfg, snap, i);
    var ended;
    ended, s := RefusalEndsRun(cfg, Start(cfg, snap), heard, s1);
  }

  lemma OwnPodUnfit(cfg: Config, snap: Snapshot, s: State)
    requires TotalCapacity(snap.free, cfg.template.requests) == 0 && s.free == snap.free
    requires TemplateKey(cfg, 0) in s.queue && TemplateKey(cfg, 0) in s.data.store
    requires s.data.store[TemplateKey(cfg, 0)] == Made(cfg, 0)
    ensures CanRefuse(s, TemplateKey(cfg, 0)) && Provisioned(Made(cfg, 0))
    ensures Made(cfg, 0).schedulerName == cfg.scheduler && Made(cfg, 0).conditions == cfg.template.conditions
  {
    GeneratedPods(cfg, 0);
    TotalIsZero(snap.free, cfg.template.requests);
  }

  /** On a full cluster, a template whose verdict is the very refusal that the scheduler is about to give
      makes `Run` wait forever: nothing is written, so nobody is told. */
  lemma SameRefusalHangs(cfg: Config, snap: Snapshot) returns (s: State)
    requires Inert(cfg, snap) && TemplateKey(cfg, 0) !in snap.store
    requires TotalCapacity(snap.free, cfg.template.requests) == 0
    requires Verdict(cfg.template.conditions).Some? && IsRefusal(Verdict(cfg.template.conditions).value)
    ensures Reachable(cfg, snap, s)
    ensures forall actions, t | Runs(cfg, s, actions, t) :: t.main == Receiving
  {
    var key, message := TemplateKey(cfg, 0), Verdict(cfg.template.conditions).value.message;
    var s0 := Start(cfg, snap);
    Unbound.StartsUnbound(cfg, snap);
    var made, s1 := FirstPodMade(cfg, snap);
    OwnPodUnfit(cfg, snap, s1);
    MarkedRefusals(cfg.template.conditions, message);
    hide Runs, FitsSomewhere, TotalCapacity, Marked, Provisioned, TemplateKey, Made;
    var ended;
    ended, s := Then(cfg, s0, made, s1, Refuse(key, message));
    assert Unbound.Stuck(snap, s);
    hide Unbound.Stuck;
    forall actions, t | Runs(cfg, s, actions, t)
      ensures t.main == Receiving
    {
      Unbound.StuckForever(cfg, snap, s, actions, t);
      StuckWaits(snap, t);
    }
  }

  lemma StuckWaits(snap: Snapshot, s: State)
    requires Unbound.Stuck(snap, s)
    ensures s.main == Receiving
  {
  }

  /** On a full cluster, a refusal in the template that is not its verdict joins the scheduler's own: the
      token is offered twice. */
  lemma HiddenRefusalPanics(cfg: Config, snap: Snapshot) returns (s: State)
    requires TemplateKey(cfg, 0) !in snap.store && TotalCapacity(snap.free, cfg.template.requests) == 0
    requires !Calm(cfg)
    requires !(Verdict(cfg.template.conditions).Some? && IsRefusal(Verdict(cfg.template.conditions).value))
    ensures Reachable(cfg, snap, s) && s.panicked
  {
    var key := TemplateKey(cfg, 0);
    NoRefusals(cfg.template.conditions);
    var made, s1 := FirstPodMade(cfg, snap);
    OwnPodUnfit(cfg, snap, s1);
    MarkedRefusals(cfg.template.conditions, "");
    hide Runs, FitsSomewhere, TotalCapacity, Marked, Refusals, TemplateKey, Made, Verdict;
    var refused, s2 := Then(cfg, Start(cfg, snap), made, s1, Refuse(key, ""));
    PendingGrows(cfg, s1.events, Refused(s1.data.store[key], ""));
    s := PanicsAtLast(cfg, snap, refused, s2);
  }

  lemma PanicsAtLast(cfg: Config, snap: Snapshot, before: seq<Action>, s: State) returns (t: State)
    requires Runs(cfg, Start(cfg, snap), before, s) && Offered(cfg, s) >= 2
    ensures Reachable(cfg, snap, t) && t.panicked
  {
    hide Runs, Offered;
    assert Reachable(cfg, snap, s);
    var actions;
    actions, t := Termination.RunsComplete(cfg, snap, before, s);
    TwoOffersPanic(cfg, snap, s, actions, t);
  }

  /** On a full cluster, the refusals of an annotated foreign pod and of the first replica are one too many. */
  lemma ForeignRefusalPanics(cfg: Config, snap: Snapshot, key: Key) returns (s: State)
    requires Sound(cfg, snap) && key in snap.store && Provisioned(snap.store[key])
    requires snap.store[key].nodeName == "" && snap.store[key].schedulerName == cfg.scheduler
    requires !FitsSomewhere(snap.free, snap.store[key].requests)
    requires TemplateKey(cfg, 0) !in snap.store && TotalCapacity(snap.free, cfg.template.requests) == 0
    ensures Reachable(cfg, snap, s) && s.panicked
  {
    var own, pod := TemplateKey(cfg, 0), snap.store[key];
    var made, s1 := FirstPodMade(cfg, snap);
    OwnPodUnfit(cfg, snap, s1);
    MarkedRefusals(pod.conditions, News(pod));
    MarkedRefusals(cfg.template.conditions, News(Made(cfg, 0)));
    hide Runs, FitsSomewhere, TotalCapacity, Marked, Refusals, TemplateKey, Made, Verdict;
    var first, s2 := Then(cfg, Start(cfg, snap), made, s1, Refuse(key, News(pod)));
    PendingGrows(cfg, s1.events, Refused(pod, News(pod)));
    var second, s3 := Then(cfg, Start(cfg, snap), first, s2, Refuse(own, News(Made(cfg, 0))));
    PendingGrows(cfg, s2.events, Refused(Made(cfg, 0), News(Made(cfg, 0))));
    s := PanicsAtLast(cfg, snap, second, s3);
  }

  // ---------------------------------------------------------------- the exact condition

  lemma SafeKeeps(cfg: Config, snap: Snapshot, s: State)
    requires Sound(cfg, snap) && Outcome.NamesFree(cfg, snap, Outcome.Needed(cfg, snap))
    requires Inert(cfg, snap) && Calm(cfg) && Reachable(cfg, snap, s)
    ensures Keeps(cfg, snap, s)
  {
    hide Sound, Inert, TotalCapacity, TemplateKey, Reachable, Complete, Outcome.Succeeded;
    Outcome.StopHandshake(cfg, snap, s);
    Outcome.RecordMirrorsGeneration(cfg, snap, s);
    RecordKeys(cfg, s);
    if s.main == Returned(true) {
      Outcome.StopReasonIsExact(cfg, snap, s);
    }
    if Complete(cfg, s) {
      Outcome.GreedyCount(cfg, snap, s);
    }
  }

  lemma RecordKeys(cfg: Config, s: State)
    requires forall i | 0 <= i < |s.data.pods| ::
               s.data.pods[i].name == TemplateName(cfg, i) && s.data.pods[i].namespace == cfg.template.namespace
    ensures forall i | 0 <= i < |s.data.pods| :: KeyOf(s.data.pods[i]) == TemplateKey(cfg, i)
  {
  }

  lemma EmptyIsTooFew(cfg: Config, snap: Snapshot, s: State)
    requires Outcome.Total(cfg, snap) > 0 && s.main == Returned(true) && s.data.pods == []
    ensures !Keeps(cfg, snap, s)
  {
    hide TotalCapacity;
  }

  lemma ForeignPodBreaks(cfg: Config, snap: Snapshot, key: Key) returns (s: State)
    requires Sound(cfg, snap) && key in Waiting(cfg, snap.store) && !InertPod(snap.store[key], snap.free)
    requires TemplateKey(cfg, 0) !in snap.store
    ensures Reachable(cfg, snap, s) && !Keeps(cfg, snap, s)
  {
    hide Sound, Reachable, Complete, TotalCapacity, TemplateKey, Provisioned, Outcome.Succeeded;
    if i :| 0 <= i < |snap.free| && Fits(snap.free[i], snap.store[key].requests) {
      s := ForeignPodIsRecorded(cfg, snap, key, i);
      assert KeyOf(s.data.pods[0]) != TemplateKey(cfg, 0);
    } else if Outcome.Total(cfg, snap) > 0 {
      s := ForeignRefusalEndsRun(cfg, snap, key);
      EmptyIsTooFew(cfg, snap, s);
    } else {
      s := ForeignRefusalPanics(cfg, snap, key);
    }
  }

  lemma StaleRefusalBreaks(cfg: Config, snap: Snapshot) returns (s: State)
    requires Sound(cfg, snap) && Inert(cfg, snap) && !Calm(cfg) && TemplateKey(cfg, 0) !in snap.store
    ensures Reachable(cfg, snap, s) && !Keeps(cfg, snap, s)
  {
    hide Sound, Inert, Complete, TotalCapacity, TemplateKey, Calm, Outcome.Succeeded, Runs, IsRefusal, Verdict;
    if Outcome.Total(cfg, snap) > 0 {
      TotalIsZero(snap.free, cfg.template.requests);
      var i :| 0 <= i < |snap.free| && Fits(snap.free[i], cfg.template.requests);
      s := StaleRefusalEndsRun(cfg, snap, i);
      EmptyIsTooFew(cfg, snap, s);
    } else if Verdict(cfg.template.conditions).Some? && IsRefusal(Verdict(cfg.template.conditions).value) {
      var waiting := SameRefusalHangs(cfg, snap);
      var before :| Runs(cfg, Start(cfg, snap), before, waiting);
      var actions;
      actions, s := Termination.RunsComplete(cfg, snap, before, waiting);
    } else {
      s := HiddenRefusalPanics(cfg, snap);
    }
  }

  /** Where the names a run needs are free, all runs keep their promises exactly when the snapshot's own
      waiting pods are inert and the template carries no refusal. */
  lemma KeptExactly(cfg: Config, snap: Snapshot)
    requires Sound(cfg, snap) && Outcome.NamesFree(cfg, snap, Outcome.Needed(cfg, snap))
    ensures (forall s :: Reachable(cfg, snap, s) ==> Keeps(cfg, snap, s)) <==> Inert(cfg, snap) && Calm(cfg)
  {
    assert TemplateKey(cfg, 0) !in snap.store;
    hide Sound, Reachable, Keeps, Calm, TemplateKey, Outcome.NamesFree, Outcome.Needed, InertPod;
    if Inert(cfg, snap) && Calm(cfg) {
      forall s | Reachable(cfg, snap, s)
        ensures Keeps(cfg, snap, s)
      {
        SafeKeeps(cfg, snap, s);
      }
    } else if key :| key in Waiting(cfg, snap.store) && !InertPod(snap.store[key], snap.free) {
      var s := ForeignPodBreaks(cfg, snap, key);
    } else {
      var s := StaleRefusalBreaks(cfg, snap);
    }
  }
}
