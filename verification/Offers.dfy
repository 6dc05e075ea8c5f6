/** The stop token is offered once for every refusal of an annotated pod that reaches the listener, but
    `Run` receives only once. A second offer finds the channel closed, sooner or later. */
module Offers {
  import opened Cluster
  import opened Simulator
  import opened Protocol

  /** The tokens that will be offered when the informer announces the pod. */
  function Offering(cfg: Config, pod: Pod): nat {
    if pod.schedulerName == cfg.scheduler && Provisioned(pod) then Refusals(pod.conditions) else 0
  }

  function Pending(cfg: Config, events: seq<Pod>): nat {
    if events == [] then 0 else Offering(cfg, events[0]) + Pending(cfg, events[1..])
  }

  function InHand(listener: Listener): nat {
    if listener.Busy? && Provisioned(listener.pod) then Refusals(listener.conditions) else 0
  }

  /** The tokens received so far and those the listener is bound to offer. */
  function Offered(cfg: Config, s: State): nat {
    s.tokens + Pending(cfg, s.events) + InHand(s.listener)
  }

  lemma {:induction false} PendingGrows(cfg: Config, events: seq<Pod>, pod: Pod)
    ensures Pending(cfg, events + [pod]) == Pending(cfg, events) + Offering(cfg, pod)
  {
    if events == [] {
      assert [pod][1..] == [];
    } else {
      assert (events + [pod])[1..] == events[1..] + [pod];
      PendingGrows(cfg, events[1..], pod);
    }
  }

  /** What holds in every run, whatever the snapshot and the template. */
  predicate Shape(s: State) {
    && (s.stopClosed <==> s.main.Returned?)
    && (!s.panicked ==> s.tokens == if s.main == ClosingStop || s.main == Returned(true) then 1 else 0)
    && (s.listener.Busy? && !s.listener.tell.Deciding? ==>
          s.listener.conditions != [] && StopsRun(s.listener.pod, s.listener.conditions[0]))
  }

  lemma ShapeKept(cfg: Config, s: State, a: Action)
    requires Shape(s) && Enabled(cfg, s, a)
    ensures Shape(Apply(cfg, s, a))
  {
    match a
    case BinderStep(id) => BinderTouches(cfg, s, id);
    case ListenerStep => ListenerShape(s);
    case MainStep => MainShape(cfg, s);
    case _ =>
  }

  lemma MainShape(cfg: Config, s: State)
    requires Shape(s) && !s.panicked && MainCanStep(s)
    ensures Shape(StepMain(cfg, s))
    ensures Offered(cfg, StepMain(cfg, s)) == Offered(cfg, s)
  {
    hide CreateStep, StopsRun, Refusals, Pending;
  }

  lemma ListenerShape(s: State)
    requires Shape(s) && !s.panicked && ListenerCanStep(s)
    ensures Shape(StepListener(s))
  {
    hide StopsRun, RefusalReason, Refusals;
  }

  /** A binder announces the pod it writes back and may offer a token of its own. */
  lemma BinderTouches(cfg: Config, s: State, id: nat)
    requires Shape(s) && !s.panicked && BinderCanStep(s, id)
    ensures var t := StepBinder(cfg, s, id);
            && Shape(t) && t.listener == s.listener
            && (t.panicked || t.tokens >= s.tokens)
            && (t.events == s.events || exists pod :: t.events == s.events + [pod])
  {
    hide CreateStep, StopsRun, LimitReason, LimitReached, NodeName, Place;
  }

  lemma ListenerOffers(cfg: Config, s: State)
    requires Shape(s) && !s.panicked && ListenerCanStep(s)
    ensures StepListener(s).panicked || Offered(cfg, StepListener(s)) == Offered(cfg, s)
  {
    hide RefusalReason, Pending, IsRefusal, Provisioned;
    var t := StepListener(s);
    if s.listener.tell.Telling? {
      assert t.panicked || t.tokens == s.tokens + 1;
    } else {
      assert t.tokens == s.tokens;
    }
  }

  lemma {:induction false} PendingShrinks(cfg: Config, events: seq<Pod>, at: nat)
    requires at < |events|
    ensures Pending(cfg, events[..at] + events[at + 1..]) + Offering(cfg, events[at]) == Pending(cfg, events)
  {
    if at == 0 {
      assert events[..0] + events[1..] == events[1..];
    } else {
      assert (events[..at] + events[at + 1..])[1..] == events[1..][..at - 1] + events[1..][at..];
      PendingShrinks(cfg, events[1..], at - 1);
    }
  }

  lemma DeliveryOffers(cfg: Config, s: State, at: nat)
    requires s.listener.Idle? && at < |s.events|
    ensures Offered(cfg, StepDeliver(cfg, s, at)) == Offered(cfg, s)
  {
    hide Refusals, Provisioned, Pending;
    PendingShrinks(cfg, s.events, at);
  }

  /** An offer never gets lost, unless the program panics. */
  lemma OffersStay(cfg: Config, s: State, a: Action)
    requires Shape(s) && Enabled(cfg, s, a)
    ensures Apply(cfg, s, a).panicked || Offered(cfg, Apply(cfg, s, a)) >= Offered(cfg, s)
  {
    match a
    case Assume(_, _) =>
    case Refuse(key, message) => PendingGrows(cfg, s.events, Refused(s.data.store[key], message));
    case Deliver(at) => DeliveryOffers(cfg, s, at);
    case MainStep => MainShape(cfg, s);
    case ListenerStep => ListenerOffers(cfg, s);
    case BinderStep(id) =>
      BinderTouches(cfg, s, id);
      hide StepBinder, Pending, Shape;
      if pod :| StepBinder(cfg, s, id).events == s.events + [pod] {
        PendingGrows(cfg, s.events, pod);
      }
  }

  lemma {:induction false} RunKeepsOffers(cfg: Config, s: State, actions: seq<Action>, t: State)
    requires Shape(s) && Runs(cfg, s, actions, t)
    ensures Shape(t) && (t.panicked || Offered(cfg, t) >= Offered(cfg, s))
    decreases |actions|
  {
    hide Shape, Offered, Enabled, Apply;
    if actions != [] {
      ShapeKept(cfg, s, actions[0]);
      OffersStay(cfg, s, actions[0]);
      RunKeepsOffers(cfg, Apply(cfg, s, actions[0]), actions[1..], t);
      if Apply(cfg, s, actions[0]).panicked {
        PanicStays(cfg, Apply(cfg, s, actions[0]), actions[1..], t);
      }
    }
  }

  lemma PanicStays(cfg: Config, s: State, actions: seq<Action>, t: State)
    requires s.panicked && Runs(cfg, s, actions, t)
    ensures t == s
  {
  }

  lemma NoOfferLeft(cfg: Config, s: State)
    requires Shape(s) && Complete(cfg, s) && !s.panicked
    ensures Offered(cfg, s) == s.tokens
  {
    assert !Enabled(cfg, s, MainStep) && !Enabled(cfg, s, ListenerStep) && !Enabled(cfg, s, Deliver(0));
  }

  /** Two offers are one too many: if a reachable state has received or still owes two tokens, every
      complete run from there ends with a send on the closed channel. */
  lemma TwoOffersPanic(cfg: Config, snap: Snapshot, s: State, actions: seq<Action>, t: State)
    requires Reachable(cfg, snap, s) && Offered(cfg, s) >= 2
    requires Runs(cfg, s, actions, t) && Complete(cfg, t)
    ensures t.panicked
  {
    var before :| Runs(cfg, Start(cfg, snap), before, s);
    RunKeepsOffers(cfg, Start(cfg, snap), before, s);
    RunKeepsOffers(cfg, s, actions, t);
    if !t.panicked {
      NoOfferLeft(cfg, t);
    }
  }
}
