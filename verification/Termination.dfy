/** Every run is finite, for every snapshot and every interleaving: a weight over the pod slots left, the
    queue, the pending events and the program counters decreases at every step. Each slot pays for one
    binding and for announcing the bound pod, whose conditions the listener goes through one by one. */
module Termination {
  import opened Cluster
  import opened Capacity
  import opened Simulator
  import opened Protocol

  // ---------------------------------------------------------------- what one announcement may cost

  /** The number of conditions once the pod has a verdict. */
  function Size(conditions: seq<Condition>): nat {
    |conditions| + if Verdict(conditions).None? then 1 else 0
  }

  lemma {:induction false} MarkedSize(conditions: seq<Condition>, message: string)
    ensures Size(Marked(conditions, Refusal(message))) == Size(conditions)
  {
    if conditions != [] && conditions[0].kind != POD_SCHEDULED {
      MarkedSize(conditions[1..], message);
      assert Marked(conditions, Refusal(message))[1..] == Marked(conditions[1..], Refusal(message));
    }
  }

  function EventWeight(pod: Pod): nat {
    6 + 6 * |pod.conditions|
  }

  /** Announcing the pod, before or after its verdict, costs at most c. */
  predicate Cheap(pod: Pod, c: nat) {
    6 + 6 * Size(pod.conditions) <= c
  }

  predicate CheapCreation(pc: CreatePc, c: nat) {
    match pc
    case Naming => true
    case Counting(pod) => Cheap(pod, c)
    case Stamping(pod) => Cheap(pod, c)
    case Remembering(pod) => Cheap(pod, c)
    case Storing(pod) => Cheap(pod, c)
  }

  predicate CheapBinding(pc: BinderPc, c: nat) {
    match pc
    case Writing(pod) => Cheap(pod, c)
    case Creating(creating) => CheapCreation(creating, c)
    case _ => true
  }

  /** Announcing any pod that the run still can announce costs at most c. */
  ghost predicate Affordable(cfg: Config, s: State, c: nat) {
    && Cheap(cfg.template, c)
    && (forall key | key in s.data.store :: Cheap(s.data.store[key], c))
    && (s.main.MainCreating? ==> CheapCreation(s.main.creating, c))
    && forall id | 0 <= id < |s.binders| :: CheapBinding(s.binders[id], c)
  }

  lemma {:induction false} StoreCost(store: Store) returns (c: nat)
    ensures forall key | key in store :: Cheap(store[key], c)
    decreases |store|
  {
    if store == map[] {
      c := 0;
    } else {
      var key :| key in store;
      var rest := store - {key};
      assert rest.Keys == store.Keys - {key};
      var d := StoreCost(rest);
      c := d + 6 + 6 * Size(store[key].conditions);
      forall k | k in store
        ensures Cheap(store[k], c)
      {
        if k != key {
          assert k in rest && rest[k] == store[k];
        }
      }
    }
  }

  lemma StartCost(cfg: Config, snap: Snapshot) returns (c: nat)
    ensures Affordable(cfg, Start(cfg, snap), c)
  {
    var d := StoreCost(snap.store);
    c := d + 6 + 6 * Size(cfg.template.conditions);
    hide Size;
  }

  lemma CreationStaysCheap(cfg: Config, d: Data, pc: CreatePc, c: nat)
    requires Cheap(cfg.template, c) && CheapCreation(pc, c)
    requires forall key | key in d.store :: Cheap(d.store[key], c)
    ensures match CreateStep(cfg, d, pc)
            case Onward(e, next) => CheapCreation(next, c) && e.store == d.store
            case Stored(e, _) => forall key | key in e.store :: Cheap(e.store[key], c)
            case Rejected(e) => e == d
            case NilMapWrite => true
  {
    hide Size, CopyName;
  }

  /** The bound on announcements is kept by every step. */
  lemma StaysAffordable(cfg: Config, s: State, a: Action, c: nat)
    requires Affordable(cfg, s, c) && Enabled(cfg, s, a)
    ensures Affordable(cfg, Apply(cfg, s, a), c)
  {
    hide Size, CreateStep, LimitReason, RefusalReason, Fits, Shrink, FitsSomewhere, CanSend;
    match a
    case Refuse(key, message) => MarkedSize(s.data.store[key].conditions, message);
    case MainStep =>
      if s.main.MainCreating? {
        CreationStaysCheap(cfg, s.data, s.main.creating, c);
      }
    case BinderStep(id) => BinderStaysAffordable(cfg, s, id, c);
    case _ =>
  }

  lemma BinderStaysAffordable(cfg: Config, s: State, id: nat, c: nat)
    requires Affordable(cfg, s, c) && BinderCanStep(s, id)
    ensures Affordable(cfg, StepBinder(cfg, s, id), c)
  {
    hide StepBinder, Cheap, CheapBinding, CheapCreation, CanSend;
    var t := StepBinder(cfg, s, id);
    BinderTouchesOne(cfg, s, id);
    OwnStaysCheap(cfg, s, id, c);
    forall j | 0 <= j < |t.binders|
      ensures CheapBinding(t.binders[j], c)
    {
      if j != id {
        assert t.binders[j] == s.binders[j];
      }
    }
  }

  lemma BinderTouchesOne(cfg: Config, s: State, id: nat)
    requires BinderCanStep(s, id)
    ensures var t := StepBinder(cfg, s, id);
            && |t.binders| == |s.binders| && (t.main.MainCreating? ==> t.main == s.main)
            && forall j | 0 <= j < |s.binders| && j != id :: t.binders[j] == s.binders[j]
  {
    hide CreateStep, LimitReason, LimitReached, NodeName, Place;
  }

  lemma OwnStaysCheap(cfg: Config, s: State, id: nat, c: nat)
    requires Cheap(cfg.template, c) && BinderCanStep(s, id) && CheapBinding(s.binders[id], c)
    requires forall key | key in s.data.store :: Cheap(s.data.store[key], c)
    ensures var t := StepBinder(cfg, s, id);
            && CheapBinding(t.binders[id], c)
            && forall key | key in t.data.store :: Cheap(t.data.store[key], c)
  {
    hide Size, CreateStep, LimitReason, LimitReached, CanSend, NodeName;
    if s.binders[id].Creating? {
      CreationStaysCheap(cfg, s.data, s.binders[id].creating, c);
    }
  }

  // ---------------------------------------------------------------- the weight of a state

  function CreateWeight(pc: CreatePc, c: nat): nat {
    match pc
    case Naming => 6 + c
    case Counting(_) => 5 + c
    case Stamping(_) => 4 + c
    case Remembering(_) => 3 + c
    case Storing(_) => 2 + c
  }

  function MainWeight(pc: MainPc, c: nat): nat {
    match pc
    case MainCreating(creating) => 1 + CreateWeight(creating, c)
    case AbortClosing => 2
    case AbortClosingStop => 1
    case Receiving => 1
    case ClosingStop => 1
    case Returned(_) => 0
  }

  function BinderWeight(pc: BinderPc, c: nat): nat {
    match pc
    case Fetching => 10 + 2 * c
    case Writing(_) => 9 + 2 * c
    case Appending(_) => 8 + c
    case Testing => 7 + c
    case GivingReason => 3
    case Closing => 2
    case Sending => 1
    case Creating(creating) => CreateWeight(creating, c)
    case Finished(_) => 0
  }

  function BindersWeight(binders: seq<BinderPc>, c: nat): nat {
    if binders == [] then 0 else BinderWeight(binders[0], c) + BindersWeight(binders[1..], c)
  }

  function TellWeight(tell: TellPc): nat {
    match tell
    case Deciding => 4
    case Explaining => 3
    case Shutting => 2
    case Stopping => 1
    case Telling => 0
  }

  function ListenerWeight(listener: Listener): nat {
    match listener
    case Idle => 0
    case Busy(_, conditions, tell) => 1 + 6 * |conditions| + TellWeight(tell)
  }

  function EventsWeight(events: seq<Pod>): nat {
    if events == [] then 0 else EventWeight(events[0]) + EventsWeight(events[1..])
  }

  /** What bounds the number of steps still possible, if announcing a pod costs at most c. */
  function Weight(s: State, c: nat): nat {
    (10 + c) * TotalSlots(s.free) + (1 + c) * |s.queue| + EventsWeight(s.events) + ListenerWeight(s.listener)
    + BindersWeight(s.binders, c) + MainWeight(s.main, c) + if s.panicked then 0 else 1
  }

  lemma {:induction false} BinderMoves(binders: seq<BinderPc>, id: nat, pc: BinderPc, c: nat)
    requires id < |binders|
    ensures BindersWeight(binders[id := pc], c) + BinderWeight(binders[id], c)
         == BindersWeight(binders, c) + BinderWeight(pc, c)
  {
    if id == 0 {
      assert binders[0 := pc][1..] == binders[1..];
    } else {
      assert binders[id := pc][1..] == binders[1..][id - 1 := pc];
      BinderMoves(binders[1..], id - 1, pc, c);
    }
  }

  lemma {:induction false} BinderStarts(binders: seq<BinderPc>, pc: BinderPc, c: nat)
    ensures BindersWeight(binders + [pc], c) == BindersWeight(binders, c) + BinderWeight(pc, c)
  {
    if binders == [] {
      assert [pc][1..] == [];
    } else {
      assert (binders + [pc])[1..] == binders[1..] + [pc];
      BinderStarts(binders[1..], pc, c);
    }
  }

  lemma {:induction false} EventArrives(events: seq<Pod>, pod: Pod)
    ensures EventsWeight(events + [pod]) == EventsWeight(events) + EventWeight(pod)
  {
    if events == [] {
      assert [pod][1..] == [];
    } else {
      assert (events + [pod])[1..] == events[1..] + [pod];
      EventArrives(events[1..], pod);
    }
  }

  /** A queue that gains a key, or loses one. */
  lemma QueueChanges(queue: set<Key>, key: Key, c: nat)
    ensures (1 + c) * |queue + {key}| <= (1 + c) * |queue| + 1 + c
    ensures key in queue ==> (1 + c) * |queue - {key}| + 1 + c == (1 + c) * |queue|
  {
    if key in queue {
      assert queue + {key} == queue;
      assert |queue - {key}| + 1 == |queue|;
      Product(1 + c, |queue - {key}|);
    } else {
      Product(1 + c, |queue|);
    }
  }

  lemma Product(a: nat, n: nat)
    ensures a * (n + 1) == a * n + a
  {
  }

  lemma AssumeDecreases(cfg: Config, s: State, key: Key, i: nat, c: nat)
    requires CanAssume(cfg, s, key, i)
    ensures Weight(StepAssume(cfg, s, key, i), c) < Weight(s, c)
  {
    SlotsAfterShrink(s.free, i, s.data.store[key].requests);
    BinderStarts(s.binders, Fetching, c);
    QueueChanges(s.queue, key, c);
    Product(10 + c, TotalSlots(StepAssume(cfg, s, key, i).free));
    hide TotalSlots, BindersWeight, EventsWeight, Shrink, Fits;
  }

  lemma RefuseDecreases(s: State, key: Key, message: string, c: nat)
    requires CanRefuse(s, key) && Cheap(s.data.store[key], c)
    ensures Weight(StepRefuse(s, key, message), c) < Weight(s, c)
  {
    hide TotalSlots, BindersWeight, EventsWeight, FitsSomewhere, Marked;
    var refused := Refused(s.data.store[key], message);
    MarkedSize(s.data.store[key].conditions, message);
    EventArrives(s.events, refused);
    QueueChanges(s.queue, key, c);
  }

  lemma {:induction false} EventLeaves(events: seq<Pod>, at: nat)
    requires at < |events|
    ensures EventsWeight(events[..at] + events[at + 1..]) + EventWeight(events[at]) == EventsWeight(events)
  {
    if at == 0 {
      assert events[..0] + events[1..] == events[1..];
    } else {
      assert (events[..at] + events[at + 1..])[1..] == events[1..][..at - 1] + events[1..][at..];
      EventLeaves(events[1..], at - 1);
    }
  }

  lemma DeliverDecreases(cfg: Config, s: State, at: nat, c: nat)
    requires s.listener.Idle? && at < |s.events|
    ensures Weight(StepDeliver(cfg, s, at), c) < Weight(s, c)
  {
    hide TotalSlots, BindersWeight, EventsWeight;
    EventLeaves(s.events, at);
  }

  lemma MainDecreases(cfg: Config, s: State, c: nat)
    requires !s.panicked && MainCanStep(s)
    ensures Weight(StepMain(cfg, s), c) < Weight(s, c)
  {
    hide TotalSlots, BindersWeight, EventsWeight, Generated, Stamp;
    if s.main.MainCreating? && s.main.creating.Storing? {
      QueueChanges(s.queue, KeyOf(s.main.creating.pod), c);
    }
  }

  lemma ListenerDecreases(s: State, c: nat)
    requires !s.panicked && ListenerCanStep(s)
    ensures Weight(StepListener(s), c) < Weight(s, c)
  {
    hide TotalSlots, BindersWeight, EventsWeight, StopsRun, RefusalReason;
  }

  lemma CreationDecreases(cfg: Config, d: Data, pc: CreatePc, c: nat)
    ensures CreateWeight(pc, c) >= 2 + c
    ensures CreateStep(cfg, d, pc).Onward? ==> CreateWeight(CreateStep(cfg, d, pc).pc, c) < CreateWeight(pc, c)
  {
    hide Copy, Stamp, KeyOf;
  }

  lemma CreatorDecreases(cfg: Config, s: State, id: nat, c: nat)
    requires !s.panicked && BinderCanStep(s, id) && s.binders[id].Creating?
    ensures Weight(StepBinder(cfg, s, id), c) < Weight(s, c)
  {
    hide TotalSlots, BindersWeight, EventsWeight, ListenerWeight, MainWeight, CreateStep, CreateWeight, CanSend,
      LimitReason, LimitReached, NodeName, Place;
    var pc := s.binders[id].creating;
    CreationDecreases(cfg, s.data, pc, c);
    var t := StepBinder(cfg, s, id);
    BinderMoves(s.binders, id, t.binders[id], c);
    if CreateStep(cfg, s.data, pc).Stored? {
      QueueChanges(s.queue, CreateStep(cfg, s.data, pc).key, c);
    }
  }

  lemma BinderDecreases(cfg: Config, s: State, id: nat, c: nat)
    requires !s.panicked && BinderCanStep(s, id) && !s.binders[id].Creating? && CheapBinding(s.binders[id], c)
    ensures Weight(StepBinder(cfg, s, id), c) < Weight(s, c)
  {
    hide TotalSlots, BindersWeight, EventsWeight, ListenerWeight, LimitReason, LimitReached, NodeName, KeyOf, Place,
      CreateStep;
    var t := StepBinder(cfg, s, id);
    BinderMoves(s.binders, id, t.binders[id], c);
    if s.binders[id].Writing? {
      EventArrives(s.events, s.binders[id].pod);
    }
  }

  /** Every step of every goroutine and of the scheduler makes the weight smaller. */
  lemma StepDecreases(cfg: Config, s: State, a: Action, c: nat)
    requires Affordable(cfg, s, c) && Enabled(cfg, s, a)
    ensures Weight(Apply(cfg, s, a), c) < Weight(s, c)
  {
    hide Weight;
    match a
    case Assume(key, i) => AssumeDecreases(cfg, s, key, i, c);
    case Refuse(key, message) => RefuseDecreases(s, key, message, c);
    case Deliver(at) => DeliverDecreases(cfg, s, at, c);
    case MainStep => MainDecreases(cfg, s, c);
    case BinderStep(id) =>
      if s.binders[id].Creating? {
        CreatorDecreases(cfg, s, id, c);
      } else {
        BinderDecreases(cfg, s, id, c);
      }
    case ListenerStep => ListenerDecreases(s, c);
  }

  /** A run has at most as many steps as the weight of the state it starts from. */
  lemma {:induction false} WeightBoundsRun(cfg: Config, s: State, actions: seq<Action>, t: State, c: nat)
    requires Affordable(cfg, s, c) && Runs(cfg, s, actions, t)
    ensures Affordable(cfg, t, c) && |actions| + Weight(t, c) <= Weight(s, c)
    decreases |actions|
  {
    hide Weight, Enabled, Apply, Affordable;
    if actions != [] {
      StepDecreases(cfg, s, actions[0], c);
      StaysAffordable(cfg, s, actions[0], c);
      WeightBoundsRun(cfg, Apply(cfg, s, actions[0]), actions[1..], t, c);
    }
  }

  /** Every snapshot has a number of steps that no run exceeds, with or without a limit. */
  lemma RunsAreFinite(cfg: Config, snap: Snapshot) returns (bound: nat)
    ensures forall actions, t | Runs(cfg, Start(cfg, snap), actions, t) :: |actions| <= bound
  {
    var c := StartCost(cfg, snap);
    bound := Weight(Start(cfg, snap), c);
    hide Weight, Affordable, Runs;
    forall actions, t | Runs(cfg, Start(cfg, snap), actions, t)
      ensures |actions| <= bound
    {
      WeightBoundsRun(cfg, Start(cfg, snap), actions, t, c);
    }
  }

  lemma {:induction false} Completed(cfg: Config, s: State, c: nat) returns (actions: seq<Action>, t: State)
    requires Affordable(cfg, s, c)
    ensures Runs(cfg, s, actions, t) && Complete(cfg, t)
    decreases Weight(s, c)
  {
    hide Weight, Enabled, Apply, Affordable;
    if Complete(cfg, s) {
      actions, t := [], s;
    } else {
      var a :| Enabled(cfg, s, a);
      StepDecreases(cfg, s, a, c);
      StaysAffordable(cfg, s, a, c);
      var rest;
      rest, t := Completed(cfg, Apply(cfg, s, a), c);
      actions := [a] + rest;
      assert actions[1..] == rest;
    }
  }

  /** Every run can be continued to a complete one. */
  lemma RunsComplete(cfg: Config, snap: Snapshot, before: seq<Action>, s: State)
    returns (actions: seq<Action>, t: State)
    requires Runs(cfg, Start(cfg, snap), before, s)
    ensures Runs(cfg, s, actions, t) && Complete(cfg, t)
    ensures Runs(cfg, Start(cfg, snap), before + actions, t)
  {
    hide Runs, Complete, Affordable;
    var c := StartCost(cfg, snap);
    WeightBoundsRun(cfg, Start(cfg, snap), before, s, c);
    actions, t := Completed(cfg, s, c);
    RunsCompose(cfg, Start(cfg, snap), before, s, actions, t);
  }
}
