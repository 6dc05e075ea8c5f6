/** The simulation as interleaved goroutines: the main one, one binder for each binding the scheduler
    starts, and the informer's listener. Each micro-step touches the shared data once, and every write
    to a stored pod, by a binder or by the scheduler, is announced to the listener. The scheduler is an
    environment that assumes a queued pod on a node where it fits, or refuses it when it fits nowhere;
    both verdicts are final. */
module Protocol {
  import opened Options
  import opened Cluster
  import opened Capacity
  import opened Simulator

  // ---------------------------------------------------------------- program counters

  /** createNextPod: name the copy, count it, stamp it, remember it, store it. */
  datatype CreatePc =
    | Naming
    | Counting(pod: Pod)
    | Stamping(pod: Pod)
    | Remembering(pod: Pod)
    | Storing(pod: Pod)

  datatype MainPc =
    | MainCreating(creating: CreatePc)
    | AbortClosing
    | AbortClosingStop
    | Receiving
    | ClosingStop
    | Returned(ok: bool)

  datatype BinderPc =
    | Fetching
    | Writing(pod: Pod)
    | Appending(pod: Pod)
    | Testing
    | GivingReason
    | Closing
    | Sending
    | Creating(creating: CreatePc)
    | Finished(ok: bool)

  datatype TellPc = Deciding | Explaining | Shutting | Stopping | Telling

  /** The listener works through the conditions of one updated pod at a time. */
  datatype Listener = Idle | Busy(pod: Pod, conditions: seq<Condition>, tell: TellPc)

  /** The pod of a binder goroutine and the index of the node chosen for it. */
  datatype Assumption = Assumption(key: Key, node: nat)

  datatype State = State(
    data: Data,
    main: MainPc,
    assumed: seq<Assumption>,
    binders: seq<BinderPc>,
    listener: Listener,
    queue: set<Key>,
    free: seq<Free>,
    events: seq<Pod>,
    tokens: nat,
    stopClosed: bool,
    panicked: bool
  )

  datatype Action =
    | Assume(key: Key, node: nat)
    | Refuse(key: Key, message: string)
    | Deliver(at: nat)
    | MainStep
    | BinderStep(id: nat)
    | ListenerStep

  // ---------------------------------------------------------------- creating a pod, step by step

  datatype Creation =
    | Onward(data: Data, pc: CreatePc)
    | Stored(data: Data, key: Key)
    | Rejected(data: Data)
    | NilMapWrite

  function CreateStep(cfg: Config, d: Data, pc: CreatePc): Creation {
    match pc
    case Naming => Onward(d, Counting(Generated(cfg, d.counter)))
    case Counting(pod) => Onward(d.(counter := d.counter + 1), Stamping(pod))
    case Stamping(pod) =>
      (match Stamp(cfg, pod)
       case None => NilMapWrite
       case Some(stamped) => Onward(d.(simulated := d.simulated + 1), Remembering(stamped)))
    case Remembering(pod) => Onward(d.(last := Some(pod)), Storing(pod))
    case Storing(pod) =>
      if KeyOf(pod) in d.store then Rejected(d)
      else Stored(d.(store := d.store[KeyOf(pod) := pod]), KeyOf(pod))
  }

  // ---------------------------------------------------------------- the goroutines

  /** The unbuffered channel: a send meets the waiting receiver, or panics on a closed channel. */
  predicate CanSend(s: State) {
    s.main.Receiving? || s.stopClosed
  }

  function Send(s: State): State
    requires CanSend(s)
  {
    if s.stopClosed then s.(panicked := true) else s.(main := ClosingStop, tokens := s.tokens + 1)
  }

  /** Closing a closed channel panics. */
  function CloseStop(s: State): (t: State)
    ensures t.stopClosed
    ensures t.panicked <==> s.panicked || s.stopClosed
  {
    if s.stopClosed then s.(panicked := true) else s.(stopClosed := true)
  }

  predicate MainCanStep(s: State) {
    !s.main.Receiving? && !s.main.Returned?
  }

  function StepMain(cfg: Config, s: State): State
    requires MainCanStep(s)
  {
    match s.main
    case MainCreating(pc) =>
      (match CreateStep(cfg, s.data, pc)
       case Onward(d, next) => s.(data := d, main := MainCreating(next))
       case Stored(d, key) => s.(data := d, main := Receiving, queue := s.queue + {key})
       case Rejected(d) => s.(data := d, main := AbortClosing)
       case NilMapWrite => s.(panicked := true))
    case AbortClosing => s.(data := s.data.(closed := true), main := AbortClosingStop)
    case AbortClosingStop => CloseStop(s).(main := Returned(false))
    case ClosingStop => CloseStop(s).(main := Returned(true))
  }

  predicate BinderCanStep(s: State, id: nat) {
    && id < |s.binders| && id < |s.assumed|
    && !s.binders[id].Finished?
    && (s.binders[id].Sending? ==> CanSend(s))
  }

  function Go(s: State, id: nat, pc: BinderPc): State
    requires id < |s.binders|
  {
    s.(binders := s.binders[id := pc])
  }

  function NodeName(cfg: Config, i: nat): string {
    if i < |cfg.nodes| then cfg.nodes[i] else ""
  }

  function StepBinder(cfg: Config, s: State, id: nat): State
    requires BinderCanStep(s, id)
  {
    var d, key := s.data, s.assumed[id].key;
    match s.binders[id]
    case Fetching =>
      if key in d.store then Go(s, id, Writing(Place(d.store[key], NodeName(cfg, s.assumed[id].node))))
      else Go(s, id, Finished(false))
    case Writing(pod) =>
      if KeyOf(pod) in d.store then
        Go(s.(data := d.(store := d.store[KeyOf(pod) := pod]), events := s.events + [pod]), id, Appending(pod))
      else Go(s, id, Finished(false))
    case Appending(pod) => Go(s.(data := d.(pods := d.pods + [pod])), id, Testing)
    case Testing => Go(s, id, if LimitReached(cfg, d) then GivingReason else Creating(Naming))
    case GivingReason => Go(s.(data := d.(stopReason := LimitReason(cfg))), id, Closing)
    case Closing => Go(s.(data := d.(closed := true)), id, Sending)
    case Sending => Go(Send(s), id, Finished(true))
    case Creating(pc) =>
      (match CreateStep(cfg, d, pc)
       case Onward(d', next) => Go(s.(data := d'), id, Creating(next))
       case Stored(d', key') => Go(s.(data := d', queue := s.queue + {key'}), id, Finished(true))
       case Rejected(d') => Go(s.(data := d'), id, Finished(false))
       case NilMapWrite => s.(panicked := true))
  }

  predicate ListenerCanStep(s: State) {
    && s.listener.Busy?
    && (s.listener.tell.Telling? ==> CanSend(s))
    && (!s.listener.tell.Deciding? ==> s.listener.conditions != [])
  }

  function StepListener(s: State): State
    requires ListenerCanStep(s)
  {
    var Busy(pod, conditions, tell) := s.listener;
    match tell
    case Deciding =>
      if conditions == [] then s.(listener := Idle)
      else if StopsRun(pod, conditions[0]) then s.(listener := Busy(pod, conditions, Explaining))
      else s.(listener := Busy(pod, conditions[1..], Deciding))
    case Explaining =>
      s.(data := s.data.(stopReason := RefusalReason(conditions[0])), listener := Busy(pod, conditions, Shutting))
    case Shutting => s.(data := s.data.(closed := true), listener := Busy(pod, conditions, Stopping))
    case Stopping => s.(data := s.data.(stopped := true), listener := Busy(pod, conditions, Telling))
    case Telling => Send(s).(listener := Busy(pod, conditions[1..], Deciding))
  }

  // ---------------------------------------------------------------- the scheduler

  /** A pod the scheduler still has to decide on. */
  predicate Undecided(s: State, key: Key) {
    key in s.queue && key in s.data.store && s.data.store[key].nodeName == ""
  }

  predicate CanAssume(cfg: Config, s: State, key: Key, i: nat) {
    && Undecided(s, key)
    && i < |s.free| && i < |cfg.nodes|
    && Fits(s.free[i], s.data.store[key].requests)
  }

  function StepAssume(cfg: Config, s: State, key: Key, i: nat): State
    requires CanAssume(cfg, s, key, i)
  {
    s.(
      queue := s.queue - {key},
      free := s.free[i := Shrink(s.free[i], s.data.store[key].requests)],
      assumed := s.assumed + [Assumption(key, i)],
      binders := s.binders + [Fetching]
    )
  }

  predicate CanRefuse(s: State, key: Key) {
    Undecided(s, key) && !FitsSomewhere(s.free, s.data.store[key].requests)
  }

  function Refused(pod: Pod, message: string): Pod {
    pod.(conditions := Marked(pod.conditions, Refusal(message)))
  }

  /** A verdict that the pod carries already is not written again, and nobody is told. */
  function StepRefuse(s: State, key: Key, message: string): State
    requires CanRefuse(s, key)
  {
    var pod := s.data.store[key];
    var refused := Refused(pod, message);
    s.(
      queue := s.queue - {key},
      data := s.data.(store := s.data.store[key := refused]),
      events := if refused == pod then s.events else s.events + [refused]
    )
  }

  /** The informer hands over one of the announced pods if its scheduler is the simulated one. */
  function StepDeliver(cfg: Config, s: State, at: nat): State
    requires at < |s.events|
  {
    var pod := s.events[at];
    s.(
      events := s.events[..at] + s.events[at + 1..],
      listener := if pod.schedulerName == cfg.scheduler then Busy(pod, pod.conditions, Deciding) else Idle
    )
  }

  // ---------------------------------------------------------------- the transition system

  predicate Enabled(cfg: Config, s: State, a: Action) {
    && !s.panicked
    && match a
       case Assume(key, i) => CanAssume(cfg, s, key, i)
       case Refuse(key, _) => CanRefuse(s, key)
       case Deliver(at) => s.listener.Idle? && at < |s.events|
       case MainStep => MainCanStep(s)
       case BinderStep(id) => BinderCanStep(s, id)
       case ListenerStep => ListenerCanStep(s)
  }

  function Apply(cfg: Config, s: State, a: Action): State
    requires Enabled(cfg, s, a)
  {
    match a
    case Assume(key, i) => StepAssume(cfg, s, key, i)
    case Refuse(key, message) => StepRefuse(s, key, message)
    case Deliver(at) => StepDeliver(cfg, s, at)
    case MainStep => StepMain(cfg, s)
    case BinderStep(id) => StepBinder(cfg, s, id)
    case ListenerStep => StepListener(s)
  }

  /** What a run starts from: the copied store, and what the scheduler's cache leaves on each node. */
  datatype Snapshot = Snapshot(store: Store, free: seq<Free>)

  /** The snapshot's own pods that still wait for the simulated scheduler. */
  function Waiting(cfg: Config, store: Store): set<Key> {
    set key | key in store && store[key].nodeName == "" && store[key].schedulerName == cfg.scheduler
  }

  function Start(cfg: Config, snap: Snapshot): State {
    State(Fresh(snap.store), MainCreating(Naming), [], [], Idle, Waiting(cfg, snap.store), snap.free, [], 0,
          false, false)
  }

  /** `t` is reached from `s` by doing `actions` in order. */
  predicate Runs(cfg: Config, s: State, actions: seq<Action>, t: State)
    decreases |actions|
  {
    if actions == [] then s == t
    else Enabled(cfg, s, actions[0]) && Runs(cfg, Apply(cfg, s, actions[0]), actions[1..], t)
  }

  ghost predicate Reachable(cfg: Config, snap: Snapshot, t: State) {
    exists actions :: Runs(cfg, Start(cfg, snap), actions, t)
  }

  /** A run is complete when no goroutine can move and the scheduler has nothing left to decide. */
  ghost predicate Complete(cfg: Config, s: State) {
    forall a :: !Enabled(cfg, s, a)
  }

  lemma {:induction false} RunsThenStep(cfg: Config, s: State, actions: seq<Action>, t: State, a: Action)
    requires Runs(cfg, s, actions, t) && Enabled(cfg, t, a)
    ensures Runs(cfg, s, actions + [a], Apply(cfg, t, a))
    decreases |actions|
  {
    if actions == [] {
      assert [a][1..] == [];
    } else {
      RunsThenStep(cfg, Apply(cfg, s, actions[0]), actions[1..], t, a);
      assert (actions + [a])[1..] == actions[1..] + [a];
    }
  }

  lemma {:induction false} RunsCompose(cfg: Config, s: State, first: seq<Action>, mid: State, second: seq<Action>,
                                       t: State)
    requires Runs(cfg, s, first, mid) && Runs(cfg, mid, second, t)
    ensures Runs(cfg, s, first + second, t)
    decreases |first|
  {
    if first == [] {
      assert first + second == second;
    } else {
      RunsCompose(cfg, Apply(cfg, s, first[0]), first[1..], mid, second, t);
      assert (first + second)[1..] == first[1..] + second;
    }
  }

  // ---------------------------------------------------------------- who is inside the hook section

  predicate MainInSection(s: State) {
    s.main.MainCreating?
  }

  predicate BinderInSection(s: State, id: nat) {
    && id < |s.binders|
    && !s.binders[id].Fetching? && !s.binders[id].Writing? && !s.binders[id].Finished?
  }

  predicate ListenerInSection(s: State) {
    s.listener.Busy? && !s.listener.tell.Deciding?
  }

  /** At most one goroutine is between entering its create or hook section and leaving it. */
  ghost predicate Exclusive(s: State) {
    && (MainInSection(s) ==> !ListenerInSection(s) && forall id: nat :: !BinderInSection(s, id))
    && (ListenerInSection(s) ==> forall id: nat :: !BinderInSection(s, id))
    && forall i: nat, j: nat :: BinderInSection(s, i) && BinderInSection(s, j) ==> i == j
  }

  /** The shared fields that the simulator's own code updates without a lock. */
  predicate SameUnlocked(d: Data, e: Data) {
    && d.counter == e.counter && d.simulated == e.simulated && d.last == e.last
    && d.pods == e.pods && d.stopReason == e.stopReason
  }

  /** Every write to an unlocked field is done by a goroutine inside its section. */
  lemma WritesHappenInSection(cfg: Config, s: State, a: Action)
    requires Enabled(cfg, s, a)
    ensures var d, e := s.data, Apply(cfg, s, a).data;
            d.counter != e.counter || d.simulated != e.simulated || d.last != e.last || d.pods != e.pods
            || d.stopReason != e.stopReason ==>
              || (a.MainStep? && MainInSection(s))
              || (a.BinderStep? && BinderInSection(s, a.id))
              || (a.ListenerStep? && ListenerInSection(s))
  {
  }
}
