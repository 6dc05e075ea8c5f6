/** The uninterleaved functions that the objects implement are runs of the protocol: a goroutine that is
    left alone does, micro-step by micro-step, exactly what they say. */
module Refinement {
  import opened Options
  import opened Cluster
  import opened Simulator
  import opened Protocol

  /** k micro-steps of one goroutine and of nobody else. */
  function Alone(a: Action, k: nat): seq<Action> {
    seq(k, _ => a)
  }

  lemma OneMore(cfg: Config, s: State, a: Action, k: nat, t: State)
    requires Runs(cfg, s, Alone(a, k), t) && Enabled(cfg, t, a)
    ensures Runs(cfg, s, Alone(a, k + 1), Apply(cfg, t, a))
  {
    RunsThenStep(cfg, s, Alone(a, k), t, a);
    assert Alone(a, k + 1) == Alone(a, k) + [a];
  }

  lemma NoSteps(cfg: Config, s: State, a: Action)
    ensures Runs(cfg, s, Alone(a, 0), s)
  {
  }

  lemma Chain(cfg: Config, s: State, a: Action, j: nat, mid: State, k: nat, t: State)
    requires Runs(cfg, s, Alone(a, j), mid) && Runs(cfg, mid, Alone(a, k), t)
    ensures Runs(cfg, s, Alone(a, j + k), t)
  {
    RunsCompose(cfg, s, Alone(a, j), mid, Alone(a, k), t);
    assert Alone(a, j + k) == Alone(a, j) + Alone(a, k);
  }

  predicate Live(s: State, id: nat) {
    !s.panicked && id < |s.binders| == |s.assumed|
  }

  /** The data when only the store call is left. */
  function BeforeStore(cfg: Config, d: Data): Data {
    d.(counter := d.counter + 1, simulated := d.simulated + 1, last := Some(Made(cfg, d.counter)))
  }

  /** The micro-steps of a creation, on the data. */
  lemma CreationSteps(cfg: Config, d: Data)
    ensures var k := d.counter;
            var d1 := d.(counter := k + 1);
            var d2 := d1.(simulated := d.simulated + 1);
            var d3 := BeforeStore(cfg, d);
            && CreateStep(cfg, d, Naming) == Onward(d, Counting(Generated(cfg, k)))
            && CreateStep(cfg, d, Counting(Generated(cfg, k))) == Onward(d1, Stamping(Generated(cfg, k)))
            && CreateStep(cfg, d1, Stamping(Generated(cfg, k))) == Onward(d2, Remembering(Made(cfg, k)))
            && CreateStep(cfg, d2, Remembering(Made(cfg, k))) == Onward(d3, Storing(Made(cfg, k)))
            && CreateStep(cfg, d3, Storing(Made(cfg, k)))
               == (if CreateNextPod(cfg, d).1 then Stored(CreateNextPod(cfg, d).0, TemplateKey(cfg, k))
                   else Rejected(CreateNextPod(cfg, d).0))
  {
    GeneratedPods(cfg, d.counter);
    hide Copy, CopyName;
  }

  lemma BinderOnward(cfg: Config, s: State, id: nat, pc: CreatePc, d: Data, next: CreatePc, s0: State, k: nat)
    returns (t: State)
    requires Live(s, id) && s.binders[id] == Creating(pc) && CreateStep(cfg, s.data, pc) == Onward(d, next)
    requires Runs(cfg, s0, Alone(BinderStep(id), k), s)
    ensures t == s.(data := d, binders := s.binders[id := Creating(next)])
    ensures Live(t, id) && Runs(cfg, s0, Alone(BinderStep(id), k + 1), t)
  {
    hide CreateStep, Runs, Alone;
    t := Apply(cfg, s, BinderStep(id));
    OneMore(cfg, s0, BinderStep(id), k, s);
  }

  lemma BinderStores(cfg: Config, s: State, id: nat, pod: Pod, s0: State, k: nat) returns (t: State)
    requires Live(s, id) && s.binders[id] == Creating(Storing(pod))
    requires Runs(cfg, s0, Alone(BinderStep(id), k), s)
    ensures var c := CreateStep(cfg, s.data, Storing(pod));
            && (c.Stored? ==>
                  t == s.(data := c.data, binders := s.binders[id := Finished(true)], queue := s.queue + {c.key}))
            && (c.Rejected? ==> t == s.(data := c.data, binders := s.binders[id := Finished(false)]))
    ensures Runs(cfg, s0, Alone(BinderStep(id), k + 1), t)
  {
    hide CreateStep, Runs, Alone;
    t := Apply(cfg, s, BinderStep(id));
    OneMore(cfg, s0, BinderStep(id), k, s);
  }

  /** A creating binder, left alone, gets to its store call. */
  lemma BinderReachesStore(cfg: Config, s: State, id: nat) returns (t: State)
    requires Live(s, id) && s.binders[id] == Creating(Naming)
    ensures var pod := Made(cfg, s.data.counter);
            && t == s.(data := BeforeStore(cfg, s.data), binders := s.binders[id := Creating(Storing(pod))])
            && Live(t, id) && Runs(cfg, s, Alone(BinderStep(id), 4), t)
  {
    NoSteps(cfg, s, BinderStep(id));
    CreationSteps(cfg, s.data);
    hide CreateStep, CreateNextPod, Runs, Made, Generated, TemplateKey, Alone, Apply, Enabled;
    var k, pod := s.data.counter, Made(cfg, s.data.counter);
    var d1 := s.data.(counter := k + 1);
    var d2 := d1.(simulated := s.data.simulated + 1);
    var s1 := BinderOnward(cfg, s, id, Naming, s.data, Counting(Generated(cfg, k)), s, 0);
    var s2 := BinderOnward(cfg, s1, id, Counting(Generated(cfg, k)), d1, Stamping(Generated(cfg, k)), s, 1);
    assert s2 == s.(data := d1, binders := s.binders[id := Creating(Stamping(Generated(cfg, k)))]);
    var s3 := BinderOnward(cfg, s2, id, Stamping(Generated(cfg, k)), d2, Remembering(pod), s, 2);
    t := BinderOnward(cfg, s3, id, Remembering(pod), d2.(last := Some(pod)), Storing(pod), s, 3);
  }

  /** A creating binder, left alone, creates the next pod or fails to. */
  lemma BinderCreates(cfg: Config, s: State, id: nat) returns (t: State)
    requires Live(s, id) && s.binders[id] == Creating(Naming)
    ensures var (data, ok) := CreateNextPod(cfg, s.data);
            && t == s.(data := data, binders := s.binders[id := Finished(ok)],
                       queue := if ok then s.queue + {TemplateKey(cfg, s.data.counter)} else s.queue)
            && Runs(cfg, s, Alone(BinderStep(id), 5), t)
  {
    CreationSteps(cfg, s.data);
    hide CreateStep, CreateNextPod, Runs, Made, Generated, TemplateKey, Alone, Apply, Enabled;
    var s4 := BinderReachesStore(cfg, s, id);
    t := BinderStores(cfg, s4, id, Made(cfg, s.data.counter), s, 4);
  }

  /** Where the binder stands when its hook has been run to the end or to the send. */
  function AfterHook(result: HookResult): BinderPc {
    match result
    case OffersStop => Sending
    case Continues => Finished(true)
    case Fails => Finished(false)
  }

  /** Append and limit test, the first two micro-steps of a hook. */
  lemma HookBegins(cfg: Config, s: State, id: nat) returns (t: State)
    requires Live(s, id) && s.binders[id].Appending?
    ensures var data := s.data.(pods := s.data.pods + [s.binders[id].pod]);
            && t == s.(data := data,
                       binders := s.binders[id := if LimitReached(cfg, data) then GivingReason else Creating(Naming)])
            && Live(t, id) && Runs(cfg, s, Alone(BinderStep(id), 2), t)
  {
    var a := BinderStep(id);
    NoSteps(cfg, s, a);
    hide CreateStep, Runs, Alone, LimitReason, LimitReached, NodeName;
    var s1 := Apply(cfg, s, a);
    OneMore(cfg, s, a, 0, s);
    t := Apply(cfg, s1, a);
    OneMore(cfg, s, a, 1, s1);
  }

  lemma HookStops(cfg: Config, s: State, id: nat) returns (t: State)
    requires Live(s, id) && s.binders[id] == GivingReason
    ensures t == s.(data := s.data.(stopReason := LimitReason(cfg), closed := true),
                    binders := s.binders[id := Sending])
    ensures Runs(cfg, s, Alone(BinderStep(id), 2), t)
  {
    var a := BinderStep(id);
    NoSteps(cfg, s, a);
    hide CreateStep, Runs, Alone, LimitReason, LimitReached, NodeName;
    var s1 := Apply(cfg, s, a);
    OneMore(cfg, s, a, 0, s);
    t := Apply(cfg, s1, a);
    OneMore(cfg, s, a, 1, s1);
  }

  /** A hook that nobody interrupts is PostBindHook. */
  lemma HookIsARun(cfg: Config, s: State, id: nat) returns (t: State, k: nat)
    requires Live(s, id) && s.binders[id].Appending?
    ensures var (data, result) := PostBindHook(cfg, s.data, s.binders[id].pod);
            && t.data == data && t.binders == s.binders[id := AfterHook(result)]
            && Live(t, id) && t.assumed == s.assumed && t.events == s.events
            && Runs(cfg, s, Alone(BinderStep(id), k), t)
  {
    hide LimitReason, CreateNextPod, LimitReached, Runs, Alone, TemplateKey;
    var s2 := HookBegins(cfg, s, id);
    if LimitReached(cfg, s2.data) {
      t := HookStops(cfg, s2, id);
      k := 4;
      Chain(cfg, s, BinderStep(id), 2, s2, 2, t);
    } else {
      t := BinderCreates(cfg, s2, id);
      k := 7;
      Chain(cfg, s, BinderStep(id), 2, s2, 5, t);
    }
  }

  /** A binding that nobody interrupts is Bind, and announces the placed pod. */
  lemma BindingIsARun(cfg: Config, s: State, id: nat) returns (t: State, k: nat)
    requires Live(s, id) && s.binders[id] == Fetching
    ensures var key, node := s.assumed[id].key, NodeName(cfg, s.assumed[id].node);
            var (data, result) := Bind(cfg, s.data, key, node);
            && t.data == data && t.binders == s.binders[id := AfterHook(result)]
            && t.events == s.events + Announced(s.data, key, node)
            && Runs(cfg, s, Alone(BinderStep(id), k), t)
  {
    var a := BinderStep(id);
    NoSteps(cfg, s, a);
    hide PostBindHook, NodeName, Runs, CreateStep, Alone, Send;
    var s1 := Apply(cfg, s, a);
    OneMore(cfg, s, a, 0, s);
    t, k := s1, 1;
    if !s1.binders[id].Finished? {
      var s2 := Apply(cfg, s1, a);
      OneMore(cfg, s, a, 1, s1);
      t, k := s2, 2;
      if !s2.binders[id].Finished? {
        var n;
        t, n := HookIsARun(cfg, s2, id);
        Chain(cfg, s, a, 2, s2, n, t);
        k := 2 + n;
      }
    }
  }

  lemma MainOnward(cfg: Config, s: State, pc: CreatePc, d: Data, next: CreatePc, s0: State, k: nat)
    returns (t: State)
    requires !s.panicked && s.main == MainCreating(pc) && CreateStep(cfg, s.data, pc) == Onward(d, next)
    requires Runs(cfg, s0, Alone(MainStep, k), s)
    ensures t == s.(data := d, main := MainCreating(next))
    ensures Runs(cfg, s0, Alone(MainStep, k + 1), t)
  {
    hide CreateStep, Runs, Alone;
    t := Apply(cfg, s, MainStep);
    OneMore(cfg, s0, MainStep, k, s);
  }

  lemma MainStores(cfg: Config, s: State, pod: Pod, s0: State, k: nat) returns (t: State)
    requires !s.panicked && s.main == MainCreating(Storing(pod))
    requires Runs(cfg, s0, Alone(MainStep, k), s)
    ensures var c := CreateStep(cfg, s.data, Storing(pod));
            && (c.Stored? ==> t == s.(data := c.data, main := Receiving, queue := s.queue + {c.key}))
            && (c.Rejected? ==> t == s.(data := c.data, main := AbortClosing))
    ensures Runs(cfg, s0, Alone(MainStep, k + 1), t)
  {
    hide CreateStep, Runs, Alone;
    t := Apply(cfg, s, MainStep);
    OneMore(cfg, s0, MainStep, k, s);
  }

  lemma MainReachesStore(cfg: Config, s: State) returns (t: State)
    requires !s.panicked && s.main == MainCreating(Naming)
    ensures t == s.(data := BeforeStore(cfg, s.data), main := MainCreating(Storing(Made(cfg, s.data.counter))))
    ensures Runs(cfg, s, Alone(MainStep, 4), t)
  {
    NoSteps(cfg, s, MainStep);
    CreationSteps(cfg, s.data);
    hide CreateStep, CreateNextPod, Runs, Made, Generated, TemplateKey, Alone, Apply, Enabled;
    var k, pod := s.data.counter, Made(cfg, s.data.counter);
    var d1 := s.data.(counter := k + 1);
    var d2 := d1.(simulated := s.data.simulated + 1);
    var s1 := MainOnward(cfg, s, Naming, s.data, Counting(Generated(cfg, k)), s, 0);
    var s2 := MainOnward(cfg, s1, Counting(Generated(cfg, k)), d1, Stamping(Generated(cfg, k)), s, 1);
    var s3 := MainOnward(cfg, s2, Stamping(Generated(cfg, k)), d2, Remembering(pod), s, 2);
    t := MainOnward(cfg, s3, Remembering(pod), d2.(last := Some(pod)), Storing(pod), s, 3);
  }

  /** The main goroutine, left alone, creates the first pod or fails to. */
  lemma MainCreates(cfg: Config, s: State) returns (t: State)
    requires !s.panicked && s.main == MainCreating(Naming)
    ensures var (data, ok) := CreateNextPod(cfg, s.data);
            && t == s.(data := data, main := if ok then Receiving else AbortClosing,
                       queue := if ok then s.queue + {TemplateKey(cfg, s.data.counter)} else s.queue)
            && Runs(cfg, s, Alone(MainStep, 5), t)
  {
    CreationSteps(cfg, s.data);
    hide CreateStep, CreateNextPod, Runs, Made, Generated, TemplateKey, Alone, Apply, Enabled;
    var s4 := MainReachesStore(cfg, s);
    t := MainStores(cfg, s4, Made(cfg, s.data.counter), s, 4);
  }

  /** The main goroutine's part of a failed start: everything is closed and `Run` returns an error. */
  lemma MainAborts(cfg: Config, s: State) returns (t: State)
    requires !s.panicked && s.main == MainCreating(Naming) && !s.stopClosed
    requires !CreateNextPod(cfg, s.data).1
    ensures t == s.(data := CreateNextPod(cfg, s.data).0.(closed := true), main := Returned(false), stopClosed := true)
    ensures Runs(cfg, s, Alone(MainStep, 7), t)
  {
    hide CreateNextPod, Runs, CreateStep, TemplateKey, Alone;
    var s5 := MainCreates(cfg, s);
    var s6 := Apply(cfg, s5, MainStep);
    OneMore(cfg, s, MainStep, 5, s5);
    t := Apply(cfg, s6, MainStep);
    OneMore(cfg, s, MainStep, 6, s6);
  }

  /** A callback that nobody interrupts is Update: it stands before its send, or drops the condition. */
  lemma CallbackIsARun(cfg: Config, s: State) returns (t: State, k: nat)
    requires !s.panicked && s.listener.Busy? && s.listener.tell == Deciding && s.listener.conditions != []
    ensures var Busy(pod, conditions, _) := s.listener;
            var (data, offers) := Update(s.data, pod, conditions[0]);
            && t == s.(data := data,
                       listener := if offers then Busy(pod, conditions, Telling)
                                   else Busy(pod, conditions[1..], Deciding))
            && Runs(cfg, s, Alone(ListenerStep, k), t)
  {
    NoSteps(cfg, s, ListenerStep);
    hide StopsRun, RefusalReason, Runs, Alone, Send;
    var s1 := Apply(cfg, s, ListenerStep);
    OneMore(cfg, s, ListenerStep, 0, s);
    t, k := s1, 1;
    if !s1.listener.tell.Deciding? {
      var s2 := Apply(cfg, s1, ListenerStep);
      OneMore(cfg, s, ListenerStep, 1, s1);
      var s3 := Apply(cfg, s2, ListenerStep);
      OneMore(cfg, s, ListenerStep, 2, s2);
      t, k := Apply(cfg, s3, ListenerStep), 4;
      OneMore(cfg, s, ListenerStep, 3, s3);
    }
  }
}
