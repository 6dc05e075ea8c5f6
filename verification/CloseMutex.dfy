/** `Close` under its mutex, called by any number of goroutines: the hook, the informer's callback, the
    error path of `Run` and callers outside. Every interleaving amounts to whole calls one after the other,
    each of which does what the protocol takes as one step: it sets `closed`. */
module CloseMutex {
  import opened Options

  datatype Pc = Outside | Testing | Cancelling | ClosingChannel | Marking | Unlocking | Left

  /** `closes` counts the closings of informerStopCh; a second one would panic. */
  datatype State = State(callers: seq<Pc>, holder: Option<nat>, cancelled: bool, closes: nat, closed: bool)

  predicate Enabled(s: State, id: nat) {
    && id < |s.callers|
    && !s.callers[id].Left?
    && (s.callers[id].Outside? ==> s.holder.None?)
  }

  function Go(s: State, id: nat, pc: Pc): State
    requires id < |s.callers|
  {
    s.(callers := s.callers[id := pc])
  }

  function Step(s: State, id: nat): State
    requires Enabled(s, id)
  {
    match s.callers[id]
    case Outside => Go(s, id, Testing).(holder := Some(id))
    case Testing => Go(s, id, if s.closed then Unlocking else Cancelling)
    case Cancelling => Go(s, id, ClosingChannel).(cancelled := true)
    case ClosingChannel => Go(s, id, Marking).(closes := s.closes + 1)
    case Marking => Go(s, id, Unlocking).(closed := true)
    case Unlocking => Go(s, id, Left).(holder := None)
  }

  predicate Runs(s: State, schedule: seq<nat>, t: State)
    decreases |schedule|
  {
    if schedule == [] then s == t
    else Enabled(s, schedule[0]) && Runs(Step(s, schedule[0]), schedule[1..], t)
  }

  function Start(n: nat): State {
    State(seq(n, _ => Outside), None, false, 0, false)
  }

  predicate InCritical(pc: Pc) {
    !pc.Outside? && !pc.Left?
  }

  ghost predicate Inv(s: State) {
    && (forall id: nat | id < |s.callers| :: InCritical(s.callers[id]) <==> s.holder == Some(id))
    && (s.holder.Some? ==> s.holder.value < |s.callers|)
    && s.closes == (if s.closed || (s.holder.Some? && s.callers[s.holder.value].Marking?) then 1 else 0)
    && (s.holder.Some? ==>
          match s.callers[s.holder.value]
          case Cancelling => !s.closed
          case ClosingChannel => !s.closed && s.cancelled
          case Marking => !s.closed && s.cancelled
          case Unlocking => s.closed
          case _ => true)
    && (s.holder.None? ==> s.cancelled == s.closed)
    && (s.holder.Some? ==>
          var pc := s.callers[s.holder.value];
          s.cancelled == (s.closed || pc.ClosingChannel? || pc.Marking?))
    && (forall id: nat | id < |s.callers| :: s.callers[id].Left? ==> s.closed)
  }

  lemma StepKeeps(s: State, id: nat)
    requires Inv(s) && Enabled(s, id)
    ensures Inv(Step(s, id))
  {
  }

  lemma {:induction false} RunKeeps(s: State, schedule: seq<nat>, t: State)
    requires Inv(s) && Runs(s, schedule, t)
    ensures Inv(t) && |t.callers| == |s.callers|
    decreases |schedule|
  {
    if schedule != [] {
      StepKeeps(s, schedule[0]);
      RunKeeps(Step(s, schedule[0]), schedule[1..], t);
    }
  }

  /** However n callers interleave, informerStopCh is closed at most once; outside the critical section
      it is closed exactly when `closed` is set; and whoever has returned finds it closed, with the
      scheduler's context cancelled. */
  lemma CloseIsSafe(n: nat, schedule: seq<nat>, t: State)
    requires Runs(Start(n), schedule, t)
    ensures t.closes <= 1
    ensures t.holder.None? ==> (t.closes == 1 <==> t.closed) && (t.cancelled <==> t.closed)
    ensures forall id: nat | id < |t.callers| && t.callers[id].Left? :: t.closed && t.closes == 1 && t.cancelled
  {
    RunKeeps(Start(n), schedule, t);
  }

  /** No caller is ever stuck: while one has not returned, one of them can move. */
  lemma CloseReturns(n: nat, schedule: seq<nat>, t: State, id: nat) returns (next: nat)
    requires Runs(Start(n), schedule, t) && id < |t.callers| && !t.callers[id].Left?
    ensures Enabled(t, next)
  {
    RunKeeps(Start(n), schedule, t);
    next := if t.holder.Some? then t.holder.value else id;
  }

  // ---------------------------------------------------------------- one step for one call

  /** A whole call of `Close`. */
  function CloseAtOnce(s: State, id: nat): State
    requires id < |s.callers|
  {
    Go(s, id, Left).(cancelled := true, closes := if s.closed then s.closes else s.closes + 1, closed := true)
  }

  /** The state once the caller inside has finished. */
  function Finish(s: State): State
    requires s.holder.Some? ==> s.holder.value < |s.callers|
  {
    if s.holder.None? then s
    else Go(s, s.holder.value, Left).(holder := None, cancelled := true, closes := 1, closed := true)
  }

  /** Whole calls by those of the callers that are still outside, one after the other. */
  function CallsInOrder(s: State, order: seq<nat>): State
    decreases |order|
  {
    if order == [] then s
    else if order[0] < |s.callers| && s.callers[order[0]].Outside? then
      CallsInOrder(CloseAtOnce(s, order[0]), order[1..])
    else s
  }

  /** Entering is the whole call; the steps inside add nothing. */
  lemma StepIsACallOrNothing(s: State, id: nat)
    requires Inv(s) && Enabled(s, id)
    ensures s.callers[id].Outside? ==> s.holder.None? && Finish(Step(s, id)) == CloseAtOnce(s, id)
    ensures !s.callers[id].Outside? ==> Finish(Step(s, id)) == Finish(s)
  {
  }

  lemma {:induction false} Linearizes(s: State, schedule: seq<nat>, t: State) returns (order: seq<nat>)
    requires Inv(s) && Runs(s, schedule, t)
    ensures t.holder.Some? ==> t.holder.value < |t.callers|
    ensures CallsInOrder(Finish(s), order) == Finish(t)
    decreases |schedule|
  {
    if schedule == [] {
      order := [];
    } else {
      StepIsACallOrNothing(s, schedule[0]);
      StepKeeps(s, schedule[0]);
      order := Linearizes(Step(s, schedule[0]), schedule[1..], t);
      if s.callers[schedule[0]].Outside? {
        hide Inv, Step, Enabled;
        var rest := order;
        order := [schedule[0]] + rest;
        assert order[1..] == rest;
      }
    }
  }

  /** However the callers interleave, once nobody is inside, the outcome is that of whole calls made one
      after the other. */
  lemma InterleavingsAreSerial(n: nat, schedule: seq<nat>, t: State) returns (order: seq<nat>)
    requires Runs(Start(n), schedule, t) && t.holder.None?
    ensures t == CallsInOrder(Start(n), order)
  {
    order := Linearizes(Start(n), schedule, t);
  }
}
