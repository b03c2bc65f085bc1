/** Where the message task's drain comes from: the container's heap and the clock in the state
    in which the expire message was taken up; and where a delegate comes from: its start. */
module TimerDrains {
  import opened Options
  import opened HeapTree
  import opened TimeOrder
  import opened TimerBox
  import opened TimerService
  import opened TimerSafety
  import opened TimerTheorems
  import opened TimerMessages
  import opened TimerCallbacks

  // ---------- expiries ----------

  /** The state takes up an expire message for container k. */
  predicate TakesUp(s: State, step: Step, k: Kind) {
    step.TaskAction? && s.task.Ready? && s.queue != [] && s.queue[0] == MsgExpire(k)
  }

  /** The drain is of the heap and at the time of the state. */
  predicate DrainOf(dr: Drain, s: State) {
    dr.start == s.boxes.Get(dr.kind).heap && dr.now == Ns(s.clock)
  }

  /** The state before step i of the run took up the expire message of the drain. */
  predicate BeganAt(s: State, steps: seq<Step>, i: nat, dr: Drain) {
    && i < |steps| && Run(s, steps[..i]).Some?
    && var s0 := Run(s, steps[..i]).value;
       TakesUp(s0, steps[i], dr.kind) && DrainOf(dr, s0)
  }

  predicate SameDrain(a: Drain, b: Drain) {
    a.kind == b.kind && a.now == b.now && a.start == b.start
  }

  lemma MsgBeginsDrain(s: State, m: Msg)
    requires s.task.Ready?
    ensures
      var t := DoMsg(s, m);
      !t.task.Ready? ==> m == MsgExpire(t.task.drain.kind) && DrainOf(t.task.drain, s)
  {
  }

  /** Taking up an expire message for an empty container changes nothing else. */
  lemma EmptyExpiryDoesNothing(s: State, k: Kind)
    requires TakesUp(s, TaskAction, k) && s.boxes.Get(k).heap.Leaf?
    ensures Do(s, TaskAction) == s.(queue := s.queue[1..])
  {
    assert s.boxes.Set(k, s.boxes.Get(k)) == s.boxes;
  }

  lemma PopNextKeepsDrain(s: State, drain: Drain)
    ensures var t := DoPopNext(s, drain); !t.task.Ready? ==> SameDrain(t.task.drain, drain)
  {
  }

  lemma ExpireKeepsDrain(s: State, drain: Drain, d: nat)
    ensures var t := DoExpire(s, drain, d); !t.task.Ready? && t.task.drain == drain
  {
  }

  lemma StepKeepsDrain(s: State, step: Step)
    requires Enabled(s, step) && !Do(s, step).task.Ready?
    ensures
      var dr := Do(s, step).task.drain;
      if s.task.Ready? then TakesUp(s, step, dr.kind) && DrainOf(dr, s) else SameDrain(dr, s.task.drain)
  {
    if !step.TaskAction? {
      OthersFrame(s, step);
    } else {
      match s.task
      case Ready => MsgBeginsDrain(s.(queue := s.queue[1..]), s.queue[0]);
      case Expiring(drain, d) => ExpireKeepsDrain(s, drain, d);
      case Calling(_, _, _) =>
      case PopNext(drain) => PopNextKeepsDrain(s, drain);
    }
  }

  lemma BeganLater(s: State, steps: seq<Step>, i: nat, dr: Drain)
    requires steps != [] && Enabled(s, steps[0]) && BeganAt(Do(s, steps[0]), steps[1..], i, dr)
    ensures BeganAt(s, steps, i + 1, dr)
  {
    assert steps[..i + 1][1..] == steps[1..][..i];
    assert steps[..i + 1][0] == steps[0];
  }

  /** A drain in progress goes on from the first state or was begun on the way. */
  lemma {:induction false} RunBeganDrain(s: State, steps: seq<Step>)
    requires Run(s, steps).Some? && !Run(s, steps).value.task.Ready?
    ensures
      var dr := Run(s, steps).value.task.drain;
      (!s.task.Ready? && SameDrain(dr, s.task.drain)) || exists i: nat :: BeganAt(s, steps, i, dr)
    decreases |steps|
  {
    if steps != [] {
      var t := Do(s, steps[0]);
      var dr := Run(s, steps).value.task.drain;
      RunBeganDrain(t, steps[1..]);
      if exists i: nat :: BeganAt(t, steps[1..], i, dr) {
        var i: nat :| BeganAt(t, steps[1..], i, dr);
        BeganLater(s, steps, i, dr);
      } else {
        StepKeepsDrain(s, steps[0]);
        if s.task.Ready? {
          assert steps[..0] == [];
          assert BeganAt(s, steps, 0, dr);
        }
      }
    }
  }

  lemma DrainBegan(clock: Timespec, steps: seq<Step>, s: State)
    requires Reached(clock, steps, s) && !s.task.Ready?
    ensures exists i: nat :: BeganAt(Init(clock), steps, i, s.task.drain)
  {
    RunBeganDrain(Init(clock), steps);
  }

  /** The state before step i took up an expire message of container k. */
  predicate TakesUpAt(s: State, steps: seq<Step>, i: nat, k: Kind) {
    && i < |steps| && Run(s, steps[..i]).Some?
    && TakesUp(Run(s, steps[..i]).value, steps[i], k)
  }

  /** From the heap that container k had before step i, at the time before step i, `popped`
      was popped: in time order exactly the timers due, or the soonest if none was; `rest` is
      what is left of it, and none of that was due. */
  ghost predicate ExpiredAt(s: State, steps: seq<Step>, i: nat, k: Kind, popped: seq<Item>, rest: Tree) {
    && TakesUpAt(s, steps, i, k)
    && var s0 := Run(s, steps[..i]).value;
       IsExactDrain(s0.boxes.Get(k).heap, Ns(s0.clock), popped, rest)
  }

  lemma DrainExpired(s: State, steps: seq<Step>, i: nat, dr: Drain, rest: Tree)
    requires BeganAt(s, steps, i, dr) && IsExactDrain(dr.start, dr.now, dr.popped, rest)
    ensures ExpiredAt(s, steps, i, dr.kind, dr.popped, rest)
  {
  }

  /** Whatever ran between its steps, a finished expiry has handed out exactly the timers that
      were due in the state in which its message was taken up. */
  lemma ExpiryIsExact(clock: Timespec, steps: seq<Step>, s: State)
    requires Reached(clock, steps, s) && s.task.PopNext? && Do(s, TaskAction).task.Ready?
    ensures
      var dr := s.task.drain;
      exists i: nat :: ExpiredAt(Init(clock), steps, i, dr.kind, dr.popped, s.boxes.Get(dr.kind).heap)
  {
    var dr := s.task.drain;
    DrainBegan(clock, steps, s);
    var i: nat :| BeganAt(Init(clock), steps, i, dr);
    DrainIsExact(clock, steps, s);
    DrainExpired(Init(clock), steps, i, dr, s.boxes.Get(dr.kind).heap);
  }

  /** Before step i, a timer due at `time` was not yet due iff no timer of container k was. */
  ghost predicate EarlyAtIff(s: State, steps: seq<Step>, i: nat, k: Kind, time: int) {
    && TakesUpAt(s, steps, i, k)
    && var s0 := Run(s, steps[..i]).value;
       Ns(s0.clock) < time <==> forall x | x in Contents(s0.boxes.Get(k).heap) :: Ns(s0.clock) < DueTime(x)
  }

  lemma DrainIsEarly(s: State, steps: seq<Step>, i: nat, dr: Drain, time: int)
    requires BeganAt(s, steps, i, dr)
    requires dr.now < time <==> forall x | x in Contents(dr.start) :: dr.now < DueTime(x)
    ensures EarlyAtIff(s, steps, i, dr.kind, time)
  {
  }

  /** In every run, the timer handed to its client was not due when the expire message was
      taken up iff no timer of its container was. */
  lemma ExpiryIsEarlyIff(clock: Timespec, steps: seq<Step>, s: State)
    requires Reached(clock, steps, s) && s.task.Expiring?
    ensures s.task.d in s.delegates
    ensures exists i: nat :: EarlyAtIff(Init(clock), steps, i, s.task.drain.kind, Ns(s.delegates[s.task.d].time))
  {
    TimeoutIsEarlyIff(clock, steps, s);
    DrainBegan(clock, steps, s);
    var i: nat :| BeganAt(Init(clock), steps, i, s.task.drain);
    DrainIsEarly(Init(clock), steps, i, s.task.drain, Ns(s.delegates[s.task.d].time));
  }

  // ---------- starts ----------

  /** Step i of the run started delegate d for its client, in the container asked for, due the
      timeout after the clock of that state. */
  predicate StartedAt(s: State, steps: seq<Step>, i: nat, d: nat, del: Delegate) {
    && i < |steps| && Run(s, steps[..i]).Some? && steps[i].Start?
    && steps[i].available
    && var s0 := Run(s, steps[..i]).value;
       && s0.nextDelegate == d && ClientIs(s0, del.owner, Live) && s0.clients[del.owner].timer.None?
       && steps[i].c == del.owner && steps[i].kind == del.kind
       && Ns(del.time) == Ns(s0.clock) + steps[i].ms * 1_000_000
  }

  predicate SameTimer(a: Delegate, b: Delegate) {
    a.owner == b.owner && a.kind == b.kind && a.time == b.time
  }

  /** Every delegate of t was in s as the same timer. */
  predicate FromBefore(s: State, t: State) {
    forall d | d in t.delegates :: d in s.delegates && SameTimer(t.delegates[d], s.delegates[d])
  }

  lemma DetachKeepsTimers(s: State, c: nat)
    requires c in s.clients && s.clients[c].timer.Some?
    ensures FromBefore(s, Detach(s, c))
  {
  }

  lemma StopKeepsTimers(s: State, c: nat)
    requires c in s.clients
    ensures FromBefore(s, DoStop(s, c))
  {
    if s.clients[c].timer.Some? {
      DetachKeepsTimers(s, c);
    }
  }

  lemma MsgKeepsTimers(s: State, m: Msg)
    ensures FromBefore(s, DoMsg(s, m))
  {
  }

  lemma TaskKeepsTimers(s: State)
    requires Enabled(s, TaskAction)
    ensures FromBefore(s, Do(s, TaskAction))
  {
    match s.task
    case Ready => MsgKeepsTimers(s.(queue := s.queue[1..]), s.queue[0]);
    case Expiring(drain, d) => ExpireKeepsTimers(s, drain, d);
    case Calling(_, _, _) =>
    case PopNext(drain) => PopNextKeepsTimers(s, drain);
  }

  lemma ExpireKeepsTimers(s: State, drain: Drain, d: nat)
    ensures FromBefore(s, DoExpire(s, drain, d))
  {
    if d in s.delegates && s.delegates[d].client.Some? {
      var c := s.delegates[d].client.value;
      if c in s.clients && s.clients[c].timer.Some? {
        DetachKeepsTimers(s, c);
      }
    }
  }

  lemma PopNextKeepsTimers(s: State, drain: Drain)
    ensures DoPopNext(s, drain).delegates == s.delegates && DoPopNext(s, drain).clock == s.clock
  {
  }

  lemma StartMakesTimer(s: State, c: nat, ms: nat, kind: Kind, available: bool)
    requires ClientIs(s, c, Live) && Normal(s.clock)
    ensures
      var t := DoStart(s, c, FutureTime(s.clock, ms), kind, available);
      forall d | d in t.delegates ::
        || (d in s.delegates && SameTimer(t.delegates[d], s.delegates[d]))
        || (d == s.nextDelegate && available && s.clients[c].timer.None? && t.delegates[d].owner == c && t.delegates[d].kind == kind
            && Ns(t.delegates[d].time) == Ns(s.clock) + ms * 1_000_000)
  {
    FutureTimeIsNowPlusTimeout(s.clock, ms);
  }

  /** A start takes effect iff its client has no timer and there is a container. */
  lemma StartTakesEffectIff(clock: Timespec, steps: seq<Step>, s: State, step: Step)
    requires Reached(clock, steps, s) && step.Start? && Enabled(s, step)
    ensures
      var t := Do(s, step);
      if s.clients[step.c].timer.None? && step.available
      then t.nextDelegate == s.nextDelegate + 1 && t.clients[step.c].timer == Some(s.nextDelegate)
           && t.queue == s.queue + [MsgPush(s.nextDelegate)]
      else t == s
  {
    ReachedFacts(clock, steps);
    LastFacts(Init(clock), steps);
  }

  lemma PollKeepsTimers(s: State)
    requires s.poll.pending != []
    ensures FromBefore(s, DoPoll(s))
  {
    match s.poll.stage
    case Woken =>
    case Disarmed =>
    case Unpolled =>
  }

  lemma StepKeepsTimers(s: State, step: Step)
    requires Enabled(s, step) && !step.Start?
    ensures FromBefore(s, Do(s, step))
  {
    match step
    case Stop(c) => StopKeepsTimers(s, c);
    case Close(c) => StopKeepsTimers(s, c);
    case PollAction => PollKeepsTimers(s);
    case TaskAction => TaskKeepsTimers(s);
    case _ =>
  }

  lemma StartedLater(s: State, steps: seq<Step>, i: nat, d: nat, del: Delegate)
    requires steps != [] && Enabled(s, steps[0]) && StartedAt(Do(s, steps[0]), steps[1..], i, d, del)
    ensures StartedAt(s, steps, i + 1, d, del)
  {
    assert steps[..i + 1][1..] == steps[1..][..i];
    assert steps[..i + 1][0] == steps[0];
  }

  lemma ClockStaysNormal(s: State, step: Step)
    requires Enabled(s, step) && Normal(s.clock)
    ensures Normal(Do(s, step).clock)
  {
    match step
    case Stop(c) =>
    case Close(c) =>
    case PollAction => PollClock(s);
    case TaskAction => TaskClock(s);
    case _ =>
  }

  lemma PollClock(s: State)
    requires s.poll.pending != []
    ensures DoPoll(s).clock == s.clock
  {
    match s.poll.stage
    case Woken =>
    case Disarmed =>
    case Unpolled =>
  }

  lemma TaskClock(s: State)
    requires Enabled(s, TaskAction)
    ensures Do(s, TaskAction).clock == s.clock
  {
    match s.task
    case Ready =>
    case Expiring(_, _) =>
    case Calling(_, _, _) =>
    case PopNext(drain) => PopNextKeepsTimers(s, drain);
  }

  lemma {:induction false} RunStartedTimer(s: State, steps: seq<Step>, d: nat)
    requires Run(s, steps).Some? && d in Run(s, steps).value.delegates && Normal(s.clock)
    ensures
      var del := Run(s, steps).value.delegates[d];
      (d in s.delegates && SameTimer(del, s.delegates[d])) || exists i: nat :: StartedAt(s, steps, i, d, del)
    decreases |steps|
  {
    if steps != [] {
      var step, t := steps[0], Do(s, steps[0]);
      var del := Run(s, steps).value.delegates[d];
      ClockStaysNormal(s, step);
      RunStartedTimer(t, steps[1..], d);
      if exists i: nat :: StartedAt(t, steps[1..], i, d, del) {
        var i: nat :| StartedAt(t, steps[1..], i, d, del);
        StartedLater(s, steps, i, d, del);
      } else if step.Start? {
        StartMakesTimer(s, step.c, step.ms, step.kind, step.available);
        if !(d in s.delegates && SameTimer(del, s.delegates[d])) {
          assert steps[..0] == [];
          assert StartedAt(s, steps, 0, d, del);
        }
      } else {
        StepKeepsTimers(s, step);
      }
    }
  }

  /** In every run, each live delegate was started by some start of its client, in the container
      asked for, and is due exactly the timeout after the clock at that start. */
  lemma TimersAreDueAsAsked(clock: Timespec, steps: seq<Step>, s: State, d: nat)
    requires Reached(clock, steps, s) && d in s.delegates
    ensures exists i: nat :: StartedAt(Init(clock), steps, i, d, s.delegates[d])
  {
    RunStartedTimer(Init(clock), steps, d);
  }
}
