/** The callback of an expired timer. It runs without a lock, through a pointer to its client
    that was read before: every expiry gets one callback, but the client may be gone. */
module TimerCallbacks {
  import opened Options
  import opened HeapTree
  import opened TimeOrder
  import opened TimerBox
  import opened TimerService
  import opened TimerSafety
  import opened TimerTheorems

  // ---------- what other steps leave alone ----------

  predicate SameCalls(s: State, t: State) {
    t.timeouts == s.timeouts && t.callbacks == s.callbacks && t.dangling == s.dangling
  }

  lemma StartFrame(s: State, c: nat, time: Timespec, kind: Kind, available: bool)
    requires c in s.clients
    ensures
      var t := DoStart(s, c, time, kind, available);
      && SameCalls(s, t) && t.task == s.task && t.nextClient == s.nextClient
      && t.clients.Keys == s.clients.Keys && forall e | e in s.clients :: t.clients[e].phase == s.clients[e].phase
  {
  }

  lemma DetachFrame(s: State, c: nat)
    requires c in s.clients && s.clients[c].timer.Some?
    ensures
      var t := Detach(s, c);
      && SameCalls(s, t) && t.task == s.task && t.nextClient == s.nextClient
      && t.clients.Keys == s.clients.Keys && forall e | e in s.clients :: t.clients[e].phase == s.clients[e].phase
  {
  }

  lemma StopFrame(s: State, c: nat)
    requires c in s.clients
    ensures
      var t := DoStop(s, c);
      && SameCalls(s, t) && t.task == s.task && t.nextClient == s.nextClient
      && t.clients.Keys == s.clients.Keys && forall e | e in s.clients :: t.clients[e].phase == s.clients[e].phase
  {
    if s.clients[c].timer.Some? {
      DetachFrame(s, c);
    }
  }

  lemma PollFrame(s: State)
    requires s.poll.pending != []
    ensures var t := DoPoll(s); SameCalls(s, t) && t.task == s.task && t.nextClient == s.nextClient && t.clients == s.clients
  {
    match s.poll.stage
    case Woken =>
    case Disarmed =>
    case Unpolled =>
  }

  lemma MsgFrame(s: State, m: Msg)
    requires s.task.Ready?
    ensures var t := DoMsg(s, m); SameCalls(s, t) && !t.task.Calling?
  {
  }

  lemma PopNextFrame(s: State, drain: Drain)
    ensures var t := DoPopNext(s, drain); SameCalls(s, t) && !t.task.Calling?
  {
  }

  /** An expiry either stops the timer and owes a callback, or does nothing of the kind. */
  lemma ExpireFrame(s: State, drain: Drain, d: nat)
    ensures
      var t := DoExpire(s, drain, d);
      && t.callbacks == s.callbacks && t.dangling == s.dangling
      && if t.task.Calling? then t.task.d == d && t.timeouts == s.timeouts + multiset{d} else t.timeouts == s.timeouts
  {
    if d in s.delegates && s.delegates[d].client.Some? {
      var c := s.delegates[d].client.value;
      if c in s.clients && s.clients[c].timer.Some? {
        DetachFrame(s, c);
      }
    }
  }

  /** Steps of the clients, the clock and the poll thread. */
  lemma OthersFrame(s: State, step: Step)
    requires Enabled(s, step) && !step.TaskAction?
    ensures var t := Do(s, step); SameCalls(s, t) && t.task == s.task
  {
    match step
    case Start(c, ms, kind, available) => StartFrame(s, c, FutureTime(s.clock, ms), kind, available);
    case Stop(c) => StopFrame(s, c);
    case Close(c) => StopFrame(s, c);
    case PollAction => PollFrame(s);
    case _ =>
  }

  // ---------- one callback for each expiry ----------

  /** The expiry whose callback is yet to come. */
  function Owed(task: Task): multiset<nat> {
    if task.Calling? then multiset{task.d} else multiset{}
  }

  predicate CallsOk(s: State) {
    s.timeouts == s.callbacks + Owed(s.task)
  }

  lemma StepKeepsCalls(s: State, step: Step)
    requires CallsOk(s) && Enabled(s, step)
    ensures CallsOk(Do(s, step))
  {
    if !step.TaskAction? {
      OthersFrame(s, step);
    } else {
      match s.task
      case Ready => MsgFrame(s.(queue := s.queue[1..]), s.queue[0]);
      case Expiring(drain, d) => ExpireFrame(s, drain, d);
      case Calling(_, _, _) =>
      case PopNext(drain) => PopNextFrame(s, drain);
    }
  }

  lemma {:induction false} RunKeepsCalls(s: State, steps: seq<Step>)
    requires CallsOk(s) && Run(s, steps).Some?
    ensures CallsOk(Run(s, steps).value)
    decreases |steps|
  {
    if steps != [] {
      StepKeepsCalls(s, steps[0]);
      RunKeepsCalls(Do(s, steps[0]), steps[1..]);
    }
  }

  /** A started timer that no longer runs was stopped by its client, was called back, or is
      being called back: exactly one of these, once. */
  lemma CalledBackOnce(clock: Timespec, steps: seq<Step>, s: State, d: nat)
    requires Reached(clock, steps, s) && d < s.nextDelegate
    ensures s.stops[d] + s.callbacks[d] + (if s.task.Calling? && s.task.d == d then 1 else 0) ==
            if Running(s.delegates, d) then 0 else 1
  {
    RunKeepsCalls(Init(clock), steps);
    StartEndsOnce(clock, steps, s, d);
    assert s.timeouts[d] == s.callbacks[d] + Owed(s.task)[d];
  }

  // ---------- callbacks on a client that is gone ----------

  /** The step calls back a client whose destructor has begun. */
  predicate CallsDead(s: State, step: Step) {
    step.TaskAction? && s.task.Calling? && !ClientIs(s, s.task.c, Live)
  }

  /** Some step of the run does. */
  predicate SomeCallsDead(s: State, steps: seq<Step>)
    decreases |steps|
  {
    steps != [] && Enabled(s, steps[0]) &&
    (CallsDead(s, steps[0]) || SomeCallsDead(Do(s, steps[0]), steps[1..]))
  }

  lemma StepDanglesIff(s: State, step: Step)
    requires Enabled(s, step)
    ensures Do(s, step).dangling <==> s.dangling || CallsDead(s, step)
  {
    if !step.TaskAction? {
      OthersFrame(s, step);
    } else {
      match s.task
      case Ready => MsgFrame(s.(queue := s.queue[1..]), s.queue[0]);
      case Expiring(drain, d) => ExpireFrame(s, drain, d);
      case Calling(_, _, _) =>
      case PopNext(drain) => PopNextFrame(s, drain);
    }
  }

  /** Over every run, a dead client has been touched iff it was dead when its callback ran. */
  lemma {:induction false} RunDanglesIff(s: State, steps: seq<Step>)
    requires Run(s, steps).Some?
    ensures Run(s, steps).value.dangling <==> s.dangling || SomeCallsDead(s, steps)
    decreases |steps|
  {
    if steps != [] {
      StepDanglesIff(s, steps[0]);
      RunDanglesIff(Do(s, steps[0]), steps[1..]);
    }
  }

  lemma DanglesIff(clock: Timespec, steps: seq<Step>, s: State)
    requires Reached(clock, steps, s)
    ensures s.dangling <==> SomeCallsDead(Init(clock), steps)
  {
    RunDanglesIff(Init(clock), steps);
  }

  // ---------- when that happens ----------

  lemma StepClosesIff(s: State, step: Step)
    requires Enabled(s, step) && s.task.Calling? && !step.TaskAction? && s.task.c < s.nextClient
    ensures
      var c, t := s.task.c, Do(s, step);
      && t.task == s.task && t.dangling == s.dangling && t.task.c < t.nextClient
      && (ClientIs(t, c, Live) <==> ClientIs(s, c, Live) && step != Close(c))
  {
    OthersFrame(s, step);
    match step
    case Start(c, ms, kind, available) => StartFrame(s, c, FutureTime(s.clock, ms), kind, available);
    case Stop(c) => StopFrame(s, c);
    case Close(c) => StopFrame(s, c);
    case PollAction => PollFrame(s);
    case _ =>
  }

  /** Between the forced stop and the callback, the client dies iff it closes. */
  lemma {:induction false} ClosesIff(s: State, steps: seq<Step>)
    requires s.task.Calling? && s.task.c < s.nextClient && TaskAction !in steps && Run(s, steps).Some?
    ensures
      var c, t := s.task.c, Run(s, steps).value;
      && t.task == s.task && t.dangling == s.dangling
      && (ClientIs(t, c, Live) <==> ClientIs(s, c, Live) && Close(c) !in steps)
    decreases |steps|
  {
    if steps != [] {
      assert steps == [steps[0]] + steps[1..];
      StepClosesIff(s, steps[0]);
      ClosesIff(Do(s, steps[0]), steps[1..]);
    }
  }

  lemma ForcedStopCalls(s: State)
    requires AccountsOk(s) && s.task.Expiring? && Running(s.delegates, s.task.d)
    ensures
      var c, t := s.delegates[s.task.d].client.value, Do(s, TaskAction);
      && t.task == Calling(s.task.drain, s.task.d, c) && ClientIs(t, c, Live)
      && c < t.nextClient && t.dangling == s.dangling
  {
    ForcedStopFacts(s);
    assert Do(s, TaskAction) == DoExpire(s, s.task.drain, s.task.d);
  }

  lemma ForcedStopFacts(s: State)
    requires LinksOk(s.delegates, s.clients) && IdsOk(s.delegates, s.clients, s.nextDelegate, s.nextClient)
    requires s.task.Expiring? && Running(s.delegates, s.task.d)
    ensures
      var c, t := s.delegates[s.task.d].client.value, DoExpire(s, s.task.drain, s.task.d);
      && t.task == Calling(s.task.drain, s.task.d, c) && ClientIs(t, c, Live)
      && c < t.nextClient && t.dangling == s.dangling
  {
  }

  /** From every reachable state in which a running timer is about to expire: its callback
      touches a dead client iff the client closes between the forced stop and the callback. */
  lemma CallbackDanglesIff(clock: Timespec, before: seq<Step>, s: State, steps: seq<Step>)
    requires Reached(clock, before, s) && s.task.Expiring? && Running(s.delegates, s.task.d)
    requires TaskAction !in steps && Run(Do(s, TaskAction), steps).Some?
    ensures
      var c, t := s.delegates[s.task.d].client.value, Run(Do(s, TaskAction), steps).value;
      && Enabled(t, TaskAction)
      && (Do(t, TaskAction).dangling <==> s.dangling || Close(c) in steps)
  {
    ReachedInv(clock, before, s);
    ForcedStopCalls(s);
    ClosesIff(Do(s, TaskAction), steps);
    StepDanglesIff(Run(Do(s, TaskAction), steps).value, TaskAction);
  }

  // ---------- a run that touches a dead client ----------

  const FIRED := [Tick(Timespec(2, 0)), EpollWake([Sw]), PollAction] + POSTED
  const POSTED := [PollAction, PollAction, TaskAction]

  /** The one-second timer of the first client has fired and its timerfd is disarmed. */
  function Disarming(): State {
    AfterStart().(
      clock := Timespec(2, 0),
      boxes := Boxes(Box(Single(Item(0, -2_000_000_000)), None, true), EMPTY_BOX),
      poll := Poll([Sw], Disarmed))
  }

  /** The message task has popped it. */
  function Firing(): State {
    var top := Single(Item(0, -2_000_000_000));
    AfterStart().(
      clock := Timespec(2, 0),
      boxes := Boxes(EMPTY_BOX, EMPTY_BOX),
      task := Expiring(Drain(Sw, 2_000_000_000, top, [top.data]), 0))
  }

  lemma TimerFires()
    ensures Run(AfterStart(), [Tick(Timespec(2, 0)), EpollWake([Sw]), PollAction]) == Some(Disarming())
  {
    var steps := [Tick(Timespec(2, 0)), EpollWake([Sw]), PollAction];
    var s := Do(AfterStart(), Tick(Timespec(2, 0)));
    assert Enabled(s, EpollWake([Sw]));
    assert steps[1..] == [EpollWake([Sw]), PollAction] && steps[1..][1..] == [PollAction];
    var t := Do(s, EpollWake([Sw]));
    assert Do(t, PollAction) == Disarming();
    assert Run(t, [PollAction]) == Some(Disarming());
  }

  lemma TimerIsPopped()
    ensures Run(Disarming(), POSTED) == Some(Firing())
  {
    var s := Do(Do(Disarming(), PollAction), PollAction);
    assert s.queue == [MsgExpire(Sw)] && s.task.Ready?;
    assert POSTED[1..][1..] == [TaskAction];
    assert Do(s, TaskAction) == Firing();
    assert Run(s, [TaskAction]) == Some(Firing());
  }

  lemma FiringIsReached()
    ensures Reached(Timespec(1, 0), STARTED + FIRED, Firing())
  {
    var clock := Timespec(1, 0);
    EarlyStart();
    TimerFires();
    TimerIsPopped();
    RunAppend(AfterStart(), [Tick(Timespec(2, 0)), EpollWake([Sw]), PollAction], POSTED);
    RunAppend(Init(clock), STARTED, FIRED);
  }

  lemma ClosedInTime()
    ensures Run(Do(Firing(), TaskAction), [Close(0), DropLock(0)]).Some?
  {
    var s := Do(Firing(), TaskAction);
    assert s.clients[0] == Client(None, Live);
    var t := Do(s, Close(0));
    assert t.clients[0] == Client(None, Closing);
    assert [Close(0), DropLock(0)][1..] == [DropLock(0)];
    assert Run(t, [DropLock(0)]) == Some(Do(t, DropLock(0)));
  }

  /** The timer expires and is stopped for its client; the client is destroyed; then the
      message task calls it. */
  lemma CallbackCanDangle()
    ensures
      var s := Firing();
      var t := Run(Do(s, TaskAction), [Close(0), DropLock(0)]);
      && Reached(Timespec(1, 0), STARTED + FIRED, s) && t.Some?
      && Enabled(t.value, TaskAction) && !s.dangling && Do(t.value, TaskAction).dangling
  {
    FiringIsReached();
    ClosedInTime();
    CallbackDanglesIff(Timespec(1, 0), STARTED + FIRED, Firing(), [Close(0), DropLock(0)]);
  }
}
