/** What the timer service promises, stated over every reachable state. */
module TimerTheorems {
  import opened Options
  import opened HeapTree
  import opened TimeOrder
  import opened TimerBox
  import opened TimerService
  import opened TimerSafety

  /** A container's timerfd is polled and armed at the time of its soonest timer, or an
      expiry of the container is on its way. */
  ghost predicate Attended(s: State, k: Kind) {
    var b := s.boxes.Get(k);
    || (b.registered && b.armed.Some?
        && (exists x :: x in Contents(b.heap) && DueTime(x) == b.armed.value)
        && (forall x | x in Contents(b.heap) :: b.armed.value <= DueTime(x)))
    || k in s.poll.pending
    || MsgExpire(k) in s.queue
  }

  /** No container is ever lost: between messages a heap with any timer in it, running or
      stopped, is attended to. */
  lemma NoHeapIsLost(clock: Timespec, steps: seq<Step>, s: State, k: Kind)
    requires Reached(clock, steps, s) && s.task.Ready? && s.boxes.Get(k).heap.Node?
    ensures Attended(s, k)
  {
    var b := s.boxes.Get(k);
    assert NotLost(k, b, s.poll.pending, ToExpire(s.queue), s.task) && CheckNodes(b.heap) by {
      ReachedInv(clock, steps, s);
    }
    TopRanksHighest(b.heap);
    assert k in ToExpire(s.queue) ==> MsgExpire(k) in s.queue;
    assert b.heap.data in Contents(b.heap);
  }

  /** No timer is ever lost: between messages a running timer whose push message has been
      handled is in its container's heap, which is attended to. */
  lemma NoTimerIsLost(clock: Timespec, steps: seq<Step>, s: State, d: nat)
    requires Reached(clock, steps, s) && Running(s.delegates, d)
    requires s.task.Ready? && MsgPush(d) !in s.queue
    ensures var k := s.delegates[d].kind;
            ItemOf(d, s.delegates[d]) in Contents(s.boxes.Get(k).heap) && Attended(s, k)
  {
    ReachedInv(clock, steps, s);
    InItsHeap(s, d);
    NoHeapIsLost(clock, steps, s, s.delegates[d].kind);
  }

  lemma InItsHeap(s: State, d: nat)
    requires StructureOk(s) && Running(s.delegates, d) && s.task == Ready && MsgPush(d) !in s.queue
    ensures var h := s.boxes.Get(s.delegates[d].kind).heap;
            ItemOf(d, s.delegates[d]) in Contents(h) && h.Node? && CheckNodes(h)
  {
    assert MsgPush(d).d == d && d !in ToPush(s.queue);
    assert PlacesOk(s.delegates, ToPush(s.queue), ToRemove(s.queue), Addrs(HeapsOf(s.boxes)), {});
    RunningIsInHeap(s.delegates, ToPush(s.queue), ToRemove(s.queue), HeapsOf(s.boxes), d);
  }

  lemma RunningIsInHeap(delegates: Delegates, push: set<nat>, remove: set<nat>, h: Heaps, d: nat)
    requires PlacesOk(delegates, push, remove, Addrs(h), {}) && HeapsOk(h, delegates)
    requires Running(delegates, d) && d !in push
    ensures var t := h.Get(delegates[d].kind);
            ItemOf(d, delegates[d]) in Contents(t) && t.Node? && CheckNodes(t)
  {
    assert d in Addrs(h);
  }

  /** No deleted delegate or lock is ever touched; a delegate is deleted once, out of every
      heap; client and delegate point at each other; the shared lock counts its users. The
      one access this leaves open is the callback, see TimerCallbacks. */
  lemma TimerLifetime(clock: Timespec, steps: seq<Step>, s: State)
    requires Reached(clock, steps, s)
    ensures !s.fault
    ensures forall k, x | x in Contents(s.boxes.Get(k).heap) :: x.addr in s.delegates
    ensures forall d | d in s.delegates && s.delegates[d].client.Some? ::
              var c := s.delegates[d].client.value;
              c in s.clients && s.clients[c].phase.Live? && s.clients[c].timer == Some(d)
    ensures forall c | c in s.clients && s.clients[c].timer.Some? ::
              var d := s.clients[c].timer.value;
              d in s.delegates && s.delegates[d].client == Some(c)
    ensures forall c | c in s.clients ::
              var n := (if s.clients[c].phase.Gone? then 0 else 1) + |Sharers(s.delegates, c)|;
              if n == 0 then c !in s.locks else c in s.locks && s.locks[c] == n
    ensures forall d: nat :: s.deletes[d] <= 1 && (s.deletes[d] == 1 ==> d !in s.delegates)
  {
    ReachedInv(clock, steps, s);
    forall c | c in s.clients
      ensures LockOk(s.locks, c, Held(s.clients[c].phase) + |Sharers(s.delegates, c)|)
    {
    }
  }

  /** Each successful start is followed by at most one of a stop that returns true and one
      expiry: by none while it runs, by exactly one afterwards. */
  lemma StartEndsOnce(clock: Timespec, steps: seq<Step>, s: State, d: nat)
    requires Reached(clock, steps, s) && d < s.nextDelegate
    ensures s.stops[d] + s.timeouts[d] == if Running(s.delegates, d) then 0 else 1
  {
    ReachedInv(clock, steps, s);
    assert (s.stops + s.timeouts)[d] == s.stops[d] + s.timeouts[d];
  }

  lemma DrainFinished(task: Task, h: Heaps, clock: Timespec)
    requires DrainOk(task, h, clock) && task.PopNext?
    requires var t := h.Get(task.drain.kind); !(t.Node? && Due(t.data, task.drain.now))
    ensures CheckNodes(task.drain.start) && task.drain.start.Node?
    ensures TimerBox.Drain(task.drain.start, task.drain.now) == (task.drain.popped, h.Get(task.drain.kind))
  {
    assert task.drain.popped + [] == task.drain.popped;
  }

  /** Whatever ran between its steps, a finished drain has popped, in time order, exactly the
      timers that were due when it began, or the soonest one if none was, and no timer due by
      then is left in the heap. */
  lemma DrainIsExact(clock: Timespec, steps: seq<Step>, s: State)
    requires Reached(clock, steps, s) && s.task.PopNext? && Do(s, TaskAction).task.Ready?
    ensures var dr := s.task.drain;
            IsExactDrain(dr.start, dr.now, dr.popped, s.boxes.Get(dr.kind).heap)
  {
    assert DrainOk(s.task, HeapsOf(s.boxes), s.clock) by {
      ReachedInv(clock, steps, s);
    }
    DrainFinished(s.task, HeapsOf(s.boxes), s.clock);
    DrainExact(s.task.drain.start, s.task.drain.now, s.task.drain.popped, s.boxes.Get(s.task.drain.kind).heap);
  }

  /** The rank the source computes for two pending timers is the order of the heap keys. */
  lemma RanksAreHeapOrder(clock: Timespec, steps: seq<Step>, s: State, d: nat, e: nat)
    requires Reached(clock, steps, s) && d in s.delegates && e in s.delegates
    ensures Ranks(s.delegates[d].time, s.delegates[e].time) > 0 <==>
            OutRanks(ItemOf(d, s.delegates[d]), ItemOf(e, s.delegates[e]))
  {
    ReachedInv(clock, steps, s);
    RankIsTimeOrder(s.delegates[d].time, s.delegates[e].time);
  }

  /** The same for the time that popIfOutRanks compares a delegate with: any time up to now. */
  lemma NowRanksInHeapOrder(clock: Timespec, steps: seq<Step>, s: State, now: Timespec, d: nat)
    requires Reached(clock, steps, s) && d in s.delegates
    requires Normal(now) && 0 <= now.sec && Ns(now) <= Ns(s.clock)
    ensures Ranks(now, s.delegates[d].time) > 0 <==>
            OutRanks(TimerItem(0, Ns(now)), ItemOf(d, s.delegates[d]))
  {
    assert TimesFit(s.clock, s.delegates) by {
      ReachedInv(clock, steps, s);
    }
    RankIsTimeOrder(now, s.delegates[d].time);
  }

  // ---------- a timer can time out early ----------

  /** The first client starts and stops a one-second timer; its timerfd stays armed. While
      the poll thread reacts to it, a second client starts a one-hour timer, which the stale
      expire message then pops. */
  const EARLY_RUN: seq<Step> := STARTED + (STOPPED + (WOKEN + (STARTED_AGAIN + EXPIRED)))
  const STARTED := [NewClient, NewClient, Start(0, 1000, Sw, true), TaskAction]
  const STOPPED := [Stop(0), TaskAction]
  const WOKEN := [Tick(Timespec(2, 0)), EpollWake([Sw]), PollAction, PollAction]
  const STARTED_AGAIN := [Start(1, 3_600_000, Sw, true), PollAction, TaskAction]
  const EXPIRED := [TaskAction, TaskAction, TaskAction]

  lemma {:induction false} RunAppend(s: State, xs: seq<Step>, ys: seq<Step>)
    requires Run(s, xs).Some?
    ensures Run(s, xs + ys) == Run(Run(s, xs).value, ys)
    decreases |xs|
  {
    if xs == [] {
      assert xs + ys == ys;
    } else {
      assert (xs + ys)[1..] == xs[1..] + ys;
      RunAppend(Do(s, xs[0]), xs[1..], ys);
    }
  }

  function AfterStart(): State {
    State(Timespec(1, 0), [],
          Boxes(Box(Single(Item(0, -2_000_000_000)), Some(2_000_000_000), true), EMPTY_BOX),
          Ready, Poll([], Woken),
          map[0 := Delegate(Some(0), 0, Timespec(2, 0), Sw, true)],
          map[0 := Client(Some(0), Live), 1 := Client(None, Live)],
          map[0 := 2, 1 := 1], 1, 2, multiset{}, multiset{}, multiset{}, multiset{}, false, false)
  }

  /** The container is empty, but its timerfd is still armed and polled. */
  function AfterStop(): State {
    State(Timespec(1, 0), [],
          Boxes(Box(Leaf, Some(2_000_000_000), true), EMPTY_BOX),
          Ready, Poll([], Woken), map[],
          map[0 := Client(None, Live), 1 := Client(None, Live)],
          map[0 := 1, 1 := 1], 1, 2, multiset{0}, multiset{}, multiset{}, multiset{0}, false, false)
  }

  function AfterWake(): State {
    AfterStop().(clock := Timespec(2, 0), boxes := Boxes(EMPTY_BOX, EMPTY_BOX), poll := Poll([Sw], Unpolled))
  }

  lemma EarlyStart()
    ensures Run(Init(Timespec(1, 0)), STARTED) == Some(AfterStart())
  {
    var s := Init(Timespec(1, 0));
    var s2 := Do(Do(s, NewClient), NewClient);
    var s3 := Do(s2, Start(0, 1000, Sw, true));
    assert STARTED[1..][1..][1..] == [TaskAction];
    assert Do(s3, TaskAction) == AfterStart();
    assert Run(s3, [TaskAction]) == Some(AfterStart());
  }

  lemma EarlyStop()
    ensures Run(AfterStart(), STOPPED) == Some(AfterStop())
  {
    var s := Do(AfterStart(), Stop(0));
    assert STOPPED[1..] == [TaskAction];
    assert Do(s, TaskAction) == AfterStop();
    assert Run(s, [TaskAction]) == Some(AfterStop());
  }

  lemma EarlyWake()
    ensures Run(AfterStop(), WOKEN) == Some(AfterWake())
  {
    var s := Do(Do(AfterStop(), Tick(Timespec(2, 0))), EpollWake([Sw]));
    assert WOKEN[1..][1..] == [PollAction, PollAction];
    assert Run(s, [PollAction, PollAction]) == Some(AfterWake());
  }

  function AfterRestart(): State {
    AfterWake().(
      queue := [MsgExpire(Sw)],
      boxes := Boxes(Box(Single(Item(1, -3_602_000_000_000)), Some(3_602_000_000_000), true), EMPTY_BOX),
      poll := Poll([], Woken),
      delegates := map[1 := Delegate(Some(1), 1, Timespec(3602, 0), Sw, true)],
      clients := map[0 := Client(None, Live), 1 := Client(Some(1), Live)],
      locks := map[0 := 1, 1 := 2],
      nextDelegate := 2)
  }

  lemma EarlyRestart()
    ensures Run(AfterWake(), STARTED_AGAIN) == Some(AfterRestart())
  {
    var s := Do(AfterWake(), Start(1, 3_600_000, Sw, true));
    assert s == BeforePoll();
    assert STARTED_AGAIN[1..] == [PollAction, TaskAction];
    EarlyPoll();
  }

  /** The second timer is started and its push message sent before the poll thread's. */
  function BeforePoll(): State {
    AfterRestart().(
      queue := [MsgPush(1)],
      boxes := Boxes(EMPTY_BOX, EMPTY_BOX),
      poll := Poll([Sw], Unpolled))
  }

  lemma EarlyPoll()
    ensures Run(BeforePoll(), [PollAction, TaskAction]) == Some(AfterRestart())
  {
    var s := Do(BeforePoll(), PollAction);
    assert s == BeforePoll().(queue := [MsgPush(1), MsgExpire(Sw)], poll := Poll([], Woken));
    assert [PollAction, TaskAction][1..] == [TaskAction];
    assert Do(s, TaskAction) == AfterRestart();
    assert Run(s, [TaskAction]) == Some(AfterRestart());
  }

  lemma EarlyExpire()
    ensures var r := Run(AfterRestart(), EXPIRED);
            && r.Some? && 1 in r.value.callbacks && 1 in r.value.delegates
            && Ns(r.value.clock) < Ns(r.value.delegates[1].time)
  {
    var s := Do(AfterRestart(), TaskAction);
    assert s.task.Expiring? && s.task.d == 1;
    var t := Do(s, TaskAction);
    assert t.task.Calling? && t.task.d == 1 && t.delegates.Keys == s.delegates.Keys;
    assert EXPIRED[1..] == [TaskAction, TaskAction] && [TaskAction, TaskAction][1..] == [TaskAction];
    assert Run(t, [TaskAction]) == Some(Do(t, TaskAction));
  }

  lemma TimeoutCanBeEarly()
    ensures var r := Run(Init(Timespec(1, 0)), EARLY_RUN);
            && r.Some? && 1 in r.value.callbacks && 1 in r.value.delegates
            && Ns(r.value.clock) < Ns(r.value.delegates[1].time)
  {
    EarlyStart();
    EarlyStop();
    EarlyWake();
    EarlyRestart();
    EarlyExpire();
    RunAppend(Init(Timespec(1, 0)), STARTED, STOPPED + (WOKEN + (STARTED_AGAIN + EXPIRED)));
    RunAppend(AfterStart(), STOPPED, WOKEN + (STARTED_AGAIN + EXPIRED));
    RunAppend(AfterStop(), WOKEN, STARTED_AGAIN + EXPIRED);
    RunAppend(AfterWake(), STARTED_AGAIN, EXPIRED);
  }
}
