/** The timer service over whole runs: the messages ever sent, and which timer the message
    task hands to its client. */
module TimerMessages {
  import opened Options
  import opened HeapTree
  import opened TimeOrder
  import opened TimerBox
  import opened TimerService
  import opened TimerSafety

  // ---------- what the invariant says about messages and the task ----------

  /** A client's timer is a live delegate that counts on its container, and conversely. */
  ghost predicate TimersLinked(delegates: Delegates, clients: Clients, next: nat) {
    && (forall d | d in delegates :: d < next)
    && (forall c | c in clients && clients[c].timer.Some? ::
          var d := clients[c].timer.value;
          d in delegates && delegates[d].client == Some(c) && delegates[d].contained)
    && (forall d | d in delegates && delegates[d].client.Some? ::
          var c := delegates[d].client.value;
          c in clients && !clients[c].phase.Gone? && clients[c].timer == Some(d))
  }

  /** A delegate to be removed no longer counts on its container. */
  ghost predicate RemovesDetached(q: seq<Msg>, delegates: Delegates) {
    forall m | m in q && m.MsgRemove? :: m.d in delegates && !delegates[m.d].contained
  }

  predicate PushesLive(q: seq<Msg>, delegates: Delegates) {
    forall m | m in q && m.MsgPush? :: m.d in delegates
  }

  predicate TopLive(h: Tree, delegates: Delegates) {
    h.Node? ==> h.data.addr in delegates && h.data == ItemOf(h.data.addr, delegates[h.data.addr])
  }

  predicate CurrentLive(task: Task, delegates: Delegates) {
    task.Expiring? ==> task.d in delegates
  }

  ghost predicate Facts(s: State) {
    && TimersLinked(s.delegates, s.clients, s.nextDelegate)
    && RemovesDetached(s.queue, s.delegates) && PushesLive(s.queue, s.delegates)
    && TopLive(s.boxes.sw.heap, s.delegates) && TopLive(s.boxes.hw.heap, s.delegates)
    && CurrentLive(s.task, s.delegates)
    && (forall c | c in s.clients && !s.clients[c].phase.Gone? :: c in s.locks)
  }

  lemma LinkFacts(delegates: Delegates, clients: Clients, next: nat, nextClient: nat)
    requires LinksOk(delegates, clients) && IdsOk(delegates, clients, next, nextClient) && ContainedOk(delegates)
    ensures TimersLinked(delegates, clients, next)
  {
  }

  lemma QueueFacts(q: seq<Msg>, delegates: Delegates, heap: set<nat>, cur: set<nat>)
    requires PlacesOk(delegates, ToPush(q), ToRemove(q), heap, cur) && ContainedOk(delegates)
    ensures RemovesDetached(q, delegates) && PushesLive(q, delegates) && cur <= delegates.Keys
  {
    forall m | m in q && m.MsgRemove? ensures m.d in delegates && !delegates[m.d].contained {
      assert m.d in ToRemove(q);
    }
    forall m | m in q && m.MsgPush? ensures m.d in delegates {
      assert m.d in ToPush(q);
    }
  }

  lemma TopFacts(h: Tree, k: Kind, delegates: Delegates)
    requires HeapOk(h, k, delegates)
    ensures TopLive(h, delegates)
  {
    if h.Node? {
      assert h.data in Contents(h);
    }
  }

  lemma LockFacts(locks: map<nat, int>, clients: Clients, delegates: Delegates)
    requires LocksOk(locks, clients, delegates)
    ensures forall c | c in clients && !clients[c].phase.Gone? :: c in locks
  {
    forall c | c in clients && !clients[c].phase.Gone? ensures c in locks {
      assert LockOk(locks, c, Held(clients[c].phase) + |Sharers(delegates, c)|);
    }
  }

  lemma InvFacts(s: State)
    requires Inv(s)
    ensures Facts(s)
  {
    LinkFacts(s.delegates, s.clients, s.nextDelegate, s.nextClient);
    QueueFacts(s.queue, s.delegates, Addrs(HeapsOf(s.boxes)), Current(s.task));
    TopFacts(s.boxes.sw.heap, Sw, s.delegates);
    TopFacts(s.boxes.hw.heap, Hw, s.delegates);
    LockFacts(s.locks, s.clients, s.delegates);
    assert s.task.Expiring? ==> s.task.d in Current(s.task);
  }

  /** The facts hold in every state of the run. */
  ghost predicate FactsAlong(s: State, steps: seq<Step>)
    decreases |steps|
  {
    Facts(s) && (steps != [] && Enabled(s, steps[0]) ==> FactsAlong(Do(s, steps[0]), steps[1..]))
  }

  lemma {:induction false} RunFacts(s: State, steps: seq<Step>)
    requires Inv(s)
    ensures FactsAlong(s, steps)
    decreases |steps|
  {
    InvFacts(s);
    if steps != [] && Enabled(s, steps[0]) {
      StepKeeps(s, steps[0]);
      RunFacts(Do(s, steps[0]), steps[1..]);
    }
  }

  lemma ReachedFacts(clock: Timespec, steps: seq<Step>)
    requires GoodClock(clock)
    ensures FactsAlong(Init(clock), steps)
  {
    RunFacts(Init(clock), steps);
  }

  lemma {:induction false} LastFacts(s: State, steps: seq<Step>)
    requires FactsAlong(s, steps) && Run(s, steps).Some?
    ensures Facts(Run(s, steps).value)
    decreases |steps|
  {
    if steps != [] {
      LastFacts(Do(s, steps[0]), steps[1..]);
    }
  }

  // ---------- messages ----------

  /** What is left of the queue when the step has taken its message, if it takes one. */
  function Kept(s: State, step: Step): seq<Msg>
    requires Enabled(s, step)
  {
    if step.TaskAction? && s.task.Ready? then s.queue[1..] else s.queue
  }

  /** The messages that a step sends. */
  function Sent(s: State, step: Step): seq<Msg>
    requires Enabled(s, step)
  {
    var kept, after := Kept(s, step), Do(s, step).queue;
    if |kept| <= |after| then after[|kept|..] else []
  }

  /** All messages ever sent. */
  function SentIn(s: State, steps: seq<Step>): seq<Msg>
    requires Run(s, steps).Some?
    decreases |steps|
  {
    if steps == [] then [] else Sent(s, steps[0]) + SentIn(Do(s, steps[0]), steps[1..])
  }

  /** A delegate was sent to its container iff it was started, and back iff it no longer
      counts on it; first the one, then the other, each once. */
  ghost predicate LogOk(log: seq<Msg>, delegates: Delegates, next: nat) {
    && QueueOrdered(log)
    && (forall d: nat :: MsgPush(d) in log <==> d < next)
    && (forall d: nat :: MsgRemove(d) in log <==> d < next && !(d in delegates && delegates[d].contained))
  }

  lemma LogPush(log: seq<Msg>, delegates: Delegates, next: nat, del: Delegate)
    requires LogOk(log, delegates, next) && next !in delegates && del.contained
    ensures LogOk(log + [MsgPush(next)], delegates[next := del], next + 1)
  {
    forall a | a in log ensures InOrder(a, MsgPush(next)) {
    }
    AppendOrdered(log, MsgPush(next));
  }

  lemma LogRemove(log: seq<Msg>, delegates: Delegates, next: nat, d: nat, del: Delegate)
    requires LogOk(log, delegates, next) && d in delegates && d < next && delegates[d].contained && !del.contained
    ensures LogOk(log + [MsgRemove(d)], delegates[d := del], next)
  {
    forall a | a in log ensures InOrder(a, MsgRemove(d)) {
    }
    AppendOrdered(log, MsgRemove(d));
  }

  lemma LogExpire(log: seq<Msg>, delegates: Delegates, next: nat, k: Kind)
    requires LogOk(log, delegates, next)
    ensures LogOk(log + [MsgExpire(k)], delegates, next)
  {
    AppendOrdered(log, MsgExpire(k));
  }

  lemma LogDelete(log: seq<Msg>, delegates: Delegates, next: nat, d: nat)
    requires LogOk(log, delegates, next) && (d in delegates ==> !delegates[d].contained)
    ensures LogOk(log, delegates - {d}, next)
  {
  }

  lemma AppendTail(q: seq<Msg>, m: Msg)
    ensures (q + [m])[|q|..] == [m]
  {
  }

  /** stop, and the forced stop of an expiry. */
  lemma DetachSends(s: State, c: nat, log: seq<Msg>)
    requires Facts(s) && c in s.clients && s.clients[c].timer.Some? && LogOk(log, s.delegates, s.nextDelegate)
    ensures
      var t := Detach(s, c);
      var d := s.clients[c].timer.value;
      && t.queue == s.queue + [MsgRemove(d)] && t.nextDelegate == s.nextDelegate
      && LogOk(log + [MsgRemove(d)], t.delegates, t.nextDelegate)
  {
    var d := s.clients[c].timer.value;
    assert d in s.delegates && s.delegates[d].client == Some(c) && s.delegates[d].contained && d < s.nextDelegate;
    LogRemove(log, s.delegates, s.nextDelegate, d, s.delegates[d].(client := None, contained := false));
  }

  lemma StopSends(s: State, step: Step, c: nat, log: seq<Msg>)
    requires Facts(s) && Enabled(s, step) && (step == Stop(c) || step == Close(c)) && LogOk(log, s.delegates, s.nextDelegate)
    ensures var t := Do(s, step); LogOk(log + Sent(s, step), t.delegates, t.nextDelegate)
  {
    if s.clients[c].timer.Some? {
      DetachSends(s, c, log);
      AppendTail(s.queue, MsgRemove(s.clients[c].timer.value));
    } else {
      assert Sent(s, step) == [] && log + [] == log;
    }
  }

  lemma StartSends(s: State, step: Step, log: seq<Msg>)
    requires Facts(s) && Enabled(s, step) && step.Start? && LogOk(log, s.delegates, s.nextDelegate)
    ensures var t := Do(s, step); LogOk(log + Sent(s, step), t.delegates, t.nextDelegate)
  {
    var t := Do(s, step);
    if t.nextDelegate != s.nextDelegate {
      assert s.nextDelegate !in s.delegates;
      LogPush(log, s.delegates, s.nextDelegate, t.delegates[s.nextDelegate]);
      AppendTail(s.queue, MsgPush(s.nextDelegate));
    } else {
      assert Sent(s, step) == [] && log + [] == log;
    }
  }

  lemma MsgSends(s: State, log: seq<Msg>)
    requires Facts(s) && s.task.Ready? && s.queue != [] && LogOk(log, s.delegates, s.nextDelegate)
    ensures var t := Do(s, TaskAction); LogOk(log + Sent(s, TaskAction), t.delegates, t.nextDelegate)
  {
    assert Sent(s, TaskAction) == [] && log + [] == log;
    if s.queue[0].MsgRemove? {
      var d := s.queue[0].d;
      assert d in ToRemove(s.queue);
      LogDelete(log, s.delegates, s.nextDelegate, d);
    }
  }

  lemma ExpireSends(s: State, log: seq<Msg>)
    requires Facts(s) && s.task.Expiring? && LogOk(log, s.delegates, s.nextDelegate)
    ensures var t := Do(s, TaskAction); LogOk(log + Sent(s, TaskAction), t.delegates, t.nextDelegate)
  {
    var d := s.task.d;
    if Running(s.delegates, d) {
      var c := s.delegates[d].client.value;
      DetachSends(s, c, log);
      AppendTail(s.queue, MsgRemove(d));
    } else {
      assert Sent(s, TaskAction) == [] && log + [] == log;
    }
  }

  lemma TaskSends(s: State, log: seq<Msg>)
    requires Facts(s) && Enabled(s, TaskAction) && LogOk(log, s.delegates, s.nextDelegate)
    ensures var t := Do(s, TaskAction); LogOk(log + Sent(s, TaskAction), t.delegates, t.nextDelegate)
  {
    match s.task
    case Ready => MsgSends(s, log);
    case Expiring(_, _) => ExpireSends(s, log);
    case _ =>
      assert Sent(s, TaskAction) == [] && log + [] == log;
  }

  lemma StepSends(s: State, step: Step, log: seq<Msg>)
    requires Facts(s) && Enabled(s, step) && LogOk(log, s.delegates, s.nextDelegate)
    ensures var t := Do(s, step); LogOk(log + Sent(s, step), t.delegates, t.nextDelegate)
  {
    match step
    case Start(_, _, _, _) => StartSends(s, step, log);
    case Stop(c) => StopSends(s, step, c, log);
    case Close(c) => StopSends(s, step, c, log);
    case TaskAction => TaskSends(s, log);
    case PollAction =>
      var k := s.poll.pending[0];
      if s.poll.stage.Unpolled? {
        LogExpire(log, s.delegates, s.nextDelegate, k);
        AppendTail(s.queue, MsgExpire(k));
      } else {
        assert Sent(s, step) == [] && log + [] == log;
      }
    case _ =>
      assert Sent(s, step) == [] && log + [] == log;
  }

  lemma JoinLogs(log: seq<Msg>, a: seq<Msg>, b: seq<Msg>)
    ensures log + a + b == log + (a + b)
  {
  }

  lemma {:induction false} RunSends(s: State, steps: seq<Step>, log: seq<Msg>)
    requires FactsAlong(s, steps) && LogOk(log, s.delegates, s.nextDelegate) && Run(s, steps).Some?
    ensures var t := Run(s, steps).value; LogOk(log + SentIn(s, steps), t.delegates, t.nextDelegate)
    decreases |steps|
  {
    if steps == [] {
      assert log + [] == log;
    } else {
      var t := Do(s, steps[0]);
      StepSends(s, steps[0], log);
      RunSends(t, steps[1..], log + Sent(s, steps[0]));
      JoinLogs(log, Sent(s, steps[0]), SentIn(t, steps[1..]));
    }
  }

  /** Over the whole run, two messages about one delegate are its push and then its remove: it
      is pushed once, and removed at most once and only after that; the removal is sent once
      the delegate is stopped or has expired. */
  lemma PushBeforeRemove(clock: Timespec, steps: seq<Step>, s: State, i: nat, j: nat)
    requires Reached(clock, steps, s) && i < j < |SentIn(Init(clock), steps)|
    requires
      var log := SentIn(Init(clock), steps);
      !log[i].MsgExpire? && !log[j].MsgExpire? && log[i].d == log[j].d
    ensures
      var log := SentIn(Init(clock), steps);
      log[i].MsgPush? && log[j].MsgRemove? && !Running(s.delegates, log[i].d)
  {
    ReachedFacts(clock, steps);
    RunSends(Init(clock), steps, []);
    var log := SentIn(Init(clock), steps);
    assert [] + log == log;
    assert InOrder(log[i], log[j]) && log[j] in log;
    LastFacts(Init(clock), steps);
  }

  /** Every started timer was pushed, and a running one was never asked to be removed. */
  lemma StartedTimersArePushed(clock: Timespec, steps: seq<Step>, s: State, d: nat)
    requires Reached(clock, steps, s)
    ensures MsgPush(d) in SentIn(Init(clock), steps) <==> d < s.nextDelegate
    ensures Running(s.delegates, d) ==> MsgRemove(d) !in SentIn(Init(clock), steps)
  {
    ReachedFacts(clock, steps);
    RunSends(Init(clock), steps, []);
    assert [] + SentIn(Init(clock), steps) == SentIn(Init(clock), steps);
    LastFacts(Init(clock), steps);
  }

  // ---------- early timeouts ----------

  /** The delegate being expired is the one popped last. */
  ghost predicate ExpiringOk(task: Task, delegates: Delegates) {
    task.Expiring? ==>
      && task.drain.popped != [] && task.d in delegates
      && task.drain.popped[|task.drain.popped| - 1] == ItemOf(task.d, delegates[task.d])
  }

  lemma TaskKeepsExpiring(s: State)
    requires Facts(s) && Enabled(s, TaskAction)
    ensures var t := Do(s, TaskAction); ExpiringOk(t.task, t.delegates)
  {
    match s.task
    case Ready =>
      if s.queue[0].MsgExpire? {
        BeginsWithTop(s.(queue := s.queue[1..]), s.queue[0].kind);
      }
    case PopNext(drain) => PopsTop(s, drain);
    case _ =>
  }

  lemma BeginsWithTop(s: State, k: Kind)
    requires TopLive(s.boxes.Get(k).heap, s.delegates) && s.task.Ready?
    ensures var t := DoMsg(s, MsgExpire(k)); ExpiringOk(t.task, t.delegates)
  {
  }

  lemma PopsTop(s: State, drain: Drain)
    requires TopLive(s.boxes.Get(drain.kind).heap, s.delegates)
    ensures var t := DoPopNext(s, drain); ExpiringOk(t.task, t.delegates)
  {
  }

  lemma StepKeepsExpiring(s: State, step: Step)
    requires Facts(s) && Enabled(s, step) && ExpiringOk(s.task, s.delegates)
    ensures var t := Do(s, step); ExpiringOk(t.task, t.delegates)
  {
    if step.TaskAction? {
      TaskKeepsExpiring(s);
    }
  }

  lemma {:induction false} RunKeepsExpiring(s: State, steps: seq<Step>)
    requires FactsAlong(s, steps) && ExpiringOk(s.task, s.delegates) && Run(s, steps).Some?
    ensures var t := Run(s, steps).value; ExpiringOk(t.task, t.delegates)
    decreases |steps|
  {
    if steps != [] {
      StepKeepsExpiring(s, steps[0]);
      RunKeepsExpiring(Do(s, steps[0]), steps[1..]);
    }
  }

  lemma PoppedIsEarlyIff(h: Tree, now: int, popped: seq<Item>, xs: seq<Item>, rest: Tree)
    requires CheckNodes(h) && h.Node? && popped != [] && TimerBox.Drain(h, now) == (popped + xs, rest)
    ensures !Due(popped[|popped| - 1], now) <==> forall x | x in Contents(h) :: !Due(x, now)
  {
    DrainExact(h, now, popped + xs, rest);
    var last := popped[|popped| - 1];
    assert (popped + xs)[|popped| - 1] == last;
    if forall x | x in Contents(h) :: !Due(x, now) {
      assert popped + xs == [h.data];
    }
  }

  lemma ExpiringIsEarlyIff(task: Task, delegates: Delegates, h: Heaps, clock: Timespec)
    requires task.Expiring? && ExpiringOk(task, delegates) && DrainOk(task, h, clock)
    ensures
      var dr := task.drain;
      dr.now < Ns(delegates[task.d].time) <==> forall x | x in Contents(dr.start) :: dr.now < DueTime(x)
  {
    var dr := task.drain;
    var (xs, rest) := DrainDue(h.Get(dr.kind), dr.now);
    PoppedIsEarlyIff(dr.start, dr.now, dr.popped, xs, rest);
  }

  lemma ReachedExpiring(clock: Timespec, steps: seq<Step>, s: State)
    requires Reached(clock, steps, s)
    ensures ExpiringOk(s.task, s.delegates)
  {
    ReachedFacts(clock, steps);
    RunKeepsExpiring(Init(clock), steps);
  }

  lemma ReachedDrain(clock: Timespec, steps: seq<Step>, s: State)
    requires Reached(clock, steps, s)
    ensures DrainOk(s.task, HeapsOf(s.boxes), s.clock)
  {
    ReachedInv(clock, steps, s);
  }

  /** In every run, the timer handed to its client is not due iff no timer of its container was
      due when the expire message was taken up. */
  lemma TimeoutIsEarlyIff(clock: Timespec, steps: seq<Step>, s: State)
    requires Reached(clock, steps, s) && s.task.Expiring?
    ensures s.task.d in s.delegates
    ensures
      var dr := s.task.drain;
      dr.now < Ns(s.delegates[s.task.d].time) <==> forall x | x in Contents(dr.start) :: dr.now < DueTime(x)
  {
    ReachedExpiring(clock, steps, s);
    ReachedDrain(clock, steps, s);
    ExpiringIsEarlyIff(s.task, s.delegates, HeapsOf(s.boxes), s.clock);
  }
}
