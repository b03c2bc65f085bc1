/** The timer service of gps/utils/LocTimer.cpp as a step system.

    Client threads run LocTimer::start and stop (each one critical section), the poll
    thread reacts to the two timerfds, and one FIFO message task owns the heaps. A step is
    one critical section, one message, one pop of a drain, the test and forced stop of one
    delegate's expiry, the callback that follows it without a lock, or one of the three
    actions of LocTimerContainer::expire. Delegates are known by an id that is never reused;
    a step that would touch a deleted delegate, lock or client sets `fault`, and a callback
    on a client whose destructor has begun sets `dangling`.
 */
module TimerService {
  import opened Options
  import opened HeapTree
  import opened TimeOrder
  import opened TimerBox

  datatype Kind = Sw | Hw

  datatype Boxes = Boxes(sw: Box, hw: Box) {
    function Get(k: Kind): Box { if k.Sw? then sw else hw }
    function Set(k: Kind, b: Box): Boxes { if k.Sw? then this.(sw := b) else this.(hw := b) }
  }

  /** mClient, the client whose lock is shared, mFutureTime, mContainer and whether it is set. */
  datatype Delegate = Delegate(client: Option<nat>, owner: nat, time: Timespec, kind: Kind, contained: bool)

  /** Closing: the destructor has stopped the timer and has yet to drop the lock. */
  datatype Phase = Live | Closing | Gone
  datatype Client = Client(timer: Option<nat>, phase: Phase)

  datatype Msg = MsgPush(d: nat) | MsgRemove(d: nat) | MsgExpire(kind: Kind)

  /** A drain remembers the heap it began with and what it has popped. */
  datatype Drain = Drain(kind: Kind, now: int, start: Tree, popped: seq<Item>)
  datatype Task =
    | Ready
    | Expiring(drain: Drain, d: nat)
    | Calling(drain: Drain, d: nat, c: nat)     // d is stopped, its client c not yet called
    | PopNext(drain: Drain)

  datatype Stage = Woken | Disarmed | Unpolled
  datatype Poll = Poll(pending: seq<Kind>, stage: Stage)

  datatype State = State(
    clock: Timespec,
    queue: seq<Msg>,
    boxes: Boxes,
    task: Task,
    poll: Poll,
    delegates: map<nat, Delegate>,
    clients: map<nat, Client>,
    locks: map<nat, int>,      // reference counts of the existing shared locks
    nextDelegate: nat,
    nextClient: nat,
    stops: multiset<nat>,      // delegates whose client's stop() returned true
    timeouts: multiset<nat>,   // delegates stopped by their expiry
    callbacks: multiset<nat>,  // delegates whose client was called back
    deletes: multiset<nat>,
    fault: bool,
    dangling: bool)

  datatype Step =
    | Tick(now: Timespec)
    | NewClient
    | Start(c: nat, ms: nat, kind: Kind, available: bool)
    | Stop(c: nat)
    | Close(c: nat)
    | DropLock(c: nat)
    | EpollWake(ready: seq<Kind>)
    | PollAction
    | TaskAction

  /** The last second of boot time at which every due time still fits an int. */
  const MAX_BOOT_SEC := TWO_31 - 1 - 4_294_968

  function ItemOf(d: nat, del: Delegate): Item {
    TimerItem(d, Ns(del.time))
  }

  function Init(clock: Timespec): State {
    State(clock, [], Boxes(EMPTY_BOX, EMPTY_BOX), Ready, Poll([], Woken), map[], map[], map[],
          0, 0, multiset{}, multiset{}, multiset{}, multiset{}, false, false)
  }

  // ---------- steps ----------

  predicate ClientIs(s: State, c: nat, p: Phase) {
    c in s.clients && s.clients[c].phase == p
  }

  predicate Fires(s: State, k: Kind) {
    var b := s.boxes.Get(k);
    b.registered && b.armed.Some? && b.armed.value <= Ns(s.clock)
  }

  predicate Enabled(s: State, step: Step) {
    match step
    case Tick(now) => Normal(now) && Ns(s.clock) <= Ns(now) && now.sec <= MAX_BOOT_SEC
    case NewClient => true
    case Start(c, ms, _, _) => ClientIs(s, c, Live) && ms < TWO_32
    case Stop(c) => ClientIs(s, c, Live)
    case Close(c) => ClientIs(s, c, Live)
    case DropLock(c) => ClientIs(s, c, Closing)
    case EpollWake(ready) =>
      && s.poll.pending == [] && 1 <= |ready| <= 2
      && (|ready| == 2 ==> ready[0] != ready[1])
      && forall k | k in ready :: Fires(s, k)
    case PollAction => s.poll.pending != []
    case TaskAction => s.task != Ready || s.queue != []
  }

  function Do(s: State, step: Step): State
    requires Enabled(s, step)
  {
    match step
    case Tick(now) => s.(clock := now)
    case NewClient =>
      s.(clients := s.clients[s.nextClient := Client(None, Live)],
         locks := s.locks[s.nextClient := 1],
         nextClient := s.nextClient + 1)
    case Start(c, ms, kind, available) => DoStart(s, c, FutureTime(s.clock, ms), kind, available)
    case Stop(c) => DoStop(s, c)
    case Close(c) =>
      var t := DoStop(s, c);
      t.(clients := t.clients[c := Client(t.clients[c].timer, Closing)])
    case DropLock(c) =>
      s.(clients := s.clients[c := Client(s.clients[c].timer, Gone)], locks := Drop(s.locks, c))
    case EpollWake(ready) => s.(poll := Poll(ready, Woken))
    case PollAction => DoPoll(s)
    case TaskAction =>
      match s.task
      case Ready => DoMsg(s.(queue := s.queue[1..]), s.queue[0])
      case Expiring(drain, d) => DoExpire(s, drain, d)
      case Calling(drain, d, c) => DoCall(s, drain, d, c)
      case PopNext(drain) => DoPopNext(s, drain)
  }

  function DoStart(s: State, c: nat, time: Timespec, kind: Kind, available: bool): State
    requires c in s.clients
  {
    if s.clients[c].timer.Some? || !available then s
    else if c !in s.locks then s.(fault := true)
    else
      var d := s.nextDelegate;
      s.(delegates := s.delegates[d := Delegate(Some(c), c, time, kind, true)],
         locks := s.locks[c := s.locks[c] + 1],
         queue := s.queue + [MsgPush(d)],
         clients := s.clients[c := s.clients[c].(timer := Some(d))],
         nextDelegate := d + 1)
  }

  /** The body of LocTimer::stop and of LocTimerDelegate::destroyLocked. */
  function Detach(s: State, c: nat): State
    requires c in s.clients && s.clients[c].timer.Some?
  {
    var d := s.clients[c].timer.value;
    if d !in s.delegates then s.(fault := true)
    else
      var del := s.delegates[d];
      s.(clients := s.clients[c := s.clients[c].(timer := None)],
         delegates := s.delegates[d := del.(client := None, contained := false)],
         queue := if del.contained then s.queue + [MsgRemove(d)] else s.queue)
  }

  function DoStop(s: State, c: nat): (t: State)
    requires c in s.clients
    ensures t.clients.Keys == s.clients.Keys
  {
    if s.clients[c].timer.None? then s
    else Detach(s, c).(stops := s.stops + multiset{s.clients[c].timer.value})
  }

  /** LocSharedLock::drop: the last one deletes the lock. */
  function Drop(locks: map<nat, int>, c: nat): map<nat, int> {
    if c !in locks then locks
    else if locks[c] == 1 then locks - {c}
    else locks[c := locks[c] - 1]
  }

  function DoPoll(s: State): State
    requires s.poll.pending != []
  {
    var k := s.poll.pending[0];
    var b := s.boxes.Get(k);
    match s.poll.stage
    case Woken => s.(boxes := s.boxes.Set(k, b.(armed := None)), poll := s.poll.(stage := Disarmed))
    case Disarmed => s.(boxes := s.boxes.Set(k, b.(registered := false)), poll := s.poll.(stage := Unpolled))
    case Unpolled => s.(queue := s.queue + [MsgExpire(k)], poll := Poll(s.poll.pending[1..], Woken))
  }

  function DoMsg(s: State, m: Msg): State {
    match m
    case MsgPush(d) =>
      if d !in s.delegates then s.(fault := true)
      else
        var k := s.delegates[d].kind;
        s.(boxes := s.boxes.Set(k, ProcPush(s.boxes.Get(k), ItemOf(d, s.delegates[d]))))
    case MsgRemove(d) =>
      if d !in s.delegates then s.(fault := true)
      else
        var k := s.delegates[d].kind;
        s.(boxes := s.boxes.Set(k, ProcRemove(s.boxes.Get(k), ItemOf(d, s.delegates[d]))),
           delegates := s.delegates - {d},
           locks := Drop(s.locks, s.delegates[d].owner),
           deletes := s.deletes + multiset{d})
    case MsgExpire(k) =>
      var b := s.boxes.Get(k);
      if b.heap.Leaf? then s.(boxes := s.boxes.Set(k, UpdateSoonestTime(b, None)))
      else
        s.(boxes := s.boxes.Set(k, b.(heap := Pop(b.heap))),
           task := Expiring(Drain(k, Ns(s.clock), b.heap, [b.heap.data]), b.heap.data.addr))
  }

  /** LocTimerDelegate::expire: test and forced stop. */
  function DoExpire(s: State, drain: Drain, d: nat): State {
    var next := PopNext(drain);
    if d !in s.delegates then s.(task := next, fault := true)
    else if s.delegates[d].client.None? then s.(task := next)
    else
      var c := s.delegates[d].client.value;
      if c !in s.clients || s.clients[c].phase.Gone? then s.(task := next, fault := true)
      else if s.clients[c].timer.None? then s.(task := next)
      else Detach(s, c).(task := Calling(drain, d, c), timeouts := s.timeouts + multiset{d})
  }

  /** The callback, through a pointer read before the lock was let go. */
  function DoCall(s: State, drain: Drain, d: nat, c: nat): State {
    s.(task := PopNext(drain), callbacks := s.callbacks + multiset{d},
       dangling := s.dangling || !ClientIs(s, c, Live))
  }

  function DoPopNext(s: State, drain: Drain): State {
    var k := drain.kind;
    var b := s.boxes.Get(k);
    if b.heap.Node? && Due(b.heap.data, drain.now) then
      s.(boxes := s.boxes.Set(k, b.(heap := Pop(b.heap))),
         task := Expiring(drain.(popped := drain.popped + [b.heap.data]), b.heap.data.addr))
    else s.(boxes := s.boxes.Set(k, UpdateSoonestTime(b, None)), task := Ready)
  }

  // ---------- runs ----------

  /** The state after a sequence of steps, None if one of them is not enabled. */
  function Run(s: State, steps: seq<Step>): Option<State>
    decreases |steps|
  {
    if steps == [] then Some(s)
    else if Enabled(s, steps[0]) then Run(Do(s, steps[0]), steps[1..])
    else None
  }

  predicate GoodClock(t: Timespec) {
    Normal(t) && 0 <= t.sec <= MAX_BOOT_SEC && Ns(t) > 0
  }

  // ---------- what every step keeps ----------
  //
  // Each part of the invariant names only the state it speaks about.

  type Delegates = map<nat, Delegate>
  type Clients = map<nat, Client>

  ghost predicate TimesFit(clock: Timespec, delegates: Delegates) {
    && GoodClock(clock)
    && forall d | d in delegates ::
         var t := delegates[d].time;
         Normal(t) && 0 <= t.sec < TWO_31 && Ns(t) > 0
  }

  datatype Heaps = Heaps(sw: Tree, hw: Tree) {
    function Get(k: Kind): Tree { if k.Sw? then sw else hw }
  }

  function HeapsOf(b: Boxes): Heaps {
    Heaps(b.sw.heap, b.hw.heap)
  }

  ghost function AddrsOf(m: multiset<Item>): set<nat> {
    set x | x in m :: x.addr
  }

  ghost function Addrs(h: Heaps): set<nat> {
    AddrsOf(Contents(h.sw)) + AddrsOf(Contents(h.hw))
  }

  /** A heap holds live delegates of its own kind, each once. */
  ghost predicate ItemsOk(m: multiset<Item>, k: Kind, delegates: Delegates) {
    forall x | x in m ::
      && x.addr in delegates && delegates[x.addr].kind == k
      && x == ItemOf(x.addr, delegates[x.addr])
      && m[x] == 1
  }

  ghost predicate HeapOk(h: Tree, k: Kind, delegates: Delegates) {
    CheckNodes(h) && ItemsOk(Contents(h), k, delegates)
  }

  ghost predicate HeapsOk(h: Heaps, delegates: Delegates) {
    HeapOk(h.sw, Sw, delegates) && HeapOk(h.hw, Hw, delegates)
  }

  /** Two queued messages about one delegate are its push and then its remove. */
  predicate InOrder(a: Msg, b: Msg) {
    a.MsgExpire? || b.MsgExpire? || a.d != b.d || (a.MsgPush? && b.MsgRemove?)
  }

  ghost predicate QueueOrdered(q: seq<Msg>) {
    forall i, j | 0 <= i < j < |q| :: InOrder(q[i], q[j])
  }

  ghost function ToPush(q: seq<Msg>): set<nat> {
    set m | m in q && m.MsgPush? :: m.d
  }

  ghost function ToRemove(q: seq<Msg>): set<nat> {
    set m | m in q && m.MsgRemove? :: m.d
  }

  ghost function ToExpire(q: seq<Msg>): set<Kind> {
    set m | m in q && m.MsgExpire? :: m.kind
  }

  /** The delegate the message task is expiring. */
  function Current(task: Task): set<nat> {
    if task.Expiring? then {task.d} else {}
  }

  ghost predicate ContainedOk(delegates: Delegates) {
    forall d | d in delegates :: delegates[d].contained == delegates[d].client.Some?
  }

  predicate Running(delegates: Delegates, d: nat) {
    d in delegates && delegates[d].client.Some?
  }

  /** Where the delegates are. A running timer is still to be pushed, in a heap or being
      expired; the others, and only they, have their remove message queued. */
  ghost predicate PlacesOk(delegates: Delegates, push: set<nat>, remove: set<nat>, heap: set<nat>, cur: set<nat>) {
    && push !! heap && push !! cur && heap !! cur
    && push + remove + heap + cur <= delegates.Keys
    && (forall d | d in delegates :: d in remove <==> delegates[d].client.None?)
    && (forall d | d in delegates && delegates[d].client.Some? :: d in push + heap + cur)
  }

  /** mClient of a delegate and mTimer of a client point at each other. */
  ghost predicate LinksOk(delegates: Delegates, clients: Clients) {
    && (forall d | d in delegates :: delegates[d].owner in clients)
    && (forall d | d in delegates && delegates[d].client.Some? ::
          && delegates[d].client.value == delegates[d].owner
          && clients[delegates[d].owner].timer == Some(d))
    && (forall c | c in clients && clients[c].timer.Some? ::
          && clients[c].phase.Live?
          && clients[c].timer.value in delegates
          && delegates[clients[c].timer.value].client == Some(c))
  }

  ghost predicate IdsOk(delegates: Delegates, clients: Clients, nextDelegate: nat, nextClient: nat) {
    (forall d | d in delegates :: d < nextDelegate) && (forall c | c in clients :: c < nextClient)
  }

  ghost function Sharers(delegates: Delegates, c: nat): set<nat> {
    set d | d in delegates && delegates[d].owner == c
  }

  function Held(p: Phase): int {
    if p.Gone? then 0 else 1
  }

  ghost predicate LockOk(locks: map<nat, int>, c: nat, count: int) {
    if count == 0 then c !in locks else c in locks && locks[c] == count
  }

  /** The shared lock counts its client and the live delegates that share it. */
  ghost predicate LocksOk(locks: map<nat, int>, clients: Clients, delegates: Delegates) {
    forall c | c in clients :: LockOk(locks, c, Held(clients[c].phase) + |Sharers(delegates, c)|)
  }

  /** Every started timer is running, or was stopped once, or timed out once; it is deleted
      at most once. */
  ghost predicate HistoryOk(deletes: multiset<nat>, ends: multiset<nat>, delegates: Delegates, nextDelegate: nat) {
    forall d: nat ::
      && deletes[d] == (if d < nextDelegate && d !in delegates then 1 else 0)
      && ends[d] == (if d < nextDelegate && !Running(delegates, d) then 1 else 0)
  }

  predicate Draining(task: Task, k: Kind) {
    !task.Ready? && task.drain.kind == k
  }

  /** The soonest timer of a container is armed and polled, or an expiry is under way. */
  ghost predicate NotLost(k: Kind, b: Box, pending: seq<Kind>, expire: set<Kind>, task: Task) {
    Watched(b) || k in pending || k in expire || Draining(task, k)
  }

  /** What a drain has popped so far and what it has yet to pop make up the drain of the
      heap it began with, no matter what ran in between. */
  ghost predicate DrainOk(task: Task, h: Heaps, clock: Timespec) {
    task.Ready? ||
    var dr := task.drain;
    var (xs, rest) := DrainDue(h.Get(dr.kind), dr.now);
    && CheckNodes(dr.start) && dr.start.Node? && dr.now <= Ns(clock)
    && TimerBox.Drain(dr.start, dr.now) == (dr.popped + xs, rest)
  }

  /** Heaps, queue and message task. */
  ghost predicate StructureOk(s: State) {
    && TimesFit(s.clock, s.delegates)
    && HeapsOk(HeapsOf(s.boxes), s.delegates)
    && QueueOrdered(s.queue)
    && ContainedOk(s.delegates)
    && PlacesOk(s.delegates, ToPush(s.queue), ToRemove(s.queue), Addrs(HeapsOf(s.boxes)), Current(s.task))
    && DrainOk(s.task, HeapsOf(s.boxes), s.clock)
  }

  /** Clients, locks and the history of every delegate. */
  ghost predicate AccountsOk(s: State) {
    && LinksOk(s.delegates, s.clients)
    && IdsOk(s.delegates, s.clients, s.nextDelegate, s.nextClient)
    && LocksOk(s.locks, s.clients, s.delegates)
    && HistoryOk(s.deletes, s.stops + s.timeouts, s.delegates, s.nextDelegate)
  }

  ghost predicate NoneLost(s: State) {
    && NotLost(Sw, s.boxes.sw, s.poll.pending, ToExpire(s.queue), s.task)
    && NotLost(Hw, s.boxes.hw, s.poll.pending, ToExpire(s.queue), s.task)
  }

  ghost predicate Inv(s: State) {
    !s.fault && StructureOk(s) && AccountsOk(s) && NoneLost(s)
  }
}
