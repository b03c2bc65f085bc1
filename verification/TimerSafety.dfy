/** Safety of the timer service over every interleaving. */
module TimerSafety {
  import opened Options
  import opened HeapTree
  import opened TimeOrder
  import opened TimerBox
  import opened TimerService

  // ---------- the queue ----------

  lemma AppendOrdered(q: seq<Msg>, m: Msg)
    requires QueueOrdered(q) && forall a | a in q :: InOrder(a, m)
    ensures QueueOrdered(q + [m])
  {
  }

  lemma TailOrdered(q: seq<Msg>)
    requires QueueOrdered(q) && q != []
    ensures QueueOrdered(q[1..])
    ensures forall m | m in q[1..] :: InOrder(q[0], m)
  {
  }

  lemma AppendSets(q: seq<Msg>, m: Msg)
    ensures ToPush(q + [m]) == if m.MsgPush? then ToPush(q) + {m.d} else ToPush(q)
    ensures ToRemove(q + [m]) == if m.MsgRemove? then ToRemove(q) + {m.d} else ToRemove(q)
    ensures ToExpire(q + [m]) == if m.MsgExpire? then ToExpire(q) + {m.kind} else ToExpire(q)
  {
    assert forall a :: a in q + [m] <==> a in q || a == m;
    assert forall a | a in q :: a in q + [m];
  }

  lemma TailSets(q: seq<Msg>)
    requires QueueOrdered(q) && q != []
    ensures ToPush(q[1..]) == if q[0].MsgPush? then ToPush(q) - {q[0].d} else ToPush(q)
    ensures ToRemove(q[1..]) == if q[0].MsgRemove? then ToRemove(q) - {q[0].d} else ToRemove(q)
    ensures ToExpire(q) == if q[0].MsgExpire? then ToExpire(q[1..]) + {q[0].kind} else ToExpire(q[1..])
  {
    TailOrdered(q);
    assert forall a :: a in q <==> a == q[0] || a in q[1..];
  }

  // ---------- parts that a step does not touch ----------

  lemma SameStructure(s: State, t: State)
    requires StructureOk(s) && t.clock == s.clock && t.queue == s.queue && t.delegates == s.delegates
    requires HeapsOf(t.boxes) == HeapsOf(s.boxes) && t.task == s.task
    ensures StructureOk(t)
  {
  }

  lemma SameAccounts(s: State, t: State)
    requires AccountsOk(s) && t.delegates == s.delegates && t.clients == s.clients && t.locks == s.locks
    requires t.nextDelegate == s.nextDelegate && t.nextClient == s.nextClient
    requires t.deletes == s.deletes && t.stops == s.stops && t.timeouts == s.timeouts
    ensures AccountsOk(t)
  {
  }

  lemma SameAttention(s: State, t: State)
    requires NoneLost(s) && t.boxes == s.boxes && t.poll == s.poll && t.queue == s.queue && t.task == s.task
    ensures NoneLost(t)
  {
  }

  /** Only clients and locks change. */
  lemma SameDelegatesKeep(s: State, t: State)
    requires Inv(s) && t == s.(clients := t.clients, locks := t.locks, nextClient := t.nextClient)
    requires LinksOk(t.delegates, t.clients) && LocksOk(t.locks, t.clients, t.delegates)
    requires IdsOk(t.delegates, t.clients, t.nextDelegate, t.nextClient)
    ensures Inv(t)
  {
    SameStructure(s, t);
    SameAttention(s, t);
  }

  // ---------- clocks, clients, poll thread ----------

  lemma TickKeeps(s: State, now: Timespec)
    requires Inv(s) && Enabled(s, Tick(now))
    ensures Inv(Do(s, Tick(now)))
  {
  }

  lemma NewClientLinks(delegates: Delegates, clients: Clients, c: nat, client: Client)
    requires LinksOk(delegates, clients) && c !in clients && client.timer.None?
    ensures LinksOk(delegates, clients[c := client])
    ensures Sharers(delegates, c) == {}
  {
  }

  lemma NewClientLocks(locks: map<nat, int>, clients: Clients, delegates: Delegates, c: nat)
    requires LocksOk(locks, clients, delegates) && c !in clients && Sharers(delegates, c) == {}
    ensures LocksOk(locks[c := 1], clients[c := Client(None, Live)], delegates)
  {
  }

  lemma NewClientKeeps(s: State)
    requires Inv(s)
    ensures Inv(Do(s, NewClient))
  {
    NewClientAccounts(s.locks, s.delegates, s.clients, s.nextDelegate, s.nextClient);
    SameDelegatesKeep(s, Do(s, NewClient));
  }

  lemma NewClientAccounts(locks: map<nat, int>, delegates: Delegates, clients: Clients, next: nat, c: nat)
    requires LinksOk(delegates, clients) && LocksOk(locks, clients, delegates) && IdsOk(delegates, clients, next, c)
    ensures
      var more := clients[c := Client(None, Live)];
      LinksOk(delegates, more) && LocksOk(locks[c := 1], more, delegates) && IdsOk(delegates, more, next, c + 1)
  {
    NewClientLinks(delegates, clients, c, Client(None, Live));
    NewClientLocks(locks, clients, delegates, c);
  }

  /** A client in another phase, with the same timer. */
  lemma PhaseLinks(delegates: Delegates, clients: Clients, c: nat, p: Phase)
    requires LinksOk(delegates, clients) && c in clients && (clients[c].timer.None? || p.Live?)
    ensures LinksOk(delegates, clients[c := clients[c].(phase := p)])
  {
  }

  lemma DropLockLocks(locks: map<nat, int>, clients: Clients, delegates: Delegates, c: nat)
    requires LocksOk(locks, clients, delegates) && c in clients && !clients[c].phase.Gone?
    ensures LocksOk(Drop(locks, c), clients[c := clients[c].(phase := Gone)], delegates)
  {
    assert LockOk(locks, c, 1 + |Sharers(delegates, c)|);
  }

  lemma DropLockKeeps(s: State, c: nat)
    requires Inv(s) && Enabled(s, DropLock(c))
    ensures Inv(Do(s, DropLock(c)))
  {
    var t := Do(s, DropLock(c));
    assert t.clients == s.clients[c := s.clients[c].(phase := Gone)];
    PhaseLinks(s.delegates, s.clients, c, Gone);
    DropLockLocks(s.locks, s.clients, s.delegates, c);
    PhaseIds(s.delegates, s.clients, s.nextDelegate, s.nextClient, c, Gone);
    SameDelegatesKeep(s, t);
  }

  lemma PhaseIds(delegates: Delegates, clients: Clients, next: nat, nextClient: nat, c: nat, p: Phase)
    requires IdsOk(delegates, clients, next, nextClient) && c in clients
    ensures IdsOk(delegates, clients[c := clients[c].(phase := p)], next, nextClient)
  {
  }

  lemma WakeKeeps(s: State, ready: seq<Kind>)
    requires Inv(s) && Enabled(s, EpollWake(ready))
    ensures Inv(Do(s, EpollWake(ready)))
  {
  }

  /** Only the kernel's view of the containers and the poll thread change. */
  lemma SameHeapsKeep(s: State, boxes: Boxes, poll: Poll)
    requires Inv(s) && HeapsOf(boxes) == HeapsOf(s.boxes)
    requires NotLost(Sw, boxes.sw, poll.pending, ToExpire(s.queue), s.task)
    requires NotLost(Hw, boxes.hw, poll.pending, ToExpire(s.queue), s.task)
    ensures Inv(s.(boxes := boxes, poll := poll))
  {
    var t := s.(boxes := boxes, poll := poll);
    SameStructure(s, t);
    SameAccounts(s, t);
  }

  lemma DisarmNotLost(boxes: Boxes, b: Box, pending: seq<Kind>, expire: set<Kind>, task: Task)
    requires pending != [] && b.heap == boxes.Get(pending[0]).heap
    requires NotLost(Sw, boxes.sw, pending, expire, task) && NotLost(Hw, boxes.hw, pending, expire, task)
    ensures var t := boxes.Set(pending[0], b);
            && HeapsOf(t) == HeapsOf(boxes)
            && NotLost(Sw, t.sw, pending, expire, task) && NotLost(Hw, t.hw, pending, expire, task)
  {
  }

  lemma DisarmKeeps(s: State, b: Box, stage: Stage)
    requires Inv(s) && s.poll.pending != [] && b.heap == s.boxes.Get(s.poll.pending[0]).heap
    ensures Inv(s.(boxes := s.boxes.Set(s.poll.pending[0], b), poll := Poll(s.poll.pending, stage)))
  {
    DisarmNotLost(s.boxes, b, s.poll.pending, ToExpire(s.queue), s.task);
    SameHeapsKeep(s, s.boxes.Set(s.poll.pending[0], b), Poll(s.poll.pending, stage));
  }

  lemma SendExpireKeeps(s: State)
    requires Inv(s) && s.poll.pending != [] && s.poll.stage.Unpolled?
    ensures Inv(DoPoll(s))
  {
    var t := DoPoll(s);
    SendExpireStructure(s, t, s.poll.pending[0]);
    SameAccounts(s, t);
    SendExpireAttention(s.boxes, s.poll.pending, s.queue, s.task);
  }

  lemma SendExpireStructure(s: State, t: State, k: Kind)
    requires StructureOk(s) && t == s.(queue := s.queue + [MsgExpire(k)], poll := t.poll)
    ensures StructureOk(t)
  {
    AppendOrdered(s.queue, MsgExpire(k));
    AppendSets(s.queue, MsgExpire(k));
  }

  lemma SendExpireAttention(boxes: Boxes, pending: seq<Kind>, q: seq<Msg>, task: Task)
    requires pending != []
    requires NotLost(Sw, boxes.sw, pending, ToExpire(q), task) && NotLost(Hw, boxes.hw, pending, ToExpire(q), task)
    ensures
      var later := q + [MsgExpire(pending[0])];
      && NotLost(Sw, boxes.sw, pending[1..], ToExpire(later), task)
      && NotLost(Hw, boxes.hw, pending[1..], ToExpire(later), task)
  {
    AppendSets(q, MsgExpire(pending[0]));
    assert forall k | k in pending :: k == pending[0] || k in pending[1..];
  }

  // ---------- start ----------

  lemma FreshPushOrdered(q: seq<Msg>, d: nat)
    requires QueueOrdered(q) && d !in ToPush(q) && d !in ToRemove(q)
    ensures QueueOrdered(q + [MsgPush(d)])
  {
    forall a | a in q ensures InOrder(a, MsgPush(d)) {
      assert a.MsgPush? ==> a.d in ToPush(q);
      assert a.MsgRemove? ==> a.d in ToRemove(q);
    }
    AppendOrdered(q, MsgPush(d));
  }

  lemma StartPlaces(delegates: Delegates, push: set<nat>, remove: set<nat>, heap: set<nat>, cur: set<nat>, d: nat, del: Delegate)
    requires PlacesOk(delegates, push, remove, heap, cur) && ContainedOk(delegates)
    requires d !in delegates && del.client.Some? && del.contained
    ensures PlacesOk(delegates[d := del], push + {d}, remove, heap, cur) && ContainedOk(delegates[d := del])
  {
  }

  lemma StartLinks(delegates: Delegates, clients: Clients, c: nat, d: nat, del: Delegate)
    requires LinksOk(delegates, clients) && ClientFree(clients, c)
    requires d !in delegates && del.client == Some(c) && del.owner == c
    ensures LinksOk(delegates[d := del], clients[c := clients[c].(timer := Some(d))])
  {
  }

  predicate ClientFree(clients: Clients, c: nat) {
    c in clients && clients[c].phase.Live? && clients[c].timer.None?
  }

  lemma StartLocks(locks: map<nat, int>, clients: Clients, delegates: Delegates, c: nat, d: nat, del: Delegate)
    requires LocksOk(locks, clients, delegates) && ClientFree(clients, c)
    requires d !in delegates && del.owner == c
    ensures c in locks
    ensures LocksOk(locks[c := locks[c] + 1], clients[c := clients[c].(timer := Some(d))], delegates[d := del])
  {
    assert LockOk(locks, c, 1 + |Sharers(delegates, c)|);
    forall e | e in clients
      ensures |Sharers(delegates[d := del], e)| == |Sharers(delegates, e)| + if e == c then 1 else 0
    {
      SharersGrow(delegates, d, del, e);
    }
  }

  lemma SharersGrow(delegates: Delegates, d: nat, del: Delegate, e: nat)
    requires d !in delegates
    ensures |Sharers(delegates[d := del], e)| == |Sharers(delegates, e)| + if e == del.owner then 1 else 0
  {
    assert Sharers(delegates[d := del], e) == Sharers(delegates, e) + if e == del.owner then {d} else {};
  }

  lemma StartHistory(deletes: multiset<nat>, ends: multiset<nat>, delegates: Delegates, d: nat, del: Delegate)
    requires HistoryOk(deletes, ends, delegates, d) && del.client.Some?
    ensures HistoryOk(deletes, ends, delegates[d := del], d + 1)
  {
  }

  lemma StartTimes(clock: Timespec, delegates: Delegates, d: nat, del: Delegate, ms: nat)
    requires TimesFit(clock, delegates) && ms < TWO_32 && del.time == FutureTime(clock, ms)
    ensures TimesFit(clock, delegates[d := del])
  {
    FutureTimeIsNowPlusTimeout(clock, ms);
  }

  lemma StartHeaps(h: Heaps, delegates: Delegates, d: nat, del: Delegate)
    requires HeapsOk(h, delegates) && d !in delegates
    ensures HeapsOk(h, delegates[d := del])
  {
  }

  lemma StartStructure(s: State, t: State, c: nat, ms: nat, kind: Kind)
    requires StructureOk(s) && s.nextDelegate !in s.delegates && ms < TWO_32
    requires ClientFree(s.clients, c) && c in s.locks
    requires t == DoStart(s, c, FutureTime(s.clock, ms), kind, true)
    ensures StructureOk(t) && ToExpire(t.queue) == ToExpire(s.queue)
  {
    var d, del := s.nextDelegate, t.delegates[s.nextDelegate];
    StartPlaces(s.delegates, ToPush(s.queue), ToRemove(s.queue), Addrs(HeapsOf(s.boxes)), Current(s.task), d, del);
    FreshPushOrdered(s.queue, d);
    AppendSets(s.queue, MsgPush(d));
    StartTimes(s.clock, s.delegates, d, del, ms);
    StartHeaps(HeapsOf(s.boxes), s.delegates, d, del);
  }

  lemma StartAccounts(s: State, t: State, c: nat, time: Timespec, kind: Kind)
    requires AccountsOk(s) && ClientFree(s.clients, c)
    requires t == DoStart(s, c, time, kind, true)
    ensures AccountsOk(t) && c in s.locks && s.nextDelegate !in s.delegates
  {
    var d, del := s.nextDelegate, Delegate(Some(c), c, time, kind, true);
    StartLinks(s.delegates, s.clients, c, d, del);
    StartLocks(s.locks, s.clients, s.delegates, c, d, del);
    StartHistory(s.deletes, s.stops + s.timeouts, s.delegates, d, del);
  }

  lemma StartKeeps(s: State, c: nat, ms: nat, kind: Kind, available: bool)
    requires Inv(s) && Enabled(s, Start(c, ms, kind, available))
    ensures Inv(Do(s, Start(c, ms, kind, available)))
  {
    if s.clients[c].timer.None? && available {
      var t := DoStart(s, c, FutureTime(s.clock, ms), kind, true);
      StartAccounts(s, t, c, FutureTime(s.clock, ms), kind);
      StartStructure(s, t, c, ms, kind);
    }
  }

  // ---------- stop ----------

  function Detached(del: Delegate): Delegate {
    del.(client := None, contained := false)
  }

  lemma RemoveOrdered(q: seq<Msg>, d: nat)
    requires QueueOrdered(q) && d !in ToRemove(q)
    ensures QueueOrdered(q + [MsgRemove(d)])
  {
    forall a | a in q ensures InOrder(a, MsgRemove(d)) {
      assert a.MsgRemove? ==> a.d in ToRemove(q);
    }
    AppendOrdered(q, MsgRemove(d));
  }

  lemma DetachPlaces(delegates: Delegates, push: set<nat>, remove: set<nat>, heap: set<nat>, cur: set<nat>, d: nat)
    requires PlacesOk(delegates, push, remove, heap, cur) && ContainedOk(delegates) && Running(delegates, d)
    ensures var ds := delegates[d := Detached(delegates[d])];
            && PlacesOk(ds, push, remove + {d}, heap, cur) && ContainedOk(ds)
            && PlacesOk(ds, push, remove + {d}, heap, cur - {d})
  {
  }

  lemma DetachLinks(delegates: Delegates, clients: Clients, c: nat)
    requires LinksOk(delegates, clients) && c in clients && clients[c].timer.Some?
    ensures var d := clients[c].timer.value;
            && Running(delegates, d) && clients[c].phase.Live?
            && LinksOk(delegates[d := Detached(delegates[d])], clients[c := clients[c].(timer := None)])
  {
  }

  lemma DetachLocks(locks: map<nat, int>, clients: Clients, delegates: Delegates, c: nat, d: nat)
    requires LocksOk(locks, clients, delegates) && c in clients && d in delegates
    ensures LocksOk(locks, clients[c := clients[c].(timer := None)], delegates[d := Detached(delegates[d])])
  {
    forall e ensures Sharers(delegates[d := Detached(delegates[d])], e) == Sharers(delegates, e) {
    }
  }

  lemma DetachHistory(deletes: multiset<nat>, ends: multiset<nat>, delegates: Delegates, next: nat, d: nat)
    requires HistoryOk(deletes, ends, delegates, next) && Running(delegates, d) && d < next
    ensures HistoryOk(deletes, ends + multiset{d}, delegates[d := Detached(delegates[d])], next)
  {
  }

  lemma DetachTimes(clock: Timespec, delegates: Delegates, d: nat)
    requires TimesFit(clock, delegates) && d in delegates
    ensures TimesFit(clock, delegates[d := Detached(delegates[d])])
  {
  }

  lemma DetachHeap(h: Tree, k: Kind, delegates: Delegates, d: nat)
    requires HeapOk(h, k, delegates) && d in delegates
    ensures HeapOk(h, k, delegates[d := Detached(delegates[d])])
  {
  }

  lemma DetachStructure(s: State, c: nat)
    requires StructureOk(s) && c in s.clients && s.clients[c].timer.Some?
    requires Running(s.delegates, s.clients[c].timer.value)
    ensures StructureOk(Detach(s, c)) && ToExpire(Detach(s, c).queue) == ToExpire(s.queue)
  {
    var d := s.clients[c].timer.value;
    DetachPlaces(s.delegates, ToPush(s.queue), ToRemove(s.queue), Addrs(HeapsOf(s.boxes)), Current(s.task), d);
    RemoveOrdered(s.queue, d);
    AppendSets(s.queue, MsgRemove(d));
    DetachTimes(s.clock, s.delegates, d);
    DetachHeap(s.boxes.sw.heap, Sw, s.delegates, d);
    DetachHeap(s.boxes.hw.heap, Hw, s.delegates, d);
  }

  lemma DetachAccounts(s: State, c: nat)
    requires AccountsOk(s) && c in s.clients && s.clients[c].timer.Some?
    ensures var d := s.clients[c].timer.value;
            && Running(s.delegates, d) && s.delegates[d].client == Some(c) && s.clients[c].phase.Live?
            && AccountsOk(Detach(s, c).(stops := s.stops + multiset{d}))
            && AccountsOk(Detach(s, c).(timeouts := s.timeouts + multiset{d}))
  {
    var d := s.clients[c].timer.value;
    DetachLinks(s.delegates, s.clients, c);
    DetachLocks(s.locks, s.clients, s.delegates, c, d);
    DetachHistory(s.deletes, s.stops + s.timeouts, s.delegates, s.nextDelegate, d);
    assert s.stops + s.timeouts + multiset{d} == s.stops + multiset{d} + s.timeouts;
    assert s.stops + s.timeouts + multiset{d} == s.stops + (s.timeouts + multiset{d});
  }

  lemma StopKeeps(s: State, c: nat)
    requires Inv(s) && c in s.clients
    ensures Inv(DoStop(s, c))
  {
    if s.clients[c].timer.Some? {
      DetachAccounts(s, c);
      DetachStructure(s, c);
    }
  }

  lemma CloseKeeps(s: State, c: nat)
    requires Inv(s) && Enabled(s, Close(c))
    ensures Inv(Do(s, Close(c)))
  {
    var t := DoStop(s, c);
    StopKeeps(s, c);
    assert t.clients[c] == Client(None, Live) by {
      StopClears(s, c);
    }
    ClosingKeeps(t, c);
  }

  lemma StopClears(s: State, c: nat)
    requires c in s.clients && LinksOk(s.delegates, s.clients)
    ensures DoStop(s, c).clients[c] == s.clients[c].(timer := None)
  {
  }

  lemma ClosingKeeps(t: State, c: nat)
    requires Inv(t) && c in t.clients && t.clients[c] == Client(None, Live)
    ensures Inv(t.(clients := t.clients[c := Client(None, Closing)]))
  {
    var u := t.(clients := t.clients[c := Client(None, Closing)]);
    assert u.clients == t.clients[c := t.clients[c].(phase := Closing)];
    PhaseLinks(t.delegates, t.clients, c, Closing);
    CloseLocks(t.locks, t.clients, t.delegates, c);
    PhaseIds(t.delegates, t.clients, t.nextDelegate, t.nextClient, c, Closing);
    SameDelegatesKeep(t, u);
  }

  lemma CloseLocks(locks: map<nat, int>, clients: Clients, delegates: Delegates, c: nat)
    requires LocksOk(locks, clients, delegates) && c in clients && clients[c].phase.Live?
    ensures LocksOk(locks, clients[c := clients[c].(phase := Closing)], delegates)
  {
  }

  // ---------- heaps ----------

  function SetHeap(h: Heaps, k: Kind, t: Tree): Heaps {
    if k.Sw? then h.(sw := t) else h.(hw := t)
  }

  ghost function TreeAddrs(t: Tree): set<nat> {
    AddrsOf(Contents(t))
  }

  lemma AddItem(m: multiset<Item>, k: Kind, delegates: Delegates, d: nat)
    requires ItemsOk(m, k, delegates) && d in delegates && delegates[d].kind == k && d !in AddrsOf(m)
    ensures var m' := m + multiset{ItemOf(d, delegates[d])};
            ItemsOk(m', k, delegates) && AddrsOf(m') == AddrsOf(m) + {d}
  {
    var x := ItemOf(d, delegates[d]);
    assert x !in m;
    assert x in m + multiset{x};
    assert forall y | y in m :: y in m + multiset{x};
  }

  lemma DropItem(m: multiset<Item>, k: Kind, delegates: Delegates, x: Item)
    requires ItemsOk(m + multiset{x}, k, delegates)
    ensures ItemsOk(m, k, delegates)
    ensures x.addr in AddrsOf(m + multiset{x}) && AddrsOf(m) == AddrsOf(m + multiset{x}) - {x.addr}
  {
    assert x in m + multiset{x} && (m + multiset{x})[x] == 1;
    assert forall y | y in m :: y in m + multiset{x} && y != x;
  }

  lemma PushHeap(t: Tree, k: Kind, delegates: Delegates, d: nat)
    requires HeapOk(t, k, delegates) && d in delegates && delegates[d].kind == k && d !in TreeAddrs(t)
    ensures var t' := Push(t, ItemOf(d, delegates[d]));
            HeapOk(t', k, delegates) && TreeAddrs(t') == TreeAddrs(t) + {d}
  {
    var x := ItemOf(d, delegates[d]);
    PushKeepsOrder(t, x);
    PushInserts(t, x);
    AddItem(Contents(t), k, delegates, d);
  }

  lemma PopHeap(t: Tree, k: Kind, delegates: Delegates)
    requires HeapOk(t, k, delegates) && t.Node?
    ensures HeapOk(Pop(t), k, delegates)
    ensures t.data.addr in TreeAddrs(t) && TreeAddrs(Pop(t)) == TreeAddrs(t) - {t.data.addr}
  {
    PopKeepsOrder(t);
    PopDeletesTop(t);
    DropItem(Contents(Pop(t)), k, delegates, t.data);
  }

  lemma RemoveHeap(t: Tree, k: Kind, delegates: Delegates, d: nat)
    requires HeapOk(t, k, delegates) && d in delegates && delegates[d].kind == k
    ensures var x := ItemOf(d, delegates[d]);
            && Identified(t, x)
            && HeapOk(Remove(t, x), k, delegates) && TreeAddrs(Remove(t, x)) == TreeAddrs(t) - {d}
  {
    var x := ItemOf(d, delegates[d]);
    RemoveIsDelete(t, x);
    if x in Contents(t) {
      DropItem(Contents(Remove(t, x)), k, delegates, x);
    } else {
      assert d !in TreeAddrs(t);
    }
  }

  lemma ForgetDelegate(t: Tree, k: Kind, delegates: Delegates, d: nat)
    requires HeapOk(t, k, delegates) && d !in TreeAddrs(t)
    ensures HeapOk(t, k, delegates - {d})
  {
    assert forall x | x in Contents(t) :: x.addr in TreeAddrs(t);
  }

  lemma HeapTimesPositive(t: Tree, k: Kind, delegates: Delegates, clock: Timespec)
    requires HeapOk(t, k, delegates) && TimesFit(clock, delegates)
    ensures PositiveTimes(t)
  {
  }

  lemma PollKeeps(s: State)
    requires Inv(s) && s.poll.pending != []
    ensures Inv(DoPoll(s))
  {
    var b := s.boxes.Get(s.poll.pending[0]);
    match s.poll.stage
    case Woken => DisarmKeeps(s, b.(armed := None), Disarmed);
    case Disarmed => DisarmKeeps(s, b.(registered := false), Unpolled);
    case Unpolled => SendExpireKeeps(s);
  }

  // ---------- MsgTimerPush ----------

  lemma PushPlaces(delegates: Delegates, push: set<nat>, remove: set<nat>, heap: set<nat>, d: nat)
    requires PlacesOk(delegates, push, remove, heap, {}) && d in push
    ensures PlacesOk(delegates, push - {d}, remove, heap + {d}, {})
  {
  }

  lemma PushHeaps(h: Heaps, delegates: Delegates, d: nat)
    requires HeapsOk(h, delegates) && d in delegates && d !in Addrs(h)
    ensures var k, x := delegates[d].kind, ItemOf(d, delegates[d]);
            var h' := SetHeap(h, k, Push(h.Get(k), x));
            HeapsOk(h', delegates) && Addrs(h') == Addrs(h) + {d}
  {
    var k := delegates[d].kind;
    PushHeap(h.Get(k), k, delegates, d);
    OneHeapGrows(h, k, Push(h.Get(k), ItemOf(d, delegates[d])), delegates, d);
  }

  lemma OneHeapGrows(h: Heaps, k: Kind, t: Tree, delegates: Delegates, d: nat)
    requires HeapsOk(h, delegates) && HeapOk(t, k, delegates) && TreeAddrs(t) == TreeAddrs(h.Get(k)) + {d}
    ensures HeapsOk(SetHeap(h, k, t), delegates) && Addrs(SetHeap(h, k, t)) == Addrs(h) + {d}
  {
    UniteAddrs(TreeAddrs(h.sw), TreeAddrs(h.hw), d);
  }

  lemma UniteAddrs(a: set<nat>, b: set<nat>, d: nat)
    ensures (a + {d}) + b == (a + b) + {d} && a + (b + {d}) == (a + b) + {d}
  {
  }

  lemma PushNotLost(boxes: Boxes, k: Kind, x: Item, pending: seq<Kind>, expire: set<Kind>)
    requires NotLost(Sw, boxes.sw, pending, expire, Ready) && NotLost(Hw, boxes.hw, pending, expire, Ready)
    requires CheckNodes(boxes.Get(k).heap) && DueTime(x) > 0
    ensures var t := boxes.Set(k, ProcPush(boxes.Get(k), x));
            && HeapsOf(t) == SetHeap(HeapsOf(boxes), k, Push(boxes.Get(k).heap, x))
            && NotLost(Sw, t.sw, pending, expire, Ready) && NotLost(Hw, t.hw, pending, expire, Ready)
  {
    PushWatches(boxes.Get(k), x);
  }

  lemma MsgPushKeeps(s: State, d: nat)
    requires Inv(s) && s.task.Ready? && s.queue != [] && s.queue[0] == MsgPush(d)
    ensures Inv(DoMsg(s.(queue := s.queue[1..]), s.queue[0]))
  {
    var t := DoMsg(s.(queue := s.queue[1..]), s.queue[0]);
    assert d in ToPush(s.queue);
    var k, x := s.delegates[d].kind, ItemOf(d, s.delegates[d]);
    assert CheckNodes(s.boxes.Get(k).heap) && DueTime(x) > 0;
    PushNotLost(s.boxes, k, x, s.poll.pending, ToExpire(s.queue));
    MsgPushStructure(s, t, d);
    SameAccounts(s, t);
    TailSets(s.queue);
  }

  lemma MsgPushStructure(s: State, t: State, d: nat)
    requires StructureOk(s) && s.task.Ready? && s.queue != [] && s.queue[0] == MsgPush(d) && d in s.delegates
    requires t == s.(queue := s.queue[1..], boxes := t.boxes)
    requires var k := s.delegates[d].kind;
             HeapsOf(t.boxes) == SetHeap(HeapsOf(s.boxes), k, Push(s.boxes.Get(k).heap, ItemOf(d, s.delegates[d])))
    ensures StructureOk(t)
  {
    var q, h := s.queue, HeapsOf(s.boxes);
    assert d in ToPush(q);
    TailOrdered(q);
    TailSets(q);
    PushPlaces(s.delegates, ToPush(q), ToRemove(q), Addrs(h), d);
    PushHeaps(h, s.delegates, d);
  }

  // ---------- MsgTimerRemove ----------

  lemma RemovePlaces(delegates: Delegates, push: set<nat>, remove: set<nat>, heap: set<nat>, d: nat)
    requires PlacesOk(delegates, push, remove, heap, {}) && d in remove && d !in push && ContainedOk(delegates)
    ensures PlacesOk(delegates - {d}, push, remove - {d}, heap - {d}, {}) && ContainedOk(delegates - {d})
  {
  }

  lemma OtherKindAbsent(t: Tree, k: Kind, delegates: Delegates, d: nat)
    requires HeapOk(t, k, delegates) && d in delegates && delegates[d].kind != k
    ensures d !in TreeAddrs(t) && HeapOk(t, k, delegates - {d})
  {
    ForgetDelegate(t, k, delegates, d);
  }

  lemma RemoveForgets(t: Tree, k: Kind, delegates: Delegates, d: nat)
    requires HeapOk(t, k, delegates) && d in delegates && delegates[d].kind == k
    ensures var t' := Remove(t, ItemOf(d, delegates[d]));
            HeapOk(t', k, delegates - {d}) && TreeAddrs(t') == TreeAddrs(t) - {d}
  {
    RemoveHeap(t, k, delegates, d);
    ForgetDelegate(Remove(t, ItemOf(d, delegates[d])), k, delegates, d);
  }

  lemma RemoveHeaps(h: Heaps, delegates: Delegates, d: nat)
    requires HeapsOk(h, delegates) && d in delegates
    ensures var k, x := delegates[d].kind, ItemOf(d, delegates[d]);
            var h' := SetHeap(h, k, Remove(h.Get(k), x));
            HeapsOk(h', delegates - {d}) && Addrs(h') == Addrs(h) - {d}
  {
    match delegates[d].kind
    case Sw =>
      RemoveForgets(h.sw, Sw, delegates, d);
      OtherKindAbsent(h.hw, Hw, delegates, d);
    case Hw =>
      RemoveForgets(h.hw, Hw, delegates, d);
      OtherKindAbsent(h.sw, Sw, delegates, d);
  }

  lemma RemoveNotLost(boxes: Boxes, k: Kind, x: Item, pending: seq<Kind>, expire: set<Kind>)
    requires NotLost(Sw, boxes.sw, pending, expire, Ready) && NotLost(Hw, boxes.hw, pending, expire, Ready)
    requires CheckNodes(boxes.Get(k).heap) && Identified(boxes.Get(k).heap, x) && PositiveTimes(boxes.Get(k).heap)
    ensures var t := boxes.Set(k, ProcRemove(boxes.Get(k), x));
            && HeapsOf(t) == SetHeap(HeapsOf(boxes), k, Remove(boxes.Get(k).heap, x))
            && NotLost(Sw, t.sw, pending, expire, Ready) && NotLost(Hw, t.hw, pending, expire, Ready)
  {
    RemoveWatches(boxes.Get(k), x);
  }

  lemma DeleteLinks(delegates: Delegates, clients: Clients, d: nat)
    requires LinksOk(delegates, clients) && d in delegates && delegates[d].client.None?
    ensures LinksOk(delegates - {d}, clients)
  {
  }

  lemma DeleteLocks(locks: map<nat, int>, clients: Clients, delegates: Delegates, d: nat)
    requires LocksOk(locks, clients, delegates) && d in delegates && delegates[d].owner in clients
    ensures LocksOk(Drop(locks, delegates[d].owner), clients, delegates - {d})
  {
    var c := delegates[d].owner;
    assert d in Sharers(delegates, c);
    assert LockOk(locks, c, Held(clients[c].phase) + |Sharers(delegates, c)|);
    forall e | e in clients
      ensures |Sharers(delegates - {d}, e)| == |Sharers(delegates, e)| - if e == c then 1 else 0
    {
      SharersGrow(delegates - {d}, d, delegates[d], e);
      assert (delegates - {d})[d := delegates[d]] == delegates;
    }
  }

  lemma DeleteHistory(deletes: multiset<nat>, ends: multiset<nat>, delegates: Delegates, next: nat, d: nat)
    requires HistoryOk(deletes, ends, delegates, next) && d in delegates && d < next && !Running(delegates, d)
    ensures HistoryOk(deletes + multiset{d}, ends, delegates - {d}, next)
  {
  }

  lemma DeleteAccounts(s: State, t: State, d: nat)
    requires AccountsOk(s) && d in s.delegates && s.delegates[d].client.None?
    requires t.delegates == s.delegates - {d} && t.locks == Drop(s.locks, s.delegates[d].owner)
    requires t.deletes == s.deletes + multiset{d} && t.stops == s.stops && t.timeouts == s.timeouts
    requires t.clients == s.clients && t.nextDelegate == s.nextDelegate && t.nextClient == s.nextClient
    ensures AccountsOk(t)
  {
    DeleteLinks(s.delegates, s.clients, d);
    DeleteLocks(s.locks, s.clients, s.delegates, d);
    DeleteHistory(s.deletes, s.stops + s.timeouts, s.delegates, s.nextDelegate, d);
  }

  lemma RemoveAbsent(q: seq<Msg>, d: nat)
    requires QueueOrdered(q) && q != [] && q[0] == MsgRemove(d)
    ensures d in ToRemove(q) && d !in ToPush(q)
  {
    TailOrdered(q);
    assert q[0] in q;
    assert forall a :: a in q <==> a == q[0] || a in q[1..];
  }

  lemma RemoveStructure(s: State, t: State, d: nat)
    requires StructureOk(s) && s.task.Ready? && s.queue != [] && s.queue[0] == MsgRemove(d) && d in s.delegates
    requires t.clock == s.clock && t.queue == s.queue[1..] && t.task.Ready? && t.delegates == s.delegates - {d}
    requires var k, x := s.delegates[d].kind, ItemOf(d, s.delegates[d]);
             HeapsOf(t.boxes) == SetHeap(HeapsOf(s.boxes), k, Remove(HeapsOf(s.boxes).Get(k), x))
    ensures StructureOk(t) && ToExpire(t.queue) == ToExpire(s.queue)
  {
    RemoveAbsent(s.queue, d);
    TailOrdered(s.queue);
    TailSets(s.queue);
    RemovePlaces(s.delegates, ToPush(s.queue), ToRemove(s.queue), Addrs(HeapsOf(s.boxes)), d);
    RemoveHeaps(HeapsOf(s.boxes), s.delegates, d);
  }

  lemma RemoveBoxes(s: State, d: nat)
    requires HeapsOk(HeapsOf(s.boxes), s.delegates) && TimesFit(s.clock, s.delegates)
    requires NoneLost(s) && s.task.Ready? && d in s.delegates
    ensures var k, x := s.delegates[d].kind, ItemOf(d, s.delegates[d]);
            var t := s.boxes.Set(k, ProcRemove(s.boxes.Get(k), x));
            && HeapsOf(t) == SetHeap(HeapsOf(s.boxes), k, Remove(HeapsOf(s.boxes).Get(k), x))
            && NoneLost(s.(boxes := t))
  {
    var k := s.delegates[d].kind;
    RemoveHeap(s.boxes.Get(k).heap, k, s.delegates, d);
    HeapTimesPositive(s.boxes.Get(k).heap, k, s.delegates, s.clock);
    RemoveNotLost(s.boxes, k, ItemOf(d, s.delegates[d]), s.poll.pending, ToExpire(s.queue));
  }

  lemma MsgRemoveKeeps(s: State, d: nat)
    requires Inv(s) && s.task.Ready? && s.queue != [] && s.queue[0] == MsgRemove(d)
    ensures Inv(DoMsg(s.(queue := s.queue[1..]), s.queue[0]))
  {
    var t := DoMsg(s.(queue := s.queue[1..]), s.queue[0]);
    RemoveAbsent(s.queue, d);
    RemoveBoxes(s, d);
    RemoveStructure(s, t, d);
    DeleteAccounts(s, t, d);
  }

  // ---------- MsgTimerExpire ----------

  lemma PopHeaps(h: Heaps, k: Kind, delegates: Delegates)
    requires HeapsOk(h, delegates) && h.Get(k).Node?
    ensures var d, h' := h.Get(k).data.addr, SetHeap(h, k, Pop(h.Get(k)));
            d in Addrs(h) && HeapsOk(h', delegates) && Addrs(h') == Addrs(h) - {d}
  {
    var d := h.Get(k).data.addr;
    PopHeap(h.Get(k), k, delegates);
    assert d in delegates && delegates[d].kind == k by {
      assert h.Get(k).data in Contents(h.Get(k));
    }
    OneHeapShrinks(h, k, Pop(h.Get(k)), delegates, d);
  }

  lemma OneHeapShrinks(h: Heaps, k: Kind, t: Tree, delegates: Delegates, d: nat)
    requires HeapsOk(h, delegates) && HeapOk(t, k, delegates) && d in delegates && delegates[d].kind == k
    requires d in TreeAddrs(h.Get(k)) && TreeAddrs(t) == TreeAddrs(h.Get(k)) - {d}
    ensures d in Addrs(h) && HeapsOk(SetHeap(h, k, t), delegates) && Addrs(SetHeap(h, k, t)) == Addrs(h) - {d}
  {
    match k
    case Sw =>
      OtherKindAbsent(h.hw, Hw, delegates, d);
      PartAddrs(TreeAddrs(h.sw), TreeAddrs(h.hw), d);
    case Hw =>
      OtherKindAbsent(h.sw, Sw, delegates, d);
      PartAddrs(TreeAddrs(h.hw), TreeAddrs(h.sw), d);
  }

  lemma PartAddrs(a: set<nat>, b: set<nat>, d: nat)
    requires d !in b
    ensures (a - {d}) + b == (a + b) - {d} && b + (a - {d}) == (b + a) - {d}
  {
  }

  lemma PopPlaces(delegates: Delegates, push: set<nat>, remove: set<nat>, heap: set<nat>, d: nat)
    requires PlacesOk(delegates, push, remove, heap, {}) && d in heap
    ensures PlacesOk(delegates, push, remove, heap - {d}, {d})
  {
  }

  /** A pop that hands its timer to the message task. */
  lemma PopStructure(s: State, t: State, k: Kind, drain: Drain)
    requires StructureOk(s) && !s.task.Expiring? && s.boxes.Get(k).heap.Node?
    requires t.clock == s.clock && t.queue == s.queue && t.delegates == s.delegates
    requires HeapsOf(t.boxes) == SetHeap(HeapsOf(s.boxes), k, Pop(s.boxes.Get(k).heap))
    requires t.task == Expiring(drain, s.boxes.Get(k).heap.data.addr)
    requires DrainOk(t.task, HeapsOf(t.boxes), t.clock)
    ensures StructureOk(t)
  {
    var h := HeapsOf(s.boxes);
    PopHeaps(h, k, s.delegates);
    PopPlaces(s.delegates, ToPush(s.queue), ToRemove(s.queue), Addrs(h), h.Get(k).data.addr);
  }

  lemma TailStructure(s: State, k: Kind)
    requires StructureOk(s) && s.queue != [] && s.queue[0] == MsgExpire(k)
    ensures StructureOk(s.(queue := s.queue[1..]))
    ensures ToExpire(s.queue) == ToExpire(s.queue[1..]) + {k}
  {
    TailOrdered(s.queue);
    TailSets(s.queue);
  }

  lemma BeginExpireNotLost(s: State, t: State, k: Kind)
    requires NoneLost(s) && s.task.Ready? && ToExpire(s.queue) == ToExpire(t.queue) + {k}
    requires t.poll == s.poll && Draining(t.task, k) && t.boxes == s.boxes.Set(k, t.boxes.Get(k))
    ensures NoneLost(t)
  {
  }

  lemma MsgExpireKeeps(s: State, k: Kind)
    requires Inv(s) && s.task.Ready? && s.queue != [] && s.queue[0] == MsgExpire(k)
    ensures Inv(DoMsg(s.(queue := s.queue[1..]), s.queue[0]))
  {
    var u := s.(queue := s.queue[1..]);
    var t := DoMsg(u, s.queue[0]);
    TailStructure(s, k);
    if s.boxes.Get(k).heap.Node? {
      BeginExpireStructure(u, t, k);
      BeginExpireKeeps(s, u, t, k);
    } else {
      assert t == u;
      EmptyExpireKeeps(s, u, k);
    }
  }

  lemma BeginExpireKeeps(s: State, u: State, t: State, k: Kind)
    requires AccountsOk(s) && NoneLost(s) && s.task.Ready? && u == s.(queue := u.queue)
    requires ToExpire(s.queue) == ToExpire(u.queue) + {k} && s.boxes.Get(k).heap.Node?
    requires t == DoMsg(u, MsgExpire(k))
    ensures AccountsOk(t) && NoneLost(t) && t.fault == s.fault
  {
    BeginExpireNotLost(s, t, k);
    SameAccounts(s, t);
  }

  lemma BeginExpireStructure(u: State, t: State, k: Kind)
    requires StructureOk(u) && u.task.Ready? && u.boxes.Get(k).heap.Node? && t == DoMsg(u, MsgExpire(k))
    ensures StructureOk(t)
  {
    var h := HeapsOf(u.boxes);
    assert CheckNodes(h.Get(k)) by {
      assert HeapsOk(h, u.delegates);
    }
    assert HeapsOf(t.boxes) == SetHeap(h, k, Pop(h.Get(k)));
    BeginDrain(h, k, u.clock, t.task);
    PopStructure(u, t, k, t.task.drain);
  }

  lemma BeginDrain(h: Heaps, k: Kind, clock: Timespec, task: Task)
    requires h.Get(k).Node? && CheckNodes(h.Get(k)) && task.Expiring?
    requires task.drain == Drain(k, Ns(clock), h.Get(k), [h.Get(k).data])
    ensures DrainOk(task, SetHeap(h, k, Pop(h.Get(k))), clock)
  {
  }

  lemma EmptyExpireKeeps(s: State, u: State, k: Kind)
    requires Inv(s) && s.task.Ready? && u == s.(queue := u.queue) && StructureOk(u)
    requires ToExpire(s.queue) == ToExpire(u.queue) + {k} && s.boxes.Get(k).heap.Leaf?
    ensures Inv(u)
  {
    EmptyExpireNotLost(s, u, k);
    SameAccounts(s, u);
  }

  /** An expiry of an empty container does nothing. */
  lemma EmptyExpireNotLost(s: State, t: State, k: Kind)
    requires NoneLost(s) && s.task.Ready? && ToExpire(s.queue) == ToExpire(t.queue) + {k}
    requires t.poll == s.poll && t.task == s.task && t.boxes == s.boxes && s.boxes.Get(k).heap.Leaf?
    ensures NoneLost(t)
  {
  }

  lemma ReleaseCurrent(delegates: Delegates, push: set<nat>, remove: set<nat>, heap: set<nat>, d: nat)
    requires PlacesOk(delegates, push, remove, heap, {d}) && delegates[d].client.None?
    ensures PlacesOk(delegates, push, remove, heap, {})
  {
  }

  lemma ReleaseStructure(s: State, t: State)
    requires StructureOk(s) && s.task.Expiring?
    requires s.task.d in s.delegates && s.delegates[s.task.d].client.None?
    requires t.clock == s.clock && t.queue == s.queue && t.delegates == s.delegates && t.boxes == s.boxes
    requires !t.task.Ready? && !t.task.Expiring? && t.task.drain == s.task.drain
    ensures StructureOk(t)
  {
    ReleaseCurrent(s.delegates, ToPush(s.queue), ToRemove(s.queue), Addrs(HeapsOf(s.boxes)), s.task.d);
  }

  lemma ExpireKeeps(s: State)
    requires Inv(s) && s.task.Expiring?
    ensures Inv(DoExpire(s, s.task.drain, s.task.d))
  {
    var d := s.task.d;
    assert d in Current(s.task);
    if s.delegates[d].client.None? {
      var t := s.(task := PopNext(s.task.drain));
      ReleaseStructure(s, t);
      SameAccounts(s, t);
      FrameNotLost(s, t);
    } else {
      var c := s.delegates[d].client.value;
      assert s.clients[c].timer == Some(d) && s.clients[c].phase.Live?;
      ForcedStopKeeps(s, c);
    }
  }

  /** The stop that an expiry forces on the client of a running timer. */
  lemma ForcedStopKeeps(s: State, c: nat)
    requires Inv(s) && s.task.Expiring? && c in s.clients && s.clients[c].timer == Some(s.task.d)
    ensures Inv(Detach(s, c).(task := Calling(s.task.drain, s.task.d, c), timeouts := s.timeouts + multiset{s.task.d}))
  {
    var d := s.task.d;
    var u := Detach(s, c);
    var t := u.(task := Calling(s.task.drain, d, c), timeouts := s.timeouts + multiset{d});
    DetachedIsFree(s, c);
    ForcedStopStructure(s, c, t);
    DetachAccounts(s, c);
    SameAccounts(u.(timeouts := s.timeouts + multiset{d}), t);
    ForcedStopNotLost(s, t);
  }

  lemma ForcedStopStructure(s: State, c: nat, t: State)
    requires StructureOk(s) && s.task.Expiring? && LinksOk(s.delegates, s.clients)
    requires c in s.clients && s.clients[c].timer == Some(s.task.d)
    requires
      var u := Detach(s, c);
      t.clock == u.clock && t.queue == u.queue && t.delegates == u.delegates && t.boxes == u.boxes
    requires t.task.Calling? && t.task.drain == s.task.drain
    ensures StructureOk(t) && ToExpire(t.queue) == ToExpire(s.queue)
  {
    DetachStructure(s, c);
    DetachedIsFree(s, c);
    ReleaseStructure(Detach(s, c), t);
  }

  lemma ForcedStopNotLost(s: State, t: State)
    requires NoneLost(s) && t.boxes == s.boxes && t.poll == s.poll && ToExpire(t.queue) == ToExpire(s.queue)
    requires !s.task.Ready? && !t.task.Ready? && t.task.drain == s.task.drain
    ensures NoneLost(t)
  {
  }

  lemma DetachedIsFree(s: State, c: nat)
    requires LinksOk(s.delegates, s.clients) && c in s.clients && s.clients[c].timer.Some?
    ensures
      var d, t := s.clients[c].timer.value, Detach(s, c);
      && d in t.delegates && t.delegates[d].client.None? && t.task == s.task && t.fault == s.fault
      && t.boxes == s.boxes && t.poll == s.poll
  {
  }

  lemma CallKeeps(s: State)
    requires Inv(s) && s.task.Calling?
    ensures Inv(DoCall(s, s.task.drain, s.task.d, s.task.c))
  {
    var t := DoCall(s, s.task.drain, s.task.d, s.task.c);
    CallStructure(s, t);
    SameAccounts(s, t);
    FrameNotLost(s, t);
  }

  lemma CallStructure(s: State, t: State)
    requires StructureOk(s) && s.task.Calling? && t.task == PopNext(s.task.drain)
    requires t.clock == s.clock && t.queue == s.queue && t.delegates == s.delegates && t.boxes == s.boxes
    ensures StructureOk(t)
  {
  }

  lemma PopNextKeeps(s: State)
    requires Inv(s) && s.task.PopNext? && var h := s.boxes.Get(s.task.drain.kind).heap; h.Node? && Due(h.data, s.task.drain.now)
    ensures Inv(DoPopNext(s, s.task.drain))
  {
    var dr := s.task.drain;
    var t := DoPopNext(s, dr);
    PopNextDrain(s.boxes.Get(dr.kind).heap, dr.now, dr.popped);
    PopStructure(s, t, dr.kind, t.task.drain);
    FrameNotLost(s, t);
  }

  lemma FrameNotLost(s: State, t: State)
    requires NoneLost(s) && !s.task.Ready? && !t.task.Ready? && s.task.drain.kind == t.task.drain.kind
    requires t.queue == s.queue && t.poll == s.poll
    requires t.boxes == s.boxes.Set(s.task.drain.kind, t.boxes.Get(s.task.drain.kind))
    ensures NoneLost(t)
  {
  }

  lemma FinishNotLost(s: State, t: State)
    requires NoneLost(s) && !s.task.Ready? && t.task.Ready?
    requires t.queue == s.queue && t.poll == s.poll && Watched(t.boxes.Get(s.task.drain.kind))
    requires t.boxes == s.boxes.Set(s.task.drain.kind, t.boxes.Get(s.task.drain.kind))
    ensures NoneLost(t)
  {
  }

  lemma FinishKeeps(s: State)
    requires Inv(s) && s.task.PopNext? && var h := s.boxes.Get(s.task.drain.kind).heap; !(h.Node? && Due(h.data, s.task.drain.now))
    ensures Inv(DoPopNext(s, s.task.drain))
  {
    var k := s.task.drain.kind;
    var t := DoPopNext(s, s.task.drain);
    HeapTimesPositive(s.boxes.Get(k).heap, k, s.delegates, s.clock);
    UpdateFromNoneWatches(s.boxes.Get(k));
    FinishNotLost(s, t);
    FinishStructure(s, t);
    SameAccounts(s, t);
  }

  lemma FinishStructure(s: State, t: State)
    requires StructureOk(s) && s.task.PopNext? && t == s.(boxes := t.boxes, task := Ready)
    requires HeapsOf(t.boxes) == HeapsOf(s.boxes)
    ensures StructureOk(t)
  {
  }

  lemma TaskKeeps(s: State)
    requires Inv(s) && Enabled(s, TaskAction)
    ensures Inv(Do(s, TaskAction))
  {
    match s.task
    case Ready =>
      match s.queue[0] {
        case MsgPush(d) => MsgPushKeeps(s, d);
        case MsgRemove(d) => MsgRemoveKeeps(s, d);
        case MsgExpire(k) => MsgExpireKeeps(s, k);
      }
    case Expiring(_, _) => ExpireKeeps(s);
    case Calling(_, _, _) => CallKeeps(s);
    case PopNext(drain) =>
      var h := s.boxes.Get(drain.kind).heap;
      if h.Node? && Due(h.data, drain.now) {
        PopNextKeeps(s);
      } else {
        FinishKeeps(s);
      }
  }

  // ---------- every run ----------

  lemma StepKeeps(s: State, step: Step)
    requires Inv(s) && Enabled(s, step)
    ensures Inv(Do(s, step))
  {
    match step
    case Tick(now) => TickKeeps(s, now);
    case NewClient => NewClientKeeps(s);
    case Start(c, ms, kind, available) => StartKeeps(s, c, ms, kind, available);
    case Stop(c) => StopKeeps(s, c);
    case Close(c) => CloseKeeps(s, c);
    case DropLock(c) => DropLockKeeps(s, c);
    case EpollWake(ready) => WakeKeeps(s, ready);
    case PollAction => PollKeeps(s);
    case TaskAction => TaskKeeps(s);
  }

  lemma {:induction false} RunKeeps(s: State, steps: seq<Step>)
    requires Inv(s) && Run(s, steps).Some?
    ensures Inv(Run(s, steps).value)
    decreases |steps|
  {
    if steps != [] {
      StepKeeps(s, steps[0]);
      RunKeeps(Do(s, steps[0]), steps[1..]);
    }
  }

  ghost predicate Reached(clock: Timespec, steps: seq<Step>, s: State) {
    GoodClock(clock) && Run(Init(clock), steps) == Some(s)
  }

  lemma ReachedInv(clock: Timespec, steps: seq<Step>, s: State)
    requires Reached(clock, steps, s)
    ensures Inv(s)
  {
    RunKeeps(Init(clock), steps);
  }
}
