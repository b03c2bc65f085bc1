/** One timer container of gps/utils/LocTimer.cpp as a value: its heap of pending timers
    and what the kernel knows (the time the timerfd is armed at, whether it is polled). */
module TimerBox {
  import opened Options
  import opened HeapTree

  /** A timer due at `t` nanoseconds has key `-t`: the sooner one ranks higher. */
  function TimerItem(addr: nat, t: int): Item {
    Item(addr, -t)
  }

  function DueTime(x: Item): int {
    -x.key
  }

  datatype Box = Box(heap: Tree, armed: Option<int>, registered: bool)

  const EMPTY_BOX := Box(Leaf, None, false)

  /** timerfd_settime: a zero time disarms. */
  function Arm(t: int): Option<int> {
    if t == 0 then None else Some(t)
  }

  function UpdateSoonestTime(b: Box, priorTop: Option<Item>): Box {
    var curTop := Top(b.heap);
    if curTop == priorTop then b
    else if curTop.None? then b.(armed := None, registered := false)
    else if priorTop.None? || OutRanks(curTop.value, priorTop.value) then
      b.(armed := Arm(DueTime(curTop.value)), registered := true)
    else b
  }

  /** MsgTimerPush::proc */
  function ProcPush(b: Box, x: Item): Box {
    UpdateSoonestTime(b.(heap := Push(b.heap, x)), Top(b.heap))
  }

  /** MsgTimerRemove::proc without the delete: the kernel is told only if the removed
      timer was the top (or if there was neither a top nor a removal). */
  function ProcRemove(b: Box, x: Item): Box {
    var removed := b.(heap := Remove(b.heap, x));
    if if Removes(b.heap, x) then b.heap.data.addr == x.addr else b.heap.Leaf?
    then UpdateSoonestTime(removed, None)
    else removed
  }

  predicate Due(x: Item, now: int) {
    DueTime(x) <= now
  }

  /** The polled timerfd will fire exactly when the soonest timer is due. */
  predicate Watched(b: Box) {
    b.heap.Leaf? || (b.registered && b.armed == Some(DueTime(b.heap.data)))
  }

  ghost predicate PositiveTimes(h: Tree) {
    forall x | x in Contents(h) :: DueTime(x) > 0
  }

  lemma PushWatches(b: Box, x: Item)
    requires CheckNodes(b.heap) && DueTime(x) > 0
    ensures Watched(b) ==> Watched(ProcPush(b, x))
  {
    PushKeepsOrder(b.heap, x);
  }

  lemma RemoveWatches(b: Box, x: Item)
    requires CheckNodes(b.heap) && Identified(b.heap, x) && PositiveTimes(b.heap)
    ensures Watched(b) ==> Watched(ProcRemove(b, x))
  {
    RemoveIsDelete(b.heap, x);
    var h := Remove(b.heap, x);
    if h.Node? {
      TopRanksHighest(h);
      assert h.data in Contents(b.heap);
    }
  }

  /** After any drain the container is watched, whatever the kernel state was. */
  lemma UpdateFromNoneWatches(b: Box)
    requires PositiveTimes(b.heap)
    ensures Watched(UpdateSoonestTime(b, None))
  {
    if b.heap.Node? {
      assert b.heap.data in Contents(b.heap);
    }
  }

  /** An update after another top: the timerfd is disarmed and not polled if there is no timer
      left, armed at the new top's time and polled if that is sooner, and else left alone. */
  lemma UpdateTellsKernelIff(b: Box, prior: Item)
    requires PositiveTimes(b.heap)
    ensures
      var t := UpdateSoonestTime(b, Some(prior));
      if b.heap.Leaf? then t == b.(armed := None, registered := false)
      else if DueTime(b.heap.data) < DueTime(prior) then t == b.(armed := Some(DueTime(b.heap.data)), registered := true)
      else t == b
  {
    if b.heap.Node? {
      assert b.heap.data in Contents(b.heap);
    }
  }

  /** A push sets the timerfd, and polls it, iff the new timer is sooner than all others; it
      is then armed at the new timer's time. */
  lemma PushTellsKernelIff(b: Box, x: Item)
    requires CheckNodes(b.heap) && DueTime(x) > 0
    ensures
      var t := ProcPush(b, x);
      if forall y | y in Contents(b.heap) :: DueTime(x) < DueTime(y)
      then t.registered && t.armed == Some(DueTime(x))
      else t.registered == b.registered && t.armed == b.armed
  {
    if b.heap.Node? {
      TopRanksHighest(b.heap);
      assert b.heap.data in Contents(b.heap);
    }
  }

  /** A remove sets the timerfd, and polls it, iff it takes out the soonest timer and leaves
      others; it is then armed at the soonest of those. Taking out the only timer leaves the
      timerfd as it was. */
  lemma RemoveTellsKernelIff(b: Box, x: Item)
    requires CheckNodes(b.heap) && Identified(b.heap, x) && PositiveTimes(b.heap)
    ensures
      var t := ProcRemove(b, x);
      if b.heap.Node? && b.heap.data.addr == x.addr && t.heap.Node?
      then t.registered && t.armed == Some(DueTime(t.heap.data))
      else t.registered == b.registered && t.armed == b.armed
  {
    RemoveIsDelete(b.heap, x);
    var h := Remove(b.heap, x);
    if h.Node? {
      assert h.data in Contents(h);
      assert h.data in Contents(b.heap);
    }
  }

  /** The update at the end of an expiry: an empty container is left as it is. */
  lemma UpdateFromNoneTellsKernelIff(b: Box)
    requires PositiveTimes(b.heap)
    ensures
      var t := UpdateSoonestTime(b, None);
      if b.heap.Leaf? then t == b
      else t == b.(registered := true, armed := Some(DueTime(b.heap.data)))
  {
    if b.heap.Node? {
      assert b.heap.data in Contents(b.heap);
    }
  }

  // ---------- MsgTimerExpire ----------

  /** popIfOutRanks until the top is in the future. */
  function DrainDue(h: Tree, now: int): (seq<Item>, Tree)
    decreases |Contents(h)|
  {
    if h.Node? && Due(h.data, now) then
      PopDeletesTop(h);
      var (xs, rest) := DrainDue(Pop(h), now);
      ([h.data] + xs, rest)
    else ([], h)
  }

  /** The loop of MsgTimerExpire::proc: the first pop asks no question. */
  function Drain(h: Tree, now: int): (seq<Item>, Tree) {
    if h.Leaf? then ([], Leaf)
    else
      var (xs, rest) := DrainDue(Pop(h), now);
      ([h.data] + xs, rest)
  }

  lemma PopNextDrain(h: Tree, now: int, popped: seq<Item>)
    requires h.Node? && Due(h.data, now)
    ensures var (xs, rest) := DrainDue(h, now);
            var (ys, rest') := DrainDue(Pop(h), now);
            popped + xs == popped + [h.data] + ys && rest == rest'
  {
  }

  ghost predicate InTimeOrder(xs: seq<Item>) {
    forall i, j | 0 <= i < j < |xs| :: DueTime(xs[i]) <= DueTime(xs[j])
  }

  lemma {:induction false} DrainDueExact(h: Tree, now: int)
    requires CheckNodes(h)
    ensures var (xs, rest) := DrainDue(h, now);
            && CheckNodes(rest)
            && Contents(h) == multiset(xs) + Contents(rest)
            && (forall x | x in xs :: Due(x, now) && x in Contents(h))
            && (forall x | x in Contents(rest) :: !Due(x, now))
            && InTimeOrder(xs)
    decreases |Contents(h)|
  {
    if h.Node? {
      TopRanksHighest(h);
      if Due(h.data, now) {
        PopKeepsOrder(h);
        PopDeletesTop(h);
        DrainDueExact(Pop(h), now);
        Prepend(h.data, DrainDue(Pop(h), now).0, Contents(Pop(h)), Contents(DrainDue(h, now).1));
      }
    }
  }

  lemma Prepend(x: Item, xs: seq<Item>, m: multiset<Item>, rest: multiset<Item>)
    requires m == multiset(xs) + rest && InTimeOrder(xs)
    requires forall y | y in xs :: y in m
    requires forall y | y in m :: !OutRanks(y, x)
    ensures m + multiset{x} == multiset([x] + xs) + rest
    ensures InTimeOrder([x] + xs)
    ensures forall y | y in [x] + xs :: y in m + multiset{x}
  {
    forall i, j | 0 <= i < j < |[x] + xs| ensures DueTime(([x] + xs)[i]) <= DueTime(([x] + xs)[j]) {
      assert xs[j - 1] in m;
    }
  }

  /** `xs`, in time order, are exactly the due timers of `all` if there are any, otherwise
      only the soonest one; `rest` are the others, none of them due. */
  ghost predicate ExactItems(all: multiset<Item>, soonest: Item, now: int, xs: seq<Item>, rest: multiset<Item>) {
    && all == multiset(xs) + rest
    && InTimeOrder(xs)
    && (forall x | x in rest :: !Due(x, now))
    && (if exists x :: x in all && Due(x, now) then forall x | x in xs :: Due(x, now) else xs == [soonest])
  }

  ghost predicate IsExactDrain(h: Tree, now: int, xs: seq<Item>, rest: Tree) {
    h.Node? && CheckNodes(rest) && ExactItems(Contents(h), h.data, now, xs, Contents(rest))
  }

  lemma PopFirst(top: Item, m: multiset<Item>, now: int, ys: seq<Item>, rest: multiset<Item>)
    requires m == multiset(ys) + rest && InTimeOrder(ys)
    requires forall y | y in m :: !OutRanks(y, top)
    requires forall y | y in ys :: Due(y, now) && y in m
    requires forall y | y in rest :: !Due(y, now)
    ensures ExactItems(m + multiset{top}, top, now, [top] + ys, rest)
  {
    Prepend(top, ys, m, rest);
    if ys != [] {
      assert ys[0] in m + multiset{top} && Due(ys[0], now);
    }
  }

  lemma DrainExact(h: Tree, now: int, xs: seq<Item>, rest: Tree)
    requires CheckNodes(h) && h.Node? && Drain(h, now) == (xs, rest)
    ensures IsExactDrain(h, now, xs, rest)
  {
    TopRanksHighest(h);
    PopKeepsOrder(h);
    PopDeletesTop(h);
    DrainDueExact(Pop(h), now);
    PopFirst(h.data, Contents(Pop(h)), now, DrainDue(Pop(h), now).0, Contents(rest));
  }

  /** A timer is handed to its callback early iff no timer of the container is due. */
  lemma FirstPopIsEarlyIff(h: Tree, now: int)
    requires CheckNodes(h) && h.Node?
    ensures !Due(Drain(h, now).0[0], now) <==> forall x | x in Contents(h) :: !Due(x, now)
  {
    TopRanksHighest(h);
  }
}
