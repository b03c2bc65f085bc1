/** LocTimerContainer of gps/utils/LocTimer.cpp with its heap updated in place; every
    message handler is proved against the container functions of TimerBox. */
module TimerContainer {
  import opened Options
  import opened HeapTree
  import opened TimerBox
  import opened PointerHeap

  class LocTimerContainer {
    const heap: LocHeap
    var armed: Option<int>
    var registered: bool

    ghost predicate Valid()
      reads this, heap, heap.mTree, heap.Footprint()
    {
      heap.Valid()
    }

    ghost function Value(): Box
      reads this, heap, heap.mTree, heap.Footprint()
    {
      Box(heap.Tree(), armed, registered)
    }

    constructor ()
      ensures Valid() && fresh(heap) && heap.Footprint() == {} && Value() == EMPTY_BOX
    {
      heap := new LocHeap();
      armed, registered := None, false;
    }

    method soonest() returns (top: Option<Item>)
      requires Valid()
      ensures top == Top(heap.Tree())
    {
      top := heap.peek();
    }

    method updateSoonestTime(priorTop: Option<Item>)
      requires Valid()
      modifies this`armed, this`registered
      ensures Valid() && heap.Footprint() == old(heap.Footprint())
      ensures Value() == UpdateSoonestTime(old(Value()), priorTop)
    {
      var curTop := soonest();
      if curTop != priorTop {
        if curTop.None? {
          registered := false;
          armed := None;
        } else if priorTop.None? || OutRanks(curTop.value, priorTop.value) {
          registered := true;
          armed := Arm(DueTime(curTop.value));
        }
      }
    }

    /** MsgTimerPush::proc */
    method procPush(timer: Item)
      requires Valid()
      modifies this, heap, heap.Footprint()
      ensures Valid() && fresh(heap.Footprint() - old(heap.Footprint()))
      ensures Value() == ProcPush(old(Value()), timer)
    {
      var priorTop := putIn(timer);
      updateSoonestTime(priorTop);
    }

    /** The top before `timer` was pushed. */
    method putIn(timer: Item) returns (priorTop: Option<Item>)
      requires Valid()
      modifies heap, heap.Footprint()
      ensures Valid() && fresh(heap.Footprint() - old(heap.Footprint()))
      ensures priorTop == Top(old(heap.Tree())) && heap.Tree() == Push(old(heap.Tree()), timer)
    {
      priorTop := soonest();
      pushTimer(timer);
    }

    method pushTimer(timer: Item)
      requires Valid()
      modifies heap, heap.Footprint()
      ensures Valid() && fresh(heap.Footprint() - old(heap.Footprint()))
      ensures heap.Tree() == Push(old(heap.Tree()), timer)
    {
      heap.push(timer);
    }

    /** The top before, and whether `timer` has been removed. */
    method takeOut(timer: Item) returns (priorTop: Option<Item>, found: bool)
      requires Valid() && Identified(heap.Tree(), timer)
      modifies heap, heap.Footprint()
      ensures Valid() && heap.Footprint() <= old(heap.Footprint())
      ensures priorTop == Top(old(heap.Tree())) && found == Removes(old(heap.Tree()), timer)
      ensures heap.Tree() == Remove(old(heap.Tree()), timer)
    {
      RemoveFindsIffPresent(heap.Tree(), timer);
      priorTop := soonest();
      found := heap.remove(timer);
    }

    /** MsgTimerRemove::proc, up to the delete of the delegate. */
    method procRemove(timer: Item)
      requires Valid() && Identified(heap.Tree(), timer)
      modifies this, heap, heap.Footprint()
      ensures Valid() && heap.Footprint() <= old(heap.Footprint())
      ensures Value() == ProcRemove(old(Value()), timer)
    {
      var priorTop, found := takeOut(timer);
      if if found then priorTop.value.addr == timer.addr else priorTop.None? {
        updateSoonestTime(None);
      }
    }

    method popAny() returns (popped: Option<Item>)
      requires Valid()
      modifies heap, heap.Footprint()
      ensures Valid() && heap.Footprint() <= old(heap.Footprint())
      ensures popped == Top(old(heap.Tree()))
      ensures heap.Tree() == if popped.None? then Leaf else Pop(old(heap.Tree()))
    {
      popped := heap.pop();
    }

    method popIfOutRanks(now: int) returns (popped: Option<Item>)
      requires Valid()
      modifies heap, heap.Footprint()
      ensures Valid() && heap.Footprint() <= old(heap.Footprint())
      ensures var t := old(heap.Tree());
              if t.Node? && Due(t.data, now)
              then popped == Some(t.data) && heap.Tree() == Pop(t)
              else popped == None && heap.Tree() == t
    {
      popped := None;
      var top := soonest();
      if top.Some? && !OutRanks(TimerItem(0, now), top.value) {
        popped := popAny();
      }
    }

    /** MsgTimerExpire::proc at time `now`; `expired` are the timers handed to expire(), in
        that order. */
    method procExpire(now: int) returns (expired: seq<Item>)
      requires Valid()
      modifies this, heap, heap.Footprint()
      ensures Valid() && heap.Footprint() <= old(heap.Footprint())
      ensures expired == Drain(old(heap.Tree()), now).0
      ensures Value() == UpdateSoonestTime(old(Value()).(heap := Drain(old(heap.Tree()), now).1), None)
    {
      ghost var start := heap.Tree();
      expired := [];
      var timer := popAny();
      assert timer.Some? ==> expired + [timer.value] == [timer.value];
      while timer.Some?
        invariant Valid() && heap.Footprint() <= old(heap.Footprint())
        invariant armed == old(armed) && registered == old(registered)
        invariant var (xs, rest) := DrainDue(heap.Tree(), now);
                  if timer.Some?
                  then Drain(start, now) == (expired + [timer.value] + xs, rest)
                  else Drain(start, now) == (expired, heap.Tree())
        decreases |Contents(heap.Tree())|, timer.Some?
      {
        ghost var t := heap.Tree();
        expired := expired + [timer.value];
        timer := popIfOutRanks(now);
        if timer.Some? {
          PopNextDrain(t, now, expired);
          PopDeletesTop(t);
        } else {
          assert expired + [] == expired;
        }
      }
      updateSoonestTime(None);
    }
  }
}
