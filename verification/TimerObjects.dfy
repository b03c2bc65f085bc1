/** LocTimer, LocTimerDelegate and LocSharedLock of gps/utils as objects: what one critical
    section of start, stop and expire does to them. */
module TimerObjects {
  import opened TimeOrder

  /** The messages that a container sends, by delegate. */
  datatype Sent = SentPush(timer: LocTimerDelegate) | SentRemove(timer: LocTimerDelegate)

  class LocSharedLock {
    var mRef: int

    constructor ()
      ensures mRef == 1
    {
      mRef := 1;
    }

    method share()
      modifies this
      ensures mRef == old(mRef) + 1
    {
      mRef := mRef + 1;
    }

    /** The last one to drop the lock deletes it. */
    method drop() returns (deleted: bool)
      modifies this
      ensures mRef == old(mRef) - 1 && (deleted <==> mRef == 0)
    {
      deleted := mRef == 1;
      mRef := mRef - 1;
    }
  }

  /** The sending side of a container. */
  class TimerQueue {
    var messages: seq<Sent>

    constructor ()
      ensures messages == []
    {
      messages := [];
    }

    method add(timer: LocTimerDelegate)
      modifies this
      ensures messages == old(messages) + [SentPush(timer)]
    {
      messages := messages + [SentPush(timer)];
    }

    method remove(timer: LocTimerDelegate)
      modifies this
      ensures messages == old(messages) + [SentRemove(timer)]
    {
      messages := messages + [SentRemove(timer)];
    }
  }

  class LocTimerDelegate {
    var mClient: LocTimer?
    const mLock: LocSharedLock
    const mFutureTime: Timespec
    var mContainer: TimerQueue?

    constructor (client: LocTimer, lock: LocSharedLock, futureTime: Timespec, container: TimerQueue)
      modifies lock, container
      ensures mClient == client && mLock == lock && mFutureTime == futureTime && mContainer == container
      ensures lock.mRef == old(lock.mRef) + 1
      ensures container.messages == old(container.messages) + [SentPush(this)]
    {
      mClient, mLock, mFutureTime, mContainer := client, lock, futureTime, container;
      new;
      lock.share();
      container.add(this);
    }

    /** Forgets the client, and asks for removal the first time only. */
    method destroyLocked()
      modifies this, mContainer
      ensures mClient == null && mContainer == null
      ensures
        var container := old(mContainer);
        container != null ==> container.messages == old(container.messages) + [SentRemove(this)]
    {
      mClient := null;
      if mContainer != null {
        var container := mContainer;
        mContainer := null;
        container.remove(this);
      }
    }
  }

  class LocTimer {
    var mTimer: LocTimerDelegate?
    const mLock: LocSharedLock

    /** A running timer points back at its client and has not asked for removal. */
    ghost predicate Valid()
      reads this, mTimer
    {
      mTimer != null ==> mTimer.mClient == this && mTimer.mContainer != null && mTimer.mLock == mLock
    }

    constructor ()
      ensures Valid() && mTimer == null && fresh(mLock) && mLock.mRef == 1
    {
      mTimer := null;
      mLock := new LocSharedLock();
    }

    /** Succeeds iff no timer runs and there is a container; the new timer is due the
        timeout after `now`, shares the lock and is sent to the container once. */
    method start(now: Timespec, timeOutInMs: nat, container: TimerQueue?) returns (success: bool)
      requires Valid() && Normal(now)
      modifies this, mLock, container
      ensures Valid() && (success <==> old(mTimer) == null && container != null)
      ensures !success ==> mTimer == old(mTimer) && mLock.mRef == old(mLock.mRef)
      ensures !success && container != null ==> container.messages == old(container.messages)
      ensures success ==>
        && mTimer != null && fresh(mTimer) && mTimer.mContainer == container
        && Normal(mTimer.mFutureTime) && Ns(mTimer.mFutureTime) == Ns(now) + timeOutInMs * 1_000_000
        && mLock.mRef == old(mLock.mRef) + 1
        && container.messages == old(container.messages) + [SentPush(mTimer)]
    {
      success := false;
      if mTimer == null {
        var futureTime := FutureTime(now, timeOutInMs);
        FutureTimeIsNowPlusTimeout(now, timeOutInMs);
        if container != null {
          mTimer := new LocTimerDelegate(this, mLock, futureTime, container);
        }
        success := mTimer != null;
      }
    }

    /** Succeeds iff a timer runs; that timer forgets its client and is sent for removal. */
    method stop() returns (success: bool)
      requires Valid()
      modifies this, mTimer, if mTimer != null then mTimer.mContainer else null
      ensures Valid() && mTimer == null && (success <==> old(mTimer) != null)
      ensures success ==>
        var timer := old(mTimer);
        var container := old(mTimer.mContainer);
        && timer.mClient == null && timer.mContainer == null
        && container != null && container.messages == old(mTimer.mContainer.messages) + [SentRemove(timer)]
    {
      success := false;
      if mTimer != null {
        var timer := mTimer;
        mTimer := null;
        timer.destroyLocked();
        success := true;
      }
    }
  }
}
