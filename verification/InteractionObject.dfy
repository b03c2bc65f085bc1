/** InteractionHandler as the object that power-libperfmgr/InteractionHandler.cpp updates:
    each method is one critical section, proved against its step. */
module InteractionObject {
  import opened TimeOrder
  import opened Interaction

  class InteractionHandler {
    var mState: HState
    var mDurationMs: int
    var mLastTimespec: Timespec
    var mEventFd: nat
    var joinable: bool         // mThread has not been joined
    var filesOpen: bool
    var closing: nat           // Exits that have yet to close files
    var terminated: bool
    var hintCalls: seq<Hint>
    ghost var spec: Handler

    ghost predicate Valid()
      reads this
    {
      && spec.state == mState && spec.durationMs == mDurationMs && spec.last == mLastTimespec
      && spec.eventFd == mEventFd && spec.hints == hintCalls
      && (joinable <==> !spec.pc.NoThread?) && spec.terminated == terminated
      && spec.open == filesOpen && spec.closing == closing
    }

    constructor (clock: Timespec)
      ensures Valid() && spec == Initial(clock)
    {
      mState, mDurationMs, mLastTimespec, mEventFd, hintCalls := Uninitialized, 0, clock, 0, [];
      joinable, terminated, filesOpen, closing := false, false, false, 0;
      spec := Initial(clock);
    }

    method Init(canOpen: bool) returns (ok: bool)
      requires Valid() && Enabled(spec, Step.Init(canOpen))
      modifies this
      ensures Valid() && spec == Do(old(spec), Step.Init(canOpen))
      ensures terminated <==> old(mState).Uninitialized? && canOpen && old(joinable)
      ensures !terminated ==> (ok <==> canOpen || !old(mState).Uninitialized?)
      ensures
        var starts := old(mState).Uninitialized? && canOpen && !old(joinable);
        && mState == (if starts then Idle else old(mState)) && hintCalls == old(hintCalls)
        && mEventFd == (if starts then 0 else old(mEventFd)) && filesOpen == (starts || old(filesOpen))
    {
      ghost var before := spec;
      ok := true;
      if mState != Uninitialized {
        return;
      }
      if !canOpen {
        return false;
      }
      if joinable {
        terminated := true;
        spec := Do(before, Step.Init(canOpen));
        return;
      }
      mEventFd := 0;
      mState := Idle;
      joinable, filesOpen := true, true;
      spec := Do(before, Step.Init(canOpen));
    }

    /** Up to the join of the routine thread. */
    method Exit()
      requires Valid() && !terminated
      modifies this
      ensures Valid() && spec == Do(old(spec), Step.Exit)
      ensures mState == Uninitialized && hintCalls == old(hintCalls)
      ensures mEventFd == if !old(mState).Uninitialized? && filesOpen then old(mEventFd) + 1 else old(mEventFd)
    {
      ghost var before := spec;
      if mState == Uninitialized {
        return;
      }
      AbortWaitLocked();
      mState := Uninitialized;
      spec := Do(before, Step.Exit);
    }

    /** Exit, once the routine has returned. */
    method Joined()
      requires Valid() && Enabled(spec, Step.Join)
      modifies this
      ensures Valid() && spec == Do(old(spec), Step.Join)
    {
      joinable := false;
      closing := closing + 1;
      spec := Do(spec, Step.Join);
    }

    /** The end of Exit closes whatever files the handler now holds. */
    method CloseFiles()
      requires Valid() && Enabled(spec, Step.CloseFiles)
      modifies this
      ensures Valid() && spec == Do(old(spec), Step.CloseFiles)
      ensures !filesOpen && mState == old(mState)
    {
      filesOpen := false;
      closing := closing - 1;
      spec := Do(spec, Step.CloseFiles);
    }

    method AbortWaitLocked()
      modifies this`mEventFd
      ensures mEventFd == if filesOpen then old(mEventFd) + 1 else old(mEventFd)
    {
      if filesOpen {
        mEventFd := mEventFd + 1;
      }
    }

    /** The clamped duration, computed with the branches of Acquire. */
    method ClampDuration(duration: int) returns (finalDuration: int)
      ensures finalDuration == FinalDuration(duration)
    {
      var inputDuration := ToInt32(duration + 650);
      if inputDuration > MAX_DURATION_MS {
        finalDuration := MAX_DURATION_MS;
      } else if inputDuration > MIN_DURATION_MS {
        finalDuration := inputDuration;
      } else {
        finalDuration := MIN_DURATION_MS;
      }
    }

    method Acquire(duration: int, now: Timespec)
      requires Valid() && Enabled(spec, Step.Acquire(duration, now))
      modifies this
      ensures Valid() && spec == Do(old(spec), Step.Acquire(duration, now))
      ensures
        var accepted := Accepted(old(spec), duration, now);
        && mState == (if accepted then HState.Interaction else old(mState))
        && mLastTimespec == (if accepted then now else old(mLastTimespec))
        && mDurationMs == (if accepted then FinalDuration(duration) else old(mDurationMs))
        && hintCalls == (if accepted && old(mState).Idle? then old(hintCalls) + [DoHint] else old(hintCalls))
        && mEventFd == if accepted && old(mState).Waiting? && filesOpen then old(mEventFd) + 1 else old(mEventFd)
    {
      spec := Do(spec, Step.Acquire(duration, now));
      if mState == Uninitialized {
        return;
      }
      var finalDuration := ClampDuration(duration);
      if mState != Idle && finalDuration <= mDurationMs {
        var elapsed := CalcTimespecDiffMs(mLastTimespec, now);
        if elapsed <= mDurationMs - finalDuration {
          return;
        }
      }
      mLastTimespec := now;
      mDurationMs := finalDuration;
      if mState == Waiting {
        AbortWaitLocked();
      } else if mState == Idle {
        hintCalls := hintCalls + [DoHint];
      }
      mState := HState.Interaction;
    }

    /** Routine, from the condition variable to the wait; `goOn` is false when it returns. */
    method RoutineWake() returns (goOn: bool)
      requires Valid() && Enabled(spec, Wake)
      modifies this
      ensures Valid() && spec == Do(old(spec), Wake)
      ensures goOn <==> spec.pc.InWait?
      ensures goOn <==> !old(mState).Uninitialized?
      ensures mState == (if goOn then Waiting else old(mState)) && hintCalls == old(hintCalls)
    {
      spec := Do(spec, Wake);
      if mState == Uninitialized {
        return false;
      }
      mState := Waiting;
      goOn := true;
    }

    method Release()
      requires Valid() && Enabled(spec, Step.Release)
      modifies this
      ensures Valid() && spec == Do(old(spec), Step.Release)
      ensures
        var ends := old(mState).Waiting?;
        && mState == (if ends then Idle else old(mState))
        && hintCalls == (if ends then old(hintCalls) + [EndHint] else old(hintCalls))
        && mEventFd == if !ends && filesOpen then 0 else old(mEventFd)
    {
      spec := Do(spec, Step.Release);
      if mState == Waiting {
        hintCalls := hintCalls + [EndHint];
        mState := Idle;
      } else if filesOpen {
        mEventFd := 0;
      }
    }
  }
}
