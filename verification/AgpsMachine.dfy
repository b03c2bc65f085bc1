/** AgpsStateMachine and the request routing of AgpsManager (gps/gnss/Agps.cpp) with their
    lists walked and updated in place; every handler is proved against the machine functions
    of Agps. Callbacks are recorded in a ghost log. */
module AgpsMachine {
  import opened Options
  import opened Agps
  import opened AgpsSafety

  class AgpsStateMachine {
    var mState: AgpsState
    var mSubscriberList: seq<Subscriber>
    ghost var log: seq<Entry>
    ghost var added: nat

    ghost function Value(): Machine
      reads this
    {
      Machine(mState, mSubscriberList, log, added)
    }

    constructor ()
      ensures Value() == INITIAL
    {
      mState, mSubscriberList, log, added := Released, [], [], 0;
    }

    method addSubscriber(x: Subscriber)
      modifies this
      ensures Value() == Add(old(Value()), x)
    {
      for i := 0 to |mSubscriberList|
        invariant Value() == old(Value())
        invariant !Listed(mSubscriberList[..i], x.handle)
      {
        if mSubscriberList[i].handle == x.handle {
          assert mSubscriberList[i] in mSubscriberList;
          return;
        }
        assert mSubscriberList[..i + 1] == mSubscriberList[..i] + [mSubscriberList[i]];
      }
      assert mSubscriberList[..|mSubscriberList|] == mSubscriberList;
      mSubscriberList := mSubscriberList + [x];
      added := added + 1;
    }

    method deleteSubscriber(h: int)
      modifies this`mSubscriberList
      ensures mSubscriberList == Erase(old(mSubscriberList), h)
    {
      mSubscriberList := eraseHandle(mSubscriberList, h);
    }

    /** Erases while walking the list. */
    static method eraseHandle(start: seq<Subscriber>, h: int) returns (list: seq<Subscriber>)
      ensures list == Erase(start, h)
    {
      ghost var seen, ahead, front := [], start, [];
      list := start;
      var it := 0;
      while it < |list|
        invariant seen + ahead == start && list == front + ahead
        invariant front == Erase(seen, h) && it == |front|
        decreases |ahead|
      {
        WalkOn(front, ahead);
        WalkOn(seen, ahead);
        EraseAppend(seen, ahead[0], h);
        if list[it].handle == h {
          list := list[..it] + list[it + 1..];
        } else {
          front := front + [list[it]];
          it := it + 1;
        }
        seen, ahead := seen + [ahead[0]], ahead[1..];
      }
      WalkOver(front, ahead);
      assert list == front && seen == start;
    }

    method anyActiveSubscribers() returns (r: bool)
      ensures r == AnyActive(mSubscriberList)
    {
      for i := 0 to |mSubscriberList|
        invariant forall x | x in mSubscriberList[..i] :: x.inactive
      {
        if !mSubscriberList[i].inactive {
          return true;
        }
      }
      return false;
    }

    /** The position of the subscriber with a handle, if there is one. */
    method getSubscriber(h: int) returns (r: Option<nat>)
      ensures r == if Find(mSubscriberList, h) < |mSubscriberList| then Some(Find(mSubscriberList, h)) else None
    {
      for i := 0 to |mSubscriberList|
        invariant forall j | 0 <= j < i :: mSubscriberList[j].handle != h
      {
        if mSubscriberList[i].handle == h {
          return Some(i);
        }
      }
      return None;
    }

    /** Tells the matching subscribers in list order. */
    method notifyMatching(n: Notice, who: Who)
      modifies this`log
      ensures log == old(log) + Notices(n, Chosen(mSubscriberList, who))
    {
      assert mSubscriberList[..0] == [];
      ghost var told: seq<Entry> := [];
      for it := 0 to |mSubscriberList|
        invariant told == Notices(n, Chosen(mSubscriberList[..it], who)) && log == old(log)
      {
        WalkChosen(mSubscriberList, it, who, n);
        if Matches(who, mSubscriberList[it]) {
          told := told + [EntryFor(n, mSubscriberList[it].handle)];
        }
      }
      assert mSubscriberList[..|mSubscriberList|] == mSubscriberList;
      log := log + told;
    }

    method notifyAndErase(n: Notice, who: Who)
      modifies this`log, this`mSubscriberList
      ensures log == old(log) + Notices(n, Chosen(old(mSubscriberList), who))
      ensures mSubscriberList == Kept(old(mSubscriberList), who)
    {
      var list, told := eraseMatching(mSubscriberList, n, who);
      mSubscriberList, log := list, log + told;
    }

    /** Tells the matching subscribers and erases them on the way. */
    static method eraseMatching(start: seq<Subscriber>, n: Notice, who: Who) returns (list: seq<Subscriber>, told: seq<Entry>)
      ensures told == Notices(n, Chosen(start, who)) && list == Kept(start, who)
    {
      ghost var seen, ahead, front := [], start, [];
      list, told := start, [];
      var it := 0;
      while it < |list|
        invariant seen + ahead == start && list == front + ahead
        invariant front == Kept(seen, who) && told == Notices(n, Chosen(seen, who)) && it == |front|
        decreases |ahead|
      {
        WalkOn(front, ahead);
        WalkOn(seen, ahead);
        SplitAppend(seen, ahead[0], who, n);
        if Matches(who, list[it]) {
          told := told + [EntryFor(n, list[it].handle)];
          list := list[..it] + list[it + 1..];
        } else {
          front := front + [list[it]];
          it := it + 1;
        }
        seen, ahead := seen + [ahead[0]], ahead[1..];
      }
      WalkOver(front, ahead);
      assert list == front && seen == start;
    }

    method notifyAllSubscribers(n: Notice, delete: bool, who: Who)
      modifies this
      ensures Value() == NotifyAll(old(Value()), n, delete, who)
    {
      if delete {
        notifyAndErase(n, who);
      } else {
        notifyMatching(n, who);
      }
    }

    method processAgpsEventSubscribe(x: Subscriber)
      modifies this
      ensures Value() == OnSubscribe(old(Value()), x)
    {
      log := log + [Requested(x.handle)];
      match mState
      case Released =>
        addSubscriber(x);
        log := log + [ConnRequest];
        mState := Pending;
      case Acquired =>
        log := log + [Opened(x.handle)];
        addSubscriber(x);
      case _ =>
        addSubscriber(x);
    }

    /** The current subscriber stays as inactive, or is told and deleted. */
    method leave(i: nat)
      requires i < |mSubscriberList|
      modifies this
      ensures Value() == Leave(old(Value()), i)
    {
      var x := mSubscriberList[i];
      if x.waitForClose {
        mSubscriberList := mSubscriberList[i := x.(inactive := true)];
      } else {
        log := log + [Closed(x.handle)];
        deleteSubscriber(x.handle);
      }
    }

    method processAgpsEventUnsubscribe(h: int, i: nat)
      requires i == Find(mSubscriberList, h) < |mSubscriberList|
      modifies this
      ensures Value() == OnUnsubscribe(old(Value()), h)
    {
      match mState
      case Released =>
        log := log + [Closed(h)];
      case Releasing =>
        leave(i);
        if mSubscriberList == [] {
          mState := Released;
        }
      case _ =>
        leave(i);
        if mSubscriberList == [] {
          mState := Released;
          log := log + [ConnRelease];
        } else {
          var any := anyActiveSubscribers();
          if !any {
            mState := Releasing;
            log := log + [ConnRelease];
          }
        }
    }

    method processAgpsEventGranted()
      modifies this
      ensures Value() == OnGrant(old(Value()))
    {
      if mState.Pending? {
        mState := Acquired;
        notifyAllSubscribers(GrantedNotice, false, Active);
      }
    }

    method finishRelease()
      modifies this
      ensures Value() == FinishRelease(old(Value()))
    {
      notifyAllSubscribers(ClosedNotice, true, Inactive);
      var any := anyActiveSubscribers();
      if any {
        mState := Pending;
        log := log + [ConnRequest];
      } else {
        mState := Released;
      }
    }

    method processAgpsEventReleased()
      modifies this
      ensures Value() == OnRelease(old(Value()))
    {
      if mState.Acquired? {
        mState, log := Released, log + [ConnLost];
        notifyAllSubscribers(ClosedNotice, true, All);
      } else if mState.Releasing? {
        finishRelease();
      }
    }

    method processAgpsEventDenied()
      modifies this
      ensures Value() == OnDeny(old(Value()))
    {
      if mState.Releasing? {
        finishRelease();
      } else if mState.Pending? {
        mState, log := Released, log + [ConnLost];
        notifyAllSubscribers(DeniedNotice, true, All);
      }
    }

    method dropAllSubscribers()
      modifies this
      ensures Value() == OnRestart(old(Value()))
    {
      while mSubscriberList != []
        invariant mState == old(mState) && log == old(log) && added == old(added)
        decreases |mSubscriberList|
      {
        mSubscriberList := mSubscriberList[1..];
      }
    }
  }

  datatype AgpsType = Invalid | Supl | SuplEs | WwanAny

  /** Replies the manager makes itself, without a machine. */
  datatype Reply = Forwarded | OpenRefused | CloseRefused

  /** The manager without an emergency data service: SUPL and SUPL_ES share a machine. */
  class AgpsManager {
    const mAgnssNif: AgpsStateMachine?
    const mInternetNif: AgpsStateMachine?

    constructor (agpsCapable: bool)
      ensures agpsCapable <==> mAgnssNif != null
      ensures mAgnssNif != null ==> mAgnssNif.Value() == INITIAL && fresh(mAgnssNif)
      ensures mInternetNif != null && mInternetNif.Value() == INITIAL && fresh(mInternetNif)
      ensures mAgnssNif != mInternetNif
    {
      var internet := new AgpsStateMachine();
      var agnss: AgpsStateMachine? := null;
      if agpsCapable {
        agnss := new AgpsStateMachine();
      }
      mAgnssNif, mInternetNif := agnss, internet;
    }

    function Machines(): set<AgpsStateMachine> {
      (if mAgnssNif == null then {} else {mAgnssNif}) + (if mInternetNif == null then {} else {mInternetNif})
    }

    function For(t: AgpsType): AgpsStateMachine? {
      if t.WwanAny? then mInternetNif else mAgnssNif
    }

    method requestATL(h: int, t: AgpsType) returns (reply: Reply)
      modifies Machines()
      ensures t.WwanAny? ==> For(t) == mInternetNif
      ensures t.Invalid? || t.Supl? || t.SuplEs? ==> For(t) == mAgnssNif
      ensures reply == if For(t) == null then OpenRefused else Forwarded
      ensures forall m | m in Machines() ::
                m.Value() == if m == For(t) then Step(old(m.Value()), Subscribe(h, t.SuplEs?)) else old(m.Value())
    {
      var sm := For(t);
      if sm == null {
        return OpenRefused;
      }
      sm.processAgpsEventSubscribe(Subscriber(h, t.SuplEs?, false));
      return Forwarded;
    }

    /** The first machine that lists the handle gets the unsubscribe event. */
    method releaseATL(h: int) returns (reply: Reply)
      modifies Machines()
      ensures var target := if mAgnssNif != null && Listed(old(mAgnssNif.mSubscriberList), h) then mAgnssNif
                            else if mInternetNif != null && Listed(old(mInternetNif.mSubscriberList), h) then mInternetNif
                            else null;
              && reply == (if target == null then CloseRefused else Forwarded)
              && forall m | m in Machines() ::
                   m.Value() == if m == target then Step(old(m.Value()), Unsubscribe(h)) else old(m.Value())
    {
      if mAgnssNif != null {
        FindListed(mAgnssNif.mSubscriberList, h);
        var i := mAgnssNif.getSubscriber(h);
        if i.Some? {
          mAgnssNif.processAgpsEventUnsubscribe(h, i.value);
          return Forwarded;
        }
      }
      if mInternetNif != null {
        FindListed(mInternetNif.mSubscriberList, h);
        var i := mInternetNif.getSubscriber(h);
        if i.Some? {
          mInternetNif.processAgpsEventUnsubscribe(h, i.value);
          return Forwarded;
        }
      }
      return CloseRefused;
    }

    method handleModemSSR()
      modifies Machines()
      ensures forall m | m in Machines() :: m.Value() == Step(old(m.Value()), Restart)
    {
      if mAgnssNif != null {
        mAgnssNif.dropAllSubscribers();
      }
      if mInternetNif != null {
        mInternetNif.dropAllSubscribers();
      }
    }
  }
}
