/** What the AGPS machine promises over every sequence of events. */
module AgpsTheorems {
  import opened Agps
  import opened AgpsSafety
  import opened AgpsAccounts

  ghost predicate ConnOk(m: Machine) {
    ConnAfter(m.log) == if m.state.Pending? || m.state.Acquired? then Outstanding else Free
  }

  lemma AppendConn(log: seq<Entry>, e: Entry)
    ensures ConnAfter(log + [e]) ==
            match e {
              case ConnRequest => if ConnAfter(log).Free? then Outstanding else Broken
              case ConnRelease => if ConnAfter(log).Outstanding? then Free else Broken
              case ConnLost => if ConnAfter(log).Outstanding? then Free else Broken
              case _ => ConnAfter(log)
            }
  {
    LogAppend(log, e);
  }

  lemma SubscribeConn(m: Machine, x: Subscriber)
    requires ConnOk(m)
    ensures ConnOk(OnSubscribe(m, x))
  {
    AppendConn(m.log, Requested(x.handle));
    AppendConn(m.log + [Requested(x.handle)], Opened(x.handle));
    AppendConn(m.log + [Requested(x.handle)], ConnRequest);
  }

  lemma LeaveConn(m: Machine, i: nat)
    requires i < |m.subs|
    ensures var l := Leave(m, i); ConnAfter(l.log) == ConnAfter(m.log) && l.state == m.state
  {
    AppendConn(m.log, Closed(m.subs[i].handle));
  }

  lemma UnsubscribeConnAfter(m: Machine, h: int, l: Machine)
    requires ConnOk(m) && !m.state.Released? && Find(m.subs, h) < |m.subs| && l == Leave(m, Find(m.subs, h))
    requires ConnAfter(l.log) == ConnAfter(m.log) && l.state == m.state
    ensures ConnOk(OnUnsubscribe(m, h))
  {
    AppendConn(l.log, ConnRelease);
    var g := OnUnsubscribe(m, h);
    if !m.state.Releasing? && (l.subs == [] || !AnyActive(l.subs)) {
      assert g.log == l.log + [ConnRelease];
    } else {
      assert g.log == l.log;
    }
  }

  lemma UnsubscribeConn(m: Machine, h: int)
    requires ConnOk(m) && Find(m.subs, h) < |m.subs|
    ensures ConnOk(OnUnsubscribe(m, h))
  {
    if m.state.Released? {
      AppendConn(m.log, Closed(h));
    } else {
      LeaveConn(m, Find(m.subs, h));
      UnsubscribeConnAfter(m, h, Leave(m, Find(m.subs, h)));
    }
  }

  lemma FinishConn(m: Machine)
    requires ConnOk(m) && m.state.Releasing?
    ensures ConnOk(FinishRelease(m))
  {
    TerminalBatch(m.log, ClosedNotice, Chosen(m.subs, Inactive), 0);
    AppendConn(NotifyAll(m, ClosedNotice, true, Inactive).log, ConnRequest);
  }

  lemma LoseConn(m: Machine, n: Notice)
    requires ConnOk(m) && (m.state.Pending? || m.state.Acquired?) && !n.GrantedNotice?
    ensures ConnOk(NotifyAll(m.(state := Released, log := m.log + [ConnLost]), n, true, All))
  {
    AppendConn(m.log, ConnLost);
    TerminalBatch(m.log + [ConnLost], n, Chosen(m.subs, All), 0);
  }

  lemma StepConn(m: Machine, e: Event)
    requires ConnOk(m) && WeakShape(m)
    ensures ConnOk(Step(m, e))
  {
    match e
    case Subscribe(h, wait) => SubscribeConn(m, Subscriber(h, wait, false));
    case Unsubscribe(h) =>
      if Find(m.subs, h) < |m.subs| {
        UnsubscribeConn(m, h);
      }
    case Grant =>
      SplitDistinct(m.subs, Active);
      GrantBatch(m.log, Chosen(m.subs, Active), 0);
    case Release =>
      if m.state.Releasing? {
        FinishConn(m);
      } else if m.state.Acquired? {
        LoseConn(m, ClosedNotice);
      }
    case Deny =>
      if m.state.Releasing? {
        FinishConn(m);
      } else if m.state.Pending? {
        LoseConn(m, DeniedNotice);
      }
    case Restart =>
  }

  lemma {:induction false} RunKeeps(m: Machine, es: seq<Event>)
    requires WeakShape(m) && ConnOk(m)
    ensures WeakShape(Run(m, es)) && ConnOk(Run(m, es))
    ensures Shape(m) && Accounts(m) && (forall e | e in es :: !e.Restart?) ==>
            Shape(Run(m, es)) && Accounts(Run(m, es))
    decreases |es|
  {
    if es != [] {
      StepShape(m, es[0]);
      StepConn(m, es[0]);
      if Shape(m) && Accounts(m) && !es[0].Restart? {
        StepAccounts(m, es[0]);
      }
      RunKeeps(Step(m, es[0]), es[1..]);
    }
  }

  lemma InitialOk()
    ensures Shape(INITIAL) && WeakShape(INITIAL) && Accounts(INITIAL) && ConnOk(INITIAL)
  {
  }

  /** State and subscriber list agree in every run without a modem restart. */
  lemma StateMatchesSubscribers(es: seq<Event>)
    requires forall e | e in es :: !e.Restart?
    ensures var m := Run(INITIAL, es);
            && (m.state.Released? <==> m.subs == [])
            && (m.state.Pending? || m.state.Acquired? ==> exists x :: x in m.subs && !x.inactive)
            && (m.state.Releasing? ==> exists x :: x in m.subs && x.inactive)
            && (forall x | x in m.subs && x.inactive :: x.waitForClose)
            && (forall i, j | 0 <= i < j < |m.subs| :: m.subs[i].handle != m.subs[j].handle)
  {
    InitialOk();
    RunKeeps(INITIAL, es);
  }

  /** With modem restarts the list is still empty in RELEASED, and the machine asks for a
      data connection only when none is outstanding and releases one only when one is. */
  lemma ConnectionCallsAlternate(es: seq<Event>)
    ensures var m := Run(INITIAL, es);
            && (m.state.Released? ==> m.subs == [])
            && !ConnAfter(m.log).Broken?
            && (ConnAfter(m.log).Outstanding? <==> m.state.Pending? || m.state.Acquired?)
  {
    InitialOk();
    RunKeeps(INITIAL, es);
  }

  /** Without modem restart, subscribers ever added are the ones told for good plus the ones
      still listed; a handle is listed iff it has an unanswered request; while acquired every
      active subscriber has been granted; and no handle is granted more often than it asked,
      so a subscription whose handle asked once is granted at most once. */
  lemma NotificationsAreConserved(es: seq<Event>, h: int)
    requires forall e | e in es :: !e.Restart?
    ensures var m := Run(INITIAL, es);
            && m.added == Terminals(m.log) + |m.subs|
            && (Listed(m.subs, h) <==> RequestsSince(m.log, h) > 0)
            && GrantsSince(m.log, h) <= RequestsSince(m.log, h)
            && (m.state.Acquired? ==> forall x | x in m.subs && !x.inactive :: GrantsSince(m.log, x.handle) >= 1)
  {
    InitialOk();
    RunKeeps(INITIAL, es);
    var m := Run(INITIAL, es);
    assert HandleOk(m.subs, m.log, h);
    forall x | x in m.subs && !x.inactive && m.state.Acquired? ensures GrantsSince(m.log, x.handle) >= 1 {
      assert GrantFits(m.state, x, GrantsSince(m.log, x.handle));
    }
  }

  lemma InactiveLeaves(m: Machine, x: Subscriber, wait: bool)
    requires Shape(m) && m.state.Releasing? && x in m.subs && x.inactive
    ensures !Listed(Kept(Add(m, Subscriber(x.handle, wait, false)).subs, Inactive), x.handle)
  {
    assert Listed(m.subs, x.handle);
    SplitListed(m.subs, Inactive, x.handle);
    SplitSpec(m.subs, Inactive);
    assert x in Chosen(m.subs, Inactive);
  }

  lemma ActiveStays(m: Machine, h: int, wait: bool)
    requires Shape(m) && forall x | x in m.subs && x.handle == h :: !x.inactive
    ensures Listed(Kept(Add(m, Subscriber(h, wait, false)).subs, Inactive), h)
  {
    var x := Subscriber(h, wait, false);
    var subs := Add(m, x).subs;
    SplitSpec(subs, Inactive);
    if Listed(m.subs, h) {
      var y :| y in m.subs && y.handle == h;
      assert y in Kept(subs, Inactive);
    } else {
      assert x in subs;
      assert x in Kept(subs, Inactive);
    }
  }

  /** A handle that asks again while the old connection is being released is served by the
      next one iff it was not itself waiting for the close: a listed subscriber keeps its
      inactive mark, so its new request is answered by the close notification. */
  lemma RerequestSurvivesReleaseIff(m: Machine, h: int, wait: bool)
    requires Shape(m) && m.state.Releasing?
    ensures Listed(Step(Step(m, Subscribe(h, wait)), Release).subs, h) <==>
            !exists x :: x in m.subs && x.handle == h && x.inactive
  {
    var a := Step(m, Subscribe(h, wait));
    assert a.subs == Add(m, Subscriber(h, wait, false)).subs;
    assert Step(a, Release).subs == Kept(a.subs, Inactive);
    if exists x :: x in m.subs && x.handle == h && x.inactive {
      var x :| x in m.subs && x.handle == h && x.inactive;
      InactiveLeaves(m, x, wait);
    } else {
      ActiveStays(m, h, wait);
    }
  }

  lemma RunFirst(m: Machine, e: Event, rest: seq<Event>)
    ensures Run(m, [e] + rest) == Run(Step(m, e), rest)
  {
    assert ([e] + rest)[1..] == rest;
  }

  lemma OnlyOneKept(x: Subscriber, who: Who)
    ensures Kept([x], who) == if Matches(who, x) then [] else [x]
  {
    assert [x][..0] == [];
  }

  lemma FirstSubscribes(h: int)
    ensures
      var m := Step(INITIAL, Subscribe(h, true));
      m.state.Pending? && m.subs == [Subscriber(h, true, false)]
  {
  }

  lemma LeaverWaits(m: Machine, h: int)
    requires m.state.Acquired? && m.subs == [Subscriber(h, true, false)]
    ensures var t := Step(m, Unsubscribe(h)); t.state.Releasing? && t.subs == [Subscriber(h, true, true)]
  {
    assert Find(m.subs, h) == 0;
    var t := Leave(m, 0);
    assert t.subs == [Subscriber(h, true, true)];
    assert !AnyActive(t.subs);
  }

  lemma LeaverIsDropped(m: Machine, h: int)
    requires m.state.Releasing? && m.subs == [Subscriber(h, true, true)]
    ensures var t := Step(Step(m, Subscribe(h, true)), Release); t.state.Released? && t.subs == []
  {
    var x := m.subs[0];
    assert x in m.subs && Listed(m.subs, h);
    var t := Step(m, Subscribe(h, true));
    assert t.subs == [x] && t.state.Releasing?;
    OnlyOneKept(x, Inactive);
    assert Step(t, Release) == FinishRelease(t);
  }

  /** A run from the start that swallows a request: the handle leaves, asks again before the
      close, and when the close comes nothing is listed and no connection is asked for. */
  lemma RerequestIsSwallowed(h: int)
    ensures
      var m := Run(INITIAL, [Subscribe(h, true), Grant, Unsubscribe(h), Subscribe(h, true), Release]);
      m.state.Released? && m.subs == []
  {
    var m1 := Step(INITIAL, Subscribe(h, true));
    FirstSubscribes(h);
    var m2 := Step(m1, Grant);
    var m3 := Step(m2, Unsubscribe(h));
    LeaverWaits(m2, h);
    LeaverIsDropped(m3, h);
    RunFive(INITIAL, Subscribe(h, true), Grant, Unsubscribe(h), Subscribe(h, true), Release);
  }

  lemma RunFive(m: Machine, a: Event, b: Event, c: Event, d: Event, e: Event)
    ensures Run(m, [a, b, c, d, e]) == Step(Step(Step(Step(Step(m, a), b), c), d), e)
  {
    RunFirst(m, a, [b, c, d, e]);
    RunFirst(Step(m, a), b, [c, d, e]);
    RunFirst(Step(Step(m, a), b), c, [d, e]);
    RunFirst(Step(Step(Step(m, a), b), c), d, [e]);
    RunFirst(Step(Step(Step(Step(m, a), b), c), d), e, []);
    assert [a] + [b, c, d, e] == [a, b, c, d, e] && [b] + [c, d, e] == [b, c, d, e];
    assert [c] + [d, e] == [c, d, e] && [d] + [e] == [d, e] && [e] + [] == [e];
  }
}
