/** A handle that asks again while it is still listed. It keeps its old subscriber, so the
    request counts only if that subscriber is active. */
module AgpsRerequests {
  import opened Agps
  import opened AgpsSafety
  import opened AgpsAccounts
  import opened AgpsTheorems

  predicate ActiveFor(subs: seq<Subscriber>, h: int) {
    exists x :: x in subs && x.handle == h && !x.inactive
  }

  predicate InactiveFor(subs: seq<Subscriber>, h: int) {
    exists x :: x in subs && x.handle == h && x.inactive
  }

  lemma ActiveOrInactive(subs: seq<Subscriber>, h: int)
    requires Distinct(subs)
    ensures Listed(subs, h) <==> ActiveFor(subs, h) || InactiveFor(subs, h)
    ensures !(ActiveFor(subs, h) && InactiveFor(subs, h))
  {
    if ActiveFor(subs, h) && InactiveFor(subs, h) {
      var x :| x in subs && x.handle == h && !x.inactive;
      var y :| y in subs && y.handle == h && y.inactive;
      SameHandle(subs, x, y);
      assert false;
    }
  }

  // ---------- one event ----------

  lemma AddIsActiveIff(m: Machine, h: int, wait: bool)
    requires Distinct(m.subs)
    ensures ActiveFor(Add(m, Subscriber(h, wait, false)).subs, h) <==> !InactiveFor(m.subs, h)
  {
    ActiveOrInactive(m.subs, h);
    var x := Subscriber(h, wait, false);
    if !Listed(m.subs, h) {
      assert x in m.subs + [x];
    }
  }

  lemma SubscribeIsActiveIff(m: Machine, h: int, wait: bool)
    requires WaitOk(m.subs)
    ensures
      var a := Step(m, Subscribe(h, wait));
      && WaitOk(a.subs) && (ActiveFor(a.subs, h) <==> !InactiveFor(m.subs, h))
      && (InactiveFor(a.subs, h) <==> InactiveFor(m.subs, h)) && Listed(a.subs, h)
  {
    var x := Subscriber(h, wait, false);
    var a := Step(m, Subscribe(h, wait));
    assert a.subs == Add(m, x).subs;
    AddShape(m, x);
    AddIsActiveIff(m, h, wait);
    ActiveOrInactive(a.subs, h);
  }

  lemma ChosenIsActive(subs: seq<Subscriber>, h: int)
    requires Distinct(subs)
    ensures Listed(Chosen(subs, Active), h) <==> ActiveFor(subs, h)
    ensures Listed(Chosen(subs, Inactive), h) <==> InactiveFor(subs, h)
    ensures Listed(Kept(subs, Inactive), h) <==> ActiveFor(subs, h)
  {
    SplitSpec(subs, Active);
    SplitSpec(subs, Inactive);
    if ActiveFor(subs, h) {
      var x :| x in subs && x.handle == h && !x.inactive;
      assert x in Chosen(subs, Active) && x in Kept(subs, Inactive);
    }
    if InactiveFor(subs, h) {
      var x :| x in subs && x.handle == h && x.inactive;
      assert x in Chosen(subs, Inactive);
    }
  }

  /** A grant reaches a listed handle iff it is active. */
  lemma GrantServesIff(a: Machine, h: int)
    requires WaitOk(a.subs) && a.state.Pending?
    ensures
      var t := Step(a, Grant);
      && t.state.Acquired? && t.subs == a.subs
      && GrantsSince(t.log, h) == GrantsSince(a.log, h) + (if ActiveFor(a.subs, h) then 1 else 0)
  {
    SplitDistinct(a.subs, Active);
    GrantBatch(a.log, Chosen(a.subs, Active), h);
    ChosenIsActive(a.subs, h);
  }

  lemma AnyKept(subs: seq<Subscriber>)
    requires Distinct(subs)
    ensures AnyActive(Kept(subs, Inactive)) <==> AnyActive(subs)
  {
    SplitSpec(subs, Inactive);
    if AnyActive(subs) {
      var x :| x in subs && !x.inactive;
      assert x in Kept(subs, Inactive);
    }
  }

  lemma ClosedAreAnswered(a: Machine, h: int)
    requires WaitOk(a.subs)
    ensures
      var l := a.log + Notices(ClosedNotice, Chosen(a.subs, Inactive));
      && RequestsSince(l, h) == (if InactiveFor(a.subs, h) then 0 else RequestsSince(a.log, h))
      && RequestsSince(l + [ConnRequest], h) == RequestsSince(l, h)
  {
    ChosenIsActive(a.subs, h);
    TerminalBatch(a.log, ClosedNotice, Chosen(a.subs, Inactive), h);
    AppendEntry(a.log + Notices(ClosedNotice, Chosen(a.subs, Inactive)), ConnRequest, h);
  }

  /** When the old connection is gone, active handles stay for the next one; inactive ones
      are told and leave, and with them all that they asked for. */
  lemma FinishServesIff(a: Machine, h: int)
    requires WaitOk(a.subs)
    ensures
      var t := FinishRelease(a);
      && (Listed(t.subs, h) <==> ActiveFor(a.subs, h))
      && (t.state.Pending? <==> AnyActive(a.subs))
      && RequestsSince(t.log, h) == if InactiveFor(a.subs, h) then 0 else RequestsSince(a.log, h)
  {
    var t := FinishRelease(a);
    assert t.subs == Kept(a.subs, Inactive);
    AnyKept(a.subs);
    assert Listed(t.subs, h) <==> ActiveFor(a.subs, h) by {
      ChosenIsActive(a.subs, h);
    }
    ClosedAreAnswered(a, h);
  }

  /** When the connection is denied or taken away, every listed handle is told and leaves. */
  lemma LosesAll(a: Machine, n: Notice, h: int)
    requires !n.GrantedNotice?
    ensures
      var t := NotifyAll(a.(state := Released, log := a.log + [ConnLost]), n, true, All);
      && t.subs == [] && RequestsSince(t.log, h) == if Listed(a.subs, h) then 0 else RequestsSince(a.log, h)
  {
    ChooseAll(a.subs);
    TerminalBatch(a.log + [ConnLost], n, Chosen(a.subs, All), h);
    AppendEntry(a.log, ConnLost, h);
  }

  // ---------- every run ----------

  lemma ReachedWaitOk(es: seq<Event>)
    ensures WaitOk(Run(INITIAL, es).subs)
  {
    InitialOk();
    RunKeeps(INITIAL, es);
  }

  /** After every run, a request leaves its handle an active subscriber iff the handle was not
      listed as inactive. */
  lemma RequestIsActiveIff(es: seq<Event>, h: int, wait: bool)
    ensures
      var m := Run(INITIAL, es);
      ActiveFor(Step(m, Subscribe(h, wait)).subs, h) <==> !InactiveFor(m.subs, h)
  {
    ReachedWaitOk(es);
    SubscribeIsActiveIff(Run(INITIAL, es), h, wait);
  }

  /** What the next answer from the framework does for a listed handle. Pending: a grant
      reaches it iff it is active, a denial tells it in either case. Releasing: it stays for
      the next connection iff it is active; otherwise it is told "closed" and its request is
      gone. Acquired: taking the connection away tells it in either case. */
  predicate AnsweredAs(a: Machine, h: int, active: bool) {
    match a.state
    case Pending =>
      && GrantsSince(Step(a, Grant).log, h) == GrantsSince(a.log, h) + (if active then 1 else 0)
      && Listed(Step(a, Grant).subs, h)
      && Step(a, Deny).subs == [] && RequestsSince(Step(a, Deny).log, h) == 0
    case Releasing =>
      && (Listed(Step(a, Release).subs, h) <==> active) && Step(a, Deny) == Step(a, Release)
      && (!active ==> RequestsSince(Step(a, Release).log, h) == 0)
    case Acquired => Step(a, Release).subs == [] && RequestsSince(Step(a, Release).log, h) == 0
    case Released => true
  }

  lemma PendingIsAnswered(a: Machine, h: int)
    requires WaitOk(a.subs) && Listed(a.subs, h) && a.state.Pending?
    ensures AnsweredAs(a, h, ActiveFor(a.subs, h))
  {
    GrantServesIff(a, h);
    LosesAll(a, DeniedNotice, h);
  }

  lemma ReleasingIsAnswered(a: Machine, h: int)
    requires WaitOk(a.subs) && Listed(a.subs, h) && a.state.Releasing?
    ensures AnsweredAs(a, h, ActiveFor(a.subs, h))
  {
    BothFinish(a);
    FinishServesIff(a, h);
    assert !ActiveFor(a.subs, h) ==> InactiveFor(a.subs, h) by {
      ActiveOrInactive(a.subs, h);
    }
  }

  lemma BothFinish(a: Machine)
    requires a.state.Releasing?
    ensures Step(a, Release) == FinishRelease(a) && Step(a, Deny) == FinishRelease(a)
  {
  }

  lemma AcquiredIsAnswered(a: Machine, h: int)
    requires WaitOk(a.subs) && Listed(a.subs, h) && a.state.Acquired?
    ensures AnsweredAs(a, h, ActiveFor(a.subs, h))
  {
    LosesAll(a, ClosedNotice, h);
  }

  /** After every run, a request is answered as that of an active subscriber iff its handle was
      not listed as inactive. */
  lemma RequestIsServedIff(es: seq<Event>, h: int, wait: bool)
    ensures
      var m := Run(INITIAL, es);
      AnsweredAs(Step(m, Subscribe(h, wait)), h, !InactiveFor(m.subs, h))
  {
    var m := Run(INITIAL, es);
    var a := Step(m, Subscribe(h, wait));
    ReachedWaitOk(es);
    SubscribeIsActiveIff(m, h, wait);
    match a.state
    case Pending => PendingIsAnswered(a, h);
    case Releasing => ReleasingIsAnswered(a, h);
    case Acquired => AcquiredIsAnswered(a, h);
    case Released =>
  }

  // ---------- an inactive handle does not hold the connection ----------

  lemma NoneActiveAfter(subs: seq<Subscriber>, i: nat)
    requires Distinct(subs) && i < |subs| && (forall x | x in subs && !x.inactive :: x.handle == subs[i].handle)
    ensures !AnyActive(subs[i := subs[i].(inactive := true)]) && !AnyActive(Erase(subs, subs[i].handle))
  {
    EraseSpec(subs, subs[i].handle);
    var later := subs[i := subs[i].(inactive := true)];
    forall x | x in later ensures x.inactive {
      var j :| 0 <= j < |later| && later[j] == x;
      if j != i {
        assert subs[j] in subs && subs[i] in subs;
      }
    }
  }

  /** Pending or acquired, the connection is released as soon as the last active handle leaves,
      under every handle that asked again while inactive. */
  lemma ReleasedUnderInactive(es: seq<Event>, h: int, wait: bool, g: int)
    requires
      var m := Run(INITIAL, es);
      && (m.state.Pending? || m.state.Acquired?) && InactiveFor(m.subs, h)
      && ActiveFor(m.subs, g) && forall x | x in m.subs && !x.inactive :: x.handle == g
    ensures
      var a := Step(Run(INITIAL, es), Subscribe(h, wait));
      var t := Step(a, Unsubscribe(g));
      && a.subs == Run(INITIAL, es).subs
      && (t.state.Releasing? || t.state.Released?) && |t.log| > 0 && t.log[|t.log| - 1] == ConnRelease
  {
    var m := Run(INITIAL, es);
    var a := Step(m, Subscribe(h, wait));
    ReachedWaitOk(es);
    assert Listed(m.subs, h);
    assert a.subs == m.subs && a.state == m.state;
    FindListed(a.subs, g);
    var i := Find(a.subs, g);
    NoneActiveAfter(a.subs, i);
    LastActiveReleases(a, g);
  }

  lemma LastActiveReleases(a: Machine, g: int)
    requires (a.state.Pending? || a.state.Acquired?) && Find(a.subs, g) < |a.subs|
    requires !AnyActive(Leave(a, Find(a.subs, g)).subs)
    ensures
      var t := Step(a, Unsubscribe(g));
      (t.state.Releasing? || t.state.Released?) && |t.log| > 0 && t.log[|t.log| - 1] == ConnRelease
  {
  }

  // ---------- a run that drops a request in silence ----------

  lemma TwoSubscribed(h: int, g: int)
    requires h != g
    ensures
      var m := Step(Step(INITIAL, Subscribe(h, true)), Subscribe(g, false));
      && m.state.Pending? && m.subs == [Subscriber(h, true, false), Subscriber(g, false, false)]
      && m.log == [Requested(h), ConnRequest, Requested(g)]
  {
    var m := Step(INITIAL, Subscribe(h, true));
    assert m.subs == [Subscriber(h, true, false)];
    assert !Listed(m.subs, g);
  }

  lemma FirstLeaves(m: Machine, h: int, g: int)
    requires h != g && m.state.Pending? && m.subs == [Subscriber(h, true, false), Subscriber(g, false, false)]
    ensures
      var t := Step(m, Unsubscribe(h));
      t == m.(subs := [Subscriber(h, true, true), Subscriber(g, false, false)])
  {
    assert Find(m.subs, h) == 0;
    var l := Leave(m, 0);
    assert l.subs == [Subscriber(h, true, true), Subscriber(g, false, false)];
    assert l.subs[1] in l.subs;
  }

  lemma FirstAsksAgain(m: Machine, h: int, g: int)
    requires m.state.Pending? && m.subs == [Subscriber(h, true, true), Subscriber(g, false, false)]
    ensures Step(m, Subscribe(h, true)) == m.(log := m.log + [Requested(h)])
  {
    assert m.subs[0] in m.subs;
    assert Listed(m.subs, h);
  }

  lemma OnlySecondIsGranted(m: Machine, h: int, g: int)
    requires m.state.Pending? && m.subs == [Subscriber(h, true, true), Subscriber(g, false, false)]
    ensures Step(m, Grant) == m.(state := Acquired, log := m.log + [Opened(g)])
  {
    var x, y := m.subs[0], m.subs[1];
    assert m.subs[..1] == [x] && [x][..0] == [];
    assert Chosen([x], Active) == [];
    assert Chosen(m.subs, Active) == [y];
    assert [y][..0] == [];
    assert Notices(GrantedNotice, [y]) == [Opened(g)];
  }

  /** h leaves and asks again before the grant: g is granted, h is not, and h is told nothing. */
  lemma RerequestIsIgnored(h: int, g: int)
    requires h != g
    ensures
      var m := Run(INITIAL, [Subscribe(h, true), Subscribe(g, false), Unsubscribe(h), Subscribe(h, true), Grant]);
      && m.state.Acquired? && InactiveFor(m.subs, h)
      && m.log == [Requested(h), ConnRequest, Requested(g), Requested(h), Opened(g)]
  {
    var m2 := Step(Step(INITIAL, Subscribe(h, true)), Subscribe(g, false));
    TwoSubscribed(h, g);
    var m3 := Step(m2, Unsubscribe(h));
    FirstLeaves(m2, h, g);
    var m4 := Step(m3, Subscribe(h, true));
    FirstAsksAgain(m3, h, g);
    OnlySecondIsGranted(m4, h, g);
    var m5 := Step(m4, Grant);
    assert m5.subs[0] in m5.subs;
    RunFive(INITIAL, Subscribe(h, true), Subscribe(g, false), Unsubscribe(h), Subscribe(h, true), Grant);
  }
}
