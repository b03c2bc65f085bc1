/** Conservation of AGPS notifications, and alternation of the data-connection calls. */
module AgpsAccounts {
  import opened Agps
  import opened AgpsSafety

  /** A handle is listed iff it has a request that was not yet answered for good, and it has
      not been granted more often than it asked. */
  ghost predicate HandleOk(subs: seq<Subscriber>, log: seq<Entry>, h: int) {
    (Listed(subs, h) <==> RequestsSince(log, h) > 0) && GrantsSince(log, h) <= RequestsSince(log, h)
  }

  predicate GrantFits(state: AgpsState, x: Subscriber, grants: nat) {
    match state
    case Released => true
    case Pending => grants == 0
    case Acquired => x.inactive || grants >= 1
    case Releasing => x.inactive || grants == 0
  }

  ghost predicate GrantsOk(state: AgpsState, subs: seq<Subscriber>, log: seq<Entry>) {
    forall x | x in subs :: GrantFits(state, x, GrantsSince(log, x.handle))
  }

  ghost predicate Accounts(m: Machine) {
    && m.added == Terminals(m.log) + |m.subs|
    && (forall h :: HandleOk(m.subs, m.log, h))
    && GrantsOk(m.state, m.subs, m.log)
  }

  lemma AppendEntry(log: seq<Entry>, e: Entry, h: int)
    ensures var l := log + [e];
            && Terminals(l) == Terminals(log) + (if IsTerminal(e) then 1 else 0)
            && RequestsSince(l, h) == (if IsTerminal(e) && e.handle == h then 0
                                       else RequestsSince(log, h) + if e == Requested(h) then 1 else 0)
            && GrantsSince(l, h) == (if IsTerminal(e) && e.handle == h then 0
                                     else GrantsSince(log, h) + if e == Opened(h) then 1 else 0)
  {
    LogAppend(log, e);
  }

  /** An entry about the connection only. */
  lemma ConnEntry(state: AgpsState, subs: seq<Subscriber>, log: seq<Entry>, e: Entry)
    requires e.ConnRequest? || e.ConnRelease? || e.ConnLost?
    ensures Terminals(log + [e]) == Terminals(log)
    ensures forall h :: HandleOk(subs, log, h) ==> HandleOk(subs, log + [e], h)
    ensures GrantsOk(state, subs, log) ==> GrantsOk(state, subs, log + [e])
    ensures forall h :: RequestsSince(log + [e], h) == RequestsSince(log, h) && GrantsSince(log + [e], h) == GrantsSince(log, h)
  {
    forall h ensures RequestsSince(log + [e], h) == RequestsSince(log, h) && GrantsSince(log + [e], h) == GrantsSince(log, h) {
      AppendEntry(log, e, h);
    }
    AppendEntry(log, e, 0);
  }

  // ---------- subscribe ----------

  lemma ListedAppend(subs: seq<Subscriber>, x: Subscriber, h: int)
    ensures Listed(subs + [x], h) <==> Listed(subs, h) || h == x.handle
  {
    assert x in subs + [x];
    assert forall y | y in subs :: y in subs + [x];
  }

  /** The request itself, with the grant that an acquired connection adds at once. */
  lemma RequestHandle(subs: seq<Subscriber>, log: seq<Entry>, x: Subscriber, h: int, granted: bool)
    requires HandleOk(subs, log, h)
    ensures var l := if granted then log + [Requested(x.handle)] + [Opened(x.handle)] else log + [Requested(x.handle)];
            var s := if Listed(subs, x.handle) then subs else subs + [x];
            && HandleOk(s, l, h) && Terminals(l) == Terminals(log)
            && GrantsSince(l, h) == GrantsSince(log, h) + (if granted && h == x.handle then 1 else 0)
            && (!Listed(subs, h) ==> GrantsSince(log, h) == 0)
  {
    AppendEntry(log, Requested(x.handle), h);
    AppendEntry(log + [Requested(x.handle)], Opened(x.handle), h);
    ListedAppend(subs, x, h);
  }

  lemma SubscribeAccounts(m: Machine, x: Subscriber)
    requires Accounts(m) && Shape(m) && !x.inactive
    ensures Accounts(OnSubscribe(m, x))
  {
    var t := OnSubscribe(m, x);
    var granted := m.state.Acquired?;
    var l := if granted then m.log + [Requested(x.handle)] + [Opened(x.handle)] else m.log + [Requested(x.handle)];
    forall h ensures HandleOk(t.subs, l, h) && Terminals(l) == Terminals(m.log)
                     && GrantsSince(l, h) == GrantsSince(m.log, h) + (if granted && h == x.handle then 1 else 0)
                     && (!Listed(m.subs, h) ==> GrantsSince(m.log, h) == 0)
    {
      assert HandleOk(m.subs, m.log, h);
      RequestHandle(m.subs, m.log, x, h, granted);
    }
    assert t.added == Terminals(l) + |t.subs|;
    SubscribeGrants(m, x, l);
    if m.state.Released? {
      ConnEntry(Pending, t.subs, l, ConnRequest);
    }
  }

  lemma SubscribeGrants(m: Machine, x: Subscriber, l: seq<Entry>)
    requires GrantsOk(m.state, m.subs, m.log) && Shape(m) && !x.inactive
    requires forall h :: GrantsSince(l, h) == GrantsSince(m.log, h) + (if m.state.Acquired? && h == x.handle then 1 else 0)
    requires !Listed(m.subs, x.handle) ==> GrantsSince(m.log, x.handle) == 0
    ensures GrantsOk(OnSubscribe(m, x).state, OnSubscribe(m, x).subs, l)
  {
    var t := OnSubscribe(m, x);
    forall y | y in t.subs ensures GrantFits(t.state, y, GrantsSince(l, y.handle)) {
      assert y in m.subs || (y == x && !Listed(m.subs, x.handle));
    }
  }

  // ---------- unsubscribe ----------

  lemma LeaveWaiting(m: Machine, i: nat)
    requires Accounts(m) && i < |m.subs| && m.subs[i].waitForClose
    ensures Accounts(Leave(m, i))
  {
    var t := Leave(m, i);
    forall h ensures HandleOk(t.subs, t.log, h) {
      assert HandleOk(m.subs, m.log, h);
      assert m.subs[i] in m.subs && t.subs[i] in t.subs;
      if Listed(m.subs, h) {
        var y :| y in m.subs && y.handle == h;
        var j :| 0 <= j < |m.subs| && m.subs[j] == y;
        assert t.subs[j] in t.subs;
      }
      assert forall y | y in t.subs :: y == t.subs[i] || y in m.subs;
    }
    forall y | y in t.subs ensures GrantFits(t.state, y, GrantsSince(t.log, y.handle)) {
      assert m.subs[i] in m.subs;
      assert y == t.subs[i] || y in m.subs;
    }
  }

  lemma LeaveErased(m: Machine, i: nat)
    requires Accounts(m) && WaitOk(m.subs) && i < |m.subs| && !m.subs[i].waitForClose
    ensures Accounts(Leave(m, i))
  {
    var t, x := Leave(m, i), m.subs[i];
    assert x in m.subs;
    EraseSpec(m.subs, x.handle);
    forall h ensures HandleOk(t.subs, t.log, h) && (h != x.handle ==> GrantsSince(t.log, h) == GrantsSince(m.log, h)) {
      assert HandleOk(m.subs, m.log, h);
      AppendEntry(m.log, Closed(x.handle), h);
    }
    AppendEntry(m.log, Closed(x.handle), 0);
    assert Listed(m.subs, x.handle);
  }

  /** Only the state and the connection change, to states that ask no more of the grants. */
  lemma MoveAccounts(m: Machine, state: AgpsState, e: Entry)
    requires Accounts(m) && (e.ConnRelease? || e.ConnLost? || e.ConnRequest?)
    requires forall x | x in m.subs :: GrantFits(state, x, GrantsSince(m.log, x.handle))
    ensures Accounts(m.(state := state, log := m.log + [e]))
  {
    ConnEntry(state, m.subs, m.log, e);
  }

  lemma UnsubscribeAccounts(m: Machine, h: int)
    requires Accounts(m) && Shape(m) && Find(m.subs, h) < |m.subs|
    ensures Accounts(OnUnsubscribe(m, h))
  {
    var i := Find(m.subs, h);
    var l := Leave(m, i);
    if m.subs[i].waitForClose {
      LeaveWaiting(m, i);
    } else {
      LeaveErased(m, i);
    }
    LeaveShape(m, i);
    if m.state.Pending? || m.state.Acquired? {
      if l.subs == [] {
        MoveAccounts(l, Released, ConnRelease);
      } else if !AnyActive(l.subs) {
        MoveAccounts(l, Releasing, ConnRelease);
      }
    }
  }

  // ---------- events from the framework ----------

  lemma GrantAccounts(m: Machine)
    requires Accounts(m) && Shape(m)
    ensures Accounts(OnGrant(m))
  {
    if m.state.Pending? {
      var t, c := OnGrant(m), Chosen(m.subs, Active);
      SplitSpec(m.subs, Active);
      SplitDistinct(m.subs, Active);
      forall h ensures HandleOk(t.subs, t.log, h) && Terminals(t.log) == Terminals(m.log)
                       && GrantsSince(t.log, h) == GrantsSince(m.log, h) + (if Listed(c, h) then 1 else 0)
      {
        assert HandleOk(m.subs, m.log, h);
        GrantBatch(m.log, c, h);
        if Listed(c, h) {
          var y :| y in c && y.handle == h;
          assert GrantFits(Pending, y, GrantsSince(m.log, y.handle));
        }
      }
      assert HandleOk(t.subs, t.log, 0);
      forall y | y in t.subs ensures GrantFits(t.state, y, GrantsSince(t.log, y.handle)) {
        assert y.inactive || y in c;
      }
    }
  }

  /** Every chosen subscriber is told for good and leaves. */
  lemma DismissAccounts(m: Machine, n: Notice, who: Who, state: AgpsState)
    requires !n.GrantedNotice? && WaitOk(m.subs)
    requires m.added == Terminals(m.log) + |m.subs| && forall h :: HandleOk(m.subs, m.log, h)
    requires forall x | x in m.subs && !Matches(who, x) :: GrantFits(state, x, GrantsSince(m.log, x.handle))
    ensures Accounts(NotifyAll(m, n, true, who).(state := state))
  {
    var t, c, k := NotifyAll(m, n, true, who).(state := state), Chosen(m.subs, who), Kept(m.subs, who);
    SplitSpec(m.subs, who);
    forall h ensures HandleOk(k, t.log, h) && Terminals(t.log) == Terminals(m.log) + |c|
                     && (!Listed(c, h) ==> GrantsSince(t.log, h) == GrantsSince(m.log, h))
    {
      assert HandleOk(m.subs, m.log, h);
      TerminalBatch(m.log, n, c, h);
      SplitListed(m.subs, who, h);
    }
    assert HandleOk(k, t.log, 0);
    forall y | y in k ensures GrantFits(state, y, GrantsSince(t.log, y.handle)) {
      SplitListed(m.subs, who, y.handle);
      assert Listed(k, y.handle);
    }
  }

  lemma SplitListed(subs: seq<Subscriber>, who: Who, h: int)
    requires Distinct(subs)
    ensures Listed(subs, h) <==> Listed(Chosen(subs, who), h) || Listed(Kept(subs, who), h)
    ensures !(Listed(Chosen(subs, who), h) && Listed(Kept(subs, who), h))
  {
    SplitSpec(subs, who);
    if Listed(subs, h) {
      var x :| x in subs && x.handle == h;
      assert x in Chosen(subs, who) || x in Kept(subs, who);
    }
    if Listed(Chosen(subs, who), h) && Listed(Kept(subs, who), h) {
      var x :| x in Chosen(subs, who) && x.handle == h;
      var y :| y in Kept(subs, who) && y.handle == h;
      SameHandle(subs, x, y);
      assert false;
    }
  }

  lemma FinishAccounts(m: Machine)
    requires Accounts(m) && Shape(m) && m.state.Releasing?
    ensures Accounts(FinishRelease(m))
  {
    DismissAccounts(m, ClosedNotice, Inactive, Pending);
    DismissAccounts(m, ClosedNotice, Inactive, Released);
    var l := NotifyAll(m, ClosedNotice, true, Inactive);
    MoveAccounts(l.(state := Pending), Pending, ConnRequest);
  }

  lemma LoseAccounts(m: Machine, n: Notice)
    requires Accounts(m) && WaitOk(m.subs) && !n.GrantedNotice?
    ensures Accounts(NotifyAll(m.(state := Released, log := m.log + [ConnLost]), n, true, All))
  {
    ConnEntry(Released, m.subs, m.log, ConnLost);
    DismissAccounts(m.(state := Released, log := m.log + [ConnLost]), n, All, Released);
  }

  lemma StepAccounts(m: Machine, e: Event)
    requires Accounts(m) && Shape(m) && !e.Restart?
    ensures Accounts(Step(m, e))
  {
    match e
    case Subscribe(h, wait) => SubscribeAccounts(m, Subscriber(h, wait, false));
    case Unsubscribe(h) =>
      if Find(m.subs, h) < |m.subs| {
        UnsubscribeAccounts(m, h);
      }
    case Grant => GrantAccounts(m);
    case Release =>
      if m.state.Releasing? {
        FinishAccounts(m);
      } else if m.state.Acquired? {
        LoseAccounts(m, ClosedNotice);
      }
    case Deny =>
      if m.state.Releasing? {
        FinishAccounts(m);
      } else if m.state.Pending? {
        LoseAccounts(m, DeniedNotice);
      }
  }
}
