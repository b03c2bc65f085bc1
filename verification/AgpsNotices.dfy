/** What each event makes the AGPS machine report, entry by entry: which status callback, to
    which subscribers, in which order. */
module AgpsNotices {
  import opened Agps
  import opened AgpsSafety
  import opened AgpsTheorems

  // ---------- the reports of one event ----------

  /** Closed, for the inactive subscribers in list order. */
  function ClosedInactive(subs: seq<Subscriber>): seq<Entry> {
    if subs == [] then []
    else (if subs[0].inactive then [Closed(subs[0].handle)] else []) + ClosedInactive(subs[1..])
  }

  /** Opened, for the active subscribers in list order. */
  function OpenedActive(subs: seq<Subscriber>): seq<Entry> {
    if subs == [] then []
    else (if subs[0].inactive then [] else [Opened(subs[0].handle)]) + OpenedActive(subs[1..])
  }

  /** The active subscribers in list order. */
  function ActiveOnly(subs: seq<Subscriber>): seq<Subscriber> {
    if subs == [] then []
    else (if subs[0].inactive then [] else [subs[0]]) + ActiveOnly(subs[1..])
  }

  lemma Reassociate<T>(a: seq<T>, b: seq<T>, c: seq<T>)
    ensures (a + b) + c == a + (b + c)
  {
  }

  lemma {:induction false} ActiveOnlyAppend(subs: seq<Subscriber>, x: Subscriber)
    ensures ActiveOnly(subs + [x]) == ActiveOnly(subs) + if x.inactive then [] else [x]
  {
    if subs == [] {
      assert ActiveOnly([x][1..]) == [];
    } else {
      var longer := subs + [x];
      assert longer[0] == subs[0] && longer[1..] == subs[1..] + [x];
      ActiveOnlyAppend(subs[1..], x);
      Reassociate(if subs[0].inactive then [] else [subs[0]], ActiveOnly(subs[1..]), if x.inactive then [] else [x]);
    }
  }

  lemma {:induction false} KeptIsActive(subs: seq<Subscriber>)
    ensures Kept(subs, Inactive) == ActiveOnly(subs)
  {
    if subs != [] {
      var rest, last := subs[..|subs| - 1], subs[|subs| - 1];
      assert subs == rest + [last];
      KeptIsActive(rest);
      ActiveOnlyAppend(rest, last);
    }
  }

  lemma {:induction false} ActiveOnlyIsActive(subs: seq<Subscriber>)
    ensures AnyActive(ActiveOnly(subs)) <==> ActiveOnly(subs) != []
  {
    if subs != [] {
      ActiveOnlyIsActive(subs[1..]);
      var tail := ActiveOnly(subs[1..]);
      if !subs[0].inactive {
        assert subs[0] in [subs[0]] + tail;
      } else {
        assert [] + tail == tail;
      }
    }
  }

  lemma {:induction false} ClosedInactiveAppend(subs: seq<Subscriber>, x: Subscriber)
    ensures ClosedInactive(subs + [x]) == ClosedInactive(subs) + if x.inactive then [Closed(x.handle)] else []
  {
    if subs == [] {
      assert ClosedInactive([x][1..]) == [];
    } else {
      var longer := subs + [x];
      assert longer[0] == subs[0] && longer[1..] == subs[1..] + [x];
      ClosedInactiveAppend(subs[1..], x);
      Reassociate(if subs[0].inactive then [Closed(subs[0].handle)] else [], ClosedInactive(subs[1..]), if x.inactive then [Closed(x.handle)] else []);
    }
  }

  lemma {:induction false} OpenedActiveAppend(subs: seq<Subscriber>, x: Subscriber)
    ensures OpenedActive(subs + [x]) == OpenedActive(subs) + if x.inactive then [] else [Opened(x.handle)]
  {
    if subs == [] {
      assert OpenedActive([x][1..]) == [];
    } else {
      var longer := subs + [x];
      assert longer[0] == subs[0] && longer[1..] == subs[1..] + [x];
      OpenedActiveAppend(subs[1..], x);
      Reassociate(if subs[0].inactive then [] else [Opened(subs[0].handle)], OpenedActive(subs[1..]), if x.inactive then [] else [Opened(x.handle)]);
    }
  }

  lemma NoticesAppend(n: Notice, subs: seq<Subscriber>, x: Subscriber)
    ensures Notices(n, subs + [x]) == Notices(n, subs) + [EntryFor(n, x.handle)]
  {
    assert (subs + [x])[..|subs|] == subs;
  }

  lemma {:induction false} InactiveNotices(subs: seq<Subscriber>)
    ensures Notices(ClosedNotice, Chosen(subs, Inactive)) == ClosedInactive(subs)
  {
    if subs != [] {
      var rest, last := subs[..|subs| - 1], subs[|subs| - 1];
      assert subs == rest + [last];
      InactiveNotices(rest);
      ClosedInactiveAppend(rest, last);
      if last.inactive {
        NoticesAppend(ClosedNotice, Chosen(rest, Inactive), last);
      } else {
        assert Chosen(rest, Inactive) + [] == Chosen(rest, Inactive);
        assert ClosedInactive(rest) + [] == ClosedInactive(rest);
      }
    }
  }

  lemma {:induction false} ActiveNotices(subs: seq<Subscriber>)
    ensures Notices(GrantedNotice, Chosen(subs, Active)) == OpenedActive(subs)
  {
    if subs != [] {
      var rest, last := subs[..|subs| - 1], subs[|subs| - 1];
      assert subs == rest + [last];
      ActiveNotices(rest);
      OpenedActiveAppend(rest, last);
      if !last.inactive {
        NoticesAppend(GrantedNotice, Chosen(rest, Active), last);
      } else {
        assert Chosen(rest, Active) + [] == Chosen(rest, Active);
        assert OpenedActive(rest) + [] == OpenedActive(rest);
      }
    }
  }

  /** Position by position: the connection could not be opened. */
  lemma {:induction false} DeniedNotices(subs: seq<Subscriber>, i: nat)
    requires i < |subs|
    ensures |Notices(DeniedNotice, subs)| == |subs| && Notices(DeniedNotice, subs)[i] == OpenFailed(subs[i].handle)
  {
    if |subs| > 1 {
      DeniedNotices(subs[..|subs| - 1], if i < |subs| - 1 then i else 0);
    }
  }

  /** Position by position: the connection was closed. */
  lemma {:induction false} LostNotices(subs: seq<Subscriber>, i: nat)
    requires i < |subs|
    ensures |Notices(ClosedNotice, subs)| == |subs| && Notices(ClosedNotice, subs)[i] == Closed(subs[i].handle)
  {
    if |subs| > 1 {
      LostNotices(subs[..|subs| - 1], if i < |subs| - 1 then i else 0);
    }
  }

  /** OpenFailed, for every subscriber, position by position. */
  function FailedAll(subs: seq<Subscriber>): (told: seq<Entry>)
    ensures |told| == |subs| && forall i | 0 <= i < |subs| :: told[i] == OpenFailed(subs[i].handle)
  {
    seq(|subs|, i requires 0 <= i < |subs| => OpenFailed(subs[i].handle))
  }

  /** Closed, for every subscriber, position by position. */
  function ClosedAll(subs: seq<Subscriber>): (told: seq<Entry>)
    ensures |told| == |subs| && forall i | 0 <= i < |subs| :: told[i] == Closed(subs[i].handle)
  {
    seq(|subs|, i requires 0 <= i < |subs| => Closed(subs[i].handle))
  }

  lemma AllDenied(subs: seq<Subscriber>)
    ensures Notices(DeniedNotice, subs) == FailedAll(subs)
  {
    if subs != [] {
      DeniedNotices(subs, 0);
    }
    forall i | 0 <= i < |subs| ensures Notices(DeniedNotice, subs)[i] == FailedAll(subs)[i] {
      DeniedNotices(subs, i);
    }
  }

  lemma AllClosed(subs: seq<Subscriber>)
    ensures Notices(ClosedNotice, subs) == ClosedAll(subs)
  {
    if subs != [] {
      LostNotices(subs, 0);
    }
    forall i | 0 <= i < |subs| ensures Notices(ClosedNotice, subs)[i] == ClosedAll(subs)[i] {
      LostNotices(subs, i);
    }
  }

  lemma LosesConnection(m: Machine, n: Notice)
    requires if n.DeniedNotice? then m.state.Pending? else n.ClosedNotice? && m.state.Acquired?
    ensures
      Step(m, if n.DeniedNotice? then Deny else Release) ==
        Machine(Released, [], m.log + [ConnLost] + Notices(n, m.subs), m.added)
  {
    ChooseAll(m.subs);
  }

  /** A denial in PENDING tells every subscriber, in list order, that opening failed. */
  lemma DenyTells(m: Machine)
    requires m.state.Pending?
    ensures Step(m, Deny) == Machine(Released, [], m.log + [ConnLost] + FailedAll(m.subs), m.added)
  {
    LosesConnection(m, DeniedNotice);
    AllDenied(m.subs);
  }

  /** A release in ACQUIRED tells every subscriber, in list order, that the connection closed. */
  lemma ForcedReleaseTells(m: Machine)
    requires m.state.Acquired?
    ensures Step(m, Release) == Machine(Released, [], m.log + [ConnLost] + ClosedAll(m.subs), m.added)
  {
    LosesConnection(m, ClosedNotice);
    AllClosed(m.subs);
  }

  /** In RELEASING a release or denial tells exactly the inactive subscribers, in list order,
      that the connection closed; a new one is asked for iff some subscriber is active. */
  lemma FinishedReleaseTells(m: Machine)
    requires m.state.Releasing?
    ensures
      var t := Step(m, Release);
      && Step(m, Deny) == t
      && t.log == m.log + ClosedInactive(m.subs) + (if t.state.Pending? then [ConnRequest] else [])
      && t.subs == ActiveOnly(m.subs) && t.state == if t.subs == [] then Released else Pending
  {
    InactiveNotices(m.subs);
    KeptIsActive(m.subs);
    ActiveOnlyIsActive(m.subs);
    var l := m.log + ClosedInactive(m.subs);
    assert l + [] == l;
  }

  /** A grant in PENDING tells exactly the active subscribers, in list order, that it is open. */
  lemma GrantTells(m: Machine)
    requires m.state.Pending?
    ensures
      var t := Step(m, Grant);
      t == m.(state := Acquired, log := m.log + OpenedActive(m.subs))
  {
    ActiveNotices(m.subs);
  }

  /** Who is told what when a listed handle leaves: a subscriber that does not wait for the
      close is told at once that it closed, one that waits is told nothing; the connection is
      released iff nobody active is left. */
  lemma UnsubscribeTells(m: Machine, h: int)
    requires (m.state.Pending? || m.state.Acquired? || m.state.Releasing?) && Find(m.subs, h) < |m.subs|
    ensures
      var t := Step(m, Unsubscribe(h));
      var x := m.subs[Find(m.subs, h)];
      && x.handle == h
      && t.log == m.log + (if x.waitForClose then [] else [Closed(h)])
                  + (if !m.state.Releasing? && !AnyActive(t.subs) then [ConnRelease] else [])
      && t.subs == (if x.waitForClose then m.subs[Find(m.subs, h) := x.(inactive := true)] else Erase(m.subs, h))
      && t.state == if t.subs == [] then Released
                    else if m.state.Releasing? || AnyActive(t.subs) then m.state
                    else Releasing
  {
    var l := Leave(m, Find(m.subs, h));
    var told := if m.subs[Find(m.subs, h)].waitForClose then [] else [Closed(h)];
    assert l.log == m.log + told;
    assert l.log + [] == l.log;
    if l.subs == [] {
      assert !AnyActive(l.subs);
    }
  }

  /** Who is told what on a request: in ACQUIRED the handle is told that it is open, in RELEASED
      a connection is asked for, otherwise nothing is told. */
  lemma SubscribeTells(m: Machine, h: int, wait: bool)
    ensures
      var t := Step(m, Subscribe(h, wait));
      && t.log == m.log + [Requested(h)] + (match m.state {
                                              case Released => [ConnRequest]
                                              case Acquired => [Opened(h)]
                                              case _ => []
                                            })
      && t.subs == (if Listed(m.subs, h) then m.subs else m.subs + [Subscriber(h, wait, false)])
      && t.state == if m.state.Released? then Pending else m.state
  {
    var l := m.log + [Requested(h)];
    assert l + [] == l;
  }

  /** Everything else changes nothing, except that a modem restart empties the list. */
  lemma OtherwiseNothingHappens(m: Machine)
    ensures !m.state.Pending? ==> Step(m, Grant) == m
    ensures !m.state.Acquired? && !m.state.Releasing? ==> Step(m, Release) == m
    ensures !m.state.Pending? && !m.state.Releasing? ==> Step(m, Deny) == m
    ensures Step(m, Restart) == m.(subs := [])
  {
  }

  // ---------- every run ----------

  lemma {:induction false} ClosedInactiveHas(subs: seq<Subscriber>, e: Entry)
    ensures e in ClosedInactive(subs) <==> exists x :: x in subs && x.inactive && e == Closed(x.handle)
  {
    if subs != [] {
      ClosedInactiveHas(subs[1..], e);
      assert subs == [subs[0]] + subs[1..];
      if subs[0].inactive && e == Closed(subs[0].handle) {
        assert subs[0] in subs;
      }
    }
  }

  lemma {:induction false} OpenedActiveHas(subs: seq<Subscriber>, e: Entry)
    requires e in OpenedActive(subs)
    ensures e.Opened?
  {
    if subs[0].inactive || e != Opened(subs[0].handle) {
      OpenedActiveHas(subs[1..], e);
    }
  }

  /** The event denies a connection that h waits for. */
  predicate Denies(m: Machine, e: Event, h: int) {
    e.Deny? && m.state.Pending? && Listed(m.subs, h)
  }

  predicate SomeDenies(m: Machine, es: seq<Event>, h: int)
    decreases |es|
  {
    es != [] && (Denies(m, es[0], h) || SomeDenies(Step(m, es[0]), es[1..], h))
  }

  lemma FailedAllHas(subs: seq<Subscriber>, h: int)
    ensures OpenFailed(h) in FailedAll(subs) <==> Listed(subs, h)
  {
    if Listed(subs, h) {
      var x :| x in subs && x.handle == h;
      var i :| 0 <= i < |subs| && subs[i] == x;
      assert FailedAll(subs)[i] == OpenFailed(h);
    }
  }

  lemma DenyFailsIff(m: Machine, h: int)
    requires m.state.Pending?
    ensures OpenFailed(h) in Step(m, Deny).log <==> OpenFailed(h) in m.log || Listed(m.subs, h)
  {
    DenyTells(m);
    FailedAllHas(m.subs, h);
  }

  lemma OthersDoNotFail(m: Machine, e: Event, h: int)
    requires !(e.Deny? && m.state.Pending?)
    ensures OpenFailed(h) in Step(m, e).log <==> OpenFailed(h) in m.log
  {
    match e
    case Subscribe(g, wait) => SubscribeTells(m, g, wait);
    case Unsubscribe(g) =>
      if Find(m.subs, g) < |m.subs| && !m.state.Released? {
        UnsubscribeTells(m, g);
      }
    case Grant =>
      if m.state.Pending? {
        GrantTells(m);
        if OpenFailed(h) in OpenedActive(m.subs) {
          OpenedActiveHas(m.subs, OpenFailed(h));
        }
      }
    case Release => ReleaseDoesNotFail(m, h);
    case Deny =>
      if m.state.Releasing? {
        FinishedReleaseTells(m);
        ClosedInactiveHas(m.subs, OpenFailed(h));
      }
    case Restart =>
  }

  lemma ReleaseDoesNotFail(m: Machine, h: int)
    ensures OpenFailed(h) in Step(m, Release).log <==> OpenFailed(h) in m.log
  {
    if m.state.Releasing? {
      FinishedReleaseTells(m);
      ClosedInactiveHas(m.subs, OpenFailed(h));
    } else if m.state.Acquired? {
      ForcedReleaseTells(m);
      assert OpenFailed(h) !in ClosedAll(m.subs);
    }
  }

  lemma {:induction false} RunFailsIff(m: Machine, es: seq<Event>, h: int)
    ensures OpenFailed(h) in Run(m, es).log <==> OpenFailed(h) in m.log || SomeDenies(m, es, h)
    decreases |es|
  {
    if es != [] {
      if es[0].Deny? && m.state.Pending? {
        DenyFailsIff(m, h);
      } else {
        OthersDoNotFail(m, es[0], h);
      }
      RunFailsIff(Step(m, es[0]), es[1..], h);
    }
  }

  /** In every run a handle is told that opening failed iff it was listed at a denial in
      PENDING. */
  lemma OpeningFailsIff(es: seq<Event>, h: int)
    ensures OpenFailed(h) in Run(INITIAL, es).log <==> SomeDenies(INITIAL, es, h)
  {
    RunFailsIff(INITIAL, es, h);
  }
}
