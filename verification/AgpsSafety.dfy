/** Safety of the AGPS machine over every sequence of events. */
module AgpsSafety {
  import opened Agps

  // ---------- list lemmas ----------

  ghost predicate Distinct(subs: seq<Subscriber>) {
    forall i, j | 0 <= i < j < |subs| :: subs[i].handle != subs[j].handle
  }

  lemma {:induction false} SplitSpec(subs: seq<Subscriber>, who: Who)
    ensures forall x :: x in Chosen(subs, who) <==> x in subs && Matches(who, x)
    ensures forall x :: x in Kept(subs, who) <==> x in subs && !Matches(who, x)
    ensures |Chosen(subs, who)| + |Kept(subs, who)| == |subs|
  {
    if subs != [] {
      var rest, last := subs[..|subs| - 1], subs[|subs| - 1];
      SplitSpec(rest, who);
      assert subs == rest + [last];
    }
  }

  /** One step of a walk over the list. */
  lemma WalkChosen(subs: seq<Subscriber>, k: nat, who: Who, n: Notice)
    requires k < |subs|
    ensures var told := Notices(n, Chosen(subs[..k], who));
            Notices(n, Chosen(subs[..k + 1], who)) ==
            if Matches(who, subs[k]) then told + [EntryFor(n, subs[k].handle)] else told
  {
    assert subs[..k + 1][..k] == subs[..k];
    var c := Chosen(subs[..k], who);
    assert (c + [subs[k]])[..|c|] == c && c + [] == c;
  }

  lemma WalkKept(subs: seq<Subscriber>, k: nat, who: Who)
    requires k < |subs|
    ensures var front := Kept(subs[..k], who);
            Kept(subs[..k + 1], who) == if Matches(who, subs[k]) then front else front + [subs[k]]
  {
    assert subs[..k + 1][..k] == subs[..k];
    assert Kept(subs[..k], who) + [] == Kept(subs[..k], who);
  }

  lemma EraseAppend(seen: seq<Subscriber>, x: Subscriber, h: int)
    ensures Erase(seen + [x], h) == if x.handle == h then Erase(seen, h) else Erase(seen, h) + [x]
  {
    assert (seen + [x])[..|seen|] == seen;
    assert Erase(seen, h) + [] == Erase(seen, h);
  }

  lemma SplitAppend(seen: seq<Subscriber>, x: Subscriber, who: Who, n: Notice)
    ensures Kept(seen + [x], who) == if Matches(who, x) then Kept(seen, who) else Kept(seen, who) + [x]
    ensures var told := Notices(n, Chosen(seen, who));
            Notices(n, Chosen(seen + [x], who)) == if Matches(who, x) then told + [EntryFor(n, x.handle)] else told
  {
    WalkKept(seen + [x], |seen|, who);
    WalkChosen(seen + [x], |seen|, who, n);
    assert (seen + [x])[..|seen|] == seen && (seen + [x])[..|seen| + 1] == seen + [x];
  }

  /** Erasing or passing the element that a walk stands on. */
  lemma WalkOn(front: seq<Subscriber>, ahead: seq<Subscriber>)
    requires ahead != []
    ensures (front + ahead)[|front|] == ahead[0]
    ensures (front + ahead)[..|front|] + (front + ahead)[|front| + 1..] == front + ahead[1..]
    ensures front + ahead == (front + [ahead[0]]) + ahead[1..]
  {
  }

  lemma WalkOver(front: seq<Subscriber>, ahead: seq<Subscriber>)
    requires |front + ahead| <= |front|
    ensures ahead == [] && forall s: seq<Subscriber> :: s + ahead == s
  {
  }

  lemma {:induction false} SplitDistinct(subs: seq<Subscriber>, who: Who)
    requires Distinct(subs)
    ensures Distinct(Chosen(subs, who)) && Distinct(Kept(subs, who))
  {
    if subs != [] {
      var rest, last := subs[..|subs| - 1], subs[|subs| - 1];
      SplitDistinct(rest, who);
      SplitSpec(rest, who);
      AppendDistinct(Chosen(rest, who), rest, last);
      AppendDistinct(Kept(rest, who), rest, last);
    }
  }

  lemma AppendDistinct(part: seq<Subscriber>, all: seq<Subscriber>, x: Subscriber)
    requires Distinct(part) && (forall y | y in part :: y in all) && (forall y | y in all :: y.handle != x.handle)
    ensures Distinct(part + [x])
  {
    forall i, j | 0 <= i < j < |part + [x]| ensures (part + [x])[i].handle != (part + [x])[j].handle {
      assert part[i] in part;
    }
  }

  lemma {:induction false} ChooseAll(subs: seq<Subscriber>)
    ensures Chosen(subs, All) == subs && Kept(subs, All) == []
  {
    if subs != [] {
      ChooseAll(subs[..|subs| - 1]);
    }
  }

  lemma {:induction false} EraseSpec(subs: seq<Subscriber>, h: int)
    requires Distinct(subs)
    ensures forall x :: x in Erase(subs, h) <==> x in subs && x.handle != h
    ensures Distinct(Erase(subs, h))
    ensures |Erase(subs, h)| == |subs| - if Listed(subs, h) then 1 else 0
  {
    if subs != [] {
      var rest, last := subs[..|subs| - 1], subs[|subs| - 1];
      EraseSpec(rest, h);
      assert subs == rest + [last];
      AppendDistinct(Erase(rest, h), rest, last);
      assert last.handle == h ==> !Listed(rest, h);
      assert Listed(subs, h) <==> Listed(rest, h) || last.handle == h by {
        assert last in subs;
      }
    }
  }

  lemma FindListed(subs: seq<Subscriber>, h: int)
    ensures Find(subs, h) < |subs| <==> Listed(subs, h)
  {
    if Find(subs, h) < |subs| {
      assert subs[Find(subs, h)] in subs;
    }
  }

  // ---------- the shape of the machine ----------

  ghost predicate WaitOk(subs: seq<Subscriber>) {
    Distinct(subs) && forall x | x in subs && x.inactive :: x.waitForClose
  }

  /** Every run without a modem restart. */
  ghost predicate Shape(m: Machine) {
    && WaitOk(m.subs)
    && (m.state.Released? <==> m.subs == [])
    && (m.state.Pending? || m.state.Acquired? ==> AnyActive(m.subs))
    && (m.state.Releasing? ==> AnyInactive(m.subs))
  }

  /** Every run. */
  ghost predicate WeakShape(m: Machine) {
    WaitOk(m.subs) && (m.state.Released? ==> m.subs == [])
  }

  lemma AddShape(m: Machine, x: Subscriber)
    requires WaitOk(m.subs) && !x.inactive
    ensures WaitOk(Add(m, x).subs) && Listed(Add(m, x).subs, x.handle)
    ensures forall y | y in m.subs :: y in Add(m, x).subs
    ensures m.subs == [] ==> AnyActive(Add(m, x).subs)
    ensures Add(m, x).subs != []
  {
    if !Listed(m.subs, x.handle) {
      AppendDistinct(m.subs, m.subs, x);
      assert x in m.subs + [x];
    }
  }

  lemma WaitingShape(subs: seq<Subscriber>, i: nat)
    requires WaitOk(subs) && i < |subs| && subs[i].waitForClose
    ensures var l := subs[i := subs[i].(inactive := true)];
            WaitOk(l) && AnyInactive(l)
  {
    var l := subs[i := subs[i].(inactive := true)];
    assert l[i] in l;
    assert forall y | y in l :: y == l[i] || y in subs;
  }

  lemma ErasedShape(subs: seq<Subscriber>, x: Subscriber)
    requires WaitOk(subs) && x in subs && !x.waitForClose
    ensures var l := Erase(subs, x.handle);
            WaitOk(l) && (AnyInactive(subs) ==> AnyInactive(l))
  {
    var l := Erase(subs, x.handle);
    EraseSpec(subs, x.handle);
    if AnyInactive(subs) {
      var y :| y in subs && y.inactive;
      SameHandle(subs, x, y);
      assert y in l;
    }
  }

  lemma LeaveShape(m: Machine, i: nat)
    requires WaitOk(m.subs) && i < |m.subs|
    ensures var l := Leave(m, i).subs;
            && WaitOk(l)
            && (AnyInactive(m.subs) ==> AnyInactive(l))
            && (l != [] && !AnyActive(l) ==> AnyInactive(l))
  {
    var x, l := m.subs[i], Leave(m, i).subs;
    if x.waitForClose {
      WaitingShape(m.subs, i);
    } else {
      ErasedShape(m.subs, x);
    }
    if l != [] {
      assert l[0] in l;
    }
  }

  lemma SameHandle(subs: seq<Subscriber>, x: Subscriber, y: Subscriber)
    requires Distinct(subs) && x in subs && y in subs
    ensures x.handle == y.handle ==> x == y
  {
  }

  lemma KeptShape(subs: seq<Subscriber>)
    requires WaitOk(subs)
    ensures var k := Kept(subs, Inactive);
            WaitOk(k) && (k == [] <==> !AnyActive(k))
  {
    SplitSpec(subs, Inactive);
    SplitDistinct(subs, Inactive);
    var k := Kept(subs, Inactive);
    if k != [] {
      assert k[0] in k && !k[0].inactive;
    }
  }

  lemma FinishShape(m: Machine)
    requires WaitOk(m.subs)
    ensures Shape(FinishRelease(m))
  {
    KeptShape(m.subs);
  }

  lemma UnsubscribeShape(m: Machine, h: int)
    requires WeakShape(m) && Find(m.subs, h) < |m.subs|
    ensures WeakShape(OnUnsubscribe(m, h)) && (Shape(m) ==> Shape(OnUnsubscribe(m, h)))
  {
    LeaveShape(m, Find(m.subs, h));
  }

  lemma SubscribeShape(m: Machine, x: Subscriber)
    requires WeakShape(m) && !x.inactive
    ensures WeakShape(OnSubscribe(m, x)) && (Shape(m) ==> Shape(OnSubscribe(m, x)))
  {
    AddShape(m, x);
    assert OnSubscribe(m, x).subs == Add(m, x).subs;
  }

  lemma ReleaseShape(m: Machine)
    requires WeakShape(m)
    ensures WeakShape(OnRelease(m)) && (Shape(m) ==> Shape(OnRelease(m)))
  {
    match m.state
    case Releasing => FinishShape(m);
    case Acquired => ChooseAll(m.subs);
    case _ =>
  }

  lemma DenyShape(m: Machine)
    requires WeakShape(m)
    ensures WeakShape(OnDeny(m)) && (Shape(m) ==> Shape(OnDeny(m)))
  {
    match m.state
    case Releasing => FinishShape(m);
    case Pending => ChooseAll(m.subs);
    case _ =>
  }

  lemma StepShape(m: Machine, e: Event)
    requires WeakShape(m)
    ensures WeakShape(Step(m, e))
    ensures Shape(m) && !e.Restart? ==> Shape(Step(m, e))
  {
    match e
    case Subscribe(h, wait) => SubscribeShape(m, Subscriber(h, wait, false));
    case Unsubscribe(h) =>
      if Find(m.subs, h) < |m.subs| {
        UnsubscribeShape(m, h);
      }
    case Grant =>
    case Release => ReleaseShape(m);
    case Deny => DenyShape(m);
    case Restart =>
  }

  // ---------- what the log says ----------

  predicate IsTerminal(e: Entry) {
    e.OpenFailed? || e.Closed?
  }

  function Terminals(log: seq<Entry>): nat {
    if log == [] then 0
    else Terminals(log[..|log| - 1]) + if IsTerminal(log[|log| - 1]) then 1 else 0
  }

  /** Requests of a handle since it was last told that its connection failed or closed. */
  function RequestsSince(log: seq<Entry>, h: int): nat {
    if log == [] then 0
    else
      var (rest, e) := (log[..|log| - 1], log[|log| - 1]);
      if IsTerminal(e) && e.handle == h then 0
      else RequestsSince(rest, h) + if e == Requested(h) then 1 else 0
  }

  function GrantsSince(log: seq<Entry>, h: int): nat {
    if log == [] then 0
    else
      var (rest, e) := (log[..|log| - 1], log[|log| - 1]);
      if IsTerminal(e) && e.handle == h then 0
      else GrantsSince(rest, h) + if e == Opened(h) then 1 else 0
  }

  datatype Conn = Free | Outstanding | Broken

  /** Whether a data connection is outstanding; Broken if a request was made while one was,
      or a release or loss happened while none was. */
  function ConnAfter(log: seq<Entry>): Conn {
    if log == [] then Free
    else
      var (rest, e) := (log[..|log| - 1], log[|log| - 1]);
      match e
      case ConnRequest => if ConnAfter(rest).Free? then Outstanding else Broken
      case ConnRelease => if ConnAfter(rest).Outstanding? then Free else Broken
      case ConnLost => if ConnAfter(rest).Outstanding? then Free else Broken
      case _ => ConnAfter(rest)
  }

  lemma LogAppend(log: seq<Entry>, e: Entry)
    ensures (log + [e])[..|log + [e]| - 1] == log
  {
  }

  lemma ListedLast(subs: seq<Subscriber>, h: int)
    requires subs != []
    ensures Listed(subs, h) <==> Listed(subs[..|subs| - 1], h) || subs[|subs| - 1].handle == h
  {
    var rest, last := subs[..|subs| - 1], subs[|subs| - 1];
    assert subs == rest + [last] && last in subs;
  }

  lemma {:induction false} TerminalBatch(log: seq<Entry>, n: Notice, subs: seq<Subscriber>, h: int)
    requires !n.GrantedNotice?
    ensures var l := log + Notices(n, subs);
            && RequestsSince(l, h) == (if Listed(subs, h) then 0 else RequestsSince(log, h))
            && GrantsSince(l, h) == (if Listed(subs, h) then 0 else GrantsSince(log, h))
            && Terminals(l) == Terminals(log) + |subs|
            && ConnAfter(l) == ConnAfter(log)
  {
    if subs == [] {
      assert log + [] == log;
    } else {
      var rest, last := subs[..|subs| - 1], subs[|subs| - 1];
      TerminalBatch(log, n, rest, h);
      assert log + Notices(n, subs) == log + Notices(n, rest) + [EntryFor(n, last.handle)];
      LogAppend(log + Notices(n, rest), EntryFor(n, last.handle));
      ListedLast(subs, h);
    }
  }

  lemma {:induction false} GrantBatch(log: seq<Entry>, subs: seq<Subscriber>, h: int)
    requires Distinct(subs)
    ensures var l := log + Notices(GrantedNotice, subs);
            && RequestsSince(l, h) == RequestsSince(log, h)
            && GrantsSince(l, h) == GrantsSince(log, h) + (if Listed(subs, h) then 1 else 0)
            && Terminals(l) == Terminals(log)
            && ConnAfter(l) == ConnAfter(log)
  {
    if subs == [] {
      assert log + [] == log;
    } else {
      var rest, last := subs[..|subs| - 1], subs[|subs| - 1];
      GrantBatch(log, rest, h);
      assert log + Notices(GrantedNotice, subs) == log + Notices(GrantedNotice, rest) + [Opened(last.handle)];
      LogAppend(log + Notices(GrantedNotice, rest), Opened(last.handle));
      ListedLast(subs, h);
      assert Listed(rest, h) ==> last.handle != h;
    }
  }
}
