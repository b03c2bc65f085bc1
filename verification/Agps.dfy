/** The AGPS data-connection machine of gps/gnss/Agps.cpp (base AgpsStateMachine) as a value.

    The log records, in order, the requests that reach the machine, the callbacks it makes
    and the loss of a connection that it did not release itself.
 */
module Agps {
  datatype AgpsState = Released | Pending | Acquired | Releasing

  datatype Subscriber = Subscriber(handle: int, waitForClose: bool, inactive: bool)

  datatype Entry =
    | Requested(handle: int)     // subscribe event
    | Opened(handle: int)        // open status, success
    | OpenFailed(handle: int)    // open status, failure
    | Closed(handle: int)        // close status, success
    | ConnRequest                // data connection requested from the framework
    | ConnRelease                // data connection released to the framework
    | ConnLost                   // denied while pending, or released by force while acquired

  datatype Machine = Machine(state: AgpsState, subs: seq<Subscriber>, log: seq<Entry>, added: nat)

  const INITIAL := Machine(Released, [], [], 0)

  datatype Event = Subscribe(handle: int, waitForClose: bool) | Unsubscribe(handle: int) | Grant | Release | Deny | Restart

  // ---------- the subscriber list ----------

  datatype Who = All | Inactive | Active

  predicate Matches(who: Who, s: Subscriber) {
    who.All? || (who.Inactive? && s.inactive) || (who.Active? && !s.inactive)
  }

  function Chosen(subs: seq<Subscriber>, who: Who): seq<Subscriber> {
    if subs == [] then []
    else
      var (rest, last) := (subs[..|subs| - 1], subs[|subs| - 1]);
      Chosen(rest, who) + if Matches(who, last) then [last] else []
  }

  function Kept(subs: seq<Subscriber>, who: Who): seq<Subscriber> {
    if subs == [] then []
    else
      var (rest, last) := (subs[..|subs| - 1], subs[|subs| - 1]);
      Kept(rest, who) + if Matches(who, last) then [] else [last]
  }

  /** The position of the first subscriber with a handle, |subs| if there is none. */
  function Find(subs: seq<Subscriber>, h: int): (i: nat)
    ensures i <= |subs| && (i < |subs| ==> subs[i].handle == h)
    ensures forall j | 0 <= j < i :: subs[j].handle != h
  {
    if subs == [] then 0 else if subs[0].handle == h then 0 else 1 + Find(subs[1..], h)
  }

  predicate Listed(subs: seq<Subscriber>, h: int) {
    exists x :: x in subs && x.handle == h
  }

  predicate AnyActive(subs: seq<Subscriber>) {
    exists x :: x in subs && !x.inactive
  }

  predicate AnyInactive(subs: seq<Subscriber>) {
    exists x :: x in subs && x.inactive
  }

  function Erase(subs: seq<Subscriber>, h: int): seq<Subscriber> {
    if subs == [] then []
    else
      var (rest, last) := (subs[..|subs| - 1], subs[|subs| - 1]);
      Erase(rest, h) + if last.handle == h then [] else [last]
  }

  function Add(m: Machine, x: Subscriber): Machine {
    if Listed(m.subs, x.handle) then m else m.(subs := m.subs + [x], added := m.added + 1)
  }

  // ---------- notifications ----------

  datatype Notice = GrantedNotice | DeniedNotice | ClosedNotice

  function EntryFor(n: Notice, h: int): Entry {
    match n
    case GrantedNotice => Opened(h)
    case DeniedNotice => OpenFailed(h)
    case ClosedNotice => Closed(h)
  }

  function Notices(n: Notice, subs: seq<Subscriber>): seq<Entry> {
    if subs == [] then []
    else Notices(n, subs[..|subs| - 1]) + [EntryFor(n, subs[|subs| - 1].handle)]
  }

  function NotifyAll(m: Machine, n: Notice, delete: bool, who: Who): Machine {
    m.(log := m.log + Notices(n, Chosen(m.subs, who)),
       subs := if delete then Kept(m.subs, who) else m.subs)
  }

  // ---------- events ----------

  function OnSubscribe(m0: Machine, x: Subscriber): Machine {
    var m := m0.(log := m0.log + [Requested(x.handle)]);
    match m.state
    case Released =>
      var a := Add(m, x);
      a.(state := Pending, log := a.log + [ConnRequest])
    case Pending => Add(m, x)
    case Acquired => Add(m.(log := m.log + [Opened(x.handle)]), x)
    case Releasing => Add(m, x)
  }

  /** The subscriber becomes inactive, or is told and leaves. */
  function Leave(m: Machine, i: nat): Machine
    requires i < |m.subs|
  {
    var x := m.subs[i];
    if x.waitForClose then m.(subs := m.subs[i := x.(inactive := true)])
    else m.(subs := Erase(m.subs, x.handle), log := m.log + [Closed(x.handle)])
  }

  function OnUnsubscribe(m: Machine, h: int): Machine
    requires Find(m.subs, h) < |m.subs|
  {
    var i := Find(m.subs, h);
    match m.state
    case Released => m.(log := m.log + [Closed(h)])
    case Releasing =>
      var l := Leave(m, i);
      if l.subs == [] then l.(state := Released) else l
    case _ =>
      var l := Leave(m, i);
      if l.subs == [] then l.(state := Released, log := l.log + [ConnRelease])
      else if !AnyActive(l.subs) then l.(state := Releasing, log := l.log + [ConnRelease])
      else l
  }

  function OnGrant(m: Machine): Machine {
    if m.state.Pending? then NotifyAll(m.(state := Acquired), GrantedNotice, false, Active) else m
  }

  /** The old connection is gone: inactive subscribers leave, the others want a new one. */
  function FinishRelease(m: Machine): Machine {
    var l := NotifyAll(m, ClosedNotice, true, Inactive);
    if AnyActive(l.subs) then l.(state := Pending, log := l.log + [ConnRequest])
    else l.(state := Released)
  }

  function OnRelease(m: Machine): Machine {
    match m.state
    case Acquired => NotifyAll(m.(state := Released, log := m.log + [ConnLost]), ClosedNotice, true, All)
    case Releasing => FinishRelease(m)
    case _ => m
  }

  function OnDeny(m: Machine): Machine {
    match m.state
    case Releasing => FinishRelease(m)
    case Pending => NotifyAll(m.(state := Released, log := m.log + [ConnLost]), DeniedNotice, true, All)
    case _ => m
  }

  /** dropAllSubscribers, on a modem restart. */
  function OnRestart(m: Machine): Machine {
    m.(subs := [])
  }

  /** An unsubscribe for a handle that is not listed never reaches the machine. */
  function Step(m: Machine, e: Event): Machine {
    match e
    case Subscribe(h, wait) => OnSubscribe(m, Subscriber(h, wait, false))
    case Unsubscribe(h) => if Find(m.subs, h) < |m.subs| then OnUnsubscribe(m, h) else m
    case Grant => OnGrant(m)
    case Release => OnRelease(m)
    case Deny => OnDeny(m)
    case Restart => OnRestart(m)
  }

  function Run(m: Machine, es: seq<Event>): Machine
    decreases |es|
  {
    if es == [] then m else Run(Step(m, es[0]), es[1..])
  }
}
