/** Network-initiated requests are conserved. */
module NiSafety {
  import opened Options
  import opened TimeOrder
  import opened NiRequests

  // ---------- where a raw request is ----------

  function RawsOf(replies: seq<Reply>): multiset<Raw> {
    if replies == [] then multiset{} else RawsOf(replies[..|replies| - 1]) + RawSet(replies[|replies| - 1].raw)
  }

  lemma {:induction false} RawsOfJoin(a: seq<Reply>, b: seq<Reply>)
    ensures RawsOf(a + b) == RawsOf(a) + RawsOf(b)
    decreases |b|
  {
    if b == [] {
      assert a + b == a;
    } else {
      assert (a + b)[..|a + b| - 1] == a + b[..|b| - 1];
      RawsOfJoin(a, b[..|b| - 1]);
    }
  }

  lemma RawsOfOne(reply: Reply)
    ensures RawsOf([reply]) == RawSet(reply.raw)
  {
    assert [reply][..0] == [];
  }

  lemma RawsOfAppend(a: seq<Reply>, reply: Reply)
    ensures RawsOf(a + [reply]) == RawsOf(a) + RawSet(reply.raw)
  {
    RawsOfJoin(a, [reply]);
    RawsOfOne(reply);
  }

  lemma RawsOfMiddle(l: seq<Reply>, reply: Reply, r: seq<Reply>)
    ensures RawsOf(l + ([reply] + r)) == RawsOf(l) + (RawSet(reply.raw) + RawsOf(r))
  {
    RawsOfJoin(l, [reply] + r);
    RawsOfJoin([reply], r);
    RawsOfOne(reply);
  }

  lemma TakeOutOfSum(l: multiset<Raw>, x: multiset<Raw>, r: multiset<Raw>)
    ensures l + (x + r) == (l + r) + x
  {
  }

  lemma CutOut(a: seq<Reply>, i: nat)
    requires i < |a|
    ensures a == a[..i] + ([a[i]] + a[i + 1..])
  {
  }

  lemma RawsOfRemove(a: seq<Reply>, i: nat)
    requires i < |a|
    ensures RawsOf(a) == RawsOf(a[..i] + a[i + 1..]) + RawSet(a[i].raw)
  {
    var l, r := a[..i], a[i + 1..];
    calc {
      RawsOf(a);
      { CutOut(a, i); }
      RawsOf(l + ([a[i]] + r));
      { RawsOfMiddle(l, a[i], r); }
      RawsOf(l) + (RawSet(a[i].raw) + RawsOf(r));
      { TakeOutOfSum(RawsOf(l), RawSet(a[i].raw), RawsOf(r)); }
      (RawsOf(l) + RawsOf(r)) + RawSet(a[i].raw);
      { RawsOfJoin(l, r); }
      RawsOf(l + r) + RawSet(a[i].raw);
    }
  }

  /** What a session and its waiters hold. */
  function Held(x: Session): multiset<Raw> {
    RawSet(x.raw) + RawsOf(x.tails)
  }

  function Total(a: multiset<Raw>, b: multiset<Raw>, c: multiset<Raw>, d: multiset<Raw>, e: multiset<Raw>): multiset<Raw> {
    a + b + c + d + e
  }

  lemma TotalGrows(a: multiset<Raw>, b: multiset<Raw>, c: multiset<Raw>, d: multiset<Raw>, e: multiset<Raw>, x: multiset<Raw>)
    ensures Total(a + x, b, c, d, e) == Total(a, b, c, d, e) + x
    ensures Total(a, b + x, c, d, e) == Total(a, b, c, d, e) + x
    ensures Total(a, b, c + x, d, e) == Total(a, b, c, d, e) + x
    ensures Total(a, b, c, d + x, e) == Total(a, b, c, d, e) + x
    ensures Total(a, b, c, d, e + x) == Total(a, b, c, d, e) + x
  {
  }

  /** Each accepted request is in one place: with a session, on its way, sent or freed. */
  predicate Conserved(s: Ni) {
    s.accepted == Total(Held(s.normal), Held(s.es), RawsOf(s.queue), RawsOf(s.sent), s.ignored)
  }

  /** Each request from the network was accepted, refused or found no client. */
  predicate Offered(s: Ni) {
    s.offered == s.accepted + s.refused + s.unclaimed
  }

  /** Waiters and requests: one undecided waiter for the request at hand and one for each
      request without data that no decision has used up. */
  predicate WaitersOk(x: Session) {
    && x.undecided + x.empties == x.nulls + (if x.raw.Some? then 1 else 0)
    && x.empties <= x.nulls
  }

  predicate Inv(s: Ni) {
    Conserved(s) && Offered(s) && WaitersOk(s.normal) && WaitersOk(s.es)
  }

  lemma AcceptingHolds(x: Session, data: Option<Raw>, id: nat, serial: nat)
    requires WaitersOk(x) && x.raw.None?
    ensures var y := Accepting(x, data, id, serial); Held(y) == Held(x) + RawSet(data) && WaitersOk(y)
  {
  }

  lemma NotifyKeeps(s: Ni, emergency: bool, data: Option<Raw>, hasClient: bool)
    requires Inv(s)
    ensures Inv(DoNotify(s, emergency, data, hasClient))
  {
    OfferedGrows(s.accepted, s.refused, s.unclaimed, RawSet(data));
    if hasClient && !InProgress(s, emergency) {
      AcceptingHolds(Get(s, emergency), data, (s.counter + 1) % TWO_32, s.serials + 1);
      TotalGrows(Held(s.normal), Held(s.es), RawsOf(s.queue), RawsOf(s.sent), s.ignored, RawSet(data));
    }
  }

  lemma OfferedGrows(a: multiset<Raw>, r: multiset<Raw>, u: multiset<Raw>, x: multiset<Raw>)
    ensures (a + r + u) + x == (a + x) + r + u
    ensures (a + r + u) + x == a + (r + x) + u
    ensures (a + r + u) + x == a + r + (u + x)
  {
  }

  lemma RespondKeeps(s: Ni, id: nat, resp: Response, hasClient: bool)
    requires Inv(s)
    ensures Inv(DoRespond(s, id, resp, hasClient))
  {
  }

  lemma SetKeeps(s: Ni)
    requires Inv(s) && s.pc != []
    ensures Inv(DoSet(s))
  {
  }

  lemma InformMoves(queue: seq<Reply>, sent: seq<Reply>)
    requires queue != []
    ensures RawsOf(queue) == RawsOf(queue[1..]) + RawSet(queue[0].raw)
    ensures RawsOf(sent + [queue[0]]) == RawsOf(sent) + RawSet(queue[0].raw)
  {
    RawsOfRemove(queue, 0);
    assert queue[..0] + queue[1..] == queue[1..];
    RawsOfAppend(sent, queue[0]);
  }

  lemma InformKeeps(s: Ni)
    requires Inv(s) && s.queue != []
    ensures Inv(DoInform(s))
  {
    InformMoves(s.queue, s.sent);
    TotalGrows(Held(s.normal), Held(s.es), RawsOf(s.queue[1..]), RawsOf(s.sent), s.ignored, RawSet(s.queue[0].raw));
  }

  lemma DecidedHolds(x: Session, timedOut: bool)
    requires WaitersOk(x) && x.undecided > 0
    ensures
      var y := Decided(x, timedOut);
      && WaitersOk(y)
      && if y.resp.Ignore? then Held(x) == Held(y) + RawSet(x.raw) else Held(y) == Held(x)
  {
    RawsOfAppend(x.tails, Decided(x, timedOut).tails[|x.tails|]);
  }

  lemma DecideKeeps(s: Ni, es: bool, timedOut: bool)
    requires Inv(s) && Get(s, es).undecided > 0
    ensures Inv(DoDecide(s, es, timedOut))
  {
    DecidedHolds(Get(s, es), timedOut);
    var t := DoDecide(s, es, timedOut);
    TotalGrows(Held(t.normal), Held(t.es), RawsOf(s.queue), RawsOf(s.sent), s.ignored, RawSet(Get(s, es).raw));
  }

  lemma TailHolds(s: Ni, es: bool, which: nat)
    requires which < |Get(s, es).tails|
    ensures
      var t := DoTail(s, es, which);
      var raw := RawSet(Get(s, es).tails[which].raw);
      Held(Get(s, es)) == Held(Get(t, es)) + raw && RawsOf(t.queue) == RawsOf(s.queue) + raw
  {
    RawsOfRemove(Get(s, es).tails, which);
    RawsOfAppend(s.queue, Get(s, es).tails[which]);
  }

  lemma TailKeeps(s: Ni, es: bool, which: nat)
    requires Inv(s) && which < |Get(s, es).tails|
    ensures Inv(DoTail(s, es, which))
  {
    TailHolds(s, es, which);
    var t := DoTail(s, es, which);
    TotalGrows(Held(t.normal), Held(t.es), RawsOf(s.queue), RawsOf(s.sent), s.ignored, RawSet(Get(s, es).tails[which].raw));
  }

  lemma StepKeeps(s: Ni, step: Step)
    requires Inv(s) && Enabled(s, step)
    ensures Inv(Do(s, step))
  {
    match step
    case Notify(emergency, data, hasClient) => NotifyKeeps(s, emergency, data, hasClient);
    case Respond(id, resp, hasClient) => RespondKeeps(s, id, resp, hasClient);
    case Set => SetKeeps(s);
    case Inform => InformKeeps(s);
    case Decide(es, timedOut) => DecideKeeps(s, es, timedOut);
    case Tail(es, which) => TailKeeps(s, es, which);
  }

  lemma {:induction false} RunKeeps(s: Ni, steps: seq<Step>)
    requires Inv(s) && Run(s, steps).Some?
    ensures Inv(Run(s, steps).value)
    decreases |steps|
  {
    if steps != [] {
      StepKeeps(s, steps[0]);
      RunKeeps(Do(s, steps[0]), steps[1..]);
    }
  }

  /** A request at hand has an undecided waiter; beyond that one there are as many as
      requests came without data and no decision has used up: none, if all had data. */
  predicate Attended(x: Session) {
    && x.empties <= x.nulls
    && x.undecided == (if x.raw.Some? then 1 else 0) + (x.nulls - x.empties)
  }

  /** In every interleaving each accepted request is in exactly one place, and a request
      in a session has a waiter that will dispose of it. */
  lemma RequestsAreConserved(steps: seq<Step>)
    requires Run(INITIAL, steps).Some?
    ensures
      var s := Run(INITIAL, steps).value;
      Conserved(s) && Offered(s) && Attended(s.normal) && Attended(s.es)
  {
    RunKeeps(INITIAL, steps);
  }

  /** Once all waiters are done and all messages processed, every accepted request has
      been sent or freed, exactly once. */
  lemma AllAreDisposedOf(steps: seq<Step>)
    requires Run(INITIAL, steps).Some?
    requires
      var s := Run(INITIAL, steps).value;
      s.queue == [] && forall es: bool :: Get(s, es).undecided == 0 && Get(s, es).tails == []
    ensures
      var s := Run(INITIAL, steps).value;
      s.accepted == RawsOf(s.sent) + s.ignored
  {
    RunKeeps(INITIAL, steps);
    var s := Run(INITIAL, steps).value;
    assert Get(s, true) == s.es && Get(s, false) == s.normal;
  }
}
