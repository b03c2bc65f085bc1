/** Whether a waiter decides on the answer to its own request, and whether a request can
    be answered at all. Both fail in some interleavings; here is exactly when. */
module NiTheorems {
  import opened Options
  import opened TimeOrder
  import opened NiRequests

  lemma RunFirst(s: Ni, step: Step, rest: seq<Step>)
    requires Enabled(s, step)
    ensures Run(s, [step] + rest) == Run(Do(s, step), rest)
  {
    assert ([step] + rest)[1..] == rest;
  }

  lemma {:induction false} RunAppend(s: Ni, xs: seq<Step>, ys: seq<Step>)
    requires Run(s, xs).Some?
    ensures Run(s, xs + ys) == Run(Run(s, xs).value, ys)
    decreases |xs|
  {
    if xs == [] {
      assert xs + ys == ys;
    } else {
      assert (xs + ys)[1..] == xs[1..] + ys;
      RunAppend(Do(s, xs[0]), xs[1..], ys);
    }
  }

  // ---------- answers ----------

  /** A response recorded on time answers the request at hand; one recorded late, an
      earlier one. */
  predicate AnswerOk(x: Session) {
    x.respRecvd ==>
      && x.answers <= x.serial
      && (!x.late ==> x.raw.Some? && x.answers == x.serial)
      && (x.late && x.raw.Some? ==> x.answers < x.serial)
  }

  /** A waiter that sends a user's response sends the answer to its own request iff that
      answer was recorded on time. */
  predicate OwnAnswersIff(replies: seq<Reply>) {
    forall i | 0 <= i < |replies| ::
      replies[i].raw.Some? && replies[i].answers.Some? ==>
        (replies[i].answers.value == replies[i].request <==> !replies[i].late)
  }

  predicate SerialsOk(s: Ni) {
    && s.normal.serial <= s.serials && s.es.serial <= s.serials
    && forall i | 0 <= i < |s.pc| :: s.pc[i].serial <= Get(s, s.pc[i].es).serial
  }

  predicate AnswersOk(s: Ni) {
    && SerialsOk(s) && AnswerOk(s.normal) && AnswerOk(s.es)
    && OwnAnswersIff(s.normal.tails) && OwnAnswersIff(s.es.tails) && OwnAnswersIff(s.queue) && OwnAnswersIff(s.sent)
  }

  lemma StepKeepsSerials(s: Ni, step: Step)
    requires SerialsOk(s) && Enabled(s, step)
    ensures SerialsOk(Do(s, step))
  {
    match step
    case Notify(emergency, data, hasClient) => NotifyKeepsSerials(s, emergency, data, hasClient);
    case Set => SetKeepsSerials(s);
    case _ =>
  }

  lemma NotifyKeepsSerials(s: Ni, emergency: bool, data: Option<Raw>, hasClient: bool)
    requires SerialsOk(s) && s.pc == []
    ensures SerialsOk(DoNotify(s, emergency, data, hasClient))
  {
  }

  lemma SetKeepsSerials(s: Ni)
    requires SerialsOk(s) && s.pc != []
    ensures SerialsOk(DoSet(s))
  {
    assert forall i | 0 <= i < |s.pc[1..]| :: s.pc[1..][i] == s.pc[i + 1];
  }

  lemma DropReply(replies: seq<Reply>, which: nat)
    requires OwnAnswersIff(replies) && which < |replies|
    ensures OwnAnswersIff(replies[..which] + replies[which + 1..])
  {
    var left := replies[..which] + replies[which + 1..];
    assert forall i | 0 <= i < |left| :: left[i] == replies[if i < which then i else i + 1];
  }

  lemma DecidedKeeps(x: Session, timedOut: bool)
    requires AnswerOk(x) && OwnAnswersIff(x.tails) && x.undecided > 0 && (timedOut || x.respRecvd)
    ensures var y := Decided(x, timedOut); AnswerOk(y) && OwnAnswersIff(y.tails)
  {
  }

  lemma AcceptingKeeps(x: Session, data: Option<Raw>, id: nat, serial: nat)
    requires x.raw.None? && x.serial < serial
    ensures AnswerOk(x) ==> AnswerOk(Accepting(x, data, id, serial))
  {
  }

  lemma RecordedKeeps(x: Session, resp: Response, serial: nat)
    requires serial <= x.serial
    ensures AnswerOk(Recorded(x, resp, serial))
  {
  }

  predicate SessionOk(x: Session) {
    AnswerOk(x) && OwnAnswersIff(x.tails)
  }

  lemma NotifyKeepsSession(s: Ni, emergency: bool, data: Option<Raw>, hasClient: bool, es: bool)
    requires s.normal.serial <= s.serials && s.es.serial <= s.serials && SessionOk(Get(s, es))
    ensures SessionOk(Get(DoNotify(s, emergency, data, hasClient), es))
  {
    if hasClient && !InProgress(s, emergency) && es == emergency {
      AcceptingKeeps(Get(s, es), data, (s.counter + 1) % TWO_32, s.serials + 1);
    }
  }

  lemma SetKeepsSession(s: Ni, es: bool)
    requires s.pc != [] && s.pc[0].serial <= Get(s, s.pc[0].es).serial && SessionOk(Get(s, es))
    ensures SessionOk(Get(DoSet(s), es))
  {
    if es == s.pc[0].es {
      RecordedKeeps(Get(s, es), s.pc[0].resp, s.pc[0].serial);
    }
  }

  lemma DecideKeepsSession(s: Ni, side: bool, timedOut: bool, es: bool)
    requires Enabled(s, Decide(side, timedOut)) && SessionOk(Get(s, es))
    ensures SessionOk(Get(DoDecide(s, side, timedOut), es))
  {
    if side == es {
      DecidedKeeps(Get(s, es), timedOut);
    }
  }

  lemma TailKeepsSession(s: Ni, side: bool, which: nat, es: bool)
    requires which < |Get(s, side).tails| && SessionOk(Get(s, es))
    ensures SessionOk(Get(DoTail(s, side, which), es))
  {
    if side == es {
      DropReply(Get(s, es).tails, which);
    }
  }

  /** What a step does to one session's answers. */
  lemma StepKeepsSession(s: Ni, step: Step, es: bool)
    requires SerialsOk(s) && SessionOk(Get(s, es)) && Enabled(s, step)
    ensures SessionOk(Get(Do(s, step), es))
  {
    match step
    case Notify(emergency, data, hasClient) => NotifyKeepsSession(s, emergency, data, hasClient, es);
    case Respond(_, _, _) =>
    case Set => SetKeepsSession(s, es);
    case Inform =>
    case Decide(side, timedOut) => DecideKeepsSession(s, side, timedOut, es);
    case Tail(side, which) => TailKeepsSession(s, side, which, es);
  }

  lemma StepKeepsSent(s: Ni, step: Step)
    requires OwnAnswersIff(s.normal.tails) && OwnAnswersIff(s.es.tails) && OwnAnswersIff(s.queue) && OwnAnswersIff(s.sent)
    requires Enabled(s, step)
    ensures var t := Do(s, step); OwnAnswersIff(t.queue) && OwnAnswersIff(t.sent)
  {
  }

  lemma StepKeepsAnswers(s: Ni, step: Step)
    requires AnswersOk(s) && Enabled(s, step)
    ensures AnswersOk(Do(s, step))
  {
    StepKeepsSerials(s, step);
    StepKeepsSession(s, step, false);
    StepKeepsSession(s, step, true);
    StepKeepsSent(s, step);
  }

  lemma {:induction false} RunKeepsAnswers(s: Ni, steps: seq<Step>)
    requires AnswersOk(s) && Run(s, steps).Some?
    ensures AnswersOk(Run(s, steps).value)
    decreases |steps|
  {
    if steps != [] {
      StepKeepsAnswers(s, steps[0]);
      RunKeepsAnswers(Do(s, steps[0]), steps[1..]);
    }
  }

  /** In every run, a reply to the modem that carries a user's response carries the answer to
      that very request iff it was recorded before the waiter it was meant for decided. */
  lemma RepliesAnswerTheirRequestsIff(steps: seq<Step>, reply: Reply)
    requires Run(INITIAL, steps).Some? && reply in Run(INITIAL, steps).value.sent
    requires reply.raw.Some? && reply.answers.Some?
    ensures reply.answers.value == reply.request <==> !reply.late
  {
    RunKeepsAnswers(INITIAL, steps);
  }

  lemma RunTwo(s: Ni, a: Step, b: Step)
    requires Enabled(s, a) && Enabled(Do(s, a), b)
    ensures Run(s, [a] + ([b] + [])) == Some(Do(Do(s, a), b))
  {
    RunFirst(s, a, [b] + []);
    RunFirst(Do(s, a), b, []);
  }

  lemma NextIsAccepted(s: Ni, es: bool, raw: Raw)
    requires s.es.raw.None? && s.normal.raw.None?
    ensures
      var t := DoNotify(s, es, Some(raw), true);
      Get(t, es) == Accepting(Get(s, es), Some(raw), t.counter, s.serials + 1)
  {
  }

  lemma NextIsDecided(s: Ni, es: bool, raw: Raw)
    requires s.pc == [] && s.es.raw.None? && s.normal.raw.None?
    requires var x := Get(s, es); x.respRecvd && !x.resp.Ignore?
    ensures
      var x := Get(s, es);
      var t := Run(s, [Notify(es, Some(raw), true)] + ([Decide(es, false)] + []));
      t.Some? && Get(t.value, es).tails ==
        x.tails + [Reply(Some(raw), x.resp, s.serials + 1, Some(x.answers), x.late)]
  {
    NextIsAccepted(s, es, raw);
    RunTwo(s, Notify(es, Some(raw), true), Decide(es, false));
  }

  lemma LateSet(s: Ni)
    requires s.pc != [] && Get(s, s.pc[0].es).raw.None?
    ensures
      var d := s.pc[0];
      var t := DoSet(s);
      && Get(t, d.es) == Get(s, d.es).(resp := d.resp, respRecvd := true, answers := d.serial, late := true)
      && Get(t, !d.es) == Get(s, !d.es) && t.pc == s.pc[1..] && t.serials == s.serials
  {
  }

  /** From any state where the last response comes late, the next request is answered
      with it, without its user having been heard. */
  lemma LateAnswerReachesNextRequest(s: Ni, raw: Raw)
    requires |s.pc| == 1 && !s.pc[0].resp.Ignore?
    requires s.es.raw.None? && s.normal.raw.None?
    ensures
      var es := s.pc[0].es;
      var t := Run(s, [Set] + ([Notify(es, Some(raw), true)] + ([Decide(es, false)] + [])));
      t.Some? && Get(t.value, es).tails ==
        Get(s, es).tails + [Reply(Some(raw), s.pc[0].resp, s.serials + 1, Some(s.pc[0].serial), true)]
  {
    var es := s.pc[0].es;
    LateSet(s);
    NextIsDecided(DoSet(s), es, raw);
    RunFirst(s, Set, [Notify(es, Some(raw), true)] + ([Decide(es, false)] + []));
  }

  /** Every idle state leads to such a state: the waiter times out between the check of
      the user's response and its record. */
  lemma AnswerCanComeLate(s: Ni, raw: Raw, resp: Response)
    requires s.pc == [] && s.es.raw.None? && s.normal.raw.None?
    ensures
      var id := (s.counter + 1) % TWO_32;
      var t := Run(s, [Notify(false, Some(raw), true)] + ([Respond(id, resp, true)] + ([Decide(false, true)] + [])));
      && t.Some? && t.value.pc == [Delivery(false, resp, s.serials + 1)]
      && t.value.es.raw.None? && t.value.normal.raw.None? && t.value.serials == s.serials + 1
  {
    var id := (s.counter + 1) % TWO_32;
    var notify, respond, decide := Notify(false, Some(raw), true), Respond(id, resp, true), Decide(false, true);
    RunFirst(s, notify, [respond] + ([decide] + []));
    var s1 := Do(s, notify);
    assert s1.normal.raw.Some? && s1.normal.reqId == id && s1.normal.serial == s.serials + 1 && s1.normal.undecided > 0;
    assert s1.es.raw.None? && s1.pc == [];
    RunFirst(s1, respond, [decide] + []);
    var s2 := Do(s1, respond);
    assert s2 == s1.(pc := [Delivery(false, resp, s.serials + 1)]);
    RunFirst(s2, decide, []);
  }

  /** A run from the start in which the user accepts request 1 and request 2 is accepted
      for it. */
  lemma WrongRequestIsAccepted(first: Raw, second: Raw)
    ensures
      var asked := [Notify(false, Some(first), true)] + ([Respond(1, Accept, true)] + ([Decide(false, true)] + []));
      var late := [Set] + ([Notify(false, Some(second), true)] + ([Decide(false, false)] + []));
      var t := Run(INITIAL, asked + late);
      && t.Some? && |t.value.normal.tails| > 0
      && t.value.normal.tails[|t.value.normal.tails| - 1] == Reply(Some(second), Accept, 2, Some(1), true)
  {
    var asked := [Notify(false, Some(first), true)] + ([Respond(1, Accept, true)] + ([Decide(false, true)] + []));
    var late := [Set] + ([Notify(false, Some(second), true)] + ([Decide(false, false)] + []));
    AnswerCanComeLate(INITIAL, first, Accept);
    LateAnswerReachesNextRequest(Run(INITIAL, asked).value, second);
    RunAppend(INITIAL, asked, late);
  }

  /** Accepting an emergency request makes the waiter of an ordinary one free its request
      without a reply, whatever the user has said about it. */
  lemma EmergencyDropsOrdinary(s: Ni)
    requires s.pc == [] && s.es.raw.Some? && s.normal.raw.Some? && s.normal.undecided > 0
    ensures
      var t := Run(s, [Respond(s.es.reqId, Accept, true)] + ([Set] + ([Decide(false, false)] + [])));
      && t.Some? && t.value.normal.raw.None? && t.value.ignored == s.ignored + multiset{s.normal.raw.value}
      && t.value.es == s.es && t.value.pc == [Delivery(true, Accept, s.es.serial)]
      && |t.value.normal.tails| > 0 && t.value.normal.tails[|t.value.normal.tails| - 1].raw.None?
  {
    var respond, decide := Respond(s.es.reqId, Accept, true), Decide(false, false);
    RunFirst(s, respond, [Set] + ([decide] + []));
    var s1 := Do(s, respond);
    assert s1 == s.(pc := [Delivery(false, Ignore, s.normal.serial), Delivery(true, Accept, s.es.serial)]);
    RunFirst(s1, Set, [decide] + []);
    var s2 := Do(s1, Set);
    assert s2.pc == [Delivery(true, Accept, s.es.serial)] && s2.normal.resp == Ignore && s2.normal.respRecvd;
    assert s2.es == s.es && s2.normal.raw == s.normal.raw && s2.ignored == s.ignored;
    RunFirst(s2, decide, []);
  }

  // ---------- ids ----------

  /** A request at hand has the id that was given out for it, unless a waiter has cleared
      the session since. */
  predicate IdOk(x: Session) {
    x.raw.Some? ==> x.reqId == if x.cleared then 0 else x.givenId
  }

  lemma {:induction false} RunKeepsIds(s: Ni, steps: seq<Step>)
    requires IdOk(s.normal) && IdOk(s.es) && Run(s, steps).Some?
    ensures var t := Run(s, steps).value; IdOk(t.normal) && IdOk(t.es)
    decreases |steps|
  {
    if steps != [] {
      RunKeepsIds(Do(s, steps[0]), steps[1..]);
    }
  }

  /** A response given under the id of the request in a session is passed on to it. */
  predicate Reaches(s: Ni, es: bool, resp: Response) {
    Delivery(es, resp, Get(s, es).serial) in DoRespond(s, Get(s, es).givenId, resp, true).pc
  }

  /** In every reachable state between messages a request can be answered under its id iff no
      waiter has cleared the session since it was accepted (or its id is 0, after 2^32
      requests), and, for an ordinary request, the emergency request at hand has another id. */
  lemma AnswerableIff(steps: seq<Step>, es: bool, resp: Response)
    requires Run(INITIAL, steps).Some?
    requires var s := Run(INITIAL, steps).value; s.pc == [] && Get(s, es).raw.Some?
    ensures
      var s := Run(INITIAL, steps).value;
      var x := Get(s, es);
      Reaches(s, es, resp) <==>
        && (!x.cleared || x.givenId == 0)
        && (es || s.es.raw.None? || s.es.reqId != x.givenId)
  {
    RunKeepsIds(INITIAL, steps);
  }

  /** A waiter of the session reaches its tail in the step. */
  predicate Clears(step: Step, es: bool) {
    step.Tail? && step.es == es
  }

  lemma StepClears(s: Ni, step: Step, es: bool)
    requires SerialsOk(s) && Enabled(s, step)
    ensures
      var x, y := Get(s, es), Get(Do(s, step), es);
      && x.serial <= y.serial
      && (x.serial == y.serial ==> (y.cleared <==> x.cleared || Clears(step, es)))
  {
  }

  predicate SomeClears(steps: seq<Step>, es: bool) {
    exists i :: 0 <= i < |steps| && Clears(steps[i], es)
  }

  lemma FirstClears(steps: seq<Step>, es: bool)
    requires steps != []
    ensures SomeClears(steps, es) <==> Clears(steps[0], es) || SomeClears(steps[1..], es)
  {
    if SomeClears(steps[1..], es) {
      var i :| 0 <= i < |steps[1..]| && Clears(steps[1..][i], es);
      assert Clears(steps[i + 1], es);
    }
    if SomeClears(steps, es) {
      var i :| 0 <= i < |steps| && Clears(steps[i], es);
      assert i > 0 ==> Clears(steps[1..][i - 1], es);
    }
  }

  /** The session is cleared while a request is at hand iff the tail of some waiter of the
      session runs in that time: an earlier one, since its own waiter has yet to decide. */
  lemma {:induction false} ClearedIff(s: Ni, steps: seq<Step>, es: bool)
    requires SerialsOk(s) && Run(s, steps).Some?
    ensures
      var x, y := Get(s, es), Get(Run(s, steps).value, es);
      && x.serial <= y.serial
      && (x.serial == y.serial ==> (y.cleared <==> x.cleared || SomeClears(steps, es)))
    decreases |steps|
  {
    if steps != [] {
      StepClears(s, steps[0], es);
      StepKeepsSerials(s, steps[0]);
      FirstClears(steps, es);
      ClearedIff(Do(s, steps[0]), steps[1..], es);
    }
  }

  lemma OrdinaryIsAccepted(s: Ni, raw: Raw)
    requires s.es.raw.None? && s.normal.raw.None?
    ensures
      var t := DoNotify(s, false, Some(raw), true);
      && t.normal == Accepting(s.normal, Some(raw), t.counter, s.serials + 1)
      && t.es == s.es && t.pc == s.pc && t.counter == (s.counter + 1) % TWO_32
  {
  }

  lemma TimeoutStep(s: Ni)
    requires s.normal.undecided > 0
    ensures
      var t := DoDecide(s, false, true);
      && t.pc == s.pc && t.es == s.es && t.normal.raw.None? && t.counter == s.counter
      && |t.normal.tails| == |s.normal.tails| + 1
  {
  }

  lemma TailStep(s: Ni)
    requires |s.normal.tails| > 0
    ensures
      var t := DoTail(s, false, 0);
      && t.pc == s.pc && t.es == s.es && t.normal.raw == s.normal.raw && t.normal.givenId == s.normal.givenId
      && t.normal.cleared && t.normal.reqId == 0
  {
  }

  /** An accepted request whose waiter times out leaves a waiter that has yet to clear. */
  lemma TimeoutLeavesTail(s: Ni, raw: Raw)
    requires s.pc == [] && s.es.raw.None? && s.normal.raw.None? && s.normal.tails == []
    ensures
      var t := Run(s, [Notify(false, Some(raw), true)] + ([Decide(false, true)] + []));
      && t.Some? && t.value.pc == [] && t.value.es == s.es && t.value.normal.raw.None?
      && |t.value.normal.tails| == 1 && t.value.counter == (s.counter + 1) % TWO_32
  {
    OrdinaryIsAccepted(s, raw);
    TimeoutStep(DoNotify(s, false, Some(raw), true));
    RunTwo(s, Notify(false, Some(raw), true), Decide(false, true));
  }

  /** From every such state a request can become unanswerable: the earlier waiter clears the
      session only after the new request is in it. */
  lemma TailOrphansRequest(s: Ni, raw: Raw)
    requires s.pc == [] && s.es.raw.None? && s.normal.raw.None? && |s.normal.tails| == 1
    ensures
      var t := Run(s, [Notify(false, Some(raw), true)] + ([Tail(false, 0)] + []));
      && t.Some? && t.value.pc == [] && t.value.es == s.es && t.value.normal.raw == Some(raw)
      && t.value.normal.cleared && t.value.normal.reqId == 0
      && t.value.normal.givenId == (s.counter + 1) % TWO_32
  {
    OrdinaryIsAccepted(s, raw);
    TailStep(DoNotify(s, false, Some(raw), true));
    RunTwo(s, Notify(false, Some(raw), true), Tail(false, 0));
  }

  /** A run from the start after which no response under the id 2 reaches the second request. */
  lemma SecondRequestIsOrphaned(first: Raw, second: Raw, resp: Response)
    ensures
      var one := [Notify(false, Some(first), true)] + ([Decide(false, true)] + []);
      var two := [Notify(false, Some(second), true)] + ([Tail(false, 0)] + []);
      var t := Run(INITIAL, one + two);
      && t.Some? && t.value.normal.raw == Some(second) && t.value.normal.givenId == 2
      && !Reaches(t.value, false, resp)
  {
    var one := [Notify(false, Some(first), true)] + ([Decide(false, true)] + []);
    var two := [Notify(false, Some(second), true)] + ([Tail(false, 0)] + []);
    TimeoutLeavesTail(INITIAL, first);
    TailOrphansRequest(Run(INITIAL, one).value, second);
    RunAppend(INITIAL, one, two);
  }
}
