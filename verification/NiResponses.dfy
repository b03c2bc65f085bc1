/** What a reply to the modem says: the response that the user gave, or that there was none. */
module NiResponses {
  import opened Options
  import opened TimeOrder
  import opened NiRequests

  /** The user's response in the step is to the request with serial number n: it names the id
      in the emergency session, or else the one in the ordinary session. */
  predicate Gives(s: Ni, step: Step, n: nat) {
    && step.Respond? && step.hasClient
    && if s.es.raw.Some? && step.id == s.es.reqId then n == s.es.serial
       else s.normal.raw.Some? && step.id == s.normal.reqId && n == s.normal.serial
  }

  /** The user's responses in a run, each with the request that it was given to. */
  ghost function GivenIn(s: Ni, steps: seq<Step>): set<(nat, Response)>
    decreases |steps|
  {
    if steps == [] || !Enabled(s, steps[0]) then {}
    else GivenBy(s, steps[0]) + GivenIn(Do(s, steps[0]), steps[1..])
  }

  ghost function GivenBy(s: Ni, step: Step): set<(nat, Response)> {
    if step.Respond? && step.hasClient then
      if s.es.raw.Some? && step.id == s.es.reqId then {(s.es.serial, step.resp)}
      else if s.normal.raw.Some? && step.id == s.normal.reqId then {(s.normal.serial, step.resp)}
      else {}
    else {}
  }

  lemma GivenByGives(s: Ni, step: Step, n: nat, r: Response)
    ensures (n, r) in GivenBy(s, step) <==> Gives(s, step, n) && step.resp == r
  {
  }

  // ---------- what every step keeps ----------

  /** A reply that is sent says NoResponse after a timeout, and else what the user said. */
  predicate ReplyOk(r: Reply, given: set<(nat, Response)>) {
    r.raw.Some? ==> match r.answers
                    case None => r.resp.NoResponse?
                    case Some(n) => (n, r.resp) in given
  }

  predicate RepliesOk(replies: seq<Reply>, given: set<(nat, Response)>) {
    forall i | 0 <= i < |replies| :: ReplyOk(replies[i], given)
  }

  predicate RecordOk(x: Session, given: set<(nat, Response)>) {
    (x.respRecvd ==> x.resp.Ignore? || (x.answers, x.resp) in given) && RepliesOk(x.tails, given)
  }

  predicate PassingOk(pc: seq<Delivery>, given: set<(nat, Response)>) {
    forall i | 0 <= i < |pc| :: pc[i].resp.Ignore? || (pc[i].serial, pc[i].resp) in given
  }

  predicate ResponsesOk(s: Ni, given: set<(nat, Response)>) {
    && RecordOk(s.normal, given) && RecordOk(s.es, given) && PassingOk(s.pc, given)
    && RepliesOk(s.queue, given) && RepliesOk(s.sent, given)
  }

  lemma MoreGiven(s: Ni, given: set<(nat, Response)>, more: set<(nat, Response)>)
    requires ResponsesOk(s, given)
    ensures ResponsesOk(s, given + more)
  {
  }

  lemma DecidedSays(x: Session, timedOut: bool, given: set<(nat, Response)>)
    requires RecordOk(x, given) && x.undecided > 0 && (timedOut || x.respRecvd)
    ensures RecordOk(Decided(x, timedOut), given)
  {
  }

  lemma NotifySays(s: Ni, emergency: bool, data: Option<Raw>, hasClient: bool, given: set<(nat, Response)>)
    requires ResponsesOk(s, given)
    ensures ResponsesOk(DoNotify(s, emergency, data, hasClient), given)
  {
  }

  lemma RespondSays(s: Ni, step: Step, given: set<(nat, Response)>)
    requires ResponsesOk(s, given) && step.Respond? && Enabled(s, step)
    ensures ResponsesOk(Do(s, step), given + GivenBy(s, step))
  {
    MoreGiven(s, given, GivenBy(s, step));
  }

  lemma SetSays(s: Ni, given: set<(nat, Response)>)
    requires ResponsesOk(s, given) && s.pc != []
    ensures ResponsesOk(DoSet(s), given)
  {
    assert forall i | 0 <= i < |s.pc[1..]| :: s.pc[1..][i] == s.pc[i + 1];
  }

  lemma DecideSays(s: Ni, es: bool, timedOut: bool, given: set<(nat, Response)>)
    requires ResponsesOk(s, given) && Enabled(s, Decide(es, timedOut))
    ensures ResponsesOk(DoDecide(s, es, timedOut), given)
  {
    DecidedSays(Get(s, es), timedOut, given);
  }

  lemma TailSays(s: Ni, es: bool, which: nat, given: set<(nat, Response)>)
    requires ResponsesOk(s, given) && which < |Get(s, es).tails|
    ensures ResponsesOk(DoTail(s, es, which), given)
  {
    var tails := Get(s, es).tails;
    var left := tails[..which] + tails[which + 1..];
    assert forall i | 0 <= i < |left| :: left[i] == tails[if i < which then i else i + 1];
  }

  lemma StepSays(s: Ni, step: Step, given: set<(nat, Response)>)
    requires ResponsesOk(s, given) && Enabled(s, step)
    ensures ResponsesOk(Do(s, step), given + GivenBy(s, step))
  {
    match step
    case Notify(emergency, data, hasClient) =>
      NotifySays(s, emergency, data, hasClient, given);
      assert given + {} == given;
    case Respond(_, _, _) => RespondSays(s, step, given);
    case Set =>
      SetSays(s, given);
      assert given + {} == given;
    case Inform =>
      assert given + {} == given;
    case Decide(es, timedOut) =>
      DecideSays(s, es, timedOut, given);
      assert given + {} == given;
    case Tail(es, which) =>
      TailSays(s, es, which, given);
      assert given + {} == given;
  }

  lemma {:induction false} RunSays(s: Ni, steps: seq<Step>, given: set<(nat, Response)>)
    requires ResponsesOk(s, given) && Run(s, steps).Some?
    ensures ResponsesOk(Run(s, steps).value, given + GivenIn(s, steps))
    decreases |steps|
  {
    if steps == [] {
      assert given + {} == given;
    } else {
      var t := Do(s, steps[0]);
      StepSays(s, steps[0], given);
      RunSays(t, steps[1..], given + GivenBy(s, steps[0]));
      assert given + GivenBy(s, steps[0]) + GivenIn(t, steps[1..]) == given + GivenIn(s, steps);
    }
  }

  /** Step i of the run gives response r to request n. */
  predicate GivesAt(s: Ni, steps: seq<Step>, i: nat, n: nat, r: Response) {
    && i < |steps| && Run(s, steps[..i]).Some?
    && Gives(Run(s, steps[..i]).value, steps[i], n) && steps[i].resp == r
  }

  /** Being given is being given in some step. */
  lemma {:induction false} GivenInSomeStep(s: Ni, steps: seq<Step>, n: nat, r: Response)
    requires (n, r) in GivenIn(s, steps)
    ensures exists i: nat :: GivesAt(s, steps, i, n, r)
    decreases |steps|
  {
    if (n, r) in GivenBy(s, steps[0]) {
      GivenByGives(s, steps[0], n, r);
      assert steps[..0] == [];
      assert GivesAt(s, steps, 0, n, r);
    } else {
      var t := Do(s, steps[0]);
      GivenInSomeStep(t, steps[1..], n, r);
      var i: nat :| GivesAt(t, steps[1..], i, n, r);
      assert steps[..i + 1][1..] == steps[1..][..i] && steps[..i + 1][0] == steps[0];
      assert GivesAt(s, steps, i + 1, n, r);
    }
  }

  /** In every run a reply to the modem says that there was no response if its waiter timed
      out, and otherwise exactly what the user said, in some step of the run, to the request
      whose answer was recorded. */
  lemma RepliesSayWhatUsersSaid(steps: seq<Step>, reply: Reply)
    requires Run(INITIAL, steps).Some? && reply in Run(INITIAL, steps).value.sent && reply.raw.Some?
    ensures reply.answers.None? ==> reply.resp == NoResponse
    ensures reply.answers.Some? ==> exists i: nat :: GivesAt(INITIAL, steps, i, reply.answers.value, reply.resp)
  {
    RunSays(INITIAL, steps, {});
    assert {} + GivenIn(INITIAL, steps) == GivenIn(INITIAL, steps);
    if reply.answers.Some? {
      GivenInSomeStep(INITIAL, steps, reply.answers.value, reply.resp);
    }
  }

  // ---------- what becomes of a request and of a response ----------

  /** A request from the network is dropped without a client, freed while one is in progress
      for its kind, and else put into its session, and nothing else changes hands. */
  lemma RequestOutcome(s: Ni, emergency: bool, data: Option<Raw>, hasClient: bool)
    ensures
      var t := DoNotify(s, emergency, data, hasClient);
      var busy := s.es.raw.Some? || (!emergency && s.normal.raw.Some?);
      && t.unclaimed == (if hasClient then s.unclaimed else s.unclaimed + RawSet(data))
      && t.refused == (if hasClient && busy then s.refused + RawSet(data) else s.refused)
      && t.accepted == (if hasClient && !busy then s.accepted + RawSet(data) else s.accepted)
      && Get(t, !emergency) == Get(s, !emergency)
      && (!hasClient || busy ==> Get(t, emergency) == Get(s, emergency))
      && (hasClient && !busy ==>
            && Get(t, emergency).raw == data && Get(t, emergency).undecided == Get(s, emergency).undecided + 1
            && Get(t, emergency).reqId == t.counter == (s.counter + 1) % TWO_32)
  {
  }

  /** The ordinary request is ignored iff the user accepts the emergency request at hand. */
  lemma OrdinaryIsIgnoredIff(s: Ni, id: nat, resp: Response)
    requires s.pc == [] && s.es.raw.Some? && s.es.reqId == id
    ensures
      var pc := DoRespond(s, id, resp, true).pc;
      && pc[|pc| - 1] == Delivery(true, resp, s.es.serial)
      && if resp.Accept? && s.normal.raw.Some? then pc[..|pc| - 1] == [Delivery(false, Ignore, s.normal.serial)]
         else |pc| == 1
  {
  }
}
