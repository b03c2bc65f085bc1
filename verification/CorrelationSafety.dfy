/** Every response meets the request that caused it. */
module CorrelationSafety {
  import opened Options
  import opened SessionIds
  import opened Tracking
  import opened Correlation

  // ---------- messages in flight ----------

  /** The requests for `key` that the adapter has still to process, oldest first. */
  function InFlight(queue: seq<Msg>, key: Key): seq<Request> {
    if queue == [] then []
    else if queue[0].key == key then [queue[0].request] + InFlight(queue[1..], key)
    else InFlight(queue[1..], key)
  }

  lemma {:induction false} InFlightAppends(queue: seq<Msg>, msg: Msg, key: Key)
    ensures InFlight(queue + [msg], key) ==
            if msg.key == key then InFlight(queue, key) + [msg.request] else InFlight(queue, key)
  {
    if queue == [] {
      assert InFlight([msg][1..], key) == [];
    } else {
      assert (queue + [msg])[1..] == queue[1..] + [msg];
      InFlightAppends(queue[1..], msg, key);
    }
  }

  lemma {:induction false} NothingInFlight(queue: seq<Msg>, key: Key)
    requires forall i | 0 <= i < |queue| :: queue[i].key != key
    ensures InFlight(queue, key) == []
  {
    if queue != [] {
      NothingInFlight(queue[1..], key);
    }
  }

  // ---------- what every step keeps ----------

  /** The response about to be delivered for `key`, if any. */
  function Pending(pc: TaskPc, key: Key): seq<Request> {
    if pc.Responding? && pc.key == key then [pc.cause] else []
  }

  predicate StartInFlight(flight: seq<Request>) {
    flight != [] && flight[0].kind.StartRequest?
  }

  /** Only the oldest request in flight can be a start. */
  predicate StartsFirst(flight: seq<Request>) {
    forall i | 1 <= i < |flight| :: !flight[i].kind.StartRequest?
  }

  /** A session is live if the adapter has it or is yet to see its start. While it is
      live the client's queue is exactly what the adapter still has to answer. */
  predicate QueueOk(queue: seq<Request>, flight: seq<Request>, pending: seq<Request>, started: bool) {
    && StartsFirst(flight)
    && (StartInFlight(flight) ==> !started && pending == [])
    && (started || StartInFlight(flight) ==> queue == pending + flight)
    && (pending != [] ==> queue != [] && queue[0] == pending[0])
  }

  /** Responses have answered the requests of the session in order, from the first. */
  predicate HistoryOk(cl: ClientState) {
    && cl.popped == cl.causes
    && |cl.causes| + |cl.queue| == |cl.sent|
    && cl.causes + cl.queue == cl.sent
  }

  predicate ClientOk(c: Client, cl: ClientState, queue: seq<Msg>, sessions: set<Key>, pc: TaskPc) {
    var key := Key(c, cl.session);
    && HistoryOk(cl)
    && (cl.session != 0 ==> QueueOk(cl.queue, InFlight(queue, key), Pending(pc, key), key in sessions))
  }

  predicate AllClientsOk(s: System) {
    forall c | c in s.clients :: ClientOk(c, s.clients[c], s.queue, s.sessions, s.pc)
  }

  ghost predicate IdsUsed(s: System) {
    && (forall i | 0 <= i < |s.queue| :: Used(s.queue[i].key.id, s.issued))
    && (forall key | key in s.sessions :: Used(key.id, s.issued))
    && (s.pc.Responding? ==> Used(s.pc.key.id, s.issued))
    && (forall c | c in s.clients :: s.clients[c].session == 0 || Used(s.clients[c].session, s.issued))
  }

  predicate ClientsExist(s: System) {
    && (forall i | 0 <= i < |s.queue| :: s.queue[i].key.client in s.clients)
    && (s.pc.Responding? ==> s.pc.key.client in s.clients)
  }

  predicate DeliveryOk(d: Delivery) {
    d.popped == if d.current then Some(d.cause) else None
  }

  ghost predicate Inv(s: System) {
    && IdsUsed(s) && ClientsExist(s)
    && AllClientsOk(s)
    && (forall i | 0 <= i < |s.deliveries| :: DeliveryOk(s.deliveries[i]))
  }

  lemma UsedStaysUsed(id: nat, n: nat)
    requires Used(id, n)
    ensures Used(id, n + 1)
  {
    var i :| 1 <= i <= n && id == NthId(i);
    assert 1 <= i <= n + 1 && id == NthId(i);
  }

  // ---------- client calls ----------

  lemma StartKeepsIds(s: System, c: Client, hasInterface: bool)
    requires IdsUsed(s) && ClientsExist(s) && c in s.clients
    ensures IdsUsed(DoStart(s, c, hasInterface))
  {
    if !s.clients[c].tracking && hasInterface {
      forall id | Used(id, s.issued) ensures Used(id, s.issued + 1) {
        UsedStaysUsed(id, s.issued);
      }
      var n := s.issued + 1;
      assert 1 <= n <= n && NthId(n) == NthId(n);
    }
  }

  lemma RequestKeepsIds(s: System, c: Client, kind: Kind)
    requires IdsUsed(s) && ClientsExist(s) && c in s.clients
    ensures IdsUsed(DoRequest(s, c, kind))
  {
  }

  lemma FreshKeyIsUnknown(s: System, c: Client)
    requires Inv(s) && s.issued < ID_COUNT
    ensures
      var key := Key(c, NthId(s.issued + 1));
      InFlight(s.queue, key) == [] && key !in s.sessions && Pending(s.pc, key) == []
  {
    forall id | Used(id, s.issued) ensures id != NthId(s.issued + 1) {
      NextIdIsFresh(s.issued, id);
    }
    NothingInFlight(s.queue, Key(c, NthId(s.issued + 1)));
  }

  lemma StartKeepsClients(s: System, c: Client, hasInterface: bool, d: Client)
    requires Inv(s) && c in s.clients && d in s.clients && DoStart(s, c, hasInterface).issued <= ID_COUNT
    ensures var t := DoStart(s, c, hasInterface); ClientOk(d, t.clients[d], t.queue, t.sessions, t.pc)
  {
    if !s.clients[c].tracking && hasInterface {
      var t := DoStart(s, c, hasInterface);
      var key := Key(c, NthId(s.issued + 1));
      var msg := Msg(key, Request(StartRequest, s.tags));
      InFlightAppends(s.queue, msg, Key(d, t.clients[d].session));
      FreshKeyIsUnknown(s, c);
    }
  }

  lemma RequestKeepsClients(s: System, c: Client, kind: Kind, d: Client)
    requires Inv(s) && c in s.clients && d in s.clients && !kind.StartRequest?
    ensures var t := DoRequest(s, c, kind); ClientOk(d, t.clients[d], t.queue, t.sessions, t.pc)
  {
    var cl := s.clients[c];
    if cl.session != 0 {
      InFlightAppends(s.queue, Msg(Key(c, cl.session), Request(kind, s.tags)), Key(d, s.clients[d].session));
    }
  }

  // ---------- the message task ----------

  /** The oldest request of the current session is processed. */
  lemma ProcessKeepsQueue(queue: seq<Request>, flight: seq<Request>, started: bool, ok: bool, after: bool)
    requires flight != [] && QueueOk(queue, flight, [], started)
    requires after == match flight[0].kind
                      case StartRequest => ok || started
                      case UpdateRequest => started
                      case StopRequest => started && !ok
    ensures QueueOk(queue, flight[1..], if flight[0].kind.StartRequest? || started then [flight[0]] else [], after)
  {
    assert flight == [flight[0]] + flight[1..];
  }

  lemma ProcessKeepsClient(s: System, ok: bool, d: Client)
    requires Inv(s) && d in s.clients && Enabled(s, Process(ok))
    ensures var t := DoProcess(s, ok); ClientOk(d, t.clients[d], t.queue, t.sessions, t.pc)
  {
    var cl := s.clients[d];
    var key := Key(d, cl.session);
    assert ClientOk(d, cl, s.queue, s.sessions, s.pc);
    if s.queue[0].key == key && cl.session != 0 {
      var flight := InFlight(s.queue, key);
      assert flight[1..] == InFlight(s.queue[1..], key);
      var t := DoProcess(s, ok);
      ProcessKeepsQueue(cl.queue, flight, key in s.sessions, ok, key in t.sessions);
    }
  }

  lemma DeliverKeepsClient(s: System, d: Client)
    requires Inv(s) && d in s.clients && Enabled(s, Deliver)
    ensures var t := DoDeliver(s); ClientOk(d, t.clients[d], t.queue, t.sessions, t.pc)
  {
    var key := s.pc.key;
    if d == key.client && s.clients[d].session == key.id {
      var cl := s.clients[d];
      assert ClientOk(d, cl, s.queue, s.sessions, s.pc);
      assert cl.session != 0;
      assert cl.queue[0] == s.pc.cause;
    }
  }

  lemma DeliverIsMatched(s: System)
    requires Inv(s) && Enabled(s, Deliver)
    ensures var t := DoDeliver(s); DeliveryOk(t.deliveries[|t.deliveries| - 1])
  {
    var key := s.pc.key;
    assert ClientOk(key.client, s.clients[key.client], s.queue, s.sessions, s.pc);
  }

  // ---------- every run ----------

  lemma StepKeepsClients(s: System, step: Step)
    requires Inv(s) && Enabled(s, step) && Do(s, step).issued <= ID_COUNT
    ensures AllClientsOk(Do(s, step))
  {
    var t := Do(s, step);
    forall d | d in t.clients ensures ClientOk(d, t.clients[d], t.queue, t.sessions, t.pc) {
      match step
      case StartTracking(c, hasInterface) => StartKeepsClients(s, c, hasInterface, d);
      case UpdateTracking(c) => RequestKeepsClients(s, c, UpdateRequest, d);
      case StopTracking(c) => RequestKeepsClients(s, c, StopRequest, d);
      case Process(ok) => ProcessKeepsClient(s, ok, d);
      case Deliver => DeliverKeepsClient(s, d);
    }
  }

  lemma StepKeepsIds(s: System, step: Step)
    requires IdsUsed(s) && ClientsExist(s) && Enabled(s, step)
    ensures IdsUsed(Do(s, step)) && ClientsExist(Do(s, step))
  {
    match step
    case StartTracking(c, hasInterface) => StartKeepsIds(s, c, hasInterface);
    case UpdateTracking(c) => RequestKeepsIds(s, c, UpdateRequest);
    case StopTracking(c) => RequestKeepsIds(s, c, StopRequest);
    case Process(_) =>
    case Deliver =>
  }

  lemma StepKeepsInv(s: System, step: Step)
    requires Inv(s) && Enabled(s, step) && Do(s, step).issued <= ID_COUNT
    ensures Inv(Do(s, step))
  {
    StepKeepsClients(s, step);
    StepKeepsIds(s, step);
    if step.Deliver? {
      DeliverIsMatched(s);
    }
  }

  lemma {:induction false} IssuedGrows(s: System, steps: seq<Step>)
    requires Run(s, steps).Some?
    ensures s.issued <= Run(s, steps).value.issued && s.clients.Keys == Run(s, steps).value.clients.Keys
    decreases |steps|
  {
    if steps != [] {
      IssuedGrows(Do(s, steps[0]), steps[1..]);
    }
  }

  lemma {:induction false} RunKeepsInv(s: System, steps: seq<Step>)
    requires Inv(s) && Run(s, steps).Some? && Run(s, steps).value.issued <= ID_COUNT
    ensures Inv(Run(s, steps).value)
    decreases |steps|
  {
    if steps != [] {
      IssuedGrows(Do(s, steps[0]), steps[1..]);
      StepKeepsInv(s, steps[0]);
      RunKeepsInv(Do(s, steps[0]), steps[1..]);
    }
  }

  /** Up to the wrap of session ids: a response for the current session pops exactly the
      request that caused it and a late one for a replaced session pops nothing; the k-th
      response of a session pops its k-th request. */
  lemma ResponsesMeetRequests(clients: set<Client>, steps: seq<Step>)
    requires Run(Initial(clients), steps).Some? && Run(Initial(clients), steps).value.issued <= ID_COUNT
    ensures
      var s := Run(Initial(clients), steps).value;
      && (forall i | 0 <= i < |s.deliveries| ::
            s.deliveries[i].popped == if s.deliveries[i].current then Some(s.deliveries[i].cause) else None)
      && (forall c | c in s.clients ::
            var cl := s.clients[c];
            && cl.popped == cl.causes && cl.causes <= cl.sent && cl.queue == cl.sent[|cl.causes|..])
  {
    RunKeepsInv(Initial(clients), steps);
    var s := Run(Initial(clients), steps).value;
    forall c | c in s.clients
      ensures var cl := s.clients[c];
        cl.popped == cl.causes && cl.causes <= cl.sent && cl.queue == cl.sent[|cl.causes|..]
    {
      assert ClientOk(c, s.clients[c], s.queue, s.sessions, s.pc);
    }
  }

  /** Once the adapter has answered all it has been sent, the queue of a live session is empty. */
  lemma LiveSessionsAreAnswered(clients: set<Client>, steps: seq<Step>, c: Client)
    requires Run(Initial(clients), steps).Some? && Run(Initial(clients), steps).value.issued <= ID_COUNT
    requires c in Run(Initial(clients), steps).value.clients
    ensures
      var s := Run(Initial(clients), steps).value;
      var key := Key(c, s.clients[c].session);
      key.id != 0 && key in s.sessions && s.pc.Ready? && InFlight(s.queue, key) == [] ==>
        s.clients[c].queue == [] && s.clients[c].popped == s.clients[c].sent
  {
    RunKeepsInv(Initial(clients), steps);
    var s := Run(Initial(clients), steps).value;
    assert ClientOk(c, s.clients[c], s.queue, s.sessions, s.pc);
  }

  // ---------- sessions that are over ----------

  /** The adapter neither has the session nor will start it, and owes it no response. */
  predicate Over(s: System, c: Client)
    requires c in s.clients
  {
    var key := Key(c, s.clients[c].session);
    key.id != 0 && key !in s.sessions && !StartInFlight(InFlight(s.queue, key)) && Pending(s.pc, key) == []
  }

  lemma StepLeavesOver(s: System, step: Step, c: Client)
    requires Inv(s) && Enabled(s, step) && c in s.clients && Over(s, c)
    requires step.StartTracking? ==> step.client != c
    ensures Over(Do(s, step), c)
    ensures
      var cl, after := s.clients[c], Do(s, step).clients[c];
      after.session == cl.session && after.popped == cl.popped
  {
    var key := Key(c, s.clients[c].session);
    var t := Do(s, step);
    assert ClientOk(c, s.clients[c], s.queue, s.sessions, s.pc);
    if |t.queue| > |s.queue| {
      InFlightAppends(s.queue, t.queue[|s.queue|], key);
    } else if step.Process? && s.queue[0].key == key {
      assert InFlight(s.queue, key)[1..] == InFlight(t.queue, key);
    }
  }

  /** A session that failed to start or was stopped gets no further response: the responses
      answered a prefix of the requests, and what is left waits for the next start. */
  lemma {:induction false} OverSessionsStaySilent(s: System, steps: seq<Step>, c: Client)
    requires Inv(s) && c in s.clients && Over(s, c)
    requires Run(s, steps).Some? && Run(s, steps).value.issued <= ID_COUNT
    requires forall i | 0 <= i < |steps| :: steps[i].StartTracking? ==> steps[i].client != c
    ensures c in Run(s, steps).value.clients
    ensures
      var cl, after := s.clients[c], Run(s, steps).value.clients[c];
      after.session == cl.session && after.popped == cl.popped
    decreases |steps|
  {
    if steps != [] {
      IssuedGrows(Do(s, steps[0]), steps[1..]);
      StepLeavesOver(s, steps[0], c);
      StepKeepsInv(s, steps[0]);
      OverSessionsStaySilent(Do(s, steps[0]), steps[1..], c);
    }
  }

  /** A stop lets the client start again: the new session has a new id and its start is its
      only request, so what is still unanswered of the old one can no longer be popped. */
  lemma RestartBeginsAnew(s: System, c: Client)
    requires Inv(s) && c in s.clients && s.clients[c].session != 0 && s.issued < ID_COUNT
    ensures
      var stop, start := Request(StopRequest, s.tags), Request(StartRequest, s.tags + 1);
      var id := NthId(s.issued + 1);
      var t := DoStart(DoRequest(s, c, StopRequest), c, true);
      && t.clients[c] == ClientState(id, [start], true, [start], [], []) && id != s.clients[c].session
      && t.queue == s.queue + [Msg(Key(c, s.clients[c].session), stop), Msg(Key(c, id), start)]
  {
    NextIdIsFresh(s.issued, s.clients[c].session);
    var u := DoRequest(s, c, StopRequest);
    assert !u.clients[c].tracking && u.issued == s.issued;
  }

  // ---------- tags ----------

  /** The requests of a session have different tags, all of them given out. */
  predicate TagsOk(cl: ClientState, tags: nat) {
    && (forall i | 0 <= i < |cl.sent| :: cl.sent[i].tag < tags)
    && (forall i, j | 0 <= i < j < |cl.sent| :: cl.sent[i].tag < cl.sent[j].tag)
  }

  predicate AllTagsOk(s: System) {
    forall c | c in s.clients :: TagsOk(s.clients[c], s.tags)
  }

  lemma StepKeepsTags(s: System, step: Step)
    requires AllTagsOk(s) && Enabled(s, step)
    ensures AllTagsOk(Do(s, step))
  {
  }

  /** In every run two requests of a session have different tags, so to pop the request with
      the tag of the response's cause is to pop that request. */
  lemma TagsTellRequestsApart(clients: set<Client>, steps: seq<Step>)
    requires Run(Initial(clients), steps).Some?
    ensures AllTagsOk(Run(Initial(clients), steps).value)
  {
    RunKeepsTags(Initial(clients), steps);
  }

  lemma {:induction false} RunKeepsTags(s: System, steps: seq<Step>)
    requires AllTagsOk(s) && Run(s, steps).Some?
    ensures AllTagsOk(Run(s, steps).value)
    decreases |steps|
  {
    if steps != [] {
      StepKeepsTags(s, steps[0]);
      RunKeepsTags(Do(s, steps[0]), steps[1..]);
    }
  }

  // ---------- when a client is tracking ----------

  /** The step stops c, which has a session. */
  predicate Stops(s: System, step: Step, c: Client) {
    step == StopTracking(c) && c in s.clients && s.clients[c].session != 0
  }

  /** Some step of the run does. */
  predicate SomeStops(s: System, steps: seq<Step>, c: Client)
    decreases |steps|
  {
    steps != [] && Enabled(s, steps[0]) && (Stops(s, steps[0], c) || SomeStops(Do(s, steps[0]), steps[1..], c))
  }

  /** Some step of the run is a start by c, and no later one stops it. */
  predicate StartedSince(s: System, steps: seq<Step>, c: Client)
    decreases |steps|
  {
    steps != [] && Enabled(s, steps[0]) &&
    var t := Do(s, steps[0]);
    || (steps[0].StartTracking? && steps[0].client == c && !SomeStops(t, steps[1..], c))
    || StartedSince(t, steps[1..], c)
  }

  lemma StepTracksIff(s: System, step: Step, c: Client)
    requires Enabled(s, step) && c in s.clients
    ensures c in Do(s, step).clients
    ensures Do(s, step).clients[c].tracking <==>
            (step.StartTracking? && step.client == c) || (s.clients[c].tracking && !Stops(s, step, c))
  {
  }

  lemma {:induction false} RunTracksIff(s: System, steps: seq<Step>, c: Client)
    requires Run(s, steps).Some? && c in s.clients
    ensures c in Run(s, steps).value.clients
    ensures Run(s, steps).value.clients[c].tracking <==>
            StartedSince(s, steps, c) || (s.clients[c].tracking && !SomeStops(s, steps, c))
    decreases |steps|
  {
    if steps != [] {
      StepTracksIff(s, steps[0], c);
      RunTracksIff(Do(s, steps[0]), steps[1..], c);
    }
  }

  /** In every run a client is tracking iff it was started and not stopped since, where a stop
      counts only with a session; updates and responses do not matter. */
  lemma ClientTracksIff(clients: set<Client>, steps: seq<Step>, c: Client)
    requires Run(Initial(clients), steps).Some? && c in clients
    ensures c in Run(Initial(clients), steps).value.clients
    ensures Run(Initial(clients), steps).value.clients[c].tracking <==> StartedSince(Initial(clients), steps, c)
  {
    RunTracksIff(Initial(clients), steps, c);
  }

  /** A start by a tracking client changes nothing: not the client, not the adapter's queue,
      not the ids. A start by any other client takes the next id and queues one message. */
  lemma StartTakesEffectIff(s: System, c: Client)
    requires c in s.clients
    ensures
      var t := Do(s, StartTracking(c, true));
      if s.clients[c].tracking then t == s
      else
        && t.issued == s.issued + 1 && t.clients[c].session == NthId(t.issued)
        && t.queue == s.queue + [Msg(Key(c, NthId(t.issued)), Request(StartRequest, s.tags))]
        && t.sessions == s.sessions && t.pc == s.pc
        && forall d | d in s.clients && d != c :: t.clients[d] == s.clients[d]
  {
  }

  /** A start without an interface sends nothing and uses no id; a request without a session
      changes nothing, and one with a session is sent for that session. */
  lemma NothingIsSentWithoutSession(s: System, c: Client, step: Step)
    requires c in s.clients && (step == StartTracking(c, false) || step == UpdateTracking(c) || step == StopTracking(c))
    ensures
      var t := Do(s, step);
      && t.issued == s.issued && t.sessions == s.sessions && t.pc == s.pc
      && if step.StartTracking? then t.queue == s.queue
         else if s.clients[c].session == 0 then t == s
         else |t.queue| == |s.queue| + 1 && t.queue[..|s.queue|] == s.queue
              && t.queue[|s.queue|].key == Key(c, s.clients[c].session)
              && t.queue[|s.queue|].request.kind == if step.UpdateTracking? then UpdateRequest else StopRequest
  {
  }

  // ---------- starts that find no interface ----------

  /** The client believes it is tracking, but has no session. */
  predicate Stuck(s: System, c: Client) {
    c in s.clients && s.clients[c].tracking && s.clients[c].session == 0
  }

  /** The step is a start by c, not yet tracking, that finds no interface. */
  predicate FindsNone(s: System, step: Step, c: Client) {
    step == StartTracking(c, false) && c in s.clients && !s.clients[c].tracking
  }

  /** Some step of the run is. */
  predicate SomeFindsNone(s: System, steps: seq<Step>, c: Client)
    decreases |steps|
  {
    steps != [] && Enabled(s, steps[0]) &&
    (FindsNone(s, steps[0], c) || SomeFindsNone(Do(s, steps[0]), steps[1..], c))
  }

  lemma StepSticksIff(s: System, step: Step, c: Client)
    requires Enabled(s, step) && c in s.clients
    ensures c in Do(s, step).clients
    ensures Stuck(Do(s, step), c) <==> Stuck(s, c) || FindsNone(s, step, c)
  {
  }

  lemma {:induction false} RunSticksIff(s: System, steps: seq<Step>, c: Client)
    requires Run(s, steps).Some? && c in s.clients
    ensures Stuck(Run(s, steps).value, c) <==> Stuck(s, c) || SomeFindsNone(s, steps, c)
    decreases |steps|
  {
    if steps != [] {
      StepSticksIff(s, steps[0], c);
      RunSticksIff(Do(s, steps[0]), steps[1..], c);
    }
  }

  /** In every run a client ends up tracking without a session, which it can neither stop nor
      restart, iff some start of it came while it was not tracking and found no interface. */
  lemma ClientSticksIff(clients: set<Client>, steps: seq<Step>, c: Client)
    requires Run(Initial(clients), steps).Some? && c in clients
    ensures Stuck(Run(Initial(clients), steps).value, c) <==> SomeFindsNone(Initial(clients), steps, c)
  {
    RunSticksIff(Initial(clients), steps, c);
  }

  /** A run of one step that gets there. */
  lemma ClientCanStick(clients: set<Client>, c: Client)
    requires c in clients
    ensures
      var s := Run(Initial(clients), [StartTracking(c, false)]);
      s.Some? && Stuck(s.value, c)
  {
    var s := Initial(clients);
    assert [StartTracking(c, false)][1..] == [];
    assert Run(Do(s, StartTracking(c, false)), []) == Some(Do(s, StartTracking(c, false)));
  }

  /** A stuck client stays exactly as it is, whatever it or the adapter does. */
  lemma {:induction false} StartWithoutInterfaceSticks(s: System, steps: seq<Step>, c: Client)
    requires IdsUsed(s) && ClientsExist(s) && Stuck(s, c) && Run(s, steps).Some?
    ensures c in Run(s, steps).value.clients && Run(s, steps).value.clients[c] == s.clients[c]
    decreases |steps|
  {
    if steps != [] {
      if steps[0].Deliver? {
        assert s.pc.key.id > 0 by {
          var i :| 1 <= i <= s.issued && s.pc.key.id == NthId(i);
        }
      }
      StepKeepsIds(s, steps[0]);
      StartWithoutInterfaceSticks(Do(s, steps[0]), steps[1..], c);
    }
  }

  // ---------- the adapter of this model is the multiplexer ----------

  /** The message task answers a message, and changes the sessions, as the multiplexer does. */
  lemma ProcessesLikeMultiplexer(s: Mux, op: Op, t: Mux, reply: Option<Error>, kind: Kind, tag: nat)
    requires match op
             case Start(_, _, _, _) => kind.StartRequest? && reply.Some? && StartNext(s, op, t, reply.value)
             case Update(_, _, _) => kind.UpdateRequest? && UpdateNext(s, op, t, reply)
             case Stop(_, _) => kind.StopRequest? && StopNext(s, op, t, reply)
             case _ => false
    ensures
      var msg := Msg(op.key, Request(kind, tag));
      && (reply.Some? <==> Answers(s.sessions.Keys, msg))
      && t.sessions.Keys == SessionsAfter(s.sessions.Keys, msg, reply == Some(Success))
  {
  }
}
