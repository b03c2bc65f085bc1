/** Network-initiated requests of gps/gnss/GnssAdapter.cpp.

    The message task accepts requests and passes on user responses; each accepted request
    gets a waiter thread. A step is a message, one critical section under a session's
    `tLock`, or the unlocked tail of a waiter. Passing on a response takes one step to
    check which session is meant and one more for each session whose lock is then taken.
 */
module NiRequests {
  import opened Options
  import opened TimeOrder

  type Raw = nat

  datatype Response = Accept | Deny | NoResponse | Ignore

  /** A waiter that has decided: what it will send, if anything. `request` is the serial
      number of the request it held, `answers` that of the request the user answered, and
      `late` tells whether the answer was recorded late. */
  datatype Reply = Reply(raw: Option<Raw>, resp: Response, request: nat, answers: Option<nat>, late: bool)

  datatype Session = Session(
    raw: Option<Raw>,
    reqId: nat,
    resp: Response,
    respRecvd: bool,
    undecided: nat,           // waiters that have not decided
    tails: seq<Reply>,        // waiters that have decided but not cleared the session
    // history
    serial: nat,              // serial number of the request accepted last
    givenId: nat,            // its id
    cleared: bool,            // a waiter has cleared the id since
    answers: nat,             // the request that `resp` answers
    late: bool,               // that request had been decided when `resp` was recorded
    nulls: nat,               // requests accepted without data
    empties: nat)             // decisions that found no data

  /** A response on its way to a session: for the request that was there at the check. */
  datatype Delivery = Delivery(es: bool, resp: Response, serial: nat)

  datatype Ni = Ni(
    normal: Session,
    es: Session,
    counter: nat,             // reqIDCounter
    pc: seq<Delivery>,        // the message task: locks still to take for one response
    queue: seq<Reply>,        // responses sent to the message task by waiters
    // history
    serials: nat,
    offered: multiset<Raw>,   // all requests from the network
    accepted: multiset<Raw>,
    refused: multiset<Raw>,   // freed because a request was in progress
    unclaimed: multiset<Raw>, // dropped because no client takes such requests
    ignored: multiset<Raw>,   // freed by a waiter
    sent: seq<Reply>)         // passed to the modem, then freed

  const EMPTY_SESSION := Session(None, 0, Accept, false, 0, [], 0, 0, false, 0, false, 0, 0)

  const INITIAL := Ni(EMPTY_SESSION, EMPTY_SESSION, 0, [], [], 0, multiset{}, multiset{}, multiset{}, multiset{}, multiset{}, [])

  datatype Step =
    | Notify(emergency: bool, data: Option<Raw>, hasClient: bool)
    | Respond(id: nat, resp: Response, hasClient: bool)
    | Set
    | Inform
    | Decide(es: bool, timedOut: bool)
    | Tail(es: bool, which: nat)

  function Get(s: Ni, es: bool): Session {
    if es then s.es else s.normal
  }

  function Put(s: Ni, es: bool, x: Session): Ni {
    if es then s.(es := x) else s.(normal := x)
  }

  predicate Enabled(s: Ni, step: Step) {
    match step
    case Notify(_, _, _) => s.pc == []
    case Respond(_, _, _) => s.pc == []
    case Set => s.pc != []
    case Inform => s.pc == [] && s.queue != []
    case Decide(es, timedOut) => Get(s, es).undecided > 0 && (timedOut || Get(s, es).respRecvd)
    case Tail(es, which) => which < |Get(s, es).tails|
  }

  function RawSet(raw: Option<Raw>): multiset<Raw> {
    if raw.Some? then multiset{raw.value} else multiset{}
  }

  /** Whether a request in progress keeps a new one out. */
  predicate InProgress(s: Ni, emergency: bool) {
    s.es.raw.Some? || (!emergency && s.normal.raw.Some?)
  }

  function Accepting(x: Session, data: Option<Raw>, id: nat, serial: nat): Session {
    x.(raw := data, reqId := id, undecided := x.undecided + 1,
       serial := serial, givenId := id, cleared := false,
       nulls := if data.None? then x.nulls + 1 else x.nulls)
  }

  function DoNotify(s0: Ni, emergency: bool, data: Option<Raw>, hasClient: bool): Ni {
    var s := s0.(offered := s0.offered + RawSet(data));
    if !hasClient then s.(unclaimed := s.unclaimed + RawSet(data))
    else if InProgress(s, emergency) then s.(refused := s.refused + RawSet(data))
    else
      var id := (s.counter + 1) % TWO_32;
      var serial := s.serials + 1;
      Put(s, emergency, Accepting(Get(s, emergency), data, id, serial))
        .(counter := id, serials := serial, accepted := s.accepted + RawSet(data))
  }

  function DoRespond(s: Ni, id: nat, resp: Response, hasClient: bool): Ni {
    if !hasClient then s
    else if id == s.es.reqId && s.es.raw.Some? then
      s.(pc := (if resp.Accept? && s.normal.raw.Some? then [Delivery(false, Ignore, s.normal.serial)] else [])
               + [Delivery(true, resp, s.es.serial)])
    else if id == s.normal.reqId && s.normal.raw.Some? then
      s.(pc := [Delivery(false, resp, s.normal.serial)])
    else s
  }

  /** The locked part of passing on a response to the request with number `serial`. */
  function Recorded(x: Session, resp: Response, serial: nat): Session {
    x.(resp := resp, respRecvd := true, answers := serial, late := x.raw.None? || x.serial != serial)
  }

  function DoSet(s: Ni): Ni
    requires s.pc != []
  {
    var d := s.pc[0];
    Put(s, d.es, Recorded(Get(s, d.es), d.resp, d.serial)).(pc := s.pc[1..])
  }

  function DoInform(s: Ni): Ni
    requires s.queue != []
  {
    s.(queue := s.queue[1..], sent := s.sent + [s.queue[0]])
  }

  /** The critical section of niThreadProc after its wait; a timeout overrides a response. */
  function Decided(x: Session, timedOut: bool): Session
    requires x.undecided > 0
  {
    var resp := if timedOut then NoResponse else x.resp;
    var send := x.raw.Some? && !resp.Ignore?;
    x.(raw := None, resp := resp, respRecvd := false, undecided := x.undecided - 1,
       tails := x.tails + [Reply(if send then x.raw else None, resp, x.serial,
                               if timedOut then None else Some(x.answers), x.late)],
       empties := if x.raw.None? then x.empties + 1 else x.empties)
  }

  function DoDecide(s: Ni, es: bool, timedOut: bool): Ni
    requires Get(s, es).undecided > 0
  {
    var x := Get(s, es);
    var y := Decided(x, timedOut);
    Put(s, es, y).(ignored := if y.resp.Ignore? then s.ignored + RawSet(x.raw) else s.ignored)
  }

  function DoTail(s: Ni, es: bool, which: nat): Ni
    requires which < |Get(s, es).tails|
  {
    var x := Get(s, es);
    var reply := x.tails[which];
    Put(s, es, x.(reqId := 0, cleared := true, tails := x.tails[..which] + x.tails[which + 1..]))
      .(queue := if reply.raw.Some? then s.queue + [reply] else s.queue)
  }

  function Do(s: Ni, step: Step): Ni
    requires Enabled(s, step)
  {
    match step
    case Notify(emergency, data, hasClient) => DoNotify(s, emergency, data, hasClient)
    case Respond(id, resp, hasClient) => DoRespond(s, id, resp, hasClient)
    case Set => DoSet(s)
    case Inform => DoInform(s)
    case Decide(es, timedOut) => DoDecide(s, es, timedOut)
    case Tail(es, which) => DoTail(s, es, which)
  }

  function Run(s: Ni, steps: seq<Step>): Option<Ni>
    decreases |steps|
  {
    if steps == [] then Some(s)
    else if Enabled(s, steps[0]) then Run(Do(s, steps[0]), steps[1..])
    else None
  }
}
