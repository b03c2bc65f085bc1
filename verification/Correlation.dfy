/** Client request queues (gps/location/LocationAPIClientBase.cpp) composed with the FIFO
    message queue of the adapter (gps/gnss/GnssAdapter.cpp).

    A client call is one step, because it holds the client's mutex throughout. The message
    task takes two: it processes a message, then delivers the response to the client's
    callback; client calls may come in between.
 */
module Correlation {
  import opened Options
  import opened SessionIds
  import opened Tracking

  datatype Kind = StartRequest | UpdateRequest | StopRequest

  /** A request as the client queues it; the tag tells two requests apart. */
  datatype Request = Request(kind: Kind, tag: nat)

  datatype Msg = Msg(key: Key, request: Request)

  /** The message task: between messages, or about to deliver a response. */
  datatype TaskPc = Ready | Responding(key: Key, cause: Request)

  datatype ClientState = ClientState(
    session: nat,
    queue: seq<Request>,
    tracking: bool,
    // history of the current session
    sent: seq<Request>,        // requests made
    causes: seq<Request>,      // requests whose responses were delivered
    popped: seq<Request>)      // requests those responses took from the queue

  /** A delivered response: what caused it, whether its session was the client's current
      one, and the request it popped. */
  datatype Delivery = Delivery(key: Key, cause: Request, current: bool, popped: Option<Request>)

  datatype System = System(
    clients: map<Client, ClientState>,
    queue: seq<Msg>,
    sessions: set<Key>,
    pc: TaskPc,
    issued: nat,               // session ids generated
    tags: nat,                 // requests made
    deliveries: seq<Delivery>)

  datatype Step =
    | StartTracking(client: Client, hasInterface: bool)
    | UpdateTracking(client: Client)
    | StopTracking(client: Client)
    | Process(ok: bool)        // whether the engine calls, if any, succeed
    | Deliver

  const NEW_CLIENT := ClientState(0, [], false, [], [], [])

  function Initial(clients: set<Client>): System {
    System(map c | c in clients :: NEW_CLIENT, [], {}, Ready, 0, 0, [])
  }

  predicate Enabled(s: System, step: Step) {
    match step
    case StartTracking(c, _) => c in s.clients
    case UpdateTracking(c) => c in s.clients
    case StopTracking(c) => c in s.clients
    case Process(_) => s.pc.Ready? && s.queue != []
    case Deliver => s.pc.Responding? && s.pc.key.client in s.clients
  }

  /** What locAPIStartTracking does to the client. */
  function Started(cl: ClientState, session: nat, request: Request): ClientState {
    if cl.tracking then cl else ClientState(session, [request], true, [request], [], [])
  }

  /** What locAPIUpdateTrackingOptions and locAPIStopTracking do to the client. */
  function Requested(cl: ClientState, request: Request): ClientState {
    if cl.session == 0 then cl
    else cl.(queue := cl.queue + [request], sent := cl.sent + [request],
             tracking := cl.tracking && !request.kind.StopRequest?)
  }

  /** startTracking returns id 0 where there is no interface to start on. */
  function DoStart(s: System, c: Client, hasInterface: bool): System
    requires c in s.clients
  {
    if s.clients[c].tracking then s
    else
      var request := Request(StartRequest, s.tags);
      var id := if hasInterface then NthId(s.issued + 1) else 0;
      s.(clients := s.clients[c := Started(s.clients[c], id, request)],
         queue := if hasInterface then s.queue + [Msg(Key(c, id), request)] else s.queue,
         issued := if hasInterface then s.issued + 1 else s.issued,
         tags := s.tags + 1)
  }

  function DoRequest(s: System, c: Client, kind: Kind): System
    requires c in s.clients
  {
    var cl := s.clients[c];
    if cl.session == 0 then s
    else
      var request := Request(kind, s.tags);
      s.(clients := s.clients[c := Requested(cl, request)],
         queue := s.queue + [Msg(Key(c, cl.session), request)],
         tags := s.tags + 1)
  }

  /** Whether a message is answered: a start always is, the others only for a session. */
  predicate Answers(sessions: set<Key>, msg: Msg) {
    msg.request.kind.StartRequest? || msg.key in sessions
  }

  function SessionsAfter(sessions: set<Key>, msg: Msg, ok: bool): set<Key> {
    match msg.request.kind
    case StartRequest => if ok then sessions + {msg.key} else sessions
    case UpdateRequest => sessions
    case StopRequest => if ok then sessions - {msg.key} else sessions
  }

  function DoProcess(s: System, ok: bool): System
    requires s.queue != []
  {
    var msg := s.queue[0];
    s.(queue := s.queue[1..],
       sessions := SessionsAfter(s.sessions, msg, ok),
       pc := if Answers(s.sessions, msg) then Responding(msg.key, msg.request) else Ready)
  }

  function First(queue: seq<Request>): Option<Request> {
    if queue == [] then None else Some(queue[0])
  }

  /** onResponseCb: the tracking queue is popped iff its session is the response's. */
  function PopResponse(cl: ClientState, id: nat, cause: Request): ClientState {
    if cl.session != id then cl
    else if cl.queue == [] then cl.(causes := cl.causes + [cause])
    else cl.(queue := cl.queue[1..], causes := cl.causes + [cause], popped := cl.popped + [cl.queue[0]])
  }

  function DoDeliver(s: System): System
    requires s.pc.Responding? && s.pc.key.client in s.clients
  {
    var key := s.pc.key;
    var cl := s.clients[key.client];
    s.(pc := Ready,
       clients := s.clients[key.client := PopResponse(cl, key.id, s.pc.cause)],
       deliveries := s.deliveries +
         [Delivery(key, s.pc.cause, cl.session == key.id, if cl.session == key.id then First(cl.queue) else None)])
  }

  function Do(s: System, step: Step): System
    requires Enabled(s, step)
  {
    match step
    case StartTracking(c, hasInterface) => DoStart(s, c, hasInterface)
    case UpdateTracking(c) => DoRequest(s, c, UpdateRequest)
    case StopTracking(c) => DoRequest(s, c, StopRequest)
    case Process(ok) => DoProcess(s, ok)
    case Deliver => DoDeliver(s)
  }

  function Run(s: System, steps: seq<Step>): Option<System>
    decreases |steps|
  {
    if steps == [] then Some(s)
    else if Enabled(s, steps[0]) then Run(Do(s, steps[0]), steps[1..])
    else None
  }
}
