/** The tracking multiplexer of gps/gnss/GnssAdapter.cpp: many client sessions, one engine.

    An engine call either succeeds and takes effect or fails and changes nothing; its
    answer is a parameter. A modem restart stops the engine behind the multiplexer's back,
    when the adapter's API is closed and opened again. The order in which the session map is walked is left open.
 */
module Tracking {
  import opened Options

  type Client = nat

  datatype Key = Key(client: Client, id: nat)

  datatype SuplMode = Standalone | MsBased | MsAssisted

  datatype TrackOptions = TrackOptions(size: nat, minInterval: nat, minDistance: nat, mode: SuplMode)

  /** What the engine is told: the mode and the interval. */
  datatype Fix = Fix(mode: SuplMode, interval: nat)

  /** The engine: stopped, running, or stopped by a modem restart with no successful call
      to it since. */
  datatype Engine = Off | On(value: Fix) | Lost

  datatype Mux = Mux(sessions: map<Key, TrackOptions>, engine: Engine)

  datatype Error = Success | CallbackMissing | InvalidParameter | GeneralFailure

  datatype Op =
    | Start(key: Key, options: TrackOptions, hasCallback: bool, ok: bool)
    | Update(key: Key, options: TrackOptions, ok: bool)
    | Stop(key: Key, ok: bool)
    | RemoveClient(client: Client, answers: map<Key, bool>)
    | EngineLost
    | EngineUp(ok: bool)

  const NO_SESSIONS := Mux(map[], Off)

  function ConvertOptions(o: TrackOptions): Fix {
    Fix(o.mode, o.minInterval)
  }

  function Answer(ok: bool): Error {
    if ok then Success else GeneralFailure
  }

  /** `small` is the entry the code's search loop ends with, for some order of the map. */
  predicate IsSmallest(m: map<Key, TrackOptions>, small: TrackOptions) {
    small in m.Values && forall k | k in m :: small.minInterval <= m[k].minInterval
  }

  // ---------- one call ----------

  predicate StartsFix(engine: Engine, o: TrackOptions, ok: bool, after: Engine, err: Error) {
    err == Answer(ok) && after == if ok then On(ConvertOptions(o)) else engine
  }

  predicate Untouched(engine: Engine, after: Engine, err: Error) {
    err == Success && after == engine
  }

  ghost predicate StartMultiplex(s: Mux, o: TrackOptions, ok: bool, after: Engine, err: Error) {
    if s.sessions == map[] then StartsFix(s.engine, o, ok, after, err)
    else exists small | IsSmallest(s.sessions, small) ::
      if o.minInterval < small.minInterval then StartsFix(s.engine, o, ok, after, err)
      else Untouched(s.engine, after, err)
  }

  ghost predicate UpdateMultiplex(s: Mux, key: Key, o: TrackOptions, ok: bool, after: Engine, err: Error) {
    if |s.sessions| == 1 then StartsFix(s.engine, o, ok, after, err)
    else if key !in s.sessions then Untouched(s.engine, after, err)
    else exists small | IsSmallest(s.sessions - {key}, small) ::
      if o.minInterval < small.minInterval then StartsFix(s.engine, o, ok, after, err)
      else if s.sessions[key].minInterval < small.minInterval then StartsFix(s.engine, small, ok, after, err)
      else Untouched(s.engine, after, err)
  }

  ghost predicate StopMultiplex(s: Mux, key: Key, ok: bool, after: Engine, err: Error) {
    if |s.sessions| == 1 then err == Answer(ok) && after == if ok then Off else s.engine
    else if key !in s.sessions then Untouched(s.engine, after, err)
    else exists small | IsSmallest(s.sessions - {key}, small) ::
      if s.sessions[key].minInterval < small.minInterval then StartsFix(s.engine, small, ok, after, err)
      else Untouched(s.engine, after, err)
  }

  // ---------- one message ----------

  ghost predicate StartNext(s: Mux, op: Op, t: Mux, reply: Error)
    requires op.Start?
  {
    if !op.hasCallback then t == s && reply == CallbackMissing
    else if op.options.size == 0 then t == s && reply == InvalidParameter
    else
      && StartMultiplex(s, op.options, op.ok, t.engine, reply)
      && t.sessions == if reply == Success then s.sessions[op.key := op.options] else s.sessions
  }

  ghost predicate UpdateNext(s: Mux, op: Op, t: Mux, reply: Option<Error>)
    requires op.Update?
  {
    if op.key !in s.sessions then t == s && reply == None
    else if op.options.size == 0 then t == s && reply == Some(InvalidParameter)
    else
      && reply.Some?
      && UpdateMultiplex(s, op.key, op.options, op.ok, t.engine, reply.value)
      && t.sessions == if reply.value == Success then s.sessions[op.key := op.options] else s.sessions
  }

  ghost predicate StopOne(s: Mux, key: Key, ok: bool, t: Mux, err: Error)
    requires key in s.sessions
  {
    && StopMultiplex(s, key, ok, t.engine, err)
    && t.sessions == if err == Success then s.sessions - {key} else s.sessions
  }

  ghost predicate StopNext(s: Mux, op: Op, t: Mux, reply: Option<Error>)
    requires op.Stop?
  {
    if op.key !in s.sessions then t == s && reply == None
    else reply.Some? && StopOne(s, op.key, op.ok, t, reply.value)
  }

  function AnswerFor(answers: map<Key, bool>, key: Key): bool {
    key in answers && answers[key]
  }

  /** The loop of stopClientSessions has tried to stop `keys`, the last one last. */
  ghost predicate StopEach(s: Mux, keys: seq<Key>, answers: map<Key, bool>, t: Mux) {
    if keys == [] then t == s
    else
      var last := keys[|keys| - 1];
      exists u, err ::
        StopEach(s, keys[..|keys| - 1], answers, u) && last in u.sessions && StopOne(u, last, AnswerFor(answers, last), t, err)
  }

  /** Every session of the client, once, in some order. */
  ghost predicate ListsClient(m: map<Key, TrackOptions>, client: Client, keys: seq<Key>) {
    && (forall k :: k in keys <==> k in m && k.client == client)
    && (forall i, j | 0 <= i < j < |keys| :: keys[i] != keys[j])
  }

  ghost predicate RemoveNext(s: Mux, op: Op, t: Mux)
    requires op.RemoveClient?
  {
    exists keys | ListsClient(s.sessions, op.client, keys) :: StopEach(s, keys, op.answers, t)
  }

  /** LocSsrMsg::proc closes and opens the API; a fix does not survive that. */
  ghost predicate EngineLostNext(s: Mux, t: Mux) {
    t == s.(engine := Lost)
  }

  /** restartSessions; nobody looks at the engine's answer. */
  ghost predicate EngineUpNext(s: Mux, ok: bool, t: Mux) {
    && t.sessions == s.sessions
    && if s.sessions == map[] then t == s
       else exists small, err | IsSmallest(s.sessions, small) :: StartsFix(s.engine, small, ok, t.engine, err)
  }

  ghost predicate Next(s: Mux, op: Op, t: Mux) {
    match op
    case Start(_, _, _, _) => exists reply :: StartNext(s, op, t, reply)
    case Update(_, _, _) => exists reply :: UpdateNext(s, op, t, reply)
    case Stop(_, _) => exists reply :: StopNext(s, op, t, reply)
    case RemoveClient(_, _) => RemoveNext(s, op, t)
    case EngineLost => EngineLostNext(s, t)
    case EngineUp(ok) => EngineUpNext(s, ok, t)
  }

  /** A run: a started session always gets a key that is not in use. */
  ghost predicate IsRun(states: seq<Mux>, ops: seq<Op>) {
    && |states| == |ops| + 1 && states[0] == NO_SESSIONS
    && forall i | 0 <= i < |ops| ::
         && Next(states[i], ops[i], states[i + 1])
         && (ops[i].Start? ==> ops[i].key !in states[i].sessions)
  }

  // ---------- the simple multiplexer ----------

  /** A running engine runs at the least interval of the sessions. */
  ghost predicate AtLeastInterval(m: map<Key, TrackOptions>, interval: nat) {
    && (exists k | k in m :: m[k].minInterval == interval)
    && (forall k | k in m :: interval <= m[k].minInterval)
  }

  /** What the engine should do: nothing without sessions, else run at the least interval. */
  ghost predicate InSync(s: Mux) {
    if s.engine.On? then AtLeastInterval(s.sessions, s.engine.value.interval) else s.sessions == map[]
  }

  /** The same, except that a lost engine may leave sessions behind. */
  ghost predicate SyncedUnlessLost(s: Mux) {
    s.engine.Lost? || InSync(s)
  }

  predicate Sized(m: map<Key, TrackOptions>) {
    forall k | k in m :: m[k].size != 0
  }

  /** The engine runs at the mode and interval of some live session. */
  ghost predicate Owned(s: Mux) {
    s.engine.On? ==> exists k | k in s.sessions :: ConvertOptions(s.sessions[k]) == s.engine.value
  }

  /** Sessions with the same interval have the same mode. */
  predicate OneModePerInterval(m: map<Key, TrackOptions>) {
    forall j, k | j in m && k in m :: m[j].minInterval == m[k].minInterval ==> m[j].mode == m[k].mode
  }
}
