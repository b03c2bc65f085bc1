/** The interaction handler of power-libperfmgr/InteractionHandler.cpp as a step system.

    A step is one critical section of Acquire, Release, Routine, Init or Exit. The wait of
    the routine thread between its two critical sections may end at any time: on the
    eventfd, on the display going idle, or on a timeout.
 */
module Interaction {
  import opened TimeOrder
  import opened Options

  const MIN_DURATION_MS := 1400
  const MAX_DURATION_MS := 5650
  const NS_PER_MS := 1_000_000

  datatype HState = Uninitialized | Idle | Interaction | Waiting

  /** The routine thread: none, at its condition variable, in WaitForIdle, or returned. */
  datatype Pc = NoThread | AtCond | InWait | Returned

  datatype Hint = DoHint | EndHint

  datatype Handler = Handler(
    state: HState,
    durationMs: int,
    last: Timespec,
    eventFd: nat,             // the counter of the eventfd
    pc: Pc,
    clock: Timespec,
    open: bool,               // the files that the handler holds are open
    closing: nat,             // Exits that have joined their thread and have yet to close files
    terminated: bool,         // the process has been terminated
    // history
    risky: bool,              // some Init came while an Exit had yet to close files
    hints: seq<Hint>,         // the calls to the hint manager
    leaks: set<nat>,          // |hints| at each Exit that found the handler busy
    aborted: bool,            // an Acquire was accepted during the current wait
    clears: seq<nat>,         // the counts that Release has read from the eventfd, 0 if it could not
    asked: seq<int>,          // deadlines asked for since the handler left Idle
    recorded: seq<int>)       // deadlines recorded since the handler left Idle

  function Initial(clock: Timespec): Handler {
    Handler(Uninitialized, 0, clock, 0, NoThread, clock, false, 0, false, false, [], {}, false, [], [], [])
  }

  // ---------- arithmetic ----------

  /** C division by a positive number truncates toward zero. */
  function TruncDiv(a: int, b: int): int
    requires b > 0
  {
    if a >= 0 then a / b else -((-a) / b)
  }

  function CalcTimespecDiffMs(start: Timespec, end: Timespec): int {
    (end.sec - start.sec) * 1000 + TruncDiv(end.nsec - start.nsec, NS_PER_MS)
  }

  function FinalDuration(duration: int): int {
    var input := ToInt32(duration + 650);
    if input > MAX_DURATION_MS then MAX_DURATION_MS
    else if input > MIN_DURATION_MS then input
    else MIN_DURATION_MS
  }

  /** When the recorded interaction ends, in nanoseconds. */
  function Deadline(h: Handler): int {
    Ns(h.last) + h.durationMs * NS_PER_MS
  }

  // ---------- steps ----------

  datatype Step =
    | Init(filesOpen: bool)                    // whether both files could be opened
    | Acquire(duration: int, now: Timespec)
    | Wake                                     // Routine, from the condition variable on
    | Release                                  // after WaitForIdle
    | Exit                                     // up to the join
    | Join
    | CloseFiles                               // the end of Exit, without the lock

  predicate Busy(s: HState) {
    s.Interaction? || s.Waiting?
  }

  /** Whether the previous interaction covers a new one. */
  predicate Skips(h: Handler, final: int, now: Timespec) {
    && !h.state.Idle? && final <= h.durationMs
    && CalcTimespecDiffMs(h.last, now) <= h.durationMs - final
  }

  predicate Enabled(h: Handler, step: Step) {
    !h.terminated &&
    match step
    case Init(_) => true
    case Acquire(duration, now) => Normal(now) && Ns(h.clock) <= Ns(now) && -TWO_31 <= duration < TWO_31
    case Wake => h.pc.AtCond? && !h.state.Idle?
    case Release => h.pc.InWait?
    case Exit => true
    case Join => h.pc.Returned?
    case CloseFiles => h.closing > 0
  }

  /** A new thread object replaces the old one; replacing one that an Exit has yet to join
      terminates the process. */
  function DoInit(h: Handler, filesOpen: bool): Handler {
    if !h.state.Uninitialized? || !filesOpen then h
    else if !h.pc.NoThread? then h.(terminated := true)
    else h.(state := Idle, eventFd := 0, pc := AtCond, open := true, risky := h.risky || h.closing > 0)
  }

  /** Whether an Acquire is accepted rather than ignored or skipped. */
  predicate Accepted(h: Handler, duration: int, now: Timespec) {
    !h.state.Uninitialized? && !Skips(h, FinalDuration(duration), now)
  }

  /** AbortWaitLocked: a write to a closed file fails, and that is only logged. */
  function Written(h: Handler): nat {
    if h.open then h.eventFd + 1 else h.eventFd
  }

  function DoAcquire(h0: Handler, duration: int, now: Timespec): Handler {
    var h := h0.(clock := now);
    var final := FinalDuration(duration);
    var deadline := Ns(now) + final * NS_PER_MS;
    if h.state.Uninitialized? then h
    else if Skips(h, final, now) then h.(asked := h.asked + [deadline])
    else
      h.(last := now, durationMs := final, state := HState.Interaction,
         eventFd := if h.state.Waiting? then Written(h) else h.eventFd,
         hints := if h.state.Idle? then h.hints + [DoHint] else h.hints,
         aborted := h.aborted || h.pc.InWait?,
         asked := (if h.state.Idle? then [] else h.asked) + [deadline],
         recorded := (if h.state.Idle? then [] else h.recorded) + [deadline])
  }

  function DoWake(h: Handler): Handler {
    if h.state.Uninitialized? then h.(pc := Returned)
    else h.(state := Waiting, pc := InWait, aborted := false)
  }

  function DoRelease(h: Handler): Handler {
    if h.state.Waiting? then
      h.(state := Idle, pc := AtCond, hints := h.hints + [EndHint])
    else
      h.(pc := AtCond, eventFd := if h.open then 0 else h.eventFd,
         clears := h.clears + [if h.open then h.eventFd else 0])
  }

  function DoExit(h: Handler): Handler {
    if h.state.Uninitialized? then h
    else h.(state := Uninitialized, eventFd := Written(h),
            leaks := if Busy(h.state) then h.leaks + {|h.hints|} else h.leaks)
  }

  function Do(h: Handler, step: Step): Handler
    requires Enabled(h, step)
  {
    match step
    case Init(filesOpen) => DoInit(h, filesOpen)
    case Acquire(duration, now) => DoAcquire(h, duration, now)
    case Wake => DoWake(h)
    case Release => DoRelease(h)
    case Exit => DoExit(h)
    case Join => h.(pc := NoThread, closing := h.closing + 1)
    case CloseFiles => h.(closing := h.closing - 1, open := false)
  }

  function Run(h: Handler, steps: seq<Step>): Option<Handler>
    decreases |steps|
  {
    if steps == [] then Some(h)
    else if Enabled(h, steps[0]) then Run(Do(h, steps[0]), steps[1..])
    else None
  }
}
