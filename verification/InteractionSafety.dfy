/** What every step of the interaction handler keeps, and what follows for every run. */
module InteractionSafety {
  import opened TimeOrder
  import opened Interaction

  // ---------- time arithmetic ----------

  /** The truncating difference is off by less than one millisecond, in either direction. */
  lemma DiffErrorBelowOneMs(start: Timespec, end: Timespec)
    requires Normal(start) && Normal(end)
    ensures -NS_PER_MS < CalcTimespecDiffMs(start, end) * NS_PER_MS - (Ns(end) - Ns(start)) < NS_PER_MS
  {
    var d := end.nsec - start.nsec;
    var q := TruncDiv(d, NS_PER_MS);
    assert -NS_PER_MS < q * NS_PER_MS - d < NS_PER_MS;
    var s := end.sec - start.sec;
    assert (s * 1000 + q) * NS_PER_MS == s * 1_000_000_000 + q * NS_PER_MS;
  }

  /** In which direction: the difference of the nanoseconds is truncated toward zero, so a start
      later within its second than the end rounds the elapsed time up, and else down. */
  lemma DiffRoundsTowardZeroOfNanos(start: Timespec, end: Timespec)
    requires Normal(start) && Normal(end)
    ensures
      var left := Ns(end) - Ns(start) - CalcTimespecDiffMs(start, end) * NS_PER_MS;
      if end.nsec >= start.nsec then 0 <= left < NS_PER_MS else -NS_PER_MS < left <= 0
  {
    var d := end.nsec - start.nsec;
    var q := TruncDiv(d, NS_PER_MS);
    assert if d >= 0 then 0 <= d - q * NS_PER_MS < NS_PER_MS else -NS_PER_MS < d - q * NS_PER_MS <= 0;
    var s := end.sec - start.sec;
    assert (s * 1000 + q) * NS_PER_MS == s * 1_000_000_000 + q * NS_PER_MS;
  }

  /** Exactly which requests are skipped, in nanoseconds: those that end no later than the
      recorded deadline, or less than a millisecond later where the elapsed time is rounded
      down. */
  lemma SkipsIff(h: Handler, final: int, now: Timespec)
    requires Normal(h.last) && Normal(now)
    ensures
      var late := Ns(now) + final * NS_PER_MS - Deadline(h);
      Skips(h, final, now) <==>
        && !h.state.Idle? && final <= h.durationMs
        && if now.nsec >= h.last.nsec then late < NS_PER_MS else late <= 0
  {
    DiffRoundsTowardZeroOfNanos(h.last, now);
  }

  /** A duration is extended by 650 ms and clamped, except where the addition overflows:
      the longest requests then get the shortest hint. */
  lemma DurationIsClampedIff(duration: int)
    requires -TWO_31 <= duration < TWO_31
    ensures 1400 <= FinalDuration(duration) <= 5650
    ensures
      var wanted := duration + 650;
      var clamped := if wanted < 1400 then 1400 else if wanted > 5650 then 5650 else wanted;
      FinalDuration(duration) == clamped <==> duration < TWO_31 - 650
  {
  }

  lemma SkippedIsCovered(h: Handler, final: int, now: Timespec)
    requires Normal(h.last) && Normal(now) && Skips(h, final, now)
    ensures Ns(now) + final * NS_PER_MS < Deadline(h) + NS_PER_MS
  {
    DiffErrorBelowOneMs(h.last, now);
  }

  lemma AcceptedIsLater(h: Handler, final: int, now: Timespec)
    requires Normal(h.last) && Normal(now) && Ns(h.last) <= Ns(now)
    requires !h.state.Idle? && !Skips(h, final, now)
    ensures Ns(now) + final * NS_PER_MS > Deadline(h)
  {
    DiffErrorBelowOneMs(h.last, now);
  }

  // ---------- what every step keeps ----------

  /** The hint manager holds the hint that was asked for last. */
  predicate Held(hints: seq<Hint>) {
    |hints| > 0 && hints[|hints| - 1] == DoHint
  }

  /** Calls take turns, except that DoHint follows DoHint exactly where an Exit leaked. */
  predicate TurnsExceptAt(hints: seq<Hint>, leaks: set<nat>) {
    && (|hints| > 0 ==> hints[0] == DoHint)
    && (forall i | 0 < i < |hints| :: hints[i] == hints[i - 1] <==> i in leaks)
    && (forall n | n in leaks :: 0 < n <= |hints| && hints[n - 1] == DoHint)
  }

  predicate HintOk(state: HState, hints: seq<Hint>, leaks: set<nat>) {
    && TurnsExceptAt(hints, leaks)
    && (Held(hints) <==> Busy(state) || |hints| in leaks)
    && (Busy(state) ==> |hints| !in leaks)
  }

  /** Where the routine thread is. */
  predicate ThreadOk(state: HState, pc: Pc, aborted: bool) {
    && (!state.Uninitialized? ==> pc.AtCond? || pc.InWait?)
    && (state.Waiting? ==> pc.InWait?)
    && (pc.InWait? ==> !state.Idle?)
    && (pc.InWait? && aborted ==> !state.Waiting?)
  }

  /** Where the eventfd counter is zero and where it is not, and that the files are open as
      long as there is a thread. */
  predicate EventFdOk(state: HState, pc: Pc, eventFd: nat, clears: seq<nat>, open: bool, closing: nat) {
    && (!pc.NoThread? ==> open && closing == 0)
    && (pc.AtCond? && !state.Uninitialized? ==> eventFd == 0)
    && (pc.InWait? ==> (state.Waiting? <==> eventFd == 0))
    && (forall i | 0 <= i < |clears| :: clears[i] > 0)
  }

  /** All this unless some Init came while an Exit had yet to close files. */
  predicate FilesOk(h: Handler) {
    !h.risky ==> EventFdOk(h.state, h.pc, h.eventFd, h.clears, h.open, h.closing)
  }

  predicate TimeOk(h: Handler) {
    && Normal(h.last) && Normal(h.clock) && Ns(h.last) <= Ns(h.clock)
    && (Busy(h.state) ==>
          && |h.recorded| > 0 && h.recorded[|h.recorded| - 1] == Deadline(h)
          && (forall i, j | 0 <= i < j < |h.recorded| :: h.recorded[i] < h.recorded[j])
          && (forall i | 0 <= i < |h.asked| :: h.asked[i] < Deadline(h) + NS_PER_MS))
  }

  predicate Inv(h: Handler) {
    && HintOk(h.state, h.hints, h.leaks)
    && ThreadOk(h.state, h.pc, h.aborted)
    && FilesOk(h)
    && TimeOk(h)
  }

  lemma AppendKeepsTurns(hints: seq<Hint>, leaks: set<nat>, x: Hint)
    requires TurnsExceptAt(hints, leaks)
    requires if |hints| in leaks then x == DoHint else Held(hints) <==> x == EndHint
    ensures TurnsExceptAt(hints + [x], leaks) && |hints + [x]| !in leaks
  {
  }

  /** What a step does to the hint: asks for it, ends it, leaks it, or nothing. */
  predicate HintChange(h: Handler, g: Handler) {
    || (h.state.Idle? && Busy(g.state) && g.hints == h.hints + [DoHint] && g.leaks == h.leaks)
    || (Busy(h.state) && g.state.Idle? && g.hints == h.hints + [EndHint] && g.leaks == h.leaks)
    || (Busy(h.state) && g.state.Uninitialized? && g.hints == h.hints && g.leaks == h.leaks + {|h.hints|})
    || (Busy(h.state) == Busy(g.state) && g.hints == h.hints && g.leaks == h.leaks)
  }

  lemma AcquireChangesHint(h: Handler, duration: int, now: Timespec)
    ensures HintChange(h, DoAcquire(h, duration, now))
  {
  }

  lemma StepChangesHint(h: Handler, step: Step)
    requires Enabled(h, step)
    ensures HintChange(h, Do(h, step))
  {
    if step.Acquire? {
      AcquireChangesHint(h, step.duration, step.now);
    }
  }

  lemma ChangeKeepsHints(h: Handler, g: Handler)
    requires HintChange(h, g) && HintOk(h.state, h.hints, h.leaks)
    ensures HintOk(g.state, g.hints, g.leaks)
  {
    if |g.hints| > |h.hints| {
      AppendKeepsTurns(h.hints, h.leaks, g.hints[|h.hints|]);
    }
  }

  lemma StepKeepsHints(h: Handler, step: Step)
    requires Enabled(h, step) && HintOk(h.state, h.hints, h.leaks)
    ensures var g := Do(h, step); HintOk(g.state, g.hints, g.leaks)
  {
    StepChangesHint(h, step);
    ChangeKeepsHints(h, Do(h, step));
  }

  lemma StepKeepsEventFd(h: Handler, step: Step)
    requires Enabled(h, step) && ThreadOk(h.state, h.pc, h.aborted) && FilesOk(h)
    ensures var g := Do(h, step); ThreadOk(g.state, g.pc, g.aborted) && FilesOk(g)
  {
  }

  lemma AcquireKeepsTime(h: Handler, duration: int, now: Timespec)
    requires Enabled(h, Acquire(duration, now)) && TimeOk(h)
    ensures TimeOk(DoAcquire(h, duration, now))
  {
    var final := FinalDuration(duration);
    if Busy(h.state) {
      if Skips(h, final, now) {
        SkippedIsCovered(h, final, now);
        SkipKeepsTime(h, now, Ns(now) + final * NS_PER_MS);
      } else {
        AcceptedIsLater(h, final, now);
        AcceptKeepsTime(h, DoAcquire(h, duration, now));
      }
    }
  }

  lemma SkipKeepsTime(h: Handler, now: Timespec, deadline: int)
    requires TimeOk(h) && Normal(now) && Ns(h.clock) <= Ns(now) && deadline < Deadline(h) + NS_PER_MS
    ensures TimeOk(h.(clock := now, asked := h.asked + [deadline]))
  {
  }

  lemma AcceptKeepsTime(h: Handler, g: Handler)
    requires TimeOk(h) && Busy(h.state) && Deadline(h) < Deadline(g)
    requires Normal(g.clock) && g.last == g.clock
    requires g.recorded == h.recorded + [Deadline(g)] && g.asked == h.asked + [Deadline(g)]
    ensures TimeOk(g)
  {
    LaterIsRecorded(h.recorded, Deadline(h), Deadline(g));
    assert forall i | 0 <= i < |h.asked| :: h.asked[i] < Deadline(h) + NS_PER_MS;
  }

  /** A deadline after the last one recorded. */
  lemma LaterIsRecorded(recorded: seq<int>, last: int, deadline: int)
    requires |recorded| > 0 && recorded[|recorded| - 1] == last < deadline
    requires forall i, j | 0 <= i < j < |recorded| :: recorded[i] < recorded[j]
    ensures var more := recorded + [deadline]; forall i, j | 0 <= i < j < |more| :: more[i] < more[j]
  {
    assert forall i | 0 <= i < |recorded| :: recorded[i] <= last;
  }

  lemma StepKeepsTime(h: Handler, step: Step)
    requires Enabled(h, step) && TimeOk(h)
    ensures TimeOk(Do(h, step))
  {
    if step.Acquire? {
      AcquireKeepsTime(h, step.duration, step.now);
    }
  }

  lemma {:induction false} RunKeeps(h: Handler, steps: seq<Step>)
    requires Inv(h) && Run(h, steps).Some?
    ensures Inv(Run(h, steps).value)
    decreases |steps|
  {
    if steps != [] {
      StepKeepsHints(h, steps[0]);
      StepKeepsEventFd(h, steps[0]);
      StepKeepsTime(h, steps[0]);
      RunKeeps(Do(h, steps[0]), steps[1..]);
    }
  }

  // ---------- theorems over every run ----------

  /** The hint is held exactly while the handler is busy, or since an Exit that leaked it. In
      runs in which no Init came while an Exit had yet to close files, every wait starts with
      the eventfd at zero, and Release never reads an empty or closed eventfd. */
  lemma HintFollowsState(clock: Timespec, steps: seq<Step>)
    requires Normal(clock) && Run(Initial(clock), steps).Some?
    ensures
      var h := Run(Initial(clock), steps).value;
      && (Held(h.hints) <==> Busy(h.state) || |h.hints| in h.leaks)
      && (!h.risky ==>
            && (!h.state.Uninitialized? ==> h.open)
            && (h.pc.AtCond? && !h.state.Uninitialized? ==> h.eventFd == 0)
            && (h.pc.InWait? ==> (h.eventFd == 0 <==> h.state.Waiting?))
            && (forall i | 0 <= i < |h.clears| :: h.clears[i] > 0))
  {
    RunKeeps(Initial(clock), steps);
  }

  /** DoHint and EndHint alternate if and only if no hint call followed an Exit that
      found the handler busy: Exit does not end the hint. */
  lemma HintsAlternateIff(clock: Timespec, steps: seq<Step>)
    requires Normal(clock) && Run(Initial(clock), steps).Some?
    ensures
      var h := Run(Initial(clock), steps).value;
      (forall i | 0 <= i < |h.hints| :: h.hints[i] == if i % 2 == 0 then DoHint else EndHint)
      <==> h.leaks <= {|h.hints|}
  {
    RunKeeps(Initial(clock), steps);
    var h := Run(Initial(clock), steps).value;
    if h.leaks <= {|h.hints|} {
      TurnsAlternate(h.hints, h.leaks, |h.hints|);
    } else {
      var n :| n in h.leaks && n != |h.hints|;
      assert h.hints[n] == h.hints[n - 1];
    }
  }

  lemma {:induction false} TurnsAlternate(hints: seq<Hint>, leaks: set<nat>, k: nat)
    requires TurnsExceptAt(hints, leaks) && leaks <= {|hints|} && k <= |hints|
    ensures forall i | 0 <= i < k :: hints[i] == if i % 2 == 0 then DoHint else EndHint
  {
    if k > 1 {
      TurnsAlternate(hints, leaks, k - 1);
      assert hints[k - 1] != hints[k - 2];
    }
  }

  function Count(hints: seq<Hint>, x: Hint): nat {
    if hints == [] then 0 else Count(hints[..|hints| - 1], x) + if hints[|hints| - 1] == x then 1 else 0
  }

  /** Every DoHint is ended, still in force, or was leaked by one Exit. */
  predicate Balanced(hints: seq<Hint>, leaks: set<nat>, busy: bool) {
    Count(hints, DoHint) == Count(hints, EndHint) + |leaks| + if busy then 1 else 0
  }

  lemma CountAppends(hints: seq<Hint>, x: Hint)
    ensures Count(hints + [x], DoHint) == Count(hints, DoHint) + if x == DoHint then 1 else 0
    ensures Count(hints + [x], EndHint) == Count(hints, EndHint) + if x == EndHint then 1 else 0
  {
    assert (hints + [x])[..|hints|] == hints;
  }

  lemma BalanceAppends(hints: seq<Hint>, leaks: set<nat>, busy: bool)
    requires Balanced(hints, leaks, busy)
    ensures Balanced(hints + [if busy then EndHint else DoHint], leaks, !busy)
  {
    CountAppends(hints, if busy then EndHint else DoHint);
  }

  lemma BalanceLeaks(hints: seq<Hint>, leaks: set<nat>)
    requires Balanced(hints, leaks, true) && |hints| !in leaks
    ensures Balanced(hints, leaks + {|hints|}, false)
  {
  }

  lemma ChangeKeepsBalance(h: Handler, g: Handler)
    requires HintChange(h, g) && HintOk(h.state, h.hints, h.leaks) && Balanced(h.hints, h.leaks, Busy(h.state))
    ensures Balanced(g.hints, g.leaks, Busy(g.state))
  {
    if |g.hints| > |h.hints| {
      BalanceAppends(h.hints, h.leaks, Busy(h.state));
    } else if g.leaks != h.leaks {
      BalanceLeaks(h.hints, h.leaks);
    }
  }

  lemma StepKeepsBalance(h: Handler, step: Step)
    requires Enabled(h, step) && HintOk(h.state, h.hints, h.leaks) && Balanced(h.hints, h.leaks, Busy(h.state))
    ensures var g := Do(h, step); Balanced(g.hints, g.leaks, Busy(g.state))
  {
    StepChangesHint(h, step);
    ChangeKeepsBalance(h, Do(h, step));
  }

  lemma {:induction false} HintsAreConserved(h: Handler, steps: seq<Step>)
    requires Inv(h) && Balanced(h.hints, h.leaks, Busy(h.state)) && Run(h, steps).Some?
    ensures var g := Run(h, steps).value; Balanced(g.hints, g.leaks, Busy(g.state))
    decreases |steps|
  {
    if steps != [] {
      StepKeepsBalance(h, steps[0]);
      StepKeepsHints(h, steps[0]);
      StepKeepsEventFd(h, steps[0]);
      StepKeepsTime(h, steps[0]);
      HintsAreConserved(Do(h, steps[0]), steps[1..]);
    }
  }

  /** In every run each DoHint is ended, in force, or leaked by one Exit. */
  lemma EveryHintIsAccountedFor(clock: Timespec, steps: seq<Step>)
    requires Normal(clock) && Run(Initial(clock), steps).Some?
    ensures var h := Run(Initial(clock), steps).value; Balanced(h.hints, h.leaks, Busy(h.state))
  {
    HintsAreConserved(Initial(clock), steps);
  }

  /** An Acquire accepted during a wait keeps that wait's Release from ending the hint. */
  lemma AcceptedAcquireSurvivesRelease(
    clock: Timespec, before: seq<Step>, duration: int, now: Timespec, steps: seq<Step>)
    requires Normal(clock) && Run(Initial(clock), before).Some?
    requires
      var h := Run(Initial(clock), before).value;
      && h.pc.InWait? && Accepted(h, duration, now) && Enabled(h, Acquire(duration, now))
      && Release !in steps && Run(DoAcquire(h, duration, now), steps).Some?
    ensures
      var g := Run(DoAcquire(Run(Initial(clock), before).value, duration, now), steps).value;
      && (!g.terminated ==> Enabled(g, Release)) && Held(g.hints)
      && DoRelease(g).hints == g.hints && DoRelease(g).state == g.state
  {
    RunKeeps(Initial(clock), before);
    var h := Run(Initial(clock), before).value;
    StepKeepsHints(h, Acquire(duration, now));
    StepKeepsEventFd(h, Acquire(duration, now));
    StepKeepsTime(h, Acquire(duration, now));
    WaitStaysAborted(DoAcquire(h, duration, now), steps);
  }

  lemma {:induction false} WaitStaysAborted(h: Handler, steps: seq<Step>)
    requires Inv(h) && h.pc.InWait? && h.aborted && Held(h.hints)
    requires Release !in steps && Run(h, steps).Some?
    ensures
      var g := Run(h, steps).value;
      Inv(g) && g.pc.InWait? && g.aborted && Held(g.hints)
    decreases |steps|
  {
    if steps != [] {
      StepKeepsHints(h, steps[0]);
      StepKeepsEventFd(h, steps[0]);
      StepKeepsTime(h, steps[0]);
      WaitStaysAborted(Do(h, steps[0]), steps[1..]);
    }
  }

  /** From leaving Idle the recorded deadline only grows, and every deadline asked for
      since then, accepted or skipped, is less than one millisecond past it. */
  lemma RequestsAreCovered(clock: Timespec, steps: seq<Step>)
    requires Normal(clock) && Run(Initial(clock), steps).Some?
    ensures
      var h := Run(Initial(clock), steps).value;
      Busy(h.state) ==>
        && |h.recorded| > 0 && h.recorded[|h.recorded| - 1] == Deadline(h)
        && (forall i, j | 0 <= i < j < |h.recorded| :: h.recorded[i] < h.recorded[j])
        && (forall i | 0 <= i < |h.asked| :: h.asked[i] < Deadline(h) + NS_PER_MS)
  {
    RunKeeps(Initial(clock), steps);
  }

  lemma RunFirst(h: Handler, step: Step, rest: seq<Step>)
    requires Enabled(h, step)
    ensures Run(h, [step] + rest) == Run(Do(h, step), rest)
  {
    assert ([step] + rest)[1..] == rest;
  }

  /** The bound is tight: a skipped request can end 999999 ns after the recorded deadline. */
  lemma CoverIsTight(h: Handler, t: Timespec)
    requires h.state.Idle? && !h.terminated && Normal(t) && Ns(h.clock) <= Ns(t) && t.nsec == 0
    ensures
      var g := Run(h, [Acquire(1000, t)] + ([Acquire(1000, Timespec(t.sec, 999_999))] + []));
      && g.Some? && Busy(g.value.state) && |g.value.asked| == 2
      && g.value.asked[1] == Deadline(g.value) + 999_999
  {
    var u := Timespec(t.sec, 999_999);
    RunFirst(h, Acquire(1000, t), [Acquire(1000, u)] + []);
    RunFirst(Do(h, Acquire(1000, t)), Acquire(1000, u), []);
  }

  /** Exit in the middle of an interaction, then Init and Acquire: two DoHints in a row. */
  lemma ExitLeaksHint(h: Handler, t: Timespec)
    requires h.state.Idle? && h.pc.AtCond? && !h.terminated && Normal(t) && Ns(h.clock) <= Ns(t)
    ensures
      var acquire := Acquire(1000, t);
      var g := Run(h, [acquire] + ([Exit] + ([Wake] + ([Join] + ([CloseFiles] + ([Init(true)] + ([acquire] + [])))))));
      g.Some? && g.value.hints == h.hints + [DoHint, DoHint] && g.value.leaks == h.leaks + {|h.hints| + 1}
  {
    var acquire := Acquire(1000, t);
    RunFirst(h, acquire, [Exit] + ([Wake] + ([Join] + ([CloseFiles] + ([Init(true)] + ([acquire] + []))))));
    var h1 := Do(h, acquire);
    RunFirst(h1, Exit, [Wake] + ([Join] + ([CloseFiles] + ([Init(true)] + ([acquire] + [])))));
    var h2 := Do(h1, Exit);
    assert h2.hints == h.hints + [DoHint] && h2.leaks == h.leaks + {|h.hints| + 1} && h2.clock == t;
    assert h2.state.Uninitialized? && h2.pc.AtCond? && !h2.terminated;
    ExitedThenAcquired(h2, acquire);
  }

  /** The rest of an Exit, then Init and Acquire. */
  lemma ExitedThenAcquired(h: Handler, acquire: Step)
    requires h.state.Uninitialized? && h.pc.AtCond? && !h.terminated && acquire.Acquire? && Enabled(h, acquire)
    ensures
      var g := Run(h, [Wake] + ([Join] + ([CloseFiles] + ([Init(true)] + ([acquire] + [])))));
      g.Some? && g.value.hints == h.hints + [DoHint] && g.value.leaks == h.leaks
  {
    RunFirst(h, Wake, [Join] + ([CloseFiles] + ([Init(true)] + ([acquire] + []))));
    var h1 := Do(h, Wake);
    RunFirst(h1, Join, [CloseFiles] + ([Init(true)] + ([acquire] + [])));
    var h2 := Do(h1, Join);
    RunFirst(h2, CloseFiles, [Init(true)] + ([acquire] + []));
    var h3 := Do(h2, CloseFiles);
    RunFirst(h3, Init(true), [acquire] + []);
    var h4 := Do(h3, Init(true));
    assert h4.state.Idle? && h4.hints == h.hints && h4.leaks == h.leaks && h4.clock == h.clock;
    RunFirst(h4, acquire, []);
  }

  // ---------- Init while an Exit is under way ----------

  /** The process is gone, or the handler is in use without its files. */
  predicate Spoiled(h: Handler) {
    h.terminated || (!h.state.Uninitialized? && !h.open)
  }

  /** Some run without a further Exit spoils the handler. */
  ghost predicate CanSpoil(h: Handler) {
    exists more :: Exit !in more && Run(h, more).Some? && Spoiled(Run(h, more).value)
  }

  lemma {:induction false} SafeStays(h: Handler, more: seq<Step>)
    requires !h.terminated && !h.state.Uninitialized? && h.open && h.closing == 0
    requires ThreadOk(h.state, h.pc, h.aborted) && Exit !in more && Run(h, more).Some?
    ensures !Spoiled(Run(h, more).value)
    decreases |more|
  {
    if more != [] {
      SafeStep(h, more[0]);
      SafeStays(Do(h, more[0]), more[1..]);
    }
  }

  lemma SafeStep(h: Handler, step: Step)
    requires Enabled(h, step) && !step.Exit?
    requires !h.state.Uninitialized? && h.open && h.closing == 0 && ThreadOk(h.state, h.pc, h.aborted)
    ensures
      var g := Do(h, step);
      !g.terminated && !g.state.Uninitialized? && g.open && g.closing == 0 && ThreadOk(g.state, g.pc, g.aborted)
  {
  }

  lemma CloseSpoils(h: Handler)
    requires !h.terminated && !h.state.Uninitialized? && h.closing > 0
    ensures CanSpoil(h)
  {
    var more := [CloseFiles];
    assert more == [CloseFiles] + [];
    RunFirst(h, CloseFiles, []);
    assert Exit !in more && Run(h, more).Some? && Spoiled(Run(h, more).value);
  }

  /** In every reachable state an Init that opens its files can be spoiled, before any further
      Exit, iff an earlier Exit has yet to join its thread or yet to close its files. */
  lemma InitIsUnsafeIff(clock: Timespec, steps: seq<Step>)
    requires Normal(clock) && Run(Initial(clock), steps).Some?
    requires var h := Run(Initial(clock), steps).value; h.state.Uninitialized? && !h.terminated
    ensures
      var h := Run(Initial(clock), steps).value;
      CanSpoil(Do(h, Init(true))) <==> !h.pc.NoThread? || h.closing > 0
  {
    var h := Run(Initial(clock), steps).value;
    var g := Do(h, Init(true));
    if !h.pc.NoThread? {
      var more: seq<Step> := [];
      assert Exit !in more && Run(g, more).Some? && Spoiled(Run(g, more).value);
    } else if h.closing > 0 {
      CloseSpoils(g);
    } else if CanSpoil(g) {
      var more :| Exit !in more && Run(g, more).Some? && Spoiled(Run(g, more).value);
      SafeStays(g, more);
    }
  }

  /** From any idle state: Exit joins its thread, an Init opens new files, and Exit closes
      those. The handler is then in use without files. */
  lemma ExitClosesNewFiles(h: Handler)
    requires h.state.Idle? && h.pc.AtCond? && !h.terminated
    ensures
      var g := Run(h, [Exit] + ([Wake] + ([Join] + ([Init(true)] + ([CloseFiles] + [])))));
      g.Some? && g.value.state.Idle? && !g.value.open && g.value.risky
  {
    RunFirst(h, Exit, [Wake] + ([Join] + ([Init(true)] + ([CloseFiles] + []))));
    var h1 := Do(h, Exit);
    RunFirst(h1, Wake, [Join] + ([Init(true)] + ([CloseFiles] + [])));
    var h2 := Do(h1, Wake);
    RunFirst(h2, Join, [Init(true)] + ([CloseFiles] + []));
    var h3 := Do(h2, Join);
    RunFirst(h3, Init(true), [CloseFiles] + []);
    RunFirst(Do(h3, Init(true)), CloseFiles, []);
  }

  /** From every initialised state, Exit and an Init before its join terminate the process. */
  lemma InitDuringExitTerminates(clock: Timespec, steps: seq<Step>)
    requires Normal(clock) && Run(Initial(clock), steps).Some?
    requires var h := Run(Initial(clock), steps).value; !h.state.Uninitialized? && !h.terminated
    ensures
      var h := Run(Initial(clock), steps).value;
      var g := Run(h, [Exit] + ([Init(true)] + []));
      g.Some? && g.value.terminated
  {
    RunKeeps(Initial(clock), steps);
    var h := Run(Initial(clock), steps).value;
    assert !h.pc.NoThread?;
    RunFirst(h, Exit, [Init(true)] + []);
    RunFirst(Do(h, Exit), Init(true), []);
  }
}
