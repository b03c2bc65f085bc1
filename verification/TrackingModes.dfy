/** Whose mode the engine runs with: the interval is always right, the mode need not be. */
module TrackingModes {
  import opened Options
  import opened Tracking
  import opened TrackingSafety

  /** Some session other than `key` is the one the engine runs for. */
  ghost predicate OwnedByOther(s: Mux, key: Key)
    requires s.engine.On?
  {
    exists k | k in s.sessions && k != key :: ConvertOptions(s.sessions[k]) == s.engine.value
  }

  /** Some session other than `key` has the interval of `key`. */
  ghost predicate Tied(s: Mux, key: Key)
    requires key in s.sessions
  {
    exists k | k in s.sessions && k != key :: s.sessions[k].minInterval == s.sessions[key].minInterval
  }

  lemma OthersOf(s: Mux, key: Key)
    requires s.engine.On?
    ensures OwnedByOther(s, key) <==>
            exists k | k in s.sessions - {key} :: ConvertOptions((s.sessions - {key})[k]) == s.engine.value
  {
    var others := s.sessions - {key};
    if OwnedByOther(s, key) {
      var k :| k in s.sessions && k != key && ConvertOptions(s.sessions[k]) == s.engine.value;
      assert k in others && others[k] == s.sessions[k];
    }
  }

  /** Stopping a session leaves the engine in a mode that nobody asks for iff no other session
      runs as the engine does while one has the interval of the stopped session. */
  lemma StopKeepsOwnerIff(s: Mux, key: Key, ok: bool, t: Mux)
    requires InSync(s) && Owned(s) && key in s.sessions && |s.sessions| > 1
    requires StopOne(s, key, ok, t, Success)
    ensures s.engine.On?
    ensures Owned(t) <==> OwnedByOther(s, key) || !Tied(s, key)
  {
    var others := s.sessions - {key};
    var small :| IsSmallest(others, small) &&
      if s.sessions[key].minInterval < small.minInterval then StartsFix(s.engine, small, ok, t.engine, Success)
      else Untouched(s.engine, t.engine, Success);
    var j :| j in others && others[j] == small;
    LeastOfAll(s, key, small);
    OthersOf(s, key);
    if s.sessions[key].minInterval < small.minInterval {
      assert t.sessions[j] == small;
      assert forall k | k in s.sessions && k != key :: k in others && s.sessions[k] == others[k];
    } else {
      assert s.sessions[j] == small;
    }
  }

  /** The same for an update that does not shorten the interval. */
  lemma UpdateKeepsOwnerIff(s: Mux, op: Op, t: Mux)
    requires InSync(s) && Owned(s) && op.Update? && op.key in s.sessions && |s.sessions| > 1
    requires op.options.size != 0 && UpdateNext(s, op, t, Some(Success))
    ensures s.engine.On?
    ensures Owned(t) <==>
            || OwnedByOther(s, op.key) || !Tied(s, op.key) || ConvertOptions(op.options) == s.engine.value
            || op.options.minInterval < s.sessions[op.key].minInterval
  {
    var others := s.sessions - {op.key};
    var small :| IsSmallest(others, small) &&
      if op.options.minInterval < small.minInterval then StartsFix(s.engine, op.options, op.ok, t.engine, Success)
      else if s.sessions[op.key].minInterval < small.minInterval then StartsFix(s.engine, small, op.ok, t.engine, Success)
      else Untouched(s.engine, t.engine, Success);
    var j :| j in others && others[j] == small;
    LeastOfAll(s, op.key, small);
    assert s.sessions[j] == small && t.sessions[j] == small && t.sessions[op.key] == op.options;
    assert forall k | k in s.sessions && k != op.key :: k in others && s.sessions[k] == others[k];
    assert forall k | k in s.sessions && k != op.key :: t.sessions[k] == s.sessions[k];
    UpdateOwnerByCase(s, op, t, small, j);
  }

  lemma UpdateOwnerByCase(s: Mux, op: Op, t: Mux, small: TrackOptions, j: Key)
    requires op.Update? && op.key in s.sessions && s.engine.On? && Owned(s)
    requires j in s.sessions && j != op.key && s.sessions[j] == small
    requires forall k | k in s.sessions && k != op.key :: small.minInterval <= s.sessions[k].minInterval
    requires t.sessions == s.sessions[op.key := op.options]
    requires s.engine.value.interval ==
             if s.sessions[op.key].minInterval < small.minInterval then s.sessions[op.key].minInterval else small.minInterval
    requires
      if op.options.minInterval < small.minInterval then StartsFix(s.engine, op.options, op.ok, t.engine, Success)
      else if s.sessions[op.key].minInterval < small.minInterval then StartsFix(s.engine, small, op.ok, t.engine, Success)
      else Untouched(s.engine, t.engine, Success)
    ensures Owned(t) <==>
            || OwnedByOther(s, op.key) || !Tied(s, op.key) || ConvertOptions(op.options) == s.engine.value
            || op.options.minInterval < s.sessions[op.key].minInterval
  {
    assert t.sessions[op.key] == op.options && t.sessions[j] == small;
    if op.options.minInterval < small.minInterval {
      assert Owned(t);
    } else if s.sessions[op.key].minInterval < small.minInterval {
      assert Owned(t);
    } else {
      assert Owned(t) <==> OwnedByOther(s, op.key) || ConvertOptions(op.options) == s.engine.value by {
        assert forall k | k in s.sessions && k != op.key :: k in t.sessions && t.sessions[k] == s.sessions[k];
        assert forall k | k in t.sessions && k != op.key :: k in s.sessions;
      }
    }
  }

  /** Two sessions at the same interval in different modes: stopping the first leaves the
      engine MS-based although the only session left asked for standalone. */
  lemma StopCanOrphanMode()
    ensures
      var a, b := Key(1, 2), Key(2, 3);
      var s := Mux(map[a := TrackOptions(1, 1000, 0, MsBased), b := TrackOptions(1, 1000, 0, Standalone)],
                   On(Fix(MsBased, 1000)));
      var t := Mux(map[b := TrackOptions(1, 1000, 0, Standalone)], s.engine);
      InSync(s) && Owned(s) && Next(s, Stop(a, true), t) && InSync(t) && !Owned(t)
  {
    var a, b := Key(1, 2), Key(2, 3);
    var o := TrackOptions(1, 1000, 0, Standalone);
    var s := Mux(map[a := TrackOptions(1, 1000, 0, MsBased), b := o], On(Fix(MsBased, 1000)));
    var t := Mux(map[b := o], s.engine);
    assert a in s.sessions && b in t.sessions;
    assert s.sessions - {a} == t.sessions;
    assert |s.sessions| == 2;
    assert IsSmallest(t.sessions, o);
    assert StopMultiplex(s, a, true, t.engine, Success);
    assert StopNext(s, Stop(a, true), t, Some(Success));
  }

  /** A run from no sessions to such a state. */
  lemma RunCanOrphanMode()
    ensures
      var a, b := Key(1, 2), Key(2, 3);
      var x, y := TrackOptions(1, 1000, 0, MsBased), TrackOptions(1, 1000, 0, Standalone);
      var on := On(Fix(MsBased, 1000));
      var states := [NO_SESSIONS, Mux(map[a := x], on), Mux(map[a := x, b := y], on), Mux(map[b := y], on)];
      var ops := [Start(a, x, true, true), Start(b, y, true, true), Stop(a, true)];
      IsRun(states, ops) && !Owned(states[3])
  {
    var a, b := Key(1, 2), Key(2, 3);
    var x, y := TrackOptions(1, 1000, 0, MsBased), TrackOptions(1, 1000, 0, Standalone);
    var s := Mux(map[a := x], On(Fix(MsBased, 1000)));
    assert StartNext(NO_SESSIONS, Start(a, x, true, true), s, Success);
    assert a in s.sessions && IsSmallest(s.sessions, x);
    assert s.sessions[b := y] == map[a := x, b := y];
    assert StartNext(s, Start(b, y, true, true), Mux(map[a := x, b := y], s.engine), Success);
    StopCanOrphanMode();
  }

  // ---------- where intervals determine modes ----------

  /** Every session at the engine's interval has the engine's mode. */
  predicate ModeFits(s: Mux) {
    s.engine.On? ==>
      forall k | k in s.sessions :: s.sessions[k].minInterval == s.engine.value.interval ==> s.sessions[k].mode == s.engine.value.mode
  }

  lemma FitsIfOwned(s: Mux)
    requires Owned(s) && OneModePerInterval(s.sessions)
    ensures ModeFits(s)
  {
  }

  lemma OwnedIfFits(s: Mux)
    requires SyncedUnlessLost(s) && ModeFits(s)
    ensures Owned(s)
  {
  }

  lemma StopKeepsFit(s: Mux, key: Key, ok: bool, t: Mux, err: Error)
    requires SyncedUnlessLost(s) && ModeFits(s) && OneModePerInterval(s.sessions)
    requires key in s.sessions && StopOne(s, key, ok, t, err)
    ensures ModeFits(t) && OneModePerInterval(t.sessions)
  {
    if err == Success && |s.sessions| == 1 {
      OnlyKey(s.sessions, key);
    }
  }

  lemma {:induction false} StopEachKeepsFit(s: Mux, keys: seq<Key>, answers: map<Key, bool>, t: Mux)
    requires SyncedUnlessLost(s) && ModeFits(s) && OneModePerInterval(s.sessions) && StopEach(s, keys, answers, t)
    ensures ModeFits(t) && OneModePerInterval(t.sessions)
    decreases |keys|
  {
    if keys != [] {
      var last := keys[|keys| - 1];
      var u, err :| StopEach(s, keys[..|keys| - 1], answers, u) && last in u.sessions
        && StopOne(u, last, AnswerFor(answers, last), t, err);
      StopEachKeepsFit(s, keys[..|keys| - 1], answers, u);
      StopEachKeepsSync(s, keys[..|keys| - 1], answers, u);
      StopKeepsFit(u, last, AnswerFor(answers, last), t, err);
    }
  }

  lemma StartKeepsOwner(s: Mux, op: Op, t: Mux, reply: Error)
    requires SyncedUnlessLost(s) && Owned(s) && op.Start? && op.key !in s.sessions && StartNext(s, op, t, reply)
    ensures Owned(t)
  {
    if t.sessions != s.sessions {
      assert op.key in t.sessions && t.sessions[op.key] == op.options;
      assert forall k | k in s.sessions :: k in t.sessions && t.sessions[k] == s.sessions[k];
    }
  }

  lemma TieIsOwner(s: Mux, key: Key)
    requires Owned(s) && s.engine.On? && OneModePerInterval(s.sessions) && key in s.sessions && Tied(s, key)
    ensures OwnedByOther(s, key)
  {
    var j :| j in s.sessions && j != key && s.sessions[j].minInterval == s.sessions[key].minInterval;
    assert s.sessions[j].mode == s.sessions[key].mode;
    var k :| k in s.sessions && ConvertOptions(s.sessions[k]) == s.engine.value;
    assert ConvertOptions(s.sessions[if k == key then j else k]) == s.engine.value;
  }

  lemma LostUpdateKeepsOwner(s: Mux, op: Op, t: Mux)
    requires s.engine.Lost? && op.Update? && op.key in s.sessions && |s.sessions| != 1
    requires op.options.size != 0 && UpdateNext(s, op, t, Some(Success))
    ensures Owned(t)
  {
    var others := s.sessions - {op.key};
    var small :| IsSmallest(others, small) &&
      if op.options.minInterval < small.minInterval then StartsFix(s.engine, op.options, op.ok, t.engine, Success)
      else if s.sessions[op.key].minInterval < small.minInterval then StartsFix(s.engine, small, op.ok, t.engine, Success)
      else Untouched(s.engine, t.engine, Success);
    var j :| j in others && others[j] == small;
    assert t.sessions[j] == small && t.sessions[op.key] == op.options;
  }

  lemma UpdateKeepsOwner(s: Mux, op: Op, t: Mux, reply: Option<Error>)
    requires SyncedUnlessLost(s) && Owned(s) && OneModePerInterval(s.sessions) && op.Update? && UpdateNext(s, op, t, reply)
    ensures Owned(t)
  {
    if op.key in s.sessions && op.options.size != 0 && reply == Some(Success) {
      if |s.sessions| == 1 {
        assert t.sessions[op.key] == op.options;
      } else if s.engine.Lost? {
        LostUpdateKeepsOwner(s, op, t);
      } else {
        assert |s.sessions| > 1;
        UpdateKeepsOwnerIff(s, op, t);
        if Tied(s, op.key) {
          TieIsOwner(s, op.key);
        }
      }
    }
  }

  lemma NextKeepsOwner(s: Mux, op: Op, t: Mux)
    requires SyncedUnlessLost(s) && Owned(s) && OneModePerInterval(s.sessions) && Next(s, op, t)
    requires op.Start? ==> op.key !in s.sessions
    ensures Owned(t)
  {
    if !op.EngineLost? {
      NextKeepsSync(s, op, t);
    }
    match op
    case Start(_, _, _, _) =>
      var reply :| StartNext(s, op, t, reply);
      StartKeepsOwner(s, op, t, reply);
    case Update(_, _, _) =>
      var reply :| UpdateNext(s, op, t, reply);
      UpdateKeepsOwner(s, op, t, reply);
    case Stop(key, ok) =>
      var reply :| StopNext(s, op, t, reply);
      FitsIfOwned(s);
      if key in s.sessions {
        StopKeepsFit(s, key, ok, t, reply.value);
      }
      OwnedIfFits(t);
    case RemoveClient(client, answers) =>
      var keys :| ListsClient(s.sessions, client, keys) && StopEach(s, keys, answers, t);
      FitsIfOwned(s);
      StopEachKeepsFit(s, keys, answers, t);
      OwnedIfFits(t);
    case EngineLost =>
    case EngineUp(ok) =>
  }

  /** Where sessions of one interval always share one mode, the engine runs exactly as
      some live session asked, after every run. */
  lemma {:induction false} EngineServesSomeSession(states: seq<Mux>, ops: seq<Op>, i: nat)
    requires IsRun(states, ops) && i < |states|
    requires forall j | 0 <= j < i :: OneModePerInterval(states[j].sessions)
    ensures Owned(states[i])
  {
    if i > 0 {
      EngineServesSomeSession(states, ops, i - 1);
      RunKeepsSync(states, ops, i - 1);
      NextKeepsOwner(states[i - 1], ops[i - 1], states[i]);
    }
  }
}
