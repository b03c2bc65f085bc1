/** The incremental multiplexer refines the simple one. */
module TrackingSafety {
  import opened Options
  import opened Tracking

  lemma OnlyKey(m: map<Key, TrackOptions>, key: Key)
    requires key in m && |m| == 1
    ensures m.Keys == {key} && m - {key} == map[]
  {
    assert |m.Keys| == 1;
    assert m.Keys - {key} == {} by {
      assert |m.Keys - {key}| == 0;
    }
    assert forall k | k in m :: k == key;
  }

  lemma SmallestIsAttained(m: map<Key, TrackOptions>, small: TrackOptions)
    requires IsSmallest(m, small)
    ensures exists k :: k in m && m[k] == small
  {
  }

  /** What every message but the modem restart keeps. */
  ghost predicate Keeps(s: Mux, t: Mux) {
    SyncedUnlessLost(s) ==> SyncedUnlessLost(t) && (t.engine.Lost? ==> s.engine.Lost?)
  }

  lemma StartKeepsSync(s: Mux, op: Op, t: Mux, reply: Error)
    requires op.Start? && op.key !in s.sessions && StartNext(s, op, t, reply)
    ensures Keeps(s, t)
  {
    if op.hasCallback && op.options.size != 0 && reply == Success {
      var m := s.sessions[op.key := op.options];
      assert op.key in m;
      assert forall k | k in s.sessions :: m[k] == s.sessions[k];
    }
  }

  lemma UpdateKeepsSync(s: Mux, op: Op, t: Mux, reply: Option<Error>)
    requires op.Update? && UpdateNext(s, op, t, reply)
    ensures Keeps(s, t)
  {
    if op.key in s.sessions && op.options.size != 0 && reply.value == Success {
      var m := s.sessions[op.key := op.options];
      assert op.key in m;
      if |s.sessions| == 1 {
        OnlyKey(s.sessions, op.key);
      } else if SyncedUnlessLost(s) {
        UpdateKeepsSyncAmongMany(s, op, t, reply.value);
      }
    }
  }

  lemma UpdateKeepsSyncAmongMany(s: Mux, op: Op, t: Mux, err: Error)
    requires SyncedUnlessLost(s) && op.Update? && op.key in s.sessions && |s.sessions| != 1
    requires UpdateMultiplex(s, op.key, op.options, op.ok, t.engine, err) && err == Success
    requires t.sessions == s.sessions[op.key := op.options]
    ensures SyncedUnlessLost(t) && (t.engine.Lost? ==> s.engine.Lost?)
  {
    var others := s.sessions - {op.key};
    var small :| IsSmallest(others, small) &&
      if op.options.minInterval < small.minInterval then StartsFix(s.engine, op.options, op.ok, t.engine, err)
      else if s.sessions[op.key].minInterval < small.minInterval then StartsFix(s.engine, small, op.ok, t.engine, err)
      else Untouched(s.engine, t.engine, err);
    var j :| j in others && others[j] == small;
    var at := if op.options.minInterval < small.minInterval then op.key else j;
    if !s.engine.Lost? {
      LeastOfAll(s, op.key, small);
    }
    if t.engine.On? {
      assert t.engine.value.interval == t.sessions[at].minInterval;
      AtLeast(t, op.key, others, at);
    }
  }

  /** With one session set aside the engine runs at the smaller of it and the others. */
  lemma LeastOfAll(s: Mux, key: Key, small: TrackOptions)
    requires InSync(s) && key in s.sessions && IsSmallest(s.sessions - {key}, small)
    ensures s.engine.On?
    ensures s.engine.value.interval ==
            if s.sessions[key].minInterval < small.minInterval then s.sessions[key].minInterval else small.minInterval
  {
    var others := s.sessions - {key};
    var j :| j in others && others[j] == small;
    assert s.sessions[j] == small;
    assert forall k | k in s.sessions && k != key :: k in others && others[k] == s.sessions[k];
  }

  lemma AtLeast(t: Mux, key: Key, others: map<Key, TrackOptions>, at: Key)
    requires t.engine.On? && others == t.sessions - {key} && key in t.sessions
    requires at in t.sessions && t.sessions[at].minInterval == t.engine.value.interval
    requires t.engine.value.interval <= t.sessions[key].minInterval
    requires forall k | k in others :: t.engine.value.interval <= others[k].minInterval
    ensures InSync(t)
  {
    assert forall k | k in t.sessions && k != key :: k in others && t.sessions[k] == others[k];
  }

  lemma StopKeepsSync(s: Mux, key: Key, ok: bool, t: Mux, err: Error)
    requires key in s.sessions && StopOne(s, key, ok, t, err)
    ensures Keeps(s, t)
  {
    if err == Success && SyncedUnlessLost(s) {
      if |s.sessions| == 1 {
        OnlyKey(s.sessions, key);
      } else {
        var others := s.sessions - {key};
        var small :| IsSmallest(others, small) &&
          if s.sessions[key].minInterval < small.minInterval then StartsFix(s.engine, small, ok, t.engine, err)
          else Untouched(s.engine, t.engine, err);
        var j :| j in others && others[j] == small;
        if !s.engine.Lost? {
          LeastOfAll(s, key, small);
        }
        assert t.sessions == others;
      }
    }
  }

  lemma {:induction false} StopEachKeepsSync(s: Mux, keys: seq<Key>, answers: map<Key, bool>, t: Mux)
    requires StopEach(s, keys, answers, t)
    ensures Keeps(s, t)
    decreases |keys|
  {
    if keys != [] {
      var last := keys[|keys| - 1];
      var u, err :| StopEach(s, keys[..|keys| - 1], answers, u) && last in u.sessions
        && StopOne(u, last, AnswerFor(answers, last), t, err);
      StopEachKeepsSync(s, keys[..|keys| - 1], answers, u);
      StopKeepsSync(u, last, AnswerFor(answers, last), t, err);
    }
  }

  lemma StopOneRemoves(u: Mux, key: Key, ok: bool, t: Mux, err: Error)
    requires key in u.sessions && StopOne(u, key, ok, t, err)
    ensures t.sessions == u.sessions - {key} || (!ok && t.sessions == u.sessions)
  {
  }

  function Tried(keys: seq<Key>): set<Key> {
    set k | k in keys
  }

  /** What is left of the sessions `m` once those in `tried` have been stopped. */
  predicate Leaves(m: map<Key, TrackOptions>, tried: set<Key>, answers: map<Key, bool>, left: map<Key, TrackOptions>) {
    && (forall k | k in left :: k in m && left[k] == m[k])
    && (forall k | k in m && k !in tried :: k in left)
    && (forall k | k in tried && AnswerFor(answers, k) :: k !in left)
  }

  lemma LeavesAppends(m: map<Key, TrackOptions>, tried: set<Key>, answers: map<Key, bool>,
                      left: map<Key, TrackOptions>, key: Key, left': map<Key, TrackOptions>)
    requires Leaves(m, tried, answers, left)
    requires left' == left - {key} || (!AnswerFor(answers, key) && left' == left)
    ensures Leaves(m, tried + {key}, answers, left')
  {
  }

  lemma TriedLast(keys: seq<Key>)
    requires keys != []
    ensures Tried(keys) == Tried(keys[..|keys| - 1]) + {keys[|keys| - 1]}
  {
    assert keys == keys[..|keys| - 1] + [keys[|keys| - 1]];
  }

  /** Removing a client takes out every session whose stop the engine answers with success,
      and no session of another client. */
  lemma {:induction false} StopEachRemoves(s: Mux, keys: seq<Key>, answers: map<Key, bool>, t: Mux)
    requires StopEach(s, keys, answers, t)
    ensures Leaves(s.sessions, Tried(keys), answers, t.sessions)
    decreases |keys|
  {
    if keys != [] {
      var before, last := keys[..|keys| - 1], keys[|keys| - 1];
      var u := LastStop(s, keys, answers, t);
      StopEachRemoves(s, before, answers, u);
      LeavesAppends(s.sessions, Tried(before), answers, u.sessions, last, t.sessions);
      TriedLast(keys);
    }
  }

  lemma LastStop(s: Mux, keys: seq<Key>, answers: map<Key, bool>, t: Mux) returns (u: Mux)
    requires StopEach(s, keys, answers, t) && keys != []
    ensures
      var last := keys[|keys| - 1];
      && StopEach(s, keys[..|keys| - 1], answers, u)
      && (t.sessions == u.sessions - {last} || (!AnswerFor(answers, last) && t.sessions == u.sessions))
  {
    var last := keys[|keys| - 1];
    var err;
    u, err :| StopEach(s, keys[..|keys| - 1], answers, u) && last in u.sessions
      && StopOne(u, last, AnswerFor(answers, last), t, err);
    StopOneRemoves(u, last, AnswerFor(answers, last), t, err);
  }

  /** removeClientCommand leaves other clients alone, and no session of a client whose
      stops the engine all answers with success. */
  lemma RemovedClientIsGone(s: Mux, op: Op, t: Mux)
    requires op.RemoveClient? && RemoveNext(s, op, t)
    ensures forall k | k in t.sessions :: k in s.sessions && t.sessions[k] == s.sessions[k]
    ensures forall k | k in s.sessions && k.client != op.client :: k in t.sessions
    ensures forall k | k in s.sessions && k.client == op.client && AnswerFor(op.answers, k) :: k !in t.sessions
  {
    var keys :| ListsClient(s.sessions, op.client, keys) && StopEach(s, keys, op.answers, t);
    StopEachRemoves(s, keys, op.answers, t);
  }

  lemma EngineUpKeepsSync(s: Mux, ok: bool, t: Mux)
    requires EngineUpNext(s, ok, t)
    ensures Keeps(s, t)
    ensures ok && s.sessions != map[] ==> InSync(t)
  {
    if s.sessions != map[] {
      var small, err :| IsSmallest(s.sessions, small) && StartsFix(s.engine, small, ok, t.engine, err);
      SmallestIsAttained(s.sessions, small);
    }
  }

  lemma NextKeepsSync(s: Mux, op: Op, t: Mux)
    requires Next(s, op, t) && !op.EngineLost?
    requires op.Start? ==> op.key !in s.sessions
    ensures Keeps(s, t)
  {
    match op
    case Start(_, _, _, _) =>
      var reply :| StartNext(s, op, t, reply);
      StartKeepsSync(s, op, t, reply);
    case Update(_, _, _) =>
      var reply :| UpdateNext(s, op, t, reply);
      UpdateKeepsSync(s, op, t, reply);
    case Stop(key, ok) =>
      var reply :| StopNext(s, op, t, reply);
      if key in s.sessions {
        StopKeepsSync(s, key, ok, t, reply.value);
      }
    case RemoveClient(client, answers) =>
      var keys :| ListsClient(s.sessions, client, keys) && StopEach(s, keys, answers, t);
      StopEachKeepsSync(s, keys, answers, t);
    case EngineUp(ok) =>
      EngineUpKeepsSync(s, ok, t);
  }

  lemma {:induction false} RunKeepsSync(states: seq<Mux>, ops: seq<Op>, i: nat)
    requires IsRun(states, ops) && i < |states|
    ensures SyncedUnlessLost(states[i])
    ensures (forall j | 0 <= j < i :: !ops[j].EngineLost?) ==> !states[i].engine.Lost?
  {
    if i > 0 {
      RunKeepsSync(states, ops, i - 1);
      if !ops[i - 1].EngineLost? {
        NextKeepsSync(states[i - 1], ops[i - 1], states[i]);
      }
    }
  }

  /** After any run without modem restart the engine is stopped iff there is no session, and
      otherwise runs at the least interval of all sessions. */
  lemma EngineRunsAtLeastInterval(states: seq<Mux>, ops: seq<Op>, i: nat)
    requires IsRun(states, ops) && i < |states| && forall j | 0 <= j < i :: !ops[j].EngineLost?
    ensures InSync(states[i])
  {
    RunKeepsSync(states, ops, i);
  }

  /** After any run at all this fails iff there are sessions and the engine was lost to a
      modem restart without a successful call to it since. */
  lemma EngineFailsSessionsIff(states: seq<Mux>, ops: seq<Op>, i: nat)
    requires IsRun(states, ops) && i < |states|
    ensures !InSync(states[i]) <==> states[i].engine.Lost? && states[i].sessions != map[]
  {
    RunKeepsSync(states, ops, i);
  }

  /** The key's interval is below that of every other session. */
  predicate Below(m: map<Key, TrackOptions>, key: Key, interval: nat) {
    forall k | k in m && k != key :: interval < m[k].minInterval
  }

  /** Whether a message makes the multiplexer call the engine. */
  predicate CallsEngine(m: map<Key, TrackOptions>, op: Op)
    requires op.Start? || op.Update? || op.Stop? || op.EngineUp?
  {
    match op
    case Start(key, o, hasCallback, _) => hasCallback && o.size != 0 && Below(m, key, o.minInterval)
    case Update(key, o, _) =>
      key in m && o.size != 0 && (Below(m, key, o.minInterval) || Below(m, key, m[key].minInterval))
    case Stop(key, _) => key in m && Below(m, key, m[key].minInterval)
    case EngineUp(_) => m != map[]
  }

  lemma BelowSmallest(m: map<Key, TrackOptions>, key: Key, small: TrackOptions, interval: nat)
    requires IsSmallest(m - {key}, small)
    ensures Below(m, key, interval) <==> interval < small.minInterval
  {
    var others := m - {key};
    var j :| j in others && others[j] == small;
    assert j in m && j != key && m[j] == small;
    assert forall k | k in m && k != key :: k in others && others[k] == m[k];
  }

  /** A lost engine is found again by the first message that calls it with success. */
  lemma LostUntilCalledIff(s: Mux, op: Op, t: Mux)
    requires s.engine.Lost? && Next(s, op, t)
    requires op.Start? || op.Update? || op.Stop? || op.EngineUp?
    requires op.Start? ==> op.key !in s.sessions
    ensures t.engine.Lost? <==> !(op.ok && CallsEngine(s.sessions, op))
  {
    var m := s.sessions;
    match op
    case Start(key, o, _, _) =>
      assert m - {key} == m;
      forall small | IsSmallest(m, small) ensures Below(m, key, o.minInterval) <==> o.minInterval < small.minInterval {
        BelowSmallest(m, key, small, o.minInterval);
      }
    case Update(key, o, _) =>
      if key in m {
        LostUpdateIff(m, key, o.minInterval);
      }
    case Stop(key, _) =>
      if key in m {
        LostUpdateIff(m, key, m[key].minInterval);
      }
    case EngineUp(_) =>
  }

  lemma LostUpdateIff(m: map<Key, TrackOptions>, key: Key, interval: nat)
    requires key in m
    ensures |m| == 1 ==> Below(m, key, interval) && Below(m, key, m[key].minInterval)
    ensures forall small | IsSmallest(m - {key}, small) ::
              && (Below(m, key, interval) <==> interval < small.minInterval)
              && (Below(m, key, m[key].minInterval) <==> m[key].minInterval < small.minInterval)
  {
    if |m| == 1 {
      OnlyKey(m, key);
    }
    forall small | IsSmallest(m - {key}, small)
      ensures Below(m, key, interval) <==> interval < small.minInterval
      ensures Below(m, key, m[key].minInterval) <==> m[key].minInterval < small.minInterval
    {
      BelowSmallest(m, key, small, interval);
      BelowSmallest(m, key, small, m[key].minInterval);
    }
  }

  /** Whether stopping `key` makes the multiplexer call the engine. */
  predicate StopCalls(m: map<Key, TrackOptions>, key: Key) {
    key in m && Below(m, key, m[key].minInterval)
  }

  /** The sessions left when `keys` have been stopped one by one and no call to the engine has
      succeeded: a session whose stop needed a call stays. */
  function LeftWhileLost(m: map<Key, TrackOptions>, keys: seq<Key>): map<Key, TrackOptions>
    decreases |keys|
  {
    if keys == [] then m
    else
      var left, last := LeftWhileLost(m, keys[..|keys| - 1]), keys[|keys| - 1];
      if StopCalls(left, last) then left else left - {last}
  }

  /** Stopping `keys` one by one calls the engine with success at some point. */
  predicate FindsEngine(m: map<Key, TrackOptions>, keys: seq<Key>, answers: map<Key, bool>)
    decreases |keys|
  {
    keys != [] &&
    var before, last := keys[..|keys| - 1], keys[|keys| - 1];
    FindsEngine(m, before, answers) || (StopCalls(LeftWhileLost(m, before), last) && AnswerFor(answers, last))
  }

  lemma LostStop(u: Mux, key: Key, ok: bool, t: Mux, err: Error)
    requires u.engine.Lost? && key in u.sessions && StopOne(u, key, ok, t, err)
    ensures t.engine.Lost? <==> !(ok && StopCalls(u.sessions, key))
    ensures t.engine.Lost? ==> t.sessions == if StopCalls(u.sessions, key) then u.sessions else u.sessions - {key}
  {
    LostUpdateIff(u.sessions, key, u.sessions[key].minInterval);
  }

  lemma FoundStaysFound(u: Mux, key: Key, ok: bool, t: Mux, err: Error)
    requires !u.engine.Lost? && key in u.sessions && StopOne(u, key, ok, t, err)
    ensures !t.engine.Lost?
  {
  }

  lemma {:induction false} StopEachFindsIff(s: Mux, keys: seq<Key>, answers: map<Key, bool>, t: Mux)
    requires s.engine.Lost? && StopEach(s, keys, answers, t)
    ensures t.engine.Lost? <==> !FindsEngine(s.sessions, keys, answers)
    ensures t.engine.Lost? ==> t.sessions == LeftWhileLost(s.sessions, keys)
    decreases |keys|
  {
    if keys != [] {
      var before, last := keys[..|keys| - 1], keys[|keys| - 1];
      var u, err :| StopEach(s, before, answers, u) && last in u.sessions
        && StopOne(u, last, AnswerFor(answers, last), t, err);
      StopEachFindsIff(s, before, answers, u);
      if u.engine.Lost? {
        LostStop(u, last, AnswerFor(answers, last), t, err);
      } else {
        FoundStaysFound(u, last, AnswerFor(answers, last), t, err);
      }
    }
  }

  /** The same for removing a client: the sessions are stopped one by one, in some order. */
  lemma RemovalFindsIff(s: Mux, op: Op, t: Mux)
    requires s.engine.Lost? && op.RemoveClient? && RemoveNext(s, op, t)
    ensures exists keys | ListsClient(s.sessions, op.client, keys) ::
              t.engine.Lost? <==> !FindsEngine(s.sessions, keys, op.answers)
  {
    var keys :| ListsClient(s.sessions, op.client, keys) && StopEach(s, keys, op.answers, t);
    StopEachFindsIff(s, keys, op.answers, t);
  }

  /** A modem restart is survived iff the call of restartSessions, whose answer nobody looks
      at, succeeds, or there is nothing to restart. */
  lemma RestartSyncsIff(s: Mux, u: Mux, ok: bool, t: Mux)
    requires EngineLostNext(s, u) && EngineUpNext(u, ok, t)
    ensures InSync(t) <==> ok || s.sessions == map[]
  {
    EngineUpKeepsSync(u, ok, t);
  }

  /** A run in which one session is left without an engine. */
  lemma RestartCanFail(key: Key, o: TrackOptions)
    requires o.size != 0
    ensures
      var m := map[key := o];
      var states := [NO_SESSIONS, Mux(m, On(ConvertOptions(o))), Mux(m, Lost), Mux(m, Lost)];
      var ops := [Start(key, o, true, true), EngineLost, EngineUp(false)];
      IsRun(states, ops) && !InSync(states[3])
  {
    var m := map[key := o];
    var on, lost := Mux(m, On(ConvertOptions(o))), Mux(m, Lost);
    assert StartNext(NO_SESSIONS, Start(key, o, true, true), on, Success);
    assert key in m && IsSmallest(m, o);
    assert StartsFix(Lost, o, false, Lost, GeneralFailure);
    assert EngineUpNext(lost, false, lost);
  }

  /** Starting under a key that is in use breaks this iff the old options are overwritten
      by a longer interval while they were the only ones with the engine's interval. */
  lemma ReusedKeyKeepsSyncIff(s: Mux, op: Op, t: Mux, reply: Error)
    requires InSync(s) && op.Start? && op.key in s.sessions && StartNext(s, op, t, reply)
    requires op.hasCallback && op.options.size != 0
    ensures
      var held := s.sessions[op.key].minInterval;
      InSync(t) <==>
        !(&& op.options.minInterval > held
          && forall k | k in s.sessions && k != op.key :: held < s.sessions[k].minInterval)
  {
    var m := s.sessions[op.key := op.options];
    var small :| IsSmallest(s.sessions, small) &&
      if op.options.minInterval < small.minInterval then StartsFix(s.engine, op.options, op.ok, t.engine, reply)
      else Untouched(s.engine, t.engine, reply);
    SmallestIsAttained(s.sessions, small);
    var least := s.engine.value.interval;
    assert small.minInterval == least;
    if op.options.minInterval < least {
      if op.ok {
        OverwriteAtLeast(s.sessions, op.key, op.options, op.options.minInterval);
      }
    } else {
      OverwriteAtLeastIff(s.sessions, op.key, op.options, least);
    }
  }

  /** A new least interval. */
  lemma OverwriteAtLeast(m: map<Key, TrackOptions>, key: Key, o: TrackOptions, interval: nat)
    requires o.minInterval == interval && forall k | k in m :: interval <= m[k].minInterval
    ensures AtLeastInterval(m[key := o], interval)
  {
    var after := m[key := o];
    assert key in after && after[key] == o;
  }

  /** The old least interval is still the least iff another session has it or the
      overwritten one keeps it or never had it. */
  lemma OverwriteAtLeastIff(m: map<Key, TrackOptions>, key: Key, o: TrackOptions, least: nat)
    requires key in m && AtLeastInterval(m, least) && least <= o.minInterval
    ensures AtLeastInterval(m[key := o], least) <==>
            !(&& o.minInterval > m[key].minInterval
              && forall k | k in m && k != key :: m[key].minInterval < m[k].minInterval)
  {
    var after := m[key := o];
    assert key in after && after[key] == o;
    assert forall k | k in m && k != key :: k in after && after[k] == m[k];
    assert forall k | k in after && k != key :: k in m;
  }
}
