/** The multiplexer as the object that gps/gnss/GnssAdapter.cpp updates, loop by loop. */
module TrackingAdapter {
  import opened Options
  import opened Tracking

  class GnssAdapter {
    var mTrackingSessions: map<Key, TrackOptions>
    var engine: Engine

    ghost function Value(): Mux
      reads this
    {
      Mux(mTrackingSessions, engine)
    }

    ghost predicate Valid()
      reads this
    {
      Sized(mTrackingSessions)
    }

    constructor ()
      ensures Valid() && Value() == NO_SESSIONS
    {
      mTrackingSessions, engine := map[], Off;
    }

    /** The search loop that the calls below share: a size of zero means none seen yet. */
    method smallestInterval(sessions: map<Key, TrackOptions>) returns (small: TrackOptions)
      requires Sized(sessions)
      ensures if sessions == map[] then small.size == 0 else IsSmallest(sessions, small)
    {
      small := TrackOptions(0, 0, 0, Standalone);
      var todo := sessions.Keys;
      while todo != {}
        invariant todo <= sessions.Keys
        invariant small.size == 0 <==> todo == sessions.Keys
        invariant small.size != 0 ==> small in sessions.Values
        invariant small.size != 0 ==> forall k | k in sessions && k !in todo :: small.minInterval <= sessions[k].minInterval
        decreases |todo|
      {
        var k :| k in todo;
        if small.size == 0 || sessions[k].minInterval < small.minInterval {
          small := sessions[k];
        }
        todo := todo - {k};
      }
    }

    method startTracking(options: TrackOptions, ok: bool) returns (err: Error)
      modifies this`engine
      ensures StartsFix(old(engine), options, ok, engine, err)
    {
      if ok {
        engine := On(ConvertOptions(options));
        return Success;
      }
      err := GeneralFailure;
    }

    method stopTracking(ok: bool) returns (err: Error)
      modifies this`engine
      ensures err == Answer(ok) && engine == if ok then Off else old(engine)
    {
      if ok {
        engine := Off;
        return Success;
      }
      err := GeneralFailure;
    }

    method startTrackingMultiplex(options: TrackOptions, ok: bool) returns (err: Error)
      requires Valid()
      modifies this`engine
      ensures StartMultiplex(old(Value()), options, ok, engine, err)
    {
      err := Success;
      if mTrackingSessions == map[] {
        err := startTracking(options, ok);
      } else {
        var small := smallestInterval(mTrackingSessions);
        if options.minInterval < small.minInterval {
          err := startTracking(options, ok);
        }
      }
    }

    method updateTrackingMultiplex(key: Key, options: TrackOptions, ok: bool) returns (err: Error)
      requires Valid()
      modifies this`engine
      ensures UpdateMultiplex(old(Value()), key, options, ok, engine, err)
    {
      err := Success;
      if |mTrackingSessions| == 1 {
        err := startTracking(options, ok);
      } else if key in mTrackingSessions {
        OthersExist(mTrackingSessions, key);
        var small := smallestInterval(mTrackingSessions - {key});
        if options.minInterval < small.minInterval {
          err := startTracking(options, ok);
        } else if mTrackingSessions[key].minInterval < small.minInterval {
          err := startTracking(small, ok);
        }
      }
    }

    method stopTrackingMultiplex(key: Key, ok: bool) returns (err: Error)
      requires Valid()
      modifies this`engine
      ensures StopMultiplex(old(Value()), key, ok, engine, err)
    {
      err := Success;
      if |mTrackingSessions| == 1 {
        err := stopTracking(ok);
      } else if key in mTrackingSessions {
        OthersExist(mTrackingSessions, key);
        var small := smallestInterval(mTrackingSessions - {key});
        if mTrackingSessions[key].minInterval < small.minInterval {
          err := startTracking(small, ok);
        }
      }
    }

    /** MsgStartTracking::proc; the result is the response reported for the session. */
    method procStart(key: Key, options: TrackOptions, hasCallback: bool, ok: bool) returns (reply: Error)
      requires Valid()
      modifies this
      ensures Valid() && StartNext(old(Value()), Start(key, options, hasCallback, ok), Value(), reply)
      ensures !hasCallback ==> reply == CallbackMissing && Value() == old(Value())
      ensures hasCallback && options.size == 0 ==> reply == InvalidParameter && Value() == old(Value())
      ensures hasCallback && options.size != 0 ==> reply == Success || (reply == GeneralFailure && !ok)
      ensures reply == Success ==> mTrackingSessions == old(mTrackingSessions)[key := options]
      ensures reply != Success ==> Value() == old(Value())
    {
      if !hasCallback {
        reply := CallbackMissing;
      } else if options.size == 0 {
        reply := InvalidParameter;
      } else {
        reply := startTrackingMultiplex(options, ok);
        if reply == Success {
          mTrackingSessions := mTrackingSessions[key := options];
        }
      }
    }

    /** MsgUpdateTracking::proc; no response without a session. */
    method procUpdate(key: Key, options: TrackOptions, ok: bool) returns (reply: Option<Error>)
      requires Valid()
      modifies this
      ensures Valid() && UpdateNext(old(Value()), Update(key, options, ok), Value(), reply)
      ensures key !in old(mTrackingSessions) ==> reply == None && Value() == old(Value())
      ensures key in old(mTrackingSessions) && options.size == 0 ==> reply == Some(InvalidParameter) && Value() == old(Value())
      ensures key in old(mTrackingSessions) && options.size != 0 ==> reply == Some(Success) || (reply == Some(GeneralFailure) && !ok)
      ensures reply == Some(Success) ==> mTrackingSessions == old(mTrackingSessions)[key := options]
      ensures reply != Some(Success) ==> Value() == old(Value())
    {
      reply := None;
      if key in mTrackingSessions {
        var err := InvalidParameter;
        if options.size != 0 {
          err := updateTrackingMultiplex(key, options, ok);
          if err == Success {
            mTrackingSessions := mTrackingSessions[key := options];
          }
        }
        reply := Some(err);
      }
    }

    /** MsgStopTracking::proc; no response without a session. */
    method procStop(key: Key, ok: bool) returns (reply: Option<Error>)
      requires Valid()
      modifies this
      ensures Valid() && StopNext(old(Value()), Stop(key, ok), Value(), reply)
      ensures key !in old(mTrackingSessions) ==> reply == None && Value() == old(Value())
      ensures key in old(mTrackingSessions) ==> reply == Some(Success) || (reply == Some(GeneralFailure) && !ok)
      ensures reply == Some(Success) ==> mTrackingSessions == old(mTrackingSessions) - {key}
      ensures reply != Some(Success) ==> Value() == old(Value())
    {
      reply := None;
      if key in mTrackingSessions {
        var err := stopTrackingMultiplex(key, ok);
        if err == Success {
          mTrackingSessions := mTrackingSessions - {key};
        }
        reply := Some(err);
      }
    }

    /** One turn of the loop of stopClientSessions. */
    method stopOne(key: Key, ok: bool) returns (err: Error)
      requires Valid() && key in mTrackingSessions
      modifies this
      ensures Valid() && StopOne(old(Value()), key, ok, Value(), err)
    {
      err := stopTrackingMultiplex(key, ok);
      if err == Success {
        mTrackingSessions := mTrackingSessions - {key};
      }
    }

    method stopClientSessions(client: Client, answers: map<Key, bool>)
      requires Valid()
      modifies this
      ensures Valid() && RemoveNext(old(Value()), RemoveClient(client, answers), Value())
    {
      ghost var start := Value();
      ghost var keys: seq<Key> := [];
      var todo := mTrackingSessions.Keys;
      while todo != {}
        invariant Valid() && todo <= mTrackingSessions.Keys
        invariant Walked(start.sessions, client, keys, todo)
        invariant StopEach(start, keys, answers, Value())
        decreases |todo|
      {
        var k :| k in todo;
        if k.client == client {
          ghost var before := Value();
          var err := stopOne(k, AnswerFor(answers, k));
          StopEachAppends(start, keys, answers, before, k, Value(), err);
          WalkedOn(start.sessions, client, keys, todo, k);
          keys := keys + [k];
        }
        todo := todo - {k};
      }
      assert ListsClient(start.sessions, client, keys);
    }

    /** LocSsrMsg::proc, seen from the multiplexer. */
    method closeAndOpen()
      modifies this`engine
      ensures EngineLostNext(old(Value()), Value())
    {
      engine := Lost;
    }

    method restartSessions(ok: bool)
      requires Valid()
      modifies this`engine
      ensures EngineUpNext(old(Value()), ok, Value())
    {
      if mTrackingSessions == map[] {
        return;
      }
      var small := smallestInterval(mTrackingSessions);
      var err := startTracking(small, ok);
    }
  }

  /** The walk has tried the sessions `keys` of the client and has `todo` ahead of it. */
  ghost predicate Walked(m: map<Key, TrackOptions>, client: Client, keys: seq<Key>, todo: set<Key>) {
    && todo <= m.Keys
    && (forall k | k in m && k.client == client :: k in todo || k in keys)
    && (forall k | k in keys :: k in m && k.client == client && k !in todo)
    && (forall i, j | 0 <= i < j < |keys| :: keys[i] != keys[j])
  }

  lemma WalkedOn(m: map<Key, TrackOptions>, client: Client, keys: seq<Key>, todo: set<Key>, k: Key)
    requires Walked(m, client, keys, todo) && k in todo && k.client == client
    ensures Walked(m, client, keys + [k], todo - {k})
  {
  }

  lemma OthersExist(m: map<Key, TrackOptions>, key: Key)
    requires key in m && |m| != 1
    ensures m - {key} != map[]
  {
    assert |m.Keys - {key}| == |m.Keys| - 1 > 0;
    var k :| k in m.Keys - {key};
    assert k in m - {key};
  }

  lemma StopEachAppends(
    s: Mux, keys: seq<Key>, answers: map<Key, bool>, u: Mux, key: Key, t: Mux, err: Error)
    requires StopEach(s, keys, answers, u) && key in u.sessions && StopOne(u, key, AnswerFor(answers, key), t, err)
    ensures StopEach(s, keys + [key], answers, t)
  {
    var longer := keys + [key];
    assert longer[..|longer| - 1] == keys && longer[|longer| - 1] == key;
  }
}
