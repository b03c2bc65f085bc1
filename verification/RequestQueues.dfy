/** The tracking calls and the response callback of gps/location/LocationAPIClientBase.cpp
    as an object that owns four distinct request queues. */
module RequestQueues {
  import opened Options
  import opened Correlation

  const REQUEST_TRACKING := 0
  const REQUEST_SESSION := 1
  const REQUEST_GEOFENCE := 2
  const REQUEST_NIRESPONSE := 3
  const REQUEST_MAX := 4

  class RequestQueue {
    var mSession: nat
    var mQueue: seq<Request>

    constructor ()
      ensures mSession == 0 && mQueue == []
    {
      mSession, mQueue := 0, [];
    }

    method reset(session: nat)
      modifies this
      ensures mSession == session && mQueue == []
    {
      while mQueue != []
        decreases |mQueue|
      {
        mQueue := mQueue[1..];
      }
      mSession := session;
    }

    method push(request: Request)
      modifies this
      ensures mSession == old(mSession) && mQueue == old(mQueue) + [request]
    {
      mQueue := mQueue + [request];
    }

    method pop() returns (request: Option<Request>)
      modifies this
      ensures mSession == old(mSession) && request == First(old(mQueue))
      ensures mQueue == if old(mQueue) == [] then [] else old(mQueue)[1..]
    {
      request := None;
      if mQueue != [] {
        request := Some(mQueue[0]);
        mQueue := mQueue[1..];
      }
    }
  }

  class LocationAPIClientBase {
    const mRequestQueues: seq<RequestQueue>
    var mTracking: bool
    ghost var value: ClientState      // the client of the step system

    ghost predicate Valid()
      reads this, mRequestQueues
    {
      && |mRequestQueues| == REQUEST_MAX
      && (forall i, j | 0 <= i < j < REQUEST_MAX :: mRequestQueues[i] != mRequestQueues[j])
      && value.session == mRequestQueues[REQUEST_TRACKING].mSession
      && value.queue == mRequestQueues[REQUEST_TRACKING].mQueue
      && value.tracking == mTracking
    }

    constructor ()
      ensures Valid() && value == NEW_CLIENT
      ensures forall i | 0 <= i < REQUEST_MAX :: fresh(mRequestQueues[i])
    {
      var a := new RequestQueue();
      var b := new RequestQueue();
      var c := new RequestQueue();
      var d := new RequestQueue();
      mRequestQueues := [a, b, c, d];
      mTracking := false;
      value := NEW_CLIENT;
    }

    /** `session` is what startTracking returns, if it is called. */
    method locAPIStartTracking(session: nat, request: Request)
      requires Valid()
      modifies this, mRequestQueues[REQUEST_TRACKING]
      ensures Valid() && value == Started(old(value), session, request)
      ensures mTracking
      ensures old(mTracking) ==> value == old(value)
      ensures !old(mTracking) ==>
        mRequestQueues[REQUEST_TRACKING].mSession == session && mRequestQueues[REQUEST_TRACKING].mQueue == [request]
    {
      if !mTracking {
        mRequestQueues[REQUEST_TRACKING].reset(session);
        mRequestQueues[REQUEST_TRACKING].push(request);
        mTracking := true;
        value := Started(value, session, request);
      }
    }

    /** `sent` is the session that stopTracking is called for, if it is called. */
    method locAPIStopTracking(request: Request) returns (sent: Option<nat>)
      requires Valid() && request.kind.StopRequest?
      modifies this, mRequestQueues[REQUEST_TRACKING]
      ensures Valid() && value == Requested(old(value), request)
      ensures mTracking <==> old(mTracking) && sent.None?
      ensures sent == if old(value).session > 0 then Some(old(value).session) else None
    {
      sent := None;
      var session := mRequestQueues[REQUEST_TRACKING].mSession;
      if session > 0 {
        mRequestQueues[REQUEST_TRACKING].push(request);
        sent := Some(session);
        mTracking := false;
        value := Requested(value, request);
      }
    }

    method locAPIUpdateTrackingOptions(request: Request) returns (sent: Option<nat>)
      requires Valid() && request.kind.UpdateRequest?
      modifies this, mRequestQueues[REQUEST_TRACKING]
      ensures Valid() && value == Requested(old(value), request)
      ensures mTracking == old(mTracking)
      ensures sent == if old(value).session > 0 then Some(old(value).session) else None
    {
      sent := None;
      var session := mRequestQueues[REQUEST_TRACKING].mSession;
      if session > 0 {
        mRequestQueues[REQUEST_TRACKING].push(request);
        sent := Some(session);
        value := Requested(value, request);
      }
    }

    /** The loop over the queues: the first one in use for the session is popped. */
    method getRequestBySession(session: nat, ghost cause: Request) returns (request: Option<Request>)
      requires Valid()
      modifies this, mRequestQueues[REQUEST_TRACKING], mRequestQueues[REQUEST_NIRESPONSE]
      ensures Valid() && value == PopResponse(old(value), session, cause)
      ensures old(value).session == session ==> request == First(old(value).queue)
      ensures
        var ni := mRequestQueues[REQUEST_NIRESPONSE];
        if old(value).session == session || old(ni.mSession) != session
        then ni.mQueue == old(ni.mQueue) && (old(value).session != session ==> request == None)
        else request == First(old(ni.mQueue))
    {
      request := None;
      var i := 0;
      while i < REQUEST_MAX
        invariant 0 <= i <= REQUEST_MAX && request == None
        invariant unchanged(this) && forall k | 0 <= k < REQUEST_MAX :: unchanged(mRequestQueues[k])
        invariant i > REQUEST_TRACKING ==> mRequestQueues[REQUEST_TRACKING].mSession != session
        invariant i > REQUEST_NIRESPONSE ==> mRequestQueues[REQUEST_NIRESPONSE].mSession != session
      {
        if i != REQUEST_GEOFENCE && i != REQUEST_SESSION && mRequestQueues[i].mSession == session {
          request := mRequestQueues[i].pop();
          break;
        }
        i := i + 1;
      }
      value := PopResponse(value, session, cause);
    }
  }
}
