/** The session records of gps/gnss/GnssAdapter.cpp as objects updated in place. */
module NiObjects {
  import opened Options
  import opened TimeOrder
  import opened NiRequests

  class NiSession {
    var rawRequest: Option<Raw>
    var reqID: nat
    var resp: Response
    var respRecvd: bool
    ghost var spec: Session

    ghost predicate Valid()
      reads this
    {
      spec.raw == rawRequest && spec.reqId == reqID && spec.resp == resp && spec.respRecvd == respRecvd
    }

    constructor ()
      ensures Valid() && spec == EMPTY_SESSION
    {
      rawRequest, reqID, resp, respRecvd := None, 0, Accept, false;
      spec := EMPTY_SESSION;
    }

    /** The locked part of passing on a response. */
    method setResponse(response: Response, ghost answers: nat)
      requires Valid()
      modifies this
      ensures Valid() && spec == Recorded(old(spec), response, answers)
      ensures resp == response && respRecvd && rawRequest == old(rawRequest) && reqID == old(reqID)
    {
      resp := response;
      respRecvd := true;
      spec := Recorded(spec, response, answers);
    }

    /** niThreadProc under the lock, once its wait has ended; returns what to send. */
    method decide(timedOut: bool) returns (send: Option<Raw>, answer: Response)
      requires Valid() && spec.undecided > 0 && (timedOut || respRecvd)
      modifies this
      ensures Valid() && spec == Decided(old(spec), timedOut)
      ensures
        var reply := spec.tails[|spec.tails| - 1];
        send == reply.raw && answer == reply.resp
      ensures answer == if timedOut then NoResponse else old(resp)
      ensures send == if answer == Ignore then None else old(rawRequest)
      ensures rawRequest == None && !respRecvd
    {
      spec := Decided(spec, timedOut);
      if timedOut {
        resp := NoResponse;
      }
      respRecvd := false;
      send, answer := None, resp;
      if rawRequest.Some? {
        if resp != Ignore {
          send := rawRequest;
        }
        rawRequest := None;
      }
    }

    /** The unlocked tail of niThreadProc. */
    method clear(ghost which: nat)
      requires Valid() && which < |spec.tails|
      modifies this
      ensures Valid()
      ensures reqID == 0 && rawRequest == old(rawRequest)
      ensures spec == old(spec).(reqId := 0, cleared := true, tails := old(spec).tails[..which] + old(spec).tails[which + 1..])
    {
      reqID := 0;
      spec := spec.(reqId := 0, cleared := true, tails := spec.tails[..which] + spec.tails[which + 1..]);
    }
  }

  class NiData {
    const session: NiSession
    const sessionEs: NiSession
    var reqIDCounter: nat
    ghost var spec: Ni

    ghost predicate Valid()
      reads this, session, sessionEs
    {
      && session != sessionEs && session.Valid() && sessionEs.Valid()
      && spec.normal == session.spec && spec.es == sessionEs.spec && spec.counter == reqIDCounter
    }

    constructor ()
      ensures Valid() && spec == INITIAL && fresh(session) && fresh(sessionEs)
    {
      session := new NiSession();
      sessionEs := new NiSession();
      reqIDCounter := 0;
      spec := INITIAL;
    }

    /** requestNiNotify; `id` is what the client is told, if anything. */
    method requestNiNotify(emergency: bool, data: Option<Raw>, hasClient: bool)
      returns (ok: bool, id: Option<nat>, freed: Option<Raw>)
      requires Valid() && Enabled(spec, Notify(emergency, data, hasClient))
      modifies this, session, sessionEs
      ensures Valid() && spec == Do(old(spec), Notify(emergency, data, hasClient))
      ensures ok == hasClient
      ensures
        var busy := old(sessionEs.rawRequest).Some? || (!emergency && old(session.rawRequest).Some?);
        var taken := if emergency then sessionEs else session;
        && freed == (if hasClient && busy then data else None)
        && (!hasClient || busy ==> id == None)
        && (hasClient && !busy ==>
              taken.rawRequest == data && id == Some(taken.reqID) && taken.reqID == (old(reqIDCounter) + 1) % TWO_32)
    {
      ok, id, freed := true, None, None;
      spec := Do(spec, Notify(emergency, data, hasClient));
      if !hasClient {
        ok := false;
        return;
      }
      var pSession: NiSession? := null;
      if emergency {
        if sessionEs.rawRequest.Some? {
          freed := data;
        } else {
          pSession := sessionEs;
        }
      } else if session.rawRequest.Some? || sessionEs.rawRequest.Some? {
        freed := data;
      } else {
        pSession := session;
      }
      if pSession != null {
        reqIDCounter := (reqIDCounter + 1) % TWO_32;
        pSession.rawRequest := data;
        pSession.reqID := reqIDCounter;
        pSession.spec := Get(spec, emergency);
        id := Some(pSession.reqID);
      }
    }

    /** The check of MsgGnssNiResponse::proc: whose locks to take, in order. */
    method checkResponse(id: nat, response: Response, hasClient: bool) returns (locks: seq<(bool, Response)>)
      requires Valid() && Enabled(spec, Respond(id, response, hasClient))
      modifies this`spec
      ensures Valid() && spec == Do(old(spec), Respond(id, response, hasClient))
      ensures
        locks == if !hasClient then []
                 else if id == sessionEs.reqID && sessionEs.rawRequest.Some? then
                   (if response.Accept? && session.rawRequest.Some? then [(false, Ignore)] else []) + [(true, response)]
                 else if id == session.reqID && session.rawRequest.Some? then [(false, response)]
                 else []
      ensures |locks| == |spec.pc| && forall i | 0 <= i < |locks| :: locks[i] == (spec.pc[i].es, spec.pc[i].resp)
    {
      locks := [];
      spec := Do(spec, Respond(id, response, hasClient));
      if !hasClient {
        return;
      }
      if id == sessionEs.reqID && sessionEs.rawRequest.Some? {
        if response == Accept && session.rawRequest.Some? {
          locks := [(false, Ignore)];
        }
        locks := locks + [(true, response)];
      } else if id == session.reqID && session.rawRequest.Some? {
        locks := [(false, response)];
      }
    }
  }
}
