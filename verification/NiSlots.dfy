/** The network-initiated request part of GnssAdapter, proved against NiModel. */
module NiSlots {
  import opened Wrappers
  import opened NiModel

  /** A slot, locked by whoever handles it. */
  class NiSession {
    var rawRequest: Option<nat>
    var reqID: nat
    var resp: Response
    var respRecvd: bool
    var threads: nat

    ghost function Abs(): Slot
      reads this
    {
      Slot(rawRequest, reqID, resp, respRecvd, threads)
    }

    constructor ()
      ensures Abs() == EMPTY
    {
      rawRequest, reqID, resp, respRecvd, threads := None, 0, Unset, false, 0;
    }

    method Post(response: Response)
      modifies this
      ensures Abs() == Posted(old(Abs()), response)
    {
      resp := response;
      respRecvd := true;
    }
  }

  class GnssAdapter {
    const session: NiSession
    const sessionEs: NiSession
    var reqIDCounter: nat
    /** What left the adapter, in order. */
    ghost var notes: seq<Note>

    ghost predicate Valid() {
      session != sessionEs
    }

    ghost function Abs(): Ni
      reads this, session, sessionEs
    {
      Ni(session.Abs(), sessionEs.Abs(), reqIDCounter)
    }

    constructor ()
      ensures Valid() && fresh(session) && fresh(sessionEs)
      ensures Abs() == INITIAL && notes == []
    {
      session := new NiSession();
      sessionEs := new NiSession();
      reqIDCounter, notes := 0, [];
    }

    method GnssNiResponse(knownClient: bool, id: nat, response: Response)
      requires Valid()
      modifies session, sessionEs
      ensures Abs() == Step(old(Abs()), UserResponse(knownClient, id, response)).next
      ensures notes == old(notes) + Step(old(Abs()), UserResponse(knownClient, id, response)).notes
    {
      if knownClient {
        var answered: NiSession? := null;
        if id == sessionEs.reqID && sessionEs.rawRequest.Some? {
          answered := sessionEs;
          if response == Accept && session.rawRequest.Some? {
            session.Post(Ignore);
          }
        } else if id == session.reqID && session.rawRequest.Some? {
          answered := session;
        }
        if answered != null {
          answered.Post(response);
        }
      }
    }

    method RequestNiNotifyEvent(kind: NiType, privacyOverride: bool, data: Option<nat>, policy: Policy, hasCallback: bool)
      requires Valid()
      modifies this, session, sessionEs
      ensures Abs() == Step(old(Abs()), Request(kind, privacyOverride, data, policy, hasCallback)).next
      ensures notes == old(notes) + Step(old(Abs()), Request(kind, privacyOverride, data, policy, hasCallback)).notes
    {
      if policy.nfwControl && (kind == Supl || kind == EmergencySupl) && !policy.inEmergency
         && !privacyOverride && policy.lockNi && policy.denyOnNfwLocked {
        notes := notes + [Answered(Deny, data)];
      } else if kind == EmergencySupl {
        if policy.inEmergency || policy.suplEsNo {
          RequestNiNotify(kind, data, true, hasCallback);
        } else {
          notes := notes + [Answered(Deny, data)];
        }
      } else if kind == ControlPlane {
        if policy.inEmergency && policy.cpMtlrEs {
          notes := notes + [Answered(Accept, data)];
        } else {
          RequestNiNotify(kind, data, false, hasCallback);
        }
      } else {
        RequestNiNotify(kind, data, false, hasCallback);
      }
    }

    /** What a request that is not decided by the configuration comes to. */
    ghost function Notified(c: Ni, kind: NiType, data: Option<nat>, informAccept: bool, hasCallback: bool): Transition {
      if !hasCallback then WithoutUser(c, kind, data, informAccept)
      else
        match SlotFor(c, kind)
        case None => Transition(c, if data.Some? then [Refused(data.value)] else [])
        case Some(w) => Admit(c, w, data)
    }

    method RequestNiNotify(kind: NiType, data: Option<nat>, informAccept: bool, hasCallback: bool)
      requires Valid()
      modifies this, session, sessionEs
      ensures Abs() == Notified(old(Abs()), kind, data, informAccept, hasCallback).next
      ensures notes == old(notes) + Notified(old(Abs()), kind, data, informAccept, hasCallback).notes
    {
      if !hasCallback {
        if kind == EmergencySupl && informAccept {
          notes := notes + [Answered(Accept, data)];
          if session.rawRequest.Some? {
            session.Post(Ignore);
          }
        }
        return;
      }
      var chosen: NiSession? := null;
      ghost var which := Es;
      if kind == EmergencySupl {
        if sessionEs.rawRequest.None? {
          chosen := sessionEs;
        }
      } else if session.rawRequest.None? && sessionEs.rawRequest.None? {
        chosen := session;
        which := NonEs;
      }
      if chosen == null {
        if data.Some? {
          notes := notes + [Refused(data.value)];
        }
      } else {
        reqIDCounter := (reqIDCounter + 1) % ID_WRAP;
        chosen.rawRequest := data;
        chosen.reqID := reqIDCounter;
        chosen.threads := chosen.threads + 1;
        notes := notes + [Shown(which, chosen.reqID, data)];
      }
    }

    /** The rest of a thread's life, once it returns from waiting. */
    method NiThreadProc(which: Which, timedOut: bool)
      requires Valid()
      modifies this, session, sessionEs
      ensures Abs() == Step(old(Abs()), Wake(which, timedOut)).next
      ensures notes == old(notes) + Step(old(Abs()), Wake(which, timedOut)).notes
    {
      var s := if which == Es then sessionEs else session;
      if s.threads == 0 || (!timedOut && !s.respRecvd) {
        return;
      }
      if timedOut {
        s.resp := NoResponse;
      }
      s.respRecvd := false;
      if s.rawRequest.Some? {
        if s.resp != Ignore {
          notes := notes + [Handed(s.resp, s.rawRequest.value)];
        } else {
          notes := notes + [Freed(s.rawRequest.value)];
        }
        s.rawRequest := None;
      }
      s.reqID := 0;
      s.threads := s.threads - 1;
    }
  }
}
