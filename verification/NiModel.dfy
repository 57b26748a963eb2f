/** Network-initiated requests: the two slots in which a request waits for the user, each
    with a thread that hands the answer to the engine. */
module NiModel {
  import opened Wrappers

  datatype Response = Unset | Accept | Deny | NoResponse | Ignore

  datatype NiType = Voice | Supl | ControlPlane | EmergencySupl

  /** raw is the request the slot holds; threads counts those waiting on the slot. */
  datatype Slot = Slot(raw: Option<nat>, reqID: nat, resp: Response, respRecvd: bool, threads: nat)

  datatype Ni = Ni(session: Slot, es: Slot, reqIDCounter: nat)

  datatype Which = NonEs | Es

  /** What the configuration and the emergency state make of requests. */
  datatype Policy = Policy(
    nfwControl: bool,
    lockNi: bool,
    denyOnNfwLocked: bool,
    suplEsNo: bool,
    cpMtlrEs: bool,
    inEmergency: bool)

  datatype Event =
    | Request(kind: NiType, privacyOverride: bool, data: Option<nat>, policy: Policy, hasCallback: bool)
    | UserResponse(knownClient: bool, id: nat, response: Response)
    | Wake(which: Which, timedOut: bool)

  /** What leaves the adapter: a request shown to the user, one handed to the engine or
      freed by the thread of its slot, one answered or freed on arrival. */
  datatype Note =
    | Shown(which: Which, id: nat, data: Option<nat>)
    | Handed(response: Response, payload: nat)
    | Freed(payload: nat)
    | Answered(response: Response, data: Option<nat>)
    | Refused(payload: nat)

  datatype Transition = Transition(next: Ni, notes: seq<Note>)

  const ID_WRAP: nat := 0x1_0000_0000
  const EMPTY := Slot(None, 0, Unset, false, 0)
  const INITIAL := Ni(EMPTY, EMPTY, 0)

  // ------------------------------------------------------------------ slots

  function SlotOf(c: Ni, w: Which): Slot {
    if w == Es then c.es else c.session
  }

  function WithSlot(c: Ni, w: Which, s: Slot): Ni {
    if w == Es then c.(es := s) else c.(session := s)
  }

  function Posted(s: Slot, r: Response): Slot {
    s.(resp := r, respRecvd := true)
  }

  /** A request that is not an emergency is to be ignored once an emergency is accepted. */
  function IgnoreNonEs(c: Ni): Ni {
    if c.session.raw.Some? then c.(session := Posted(c.session, Ignore)) else c
  }

  // ------------------------------------------------------------------ events

  datatype Decision = AnswerNow(response: Response) | Notify(informAccept: bool)

  function Decide(kind: NiType, privacyOverride: bool, p: Policy): Decision {
    if p.nfwControl && (kind == Supl || kind == EmergencySupl) && !p.inEmergency && !privacyOverride
       && p.lockNi && p.denyOnNfwLocked then AnswerNow(Deny)
    else if kind == EmergencySupl then
      if p.inEmergency || p.suplEsNo then Notify(true) else AnswerNow(Deny)
    else if kind == ControlPlane && p.inEmergency && p.cpMtlrEs then AnswerNow(Accept)
    else Notify(false)
  }

  /** No client shows requests to the user: emergencies are accepted on the spot. */
  function WithoutUser(c: Ni, kind: NiType, data: Option<nat>, informAccept: bool): Transition {
    if kind == EmergencySupl && informAccept
    then Transition(IgnoreNonEs(c), [Answered(Accept, data)])
    else Transition(c, [])
  }

  function SlotFor(c: Ni, kind: NiType): Option<Which> {
    if kind == EmergencySupl then if c.es.raw.Some? then None else Some(Es)
    else if c.session.raw.Some? || c.es.raw.Some? then None else Some(NonEs)
  }

  function Admit(c: Ni, w: Which, data: Option<nat>): Transition {
    var id := (c.reqIDCounter + 1) % ID_WRAP;
    var s := SlotOf(c, w);
    Transition(WithSlot(c, w, s.(raw := data, reqID := id, threads := s.threads + 1)).(reqIDCounter := id),
               [Shown(w, id, data)])
  }

  function OnRequest(c: Ni, e: Event): Transition
    requires e.Request?
  {
    match Decide(e.kind, e.privacyOverride, e.policy)
    case AnswerNow(r) => Transition(c, [Answered(r, e.data)])
    case Notify(informAccept) =>
      if !e.hasCallback then WithoutUser(c, e.kind, e.data, informAccept)
      else
        match SlotFor(c, e.kind)
        case None => Transition(c, if e.data.Some? then [Refused(e.data.value)] else [])
        case Some(w) => Admit(c, w, e.data)
  }

  function OnUserResponse(c: Ni, id: nat, r: Response): Ni {
    if id == c.es.reqID && c.es.raw.Some? then
      var d := if r == Accept then IgnoreNonEs(c) else c;
      d.(es := Posted(d.es, r))
    else if id == c.session.reqID && c.session.raw.Some? then c.(session := Posted(c.session, r))
    else c
  }

  /** A thread of the slot returns from waiting: its time is out, or a response is there. */
  function OnWake(c: Ni, w: Which, timedOut: bool): Transition {
    var s := SlotOf(c, w);
    if s.threads == 0 || (!timedOut && !s.respRecvd) then Transition(c, [])
    else
      var resp := if timedOut then NoResponse else s.resp;
      Transition(WithSlot(c, w, Slot(None, 0, resp, false, s.threads - 1)),
                 if s.raw.None? then []
                 else if resp != Ignore then [Handed(resp, s.raw.value)]
                 else [Freed(s.raw.value)])
  }

  function Step(c: Ni, e: Event): Transition {
    match e
    case Request(_, _, _, _, _) => OnRequest(c, e)
    case UserResponse(known, id, r) => Transition(if known then OnUserResponse(c, id, r) else c, [])
    case Wake(w, timedOut) => OnWake(c, w, timedOut)
  }
}
