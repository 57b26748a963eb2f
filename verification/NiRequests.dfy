/** What becomes of a network-initiated request on arrival, told from the request, the
    configuration and the slots. */
module NiRequests {
  import opened Wrappers
  import opened NiModel
  import opened NiRuns

  /** The user has locked it: no request over SUPL outside an emergency, unless it overrides
      that. */
  predicate LockedOut(e: Event)
    requires e.Request?
  {
    && (e.kind == Supl || e.kind == EmergencySupl) && !e.policy.inEmergency && !e.privacyOverride
    && e.policy.nfwControl && e.policy.lockNi && e.policy.denyOnNfwLocked
  }

  /** An emergency request when there is no emergency, and the configuration asks for one. */
  predicate NoEmergency(e: Event)
    requires e.Request?
  {
    e.kind == EmergencySupl && !e.policy.inEmergency && !e.policy.suplEsNo
  }

  predicate Denied(e: Event)
    requires e.Request?
  {
    LockedOut(e) || NoEmergency(e)
  }

  /** Accepted without the user: over the control plane in an emergency; or an emergency
      request that there is nobody to show to. */
  predicate Accepted(e: Event)
    requires e.Request?
  {
    || (e.kind == ControlPlane && e.policy.inEmergency && e.policy.cpMtlrEs)
    || (e.kind == EmergencySupl && !Denied(e) && !e.hasCallback)
  }

  /** There is a slot for it: an emergency waits for none but emergencies. */
  predicate HasRoom(c: Ni, e: Event)
    requires e.Request?
  {
    c.es.raw.None? && (e.kind != EmergencySupl ==> c.session.raw.None?)
  }

  /** Of every request in every state: exactly what is said of it at once. */
  lemma RequestIsAnswered(c: Ni, e: Event)
    requires e.Request?
    ensures Step(c, e).notes ==
      if Denied(e) then [Answered(Deny, e.data)]
      else if Accepted(e) then [Answered(Accept, e.data)]
      else if !e.hasCallback then []
      else if HasRoom(c, e) then
        [Shown(if e.kind == EmergencySupl then Es else NonEs, (c.reqIDCounter + 1) % ID_WRAP, e.data)]
      else match e.data
           case None => []
           case Some(p) => [Refused(p)]
  {
  }

  /** And in which slot it is then: shown, it waits there unanswered under a new id; accepted
      for want of a user, it has the one that is no emergency ignored; else nothing changes. */
  lemma RequestTakesSlot(c: Ni, e: Event, w: Which)
    requires e.Request? && Sound(c)
    ensures var n := Step(c, e).next;
      var shown := !Denied(e) && !Accepted(e) && e.hasCallback && HasRoom(c, e);
      && (n.reqIDCounter == if shown then (c.reqIDCounter + 1) % ID_WRAP else c.reqIDCounter)
      && (if shown && w == (if e.kind == EmergencySupl then Es else NonEs) then
            SlotOf(n, w).raw == e.data && SlotOf(n, w).reqID == n.reqIDCounter && !SlotOf(n, w).respRecvd
          else if Accepted(e) && e.kind == EmergencySupl && w == NonEs && c.session.raw.Some? then
            SlotOf(n, w).raw == c.session.raw && SlotOf(n, w).respRecvd && SlotOf(n, w).resp == Ignore
          else SlotOf(n, w) == SlotOf(c, w))
  {
  }

  /** An answer of the user reaches exactly the request with its id that waits, the emergency
      first; an emergency accepted has the other request ignored. */
  lemma AnswerReaches(c: Ni, id: nat, r: Response, known: bool, w: Which)
    ensures var t := Step(c, UserResponse(known, id, r));
      var toEs := known && c.es.raw.Some? && c.es.reqID == id;
      var toOther := known && !toEs && c.session.raw.Some? && c.session.reqID == id;
      && t.notes == [] && t.next.reqIDCounter == c.reqIDCounter
      && t.next.es == (if toEs then c.es.(resp := r, respRecvd := true) else c.es)
      && t.next.session == (if toOther then c.session.(resp := r, respRecvd := true)
                            else if toEs && r == Accept && c.session.raw.Some? then c.session.(resp := Ignore, respRecvd := true)
                            else c.session)
  {
  }

  // ------------------------------------------------------------------ threads

  predicate ShowsIn(notes: seq<Note>, w: Which) {
    exists m :: m in notes && m.Shown? && m.which == w
  }

  /** How many requests have been shown in this slot. */
  function ShownIn(run: seq<Event>, n: nat, w: Which): nat
    requires n <= |run|
  {
    if n == 0 then 0
    else ShownIn(run, n - 1, w) + if ShowsIn(Step(At(run, n - 1), run[n - 1]).notes, w) then 1 else 0
  }

  /** How many threads have waited long enough, or found a response. */
  function Returned(run: seq<Event>, n: nat, w: Which): nat
    requires n <= |run|
  {
    if n == 0 then 0
    else
      var s, e := SlotOf(At(run, n - 1), w), run[n - 1];
      Returned(run, n - 1, w) + if e.Wake? && e.which == w && s.threads > 0 && (e.timedOut || s.respRecvd) then 1 else 0
  }

  lemma StepThreads(c: Ni, e: Event, w: Which)
    ensures var s, n := SlotOf(c, w), SlotOf(Step(c, e).next, w);
      n.threads == s.threads + (if ShowsIn(Step(c, e).notes, w) then 1 else 0)
        - if e.Wake? && e.which == w && s.threads > 0 && (e.timedOut || s.respRecvd) then 1 else 0
  {
    var notes := Step(c, e).notes;
    if notes != [] {
      assert notes[0] in notes && forall m :: m in notes ==> m == notes[0];
    }
  }

  /** On every run each request shown starts a thread, which returns once: those that have not
      are waiting. */
  lemma {:induction false} ThreadsBalance(run: seq<Event>, n: nat, w: Which)
    requires n <= |run|
    ensures SlotOf(At(run, n), w).threads + Returned(run, n, w) == ShownIn(run, n, w)
  {
    hide Step;
    if n > 0 {
      ThreadsBalance(run, n - 1, w);
      StepThreads(At(run, n - 1), run[n - 1], w);
    }
  }

  /** Without a lock, outside an emergency, a plain request over SUPL is shown to the user. */
  lemma PlainRequestIsShown()
    ensures var policy := Policy(true, false, true, true, true, false);
      Step(INITIAL, Request(Supl, false, Some(9), policy, true)).notes == [Shown(NonEs, 1, Some(9))]
  {
    RequestIsAnswered(INITIAL, Request(Supl, false, Some(9), Policy(true, false, true, true, true, false), true));
  }
}
