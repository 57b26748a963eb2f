/** Requests leave their slots exactly once, and with the answer that was meant for them. */
module NiRuns {
  import opened Wrappers
  import opened NiModel

  function At(run: seq<Event>, n: nat): Ni
    requires n <= |run|
  {
    if n == 0 then INITIAL else Step(At(run, n - 1), run[n - 1]).next
  }

  /** All that left the adapter during the first n events. */
  function Notes(run: seq<Event>, n: nat): seq<Note>
    requires n <= |run|
  {
    if n == 0 then [] else Notes(run, n - 1) + Step(At(run, n - 1), run[n - 1]).notes
  }

  /** A response waits only for a request that is there, and a request that is there has
      a thread waiting for its response. */
  predicate Sound(c: Ni) {
    && (c.session.respRecvd ==> c.session.raw.Some?)
    && (c.es.respRecvd ==> c.es.raw.Some?)
    && (c.session.raw.Some? ==> c.session.threads > 0)
    && (c.es.raw.Some? ==> c.es.threads > 0)
  }

  lemma {:induction false} EveryRunIsSound(run: seq<Event>, n: nat)
    requires n <= |run|
    ensures Sound(At(run, n))
  {
    if n > 0 {
      EveryRunIsSound(run, n - 1);
      StepIsSound(At(run, n - 1), run[n - 1]);
    }
  }

  lemma StepIsSound(c: Ni, e: Event)
    requires Sound(c)
    ensures Sound(Step(c, e).next)
  {
  }

  // ------------------------------------------------------------------ conservation

  /** How often a request is in a slot. */
  function Held(c: Ni, p: nat): nat {
    (if c.session.raw == Some(p) then 1 else 0) + (if c.es.raw == Some(p) then 1 else 0)
  }

  function Admissions(notes: seq<Note>, p: nat): nat {
    if notes == [] then 0
    else Admissions(notes[..|notes| - 1], p) + if notes[|notes| - 1].Shown? && notes[|notes| - 1].data == Some(p) then 1 else 0
  }

  /** How often a thread has handed over or freed a request. */
  function Departures(notes: seq<Note>, p: nat): nat {
    if notes == [] then 0
    else
      var last := notes[|notes| - 1];
      Departures(notes[..|notes| - 1], p) + if (last.Handed? || last.Freed?) && last.payload == p then 1 else 0
  }

  lemma CountsAppend(notes: seq<Note>, more: seq<Note>, p: nat)
    requires |more| <= 1
    ensures Admissions(notes + more, p) == Admissions(notes, p) + Admissions(more, p)
    ensures Departures(notes + more, p) == Departures(notes, p) + Departures(more, p)
  {
    if more == [] {
      assert notes + more == notes;
    } else {
      assert (notes + more)[..|notes + more| - 1] == notes;
      assert more[..0] == [];
    }
  }

  lemma StepConserves(c: Ni, e: Event, p: nat)
    requires Sound(c)
    ensures var t := Step(c, e);
      && |t.notes| <= 1
      && Held(t.next, p) + Departures(t.notes, p) == Held(c, p) + Admissions(t.notes, p)
  {
    var t := Step(c, e);
    if t.notes != [] {
      assert t.notes == [t.notes[0]] && t.notes[..0] == [];
    }
  }

  /** On every run, every request that was admitted has left its slot exactly once, or is
      still there. */
  lemma {:induction false} EveryRunConserves(run: seq<Event>, n: nat, p: nat)
    requires n <= |run|
    ensures Admissions(Notes(run, n), p) == Departures(Notes(run, n), p) + Held(At(run, n), p)
  {
    hide Step;
    if n > 0 {
      EveryRunIsSound(run, n - 1);
      EveryRunConserves(run, n - 1, p);
      StepConserves(At(run, n - 1), run[n - 1], p);
      CountsAppend(Notes(run, n - 1), Step(At(run, n - 1), run[n - 1]).notes, p);
    }
  }

  /** An occupied slot is never given another request: it keeps its own until a thread
      takes it out. */
  lemma OccupiedIsKept(c: Ni, e: Event, w: Which)
    requires Sound(c) && SlotOf(c, w).raw.Some?
    ensures var t := Step(c, e);
      || (SlotOf(t.next, w).raw == SlotOf(c, w).raw && SlotOf(t.next, w).reqID == SlotOf(c, w).reqID)
      || (SlotOf(t.next, w).raw == None && e.Wake? && e.which == w
          && exists r :: t.notes == [Handed(r, SlotOf(c, w).raw.value)] || t.notes == [Freed(SlotOf(c, w).raw.value)])
  {
    var t := Step(c, e);
    if e.Wake? && e.which == w && t.notes != [] {
      assert t.notes == [Handed(if e.timedOut then NoResponse else SlotOf(c, w).resp, SlotOf(c, w).raw.value)]
          || t.notes == [Freed(SlotOf(c, w).raw.value)];
    }
  }

  /** Nothing but an emergency is shown to the user while a slot is occupied, and an
      emergency only while none waits. */
  lemma ShownOnlyWhenFree(c: Ni, e: Event)
    ensures forall w, id, d :: Shown(w, id, d) in Step(c, e).notes ==>
      && c.es.raw == None
      && (w == NonEs ==> c.session.raw == None)
  {
  }

  /** In an emergency no request is denied on arrival. */
  lemma NoDenialInEmergency(c: Ni, e: Event)
    requires e.Request? && e.policy.inEmergency
    ensures forall r, d :: Answered(r, d) in Step(c, e).notes ==> r == Accept
  {
  }

  // ------------------------------------------------------------------ what a slot means

  /** A slot without the fields that outlive their request: it is idle, or a request waits,
      perhaps already answered. */
  datatype Life = Idle | Waiting(payload: nat, id: nat, answer: Option<Response>)

  datatype Spec = Spec(session: Life, es: Life, reqIDCounter: nat)

  datatype SpecTransition = SpecTransition(next: Spec, notes: seq<Note>)

  function Meaning(s: Slot): Life {
    match s.raw
    case None => Idle
    case Some(p) => Waiting(p, s.reqID, if s.respRecvd then Some(s.resp) else None)
  }

  function SpecOf(c: Ni): Spec {
    Spec(Meaning(c.session), Meaning(c.es), c.reqIDCounter)
  }

  function Answer(l: Life, r: Response): Life {
    if l.Idle? then l else l.(answer := Some(r))
  }

  predicate IsWaiting(l: Life, id: nat) {
    l.Waiting? && l.id == id
  }

  /** A new request, unanswered whatever the slot's last one was told. */
  function Arrival(data: Option<nat>, id: nat): Life {
    match data
    case None => Idle
    case Some(p) => Waiting(p, id, None)
  }

  function SpecRequest(s: Spec, e: Event): SpecTransition
    requires e.Request?
  {
    match Decide(e.kind, e.privacyOverride, e.policy)
    case AnswerNow(r) => SpecTransition(s, [Answered(r, e.data)])
    case Notify(informAccept) =>
      var id := (s.reqIDCounter + 1) % ID_WRAP;
      if !e.hasCallback then
        if e.kind == EmergencySupl && informAccept
        then SpecTransition(s.(session := Answer(s.session, Ignore)), [Answered(Accept, e.data)])
        else SpecTransition(s, [])
      else if s.es.Waiting? || (e.kind != EmergencySupl && s.session.Waiting?) then
        SpecTransition(s, if e.data.Some? then [Refused(e.data.value)] else [])
      else if e.kind == EmergencySupl then
        SpecTransition(s.(es := Arrival(e.data, id), reqIDCounter := id), [Shown(Es, id, e.data)])
      else
        SpecTransition(s.(session := Arrival(e.data, id), reqIDCounter := id), [Shown(NonEs, id, e.data)])
  }

  function SpecAnswer(s: Spec, id: nat, r: Response): Spec {
    if IsWaiting(s.es, id) then
      s.(es := Answer(s.es, r), session := if r == Accept then Answer(s.session, Ignore) else s.session)
    else if IsWaiting(s.session, id) then s.(session := Answer(s.session, r))
    else s
  }

  /** A waiting request leaves when it is answered, with the answer, or when its time is
      out, without. */
  function SpecWake(l: Life, timedOut: bool): (Life, seq<Note>) {
    match l
    case Idle => (Idle, [])
    case Waiting(p, _, answer) =>
      if timedOut then (Idle, [Handed(NoResponse, p)])
      else
        match answer
        case None => (l, [])
        case Some(r) => (Idle, if r == Ignore then [Freed(p)] else [Handed(r, p)])
  }

  function SpecStep(s: Spec, e: Event): SpecTransition {
    match e
    case Request(_, _, _, _, _) => SpecRequest(s, e)
    case UserResponse(known, id, r) => SpecTransition(if known then SpecAnswer(s, id, r) else s, [])
    case Wake(w, timedOut) =>
      var (l, notes) := SpecWake(if w == Es then s.es else s.session, timedOut);
      SpecTransition(if w == Es then s.(es := l) else s.(session := l), notes)
  }

  /** The slots do what their meaning says: what an earlier request left in resp and reqID
      is never seen by a later one. */
  lemma StepRefines(c: Ni, e: Event)
    requires Sound(c)
    ensures SpecOf(Step(c, e).next) == SpecStep(SpecOf(c), e).next
    ensures Step(c, e).notes == SpecStep(SpecOf(c), e).notes
  {
  }

  function SpecAt(run: seq<Event>, n: nat): Spec
    requires n <= |run|
  {
    if n == 0 then Spec(Idle, Idle, 0) else SpecStep(SpecAt(run, n - 1), run[n - 1]).next
  }

  function SpecNotes(run: seq<Event>, n: nat): seq<Note>
    requires n <= |run|
  {
    if n == 0 then [] else SpecNotes(run, n - 1) + SpecStep(SpecAt(run, n - 1), run[n - 1]).notes
  }

  lemma {:induction false} EveryRunRefines(run: seq<Event>, n: nat)
    requires n <= |run|
    ensures SpecOf(At(run, n)) == SpecAt(run, n)
    ensures Notes(run, n) == SpecNotes(run, n)
  {
    if n > 0 {
      EveryRunIsSound(run, n - 1);
      EveryRunRefines(run, n - 1);
      StepRefines(At(run, n - 1), run[n - 1]);
    }
  }

  // ------------------------------------------------------------------ answers

  /** The response last posted to the request in the slot: nothing has been posted to it
      since, and it has been there all along. */
  ghost predicate PostedLast(run: seq<Event>, n: nat, w: Which, r: Response)
    requires n <= |run|
  {
    exists k :: PostedLastAt(run, n, w, r, k)
  }

  ghost predicate PostedLastAt(run: seq<Event>, n: nat, w: Which, r: Response, k: nat)
    requires n <= |run|
  {
    && k < n && Posts(At(run, k), run[k], w, r)
    && (forall j :: k <= j < n ==> SameRequest(SlotOf(At(run, j), w), SlotOf(At(run, n), w)))
    && (forall j, q :: k < j < n ==> !Posts(At(run, j), run[j], w, q))
  }

  predicate SameRequest(s: Slot, t: Slot) {
    s.raw == t.raw && s.reqID == t.reqID
  }

  /** The user answers under this id, and it is that of an emergency that waits. */
  predicate AnswersEmergency(c: Ni, e: Event) {
    e.UserResponse? && e.knownClient && c.es.raw.Some? && e.id == c.es.reqID
  }

  /** The event answers the request in the slot: the user answered it under its id, which
      is not that of a waiting emergency, or an emergency was accepted over it. */
  predicate Posts(c: Ni, e: Event, w: Which, r: Response) {
    && SlotOf(c, w).raw.Some?
    && (|| (e.UserResponse? && e.knownClient && e.id == SlotOf(c, w).reqID && e.response == r
            && (w == NonEs ==> !AnswersEmergency(c, e)))
        || (w == NonEs && r == Ignore && AcceptsEmergency(c, e)))
  }

  predicate AcceptsEmergency(c: Ni, e: Event) {
    || (AnswersEmergency(c, e) && e.response == Accept)
    || (e.Request? && Answered(Accept, e.data) in Step(c, e).notes && e.kind == EmergencySupl)
  }

  lemma {:induction false} PendingWasPosted(run: seq<Event>, n: nat, w: Which)
    requires n <= |run| && SlotOf(At(run, n), w).respRecvd
    ensures PostedLast(run, n, w, SlotOf(At(run, n), w).resp)
  {
    hide Step, Posts;
    var c, e, r := At(run, n - 1), run[n - 1], SlotOf(At(run, n), w).resp;
    EveryRunIsSound(run, n - 1);
    PendingStep(c, e, w);
    if Posts(c, e, w, r) {
      assert PostedLastAt(run, n, w, r, n - 1);
    } else {
      PendingWasPosted(run, n - 1, w);
      var k :| PostedLastAt(run, n - 1, w, r, k);
      assert PostedLastAt(run, n, w, r, k);
    }
  }

  /** A response that is pending was posted just now, or was pending and nothing was. */
  lemma PendingStep(c: Ni, e: Event, w: Which)
    requires Sound(c) && SlotOf(Step(c, e).next, w).respRecvd
    ensures var s, t := SlotOf(c, w), SlotOf(Step(c, e).next, w);
      && SameRequest(s, t)
      && (Posts(c, e, w, t.resp) || (s.respRecvd && s.resp == t.resp && forall q :: !Posts(c, e, w, q)))
  {
  }

  /** Only a thread that returns hands over or frees, and what its slot holds. */
  lemma DepartureStep(c: Ni, e: Event, r: Response, p: nat)
    requires Sound(c)
    ensures Handed(r, p) in Step(c, e).notes ==>
      e.Wake? && SlotOf(c, e.which).raw == Some(p)
      && (if e.timedOut then r == NoResponse else SlotOf(c, e.which).respRecvd && SlotOf(c, e.which).resp == r)
    ensures Freed(p) in Step(c, e).notes ==>
      e.Wake? && SlotOf(c, e.which).raw == Some(p) && SlotOf(c, e.which).respRecvd && SlotOf(c, e.which).resp == Ignore
  {
  }

  /** What the engine is told about a request is NO_RESPONSE on a time-out, or what was
      posted to that very request; and a request is freed only if it was to be ignored. */
  lemma EveryAnswerWasPosted(run: seq<Event>, n: nat, r: Response, p: nat)
    requires n < |run|
    ensures Handed(r, p) in Step(At(run, n), run[n]).notes ==>
      && run[n].Wake? && SlotOf(At(run, n), run[n].which).raw == Some(p)
      && (if run[n].timedOut then r == NoResponse else PostedLast(run, n, run[n].which, r))
    ensures Freed(p) in Step(At(run, n), run[n]).notes ==>
      && run[n].Wake? && SlotOf(At(run, n), run[n].which).raw == Some(p)
      && PostedLast(run, n, run[n].which, Ignore)
  {
    hide Step, PostedLast;
    EveryRunIsSound(run, n);
    DepartureStep(At(run, n), run[n], r, p);
    if run[n].Wake? && SlotOf(At(run, n), run[n].which).respRecvd {
      PendingWasPosted(run, n, run[n].which);
    }
  }

  /** A time-out always empties the slot. */
  lemma TimeOutEmpties(run: seq<Event>, n: nat, w: Which)
    requires n <= |run|
    ensures SlotOf(Step(At(run, n), Wake(w, true)).next, w).raw == None
  {
    EveryRunIsSound(run, n);
  }

  // ------------------------------------------------------------------ requests to be ignored

  /** The request is to be ignored, and its thread has not seen that yet. */
  predicate IgnorePending(c: Ni, p: nat) {
    c.session.raw == Some(p) && c.session.respRecvd && c.session.resp == Ignore
  }

  /** What keeps a request from being ignored: the user answers it otherwise, under an id
      that is not that of a waiting emergency, or its time is out. */
  predicate Overrides(c: Ni, e: Event) {
    || (e.UserResponse? && e.knownClient && e.response != Ignore && e.id == c.session.reqID && !AnswersEmergency(c, e))
    || e == Wake(NonEs, true)
  }

  /** A request over which an emergency is accepted is to be ignored from then on. */
  lemma AcceptedEmergencyIgnores(c: Ni, e: Event, p: nat)
    requires Sound(c) && AcceptsEmergency(c, e) && c.session.raw == Some(p)
    ensures IgnorePending(Step(c, e).next, p)
  {
  }

  /** Of every event: a request to be ignored stays so, or is freed, exactly if the event
      does not override that. */
  lemma IgnoreStepIff(c: Ni, e: Event, p: nat)
    requires Sound(c) && IgnorePending(c, p)
    ensures IgnorePending(Step(c, e).next, p) || Step(c, e).notes == [Freed(p)] <==> !Overrides(c, e)
  {
    if e == Wake(NonEs, false) {
      assert Step(c, e).notes == [Freed(p)];
    }
  }

  /** Over every run: unless something overrides that first, the request is still to be
      ignored, or has been freed. */
  lemma {:induction false} IgnoredUntilFreed(run: seq<Event>, k: nat, n: nat, p: nat)
    requires k <= n <= |run| && IgnorePending(At(run, k), p)
    requires forall i :: k <= i < n && IgnorePending(At(run, i), p) ==> !Overrides(At(run, i), run[i])
    ensures IgnorePending(At(run, n), p) || exists i :: k <= i < n && Step(At(run, i), run[i]).notes == [Freed(p)]
  {
    hide Step, Overrides, IgnorePending;
    if n > k {
      IgnoredUntilFreed(run, k, n - 1, p);
      if IgnorePending(At(run, n - 1), p) {
        EveryRunIsSound(run, n - 1);
        IgnoreStepIff(At(run, n - 1), run[n - 1], p);
      }
    }
  }

  /** The first thing that overrides it takes the request out of its fate: it is neither to
      be ignored any more nor freed then. */
  lemma OverrideEndsIgnore(run: seq<Event>, n: nat, p: nat)
    requires n < |run| && IgnorePending(At(run, n), p) && Overrides(At(run, n), run[n])
    ensures !IgnorePending(At(run, n + 1), p) && Step(At(run, n), run[n]).notes != [Freed(p)]
  {
    EveryRunIsSound(run, n);
    IgnoreStepIff(At(run, n), run[n], p);
  }

  /** A run on which a late answer of the user overrides it, and is handed over. */
  lemma LateAnswerWins()
    ensures exists run: seq<Event>, n: nat ::
      n < |run| && AcceptsEmergency(At(run, n), run[n]) && At(run, n).session.raw == Some(1)
      && Handed(Accept, 1) in Notes(run, |run|)
  {
    var policy := Policy(false, false, false, true, false, false);
    var run := [Request(Supl, false, Some(1), policy, true), Request(EmergencySupl, false, Some(2), policy, true),
                UserResponse(true, 2, Accept), UserResponse(true, 1, Accept), Wake(NonEs, false)];
    assert At(run, 0) == INITIAL;
    assert At(run, 1).session == Slot(Some(1), 1, Unset, false, 1);
    assert At(run, 2).session.raw == Some(1) && At(run, 2).es == Slot(Some(2), 2, Unset, false, 1);
    assert AcceptsEmergency(At(run, 2), run[2]);
    assert At(run, 3).session == Slot(Some(1), 1, Ignore, true, 1);
    assert At(run, 4).session == Slot(Some(1), 1, Accept, true, 1);
    assert Step(At(run, 4), run[4]).notes == [Handed(Accept, 1)];
    assert Notes(run, 5) == Notes(run, 4) + [Handed(Accept, 1)];
  }
}
