/** What a machine does with an event, told from the event and who is listed: which notices
    go to whom, who is listed afterwards, and in which state. And the notices of runs,
    counted by their kind. */
module AgpsNotices {
  import opened Wrappers
  import opened AgpsModel
  import opened AgpsRuns
  import opened AgpsManagerRuns

  /** Listed, and has unsubscribed. */
  predicate Waits(subs: seq<Subscriber>, h: int) {
    exists i :: 0 <= i < |subs| && subs[i].handle == h && subs[i].inactive
  }

  /** Listed, and has not. */
  predicate Uses(subs: seq<Subscriber>, h: int) {
    exists i :: 0 <= i < |subs| && subs[i].handle == h && !subs[i].inactive
  }

  // -------------------------------------------------- what is told

  /** The framework refuses what the subscriber waits for. */
  predicate Refused(m: Machine, e: Event, h: int) {
    e == ConnectionDenied && m.state == Pending && Listed(m.subs, h)
  }

  /** The connection is there for the subscriber: granted, or it was when it joined. */
  predicate Opened(m: Machine, e: Event, h: int) {
    || (e == ConnectionGranted && m.state == Pending && Uses(m.subs, h))
    || (e.Subscribe? && e.handle == h && m.state == Acquired)
  }

  /** The subscriber leaves without waiting; or the connection closes under it, or, with it
      waiting, after it was given back. */
  predicate Closes(m: Machine, e: Event, h: int) {
    || (e.Unsubscribe? && e.handle == h && (m.state == Released || !e.waitForClose))
    || (e == ConnectionReleased && m.state == Acquired && Listed(m.subs, h))
    || ((e == ConnectionReleased || e == ConnectionDenied) && m.state == Releasing && Waits(m.subs, h))
  }

  /** Of every event in every state, whoever is listed: who is told what. */
  lemma StepTellsIff(m: Machine, e: Event, h: int)
    ensures var told := Step(m, e).told;
      && (OpenFailed(h) in told <==> Refused(m, e, h))
      && (OpenOk(h) in told <==> Opened(m, e, h))
      && (Closed(h) in told <==> Closes(m, e, h))
  {
    hide Notices, Outside, Retired, AnyActive, Add;
    TellsEveryone(m.subs, ConnectionDenied, h);
    TellsEveryone(m.subs, ConnectionReleased, h);
    TellsWaiting(m.subs, h);
    TellsActive(m.subs, h);
  }

  lemma TellsEveryone(subs: seq<Subscriber>, e: Event, h: int)
    requires e == ConnectionDenied || e == ConnectionReleased
    ensures var told := Notices(subs, |subs|, e, Everyone);
      && (OpenFailed(h) in told <==> e == ConnectionDenied && Listed(subs, h))
      && (Closed(h) in told <==> e == ConnectionReleased && Listed(subs, h))
      && OpenOk(h) !in told
  {
    NoticesHas(subs, |subs|, e, Everyone, OpenFailed(h));
    NoticesHas(subs, |subs|, e, Everyone, Closed(h));
    NoticesHas(subs, |subs|, e, Everyone, OpenOk(h));
  }

  lemma TellsWaiting(subs: seq<Subscriber>, h: int)
    ensures var told := Notices(subs, |subs|, ConnectionReleased, InactiveOnes);
      OpenFailed(h) !in told && OpenOk(h) !in told && (Closed(h) in told <==> Waits(subs, h))
  {
    NoticesHas(subs, |subs|, ConnectionReleased, InactiveOnes, OpenFailed(h));
    NoticesHas(subs, |subs|, ConnectionReleased, InactiveOnes, Closed(h));
    NoticesHas(subs, |subs|, ConnectionReleased, InactiveOnes, OpenOk(h));
  }

  lemma TellsActive(subs: seq<Subscriber>, h: int)
    ensures var told := Notices(subs, |subs|, ConnectionGranted, ActiveOnes);
      OpenFailed(h) !in told && Closed(h) !in told && (OpenOk(h) in told <==> Uses(subs, h))
  {
    NoticesHas(subs, |subs|, ConnectionGranted, ActiveOnes, OpenFailed(h));
    NoticesHas(subs, |subs|, ConnectionGranted, ActiveOnes, Closed(h));
    NoticesHas(subs, |subs|, ConnectionGranted, ActiveOnes, OpenOk(h));
  }

  lemma {:induction false} NoticesHas(subs: seq<Subscriber>, n: nat, e: Event, a: Audience, told: Notice)
    requires n <= |subs|
    ensures told in Notices(subs, n, e, a) <==>
      exists i :: 0 <= i < n && Hears(a, subs[i]) && told == NoticeFor(e, subs[i].handle)
  {
    if n > 0 {
      NoticesHas(subs, n - 1, e, a, told);
    }
  }

  /** What leaves the machine with an event: the notices, and after them the order. */
  lemma OutputsAre(t: Transition)
    ensures |Out(t)| == |t.told| + One(t.order.Some?)
    ensures forall i :: 0 <= i < |t.told| ==> Out(t)[i] == Tell(t.told[i])
    ensures t.order.Some? ==> Out(t)[|t.told|] == Order(t.order.value)
  {
  }

  // -------------------------------------------------- how often, and in which order

  /** The notices go to the subscribers at these places of the list, in its order. */
  predicate Places(places: seq<nat>, told: seq<Notice>, subs: seq<Subscriber>, n: nat)
    requires n <= |subs|
  {
    && |places| == |told|
    && (forall p :: 0 <= p < |told| ==> places[p] < n && subs[places[p]].handle == told[p].handle)
    && forall p, q :: 0 <= p < q < |told| ==> places[p] < places[q]
  }

  /** The notices name subscribers in the order of the list, each at most once. */
  ghost predicate InListOrder(told: seq<Notice>, subs: seq<Subscriber>, n: nat)
    requires n <= |subs|
  {
    exists places: seq<nat> :: Places(places, told, subs, n)
  }

  lemma {:induction false} NoticesInOrder(subs: seq<Subscriber>, n: nat, e: Event, a: Audience)
    requires n <= |subs|
    ensures InListOrder(Notices(subs, n, e, a), subs, n)
  {
    if n == 0 {
      assert Places([], Notices(subs, 0, e, a), subs, 0);
    } else {
      var told := Notices(subs, n - 1, e, a);
      NoticesInOrder(subs, n - 1, e, a);
      hide InListOrder;
      OneMorePlace(told, subs, n - 1, NoticeFor(e, subs[n - 1].handle));
      assert told + [] == told;
    }
  }

  lemma OneMorePlace(told: seq<Notice>, subs: seq<Subscriber>, n: nat, next: Notice)
    requires n < |subs| && InListOrder(told, subs, n) && next.handle == subs[n].handle
    ensures InListOrder(told, subs, n + 1) && InListOrder(told + [next], subs, n + 1)
  {
    var places: seq<nat> :| Places(places, told, subs, n);
    assert Places(places, told, subs, n + 1);
    assert Places(places + [n], told + [next], subs, n + 1);
  }

  /** Of every event but those of a single subscriber: the notices are in list order. */
  lemma StepTellsInOrder(m: Machine, e: Event)
    requires !e.Subscribe? && !e.Unsubscribe?
    ensures InListOrder(Step(m, e).told, m.subs, |m.subs|)
  {
    hide Notices, Outside, AnyActive, InListOrder;
    NoticesInOrder(m.subs, |m.subs|, ConnectionGranted, ActiveOnes);
    NoticesInOrder(m.subs, |m.subs|, ConnectionReleased, InactiveOnes);
    NoticesInOrder(m.subs, |m.subs|, ConnectionReleased, Everyone);
    NoticesInOrder(m.subs, |m.subs|, ConnectionDenied, Everyone);
    NobodyInOrder(m.subs);
  }

  lemma NobodyInOrder(subs: seq<Subscriber>)
    ensures InListOrder([], subs, |subs|)
  {
    assert Places([], [], subs, |subs|);
  }

  /** With handles that are unique no notice is sent twice by an event. */
  lemma StepTellsOnce(m: Machine, e: Event, n: Notice)
    requires UniqueHandles(m.subs)
    ensures multiset(Step(m, e).told)[n] == One(n in Step(m, e).told)
  {
    hide Notices, Outside, Retired, AnyActive, Add, InListOrder, UniqueHandles, Step;
    if e.Subscribe? || e.Unsubscribe? {
      OneNotice(m, e);
    } else {
      StepTellsInOrder(m, e);
      OrderedIsOnce(Step(m, e).told, m.subs, n);
    }
  }

  lemma OneNotice(m: Machine, e: Event)
    requires e.Subscribe? || e.Unsubscribe?
    ensures |Step(m, e).told| <= 1
  {
    hide Retired, AnyActive, Add;
  }

  lemma OrderedIsOnce(told: seq<Notice>, subs: seq<Subscriber>, n: Notice)
    requires UniqueHandles(subs) && InListOrder(told, subs, |subs|)
    ensures multiset(told)[n] == One(n in told)
  {
    var places: seq<nat> :| Places(places, told, subs, |subs|);
    assert forall p, q :: 0 <= p < q < |told| ==> places[p] < places[q] && told[p] != told[q];
    CountOfDistinct(told, n);
  }

  lemma {:induction false} CountOfDistinct(told: seq<Notice>, n: Notice)
    requires forall p, q :: 0 <= p < q < |told| ==> told[p] != told[q]
    ensures multiset(told)[n] == One(n in told)
  {
    if told != [] {
      var last := told[|told| - 1];
      assert told == told[..|told| - 1] + [last];
      CountOfDistinct(told[..|told| - 1], n);
    }
  }

  // -------------------------------------------------- who is listed, and the state

  /** The subscriber is listed after the event, told from who was listed before it. */
  ghost predicate ListedAfter(m: Machine, e: Event, s: Subscriber) {
    match e
    case Subscribe(h, w) => s in m.subs || (s == Subscriber(h, w, false) && !Listed(m.subs, h))
    case Unsubscribe(h, w) =>
      if m.state == Released || s.handle != h then s in m.subs
      else w && s.inactive && exists u :: u in m.subs && u.handle == h && u.waitForClose == s.waitForClose
    case ConnectionGranted => s in m.subs
    case ConnectionReleased => s in m.subs && m.state != Acquired && !(m.state == Releasing && s.inactive)
    case ConnectionDenied => s in m.subs && m.state != Pending && !(m.state == Releasing && s.inactive)
    case ModemRestart => false
  }

  lemma StepListsIff(m: Machine, e: Event, s: Subscriber)
    ensures s in Step(m, e).next.subs <==> ListedAfter(m, e, s)
  {
    hide Outside, Without, Notices, AnyActive;
    assert m.subs[..|m.subs|] == m.subs;
    OutsideHas(m.subs, |m.subs|, Everyone, s);
    OutsideHas(m.subs, |m.subs|, InactiveOnes, s);
    if e.Unsubscribe? {
      WithoutHas(m.subs, |m.subs|, e.handle, s);
      DeactivatedHas(m.subs, e.handle, s);
    }
  }

  lemma {:induction false} OutsideHas(subs: seq<Subscriber>, n: nat, a: Audience, s: Subscriber)
    requires n <= |subs|
    ensures s in Outside(subs, n, a) <==> s in subs[..n] && !Hears(a, s)
  {
    if n > 0 {
      OutsideHas(subs, n - 1, a, s);
      assert subs[..n] == subs[..n - 1] + [subs[n - 1]];
    }
  }

  lemma {:induction false} WithoutHas(subs: seq<Subscriber>, n: nat, h: int, s: Subscriber)
    requires n <= |subs|
    ensures s in Without(subs, n, h) <==> s in subs[..n] && s.handle != h
  {
    if n > 0 {
      WithoutHas(subs, n - 1, h, s);
      assert subs[..n] == subs[..n - 1] + [subs[n - 1]];
    }
  }

  lemma DeactivatedHas(subs: seq<Subscriber>, h: int, s: Subscriber)
    ensures s in Deactivate(subs, h) <==>
      if s.handle != h then s in subs
      else s.inactive && exists u :: u in subs && u.handle == h && u.waitForClose == s.waitForClose
  {
    var r := Deactivate(subs, h);
    if s in r {
      var i :| 0 <= i < |r| && r[i] == s;
      assert subs[i] in subs;
    }
    if u :| u in subs && (if s.handle != h then u == s else u.handle == h && u.waitForClose == s.waitForClose) {
      var i :| 0 <= i < |subs| && subs[i] == u;
      assert r[i] in r;
    }
  }

  /** Somebody other than h is listed, and active. */
  predicate OthersUse(subs: seq<Subscriber>, h: int) {
    exists i :: 0 <= i < |subs| && subs[i].handle != h && !subs[i].inactive
  }

  /** When h leaves, at once or waiting, somebody is still listed. */
  predicate SomebodyStays(subs: seq<Subscriber>, h: int, wait: bool) {
    if wait then subs != [] else exists i :: 0 <= i < |subs| && subs[i].handle != h
  }

  /** The state after an event, told from who was listed before it. */
  predicate StateIs(m: Machine, e: Event, s: State) {
    match m.state
    case Released => s == if e.Subscribe? then Pending else Released
    case Pending =>
      s == (match e
            case ConnectionGranted => Acquired
            case ConnectionDenied => Released
            case Unsubscribe(h, w) => LeftIn(m, h, w)
            case _ => Pending)
    case Acquired =>
      s == (match e
            case ConnectionReleased => Released
            case Unsubscribe(h, w) => LeftIn(m, h, w)
            case _ => Acquired)
    case Releasing =>
      s == (match e
            case ConnectionReleased | ConnectionDenied => if AnyActive(m.subs) then Pending else Released
            case Unsubscribe(h, w) => if SomebodyStays(m.subs, h, w) then Releasing else Released
            case _ => Releasing)
  }

  function LeftIn(m: Machine, h: int, w: bool): State {
    if OthersUse(m.subs, h) then m.state else if SomebodyStays(m.subs, h, w) then Releasing else Released
  }

  lemma StepStateIs(m: Machine, e: Event)
    ensures StateIs(m, e, Step(m, e).next.state)
  {
    hide Outside, Without, Notices;
    assert m.subs[..|m.subs|] == m.subs;
    ActiveOutside(m.subs);
    if e.Unsubscribe? {
      LeftFacts(m.subs, e.handle);
      DeactivatedFacts(m.subs, e.handle);
    }
  }

  lemma ActiveOutside(subs: seq<Subscriber>)
    ensures AnyActive(Outside(subs, |subs|, InactiveOnes)) <==> AnyActive(subs)
  {
    hide Outside;
    var left := Outside(subs, |subs|, InactiveOnes);
    assert subs[..|subs|] == subs;
    forall s
      ensures s in left <==> s in subs && !s.inactive
    {
      OutsideHas(subs, |subs|, InactiveOnes, s);
    }
    if AnyActive(left) {
      var i :| 0 <= i < |left| && !left[i].inactive;
      assert left[i] in left;
    }
    if AnyActive(subs) {
      var i :| 0 <= i < |subs| && !subs[i].inactive;
      assert subs[i] in left;
    }
  }

  lemma LeftFacts(subs: seq<Subscriber>, h: int)
    ensures var left := Without(subs, |subs|, h);
      && (AnyActive(left) <==> OthersUse(subs, h))
      && (left != [] <==> SomebodyStays(subs, h, false))
  {
    hide Without;
    var left := Without(subs, |subs|, h);
    assert subs[..|subs|] == subs;
    forall s
      ensures s in left <==> s in subs && s.handle != h
    {
      WithoutHas(subs, |subs|, h, s);
    }
    assert forall i :: 0 <= i < |left| ==> left[i] in left;
    assert forall i :: 0 <= i < |subs| && subs[i].handle != h ==> subs[i] in left;
    if left != [] {
      var i :| 0 <= i < |subs| && subs[i] == left[0];
      assert subs[i].handle != h;
    }
  }

  lemma DeactivatedFacts(subs: seq<Subscriber>, h: int)
    ensures var left := Deactivate(subs, h);
      && (AnyActive(left) <==> OthersUse(subs, h))
      && (left != [] <==> SomebodyStays(subs, h, true))
  {
    var left := Deactivate(subs, h);
    if OthersUse(subs, h) {
      var i :| 0 <= i < |subs| && subs[i].handle != h && !subs[i].inactive;
      assert !left[i].inactive;
    }
    if AnyActive(left) {
      var i :| 0 <= i < |left| && !left[i].inactive;
      assert subs[i].handle != h && left[i] == subs[i];
    }
  }

  /** The subscribers left are those at these places of the list, in its order. */
  predicate LeftAt(places: seq<nat>, left: seq<Subscriber>, subs: seq<Subscriber>, n: nat)
    requires n <= |subs|
  {
    && |places| == |left|
    && (forall p :: 0 <= p < |left| ==> places[p] < n && subs[places[p]].handle == left[p].handle)
    && forall p, q :: 0 <= p < q < |left| ==> places[p] < places[q]
  }

  ghost predicate LeftInOrder(left: seq<Subscriber>, subs: seq<Subscriber>, n: nat)
    requires n <= |subs|
  {
    exists places: seq<nat> :: LeftAt(places, left, subs, n)
  }

  /** A subscriber that joins is the last, and the others never change places. */
  lemma StepKeepsOrder(m: Machine, e: Event)
    ensures if e.Subscribe? then m.subs <= Step(m, e).next.subs else LeftInOrder(Step(m, e).next.subs, m.subs, |m.subs|)
  {
    hide Notices, Outside, Without, AnyActive, LeftInOrder;
    OutsideInOrder(m.subs, |m.subs|, Everyone);
    OutsideInOrder(m.subs, |m.subs|, InactiveOnes);
    AllInOrder(m.subs, m.subs);
    NoneInOrder(m.subs);
    if e.Unsubscribe? {
      WithoutInOrder(m.subs, |m.subs|, e.handle);
      AllInOrder(Deactivate(m.subs, e.handle), m.subs);
    }
  }

  lemma AllInOrder(left: seq<Subscriber>, subs: seq<Subscriber>)
    requires |left| == |subs| && forall i :: 0 <= i < |subs| ==> left[i].handle == subs[i].handle
    ensures LeftInOrder(left, subs, |subs|)
  {
    var places: seq<nat> := seq(|subs|, i requires 0 <= i < |subs| => i);
    assert LeftAt(places, left, subs, |subs|);
  }

  lemma NoneInOrder(subs: seq<Subscriber>)
    ensures LeftInOrder([], subs, |subs|)
  {
    assert LeftAt([], [], subs, |subs|);
  }

  lemma OneMoreLeft(left: seq<Subscriber>, subs: seq<Subscriber>, n: nat)
    requires n < |subs| && LeftInOrder(left, subs, n)
    ensures LeftInOrder(left, subs, n + 1) && LeftInOrder(left + [subs[n]], subs, n + 1)
  {
    var places: seq<nat> :| LeftAt(places, left, subs, n);
    assert LeftAt(places, left, subs, n + 1);
    assert LeftAt(places + [n], left + [subs[n]], subs, n + 1);
  }

  lemma {:induction false} OutsideInOrder(subs: seq<Subscriber>, n: nat, a: Audience)
    requires n <= |subs|
    ensures LeftInOrder(Outside(subs, n, a), subs, n)
  {
    if n == 0 {
      assert LeftAt([], Outside(subs, 0, a), subs, 0);
    } else {
      OutsideInOrder(subs, n - 1, a);
      hide LeftInOrder;
      OneMoreLeft(Outside(subs, n - 1, a), subs, n - 1);
      assert Outside(subs, n - 1, a) + [] == Outside(subs, n - 1, a);
    }
  }

  lemma {:induction false} WithoutInOrder(subs: seq<Subscriber>, n: nat, h: int)
    requires n <= |subs|
    ensures LeftInOrder(Without(subs, n, h), subs, n)
  {
    if n == 0 {
      assert LeftAt([], Without(subs, 0, h), subs, 0);
    } else {
      WithoutInOrder(subs, n - 1, h);
      hide LeftInOrder;
      OneMoreLeft(Without(subs, n - 1, h), subs, n - 1);
      assert Without(subs, n - 1, h) + [] == Without(subs, n - 1, h);
    }
  }

  // -------------------------------------------------- over runs

  /** How often a notice was sent up to position k. */
  function Sent(evs: seq<Event>, k: nat, n: Notice): nat
    requires k <= |evs|
  {
    if k == 0 then 0 else Sent(evs, k - 1, n) + multiset(Made(evs, k - 1).told)[n]
  }

  /** How many of the first k events refuse h what it waits for. */
  function Refusals(evs: seq<Event>, k: nat, h: int): nat
    requires k <= |evs|
  {
    if k == 0 then 0 else Refusals(evs, k - 1, h) + One(Refused(At(evs, k - 1), evs[k - 1], h))
  }

  /** How many open the connection for h. */
  function Openings(evs: seq<Event>, k: nat, h: int): nat
    requires k <= |evs|
  {
    if k == 0 then 0 else Openings(evs, k - 1, h) + One(Opened(At(evs, k - 1), evs[k - 1], h))
  }

  /** How many close it for h. */
  function Closings(evs: seq<Event>, k: nat, h: int): nat
    requires k <= |evs|
  {
    if k == 0 then 0 else Closings(evs, k - 1, h) + One(Closes(At(evs, k - 1), evs[k - 1], h))
  }

  /** On every run, each kind of notice is sent exactly as often as there was cause. */
  lemma {:induction false} EveryNoticeHasItsCause(evs: seq<Event>, k: nat, h: int)
    requires Legal(evs) && k <= |evs|
    ensures Sent(evs, k, OpenFailed(h)) == Refusals(evs, k, h)
    ensures Sent(evs, k, OpenOk(h)) == Openings(evs, k, h)
    ensures Sent(evs, k, Closed(h)) == Closings(evs, k, h)
  {
    hide Step, At, Refused, Opened, Closes, Sound, UniqueHandles;
    if k > 0 {
      EveryNoticeHasItsCause(evs, k - 1, h);
      EveryRunIsSound(evs, k - 1);
      StepTellsExactly(At(evs, k - 1), evs[k - 1], h);
    }
  }

  lemma StepTellsExactly(m: Machine, e: Event, h: int)
    requires Sound(m)
    ensures var told := multiset(Step(m, e).told);
      && told[OpenFailed(h)] == One(Refused(m, e, h))
      && told[OpenOk(h)] == One(Opened(m, e, h))
      && told[Closed(h)] == One(Closes(m, e, h))
  {
    hide Step, Refused, Opened, Closes, UniqueHandles;
    StepTellsIff(m, e, h);
    StepTellsOnce(m, e, OpenFailed(h));
    StepTellsOnce(m, e, OpenOk(h));
    StepTellsOnce(m, e, Closed(h));
  }

  /** The conservation law with the two ends apart: every insertion ends in a close or in a
      refusal, as the case was, unless a modem restart drops it or it goes on. */
  lemma EveryJoinEndsAsItShould(evs: seq<Event>, k: nat, h: int)
    requires Legal(evs) && k <= |evs|
    ensures Joins(evs, k, h) == Closings(evs, k, h) + Refusals(evs, k, h) + Drops(evs, k, h) + One(Listed(At(evs, k).subs, h))
  {
    hide At, Listed, Closes, Refused;
    EveryJoinIsAccountedFor(evs, k, h);
    EveryNoticeHasItsCause(evs, k, h);
    EndsAreSent(evs, k, h);
  }

  lemma {:induction false} EndsAreSent(evs: seq<Event>, k: nat, h: int)
    requires k <= |evs|
    ensures Terminals(evs, k, h) == Sent(evs, k, Closed(h)) + Sent(evs, k, OpenFailed(h))
  {
    hide Step, Made, At;
    if k > 0 {
      EndsAreSent(evs, k - 1, h);
    }
  }

  /** The framework refuses the one that waits, and it is told so, not of a close. */
  lemma RefusalIsTold()
    ensures Step(Machine(Pending, [Subscriber(7, true, false)]), ConnectionDenied).told == [OpenFailed(7)]
  {
    var m := Machine(Pending, [Subscriber(7, true, false)]);
    assert Notices(m.subs, 0, ConnectionDenied, Everyone) == [];
    assert Notices(m.subs, 1, ConnectionDenied, Everyone) == [OpenFailed(7)];
  }

  // -------------------------------------------------- calls

  /** What a request does: the handle is listed in the machine its type belongs to, if there
      is one, which has a connection or asks for one; nothing else changes anywhere. */
  lemma RequestIsListed(m: Manager, h: int, t: AgpsType)
    ensures var n := ManagerStep(m, RequestATL(h, t));
      var (before, after) := if IsSupl(t) then (m.agnss, n.agnss) else (m.internet, n.internet);
      && (if IsSupl(t) then n.internet == m.internet else n.agnss == m.agnss)
      && (before.Some? <==> after.Some?)
      && (before.Some? ==>
            && Listed(after.value.subs, h) && after.value.state != Released
            && (forall s :: s in before.value.subs ==> s in after.value.subs)
            && (forall s :: s in after.value.subs ==> s in before.value.subs || s == Subscriber(h, true, false)))
  {
    hide Step;
    CallsAreRouted(m, RequestATL(h, t));
    var before := if IsSupl(t) then m.agnss else m.internet;
    if before.Some? {
      var machine, e := before.value, Subscribe(h, true);
      StepStateIs(machine, e);
      forall s
        ensures s in Step(machine, e).next.subs <==> ListedAfter(machine, e, s)
      {
        StepListsIff(machine, e, s);
      }
      var next := Step(machine, e).next.subs;
      if Listed(machine.subs, h) {
        var i :| 0 <= i < |machine.subs| && machine.subs[i].handle == h;
        assert machine.subs[i] in next;
      } else {
        assert Subscriber(h, true, false) in next;
      }
    }
  }

  /** What the framework's answer to a request does to the machine of that type: granted, it
      has the connection; refused, or closed later, it has none, and nobody is left listed. */
  lemma AnswersSettle(m: Manager, t: AgpsType)
    requires (if IsSupl(t) then m.agnss else m.internet).Some?
    ensures var before := (if IsSupl(t) then m.agnss else m.internet).value;
      var granted, refused, closed :=
        ManagerStep(m, ReportOpenSuccess(t)), ManagerStep(m, ReportOpenFailed(t)), ManagerStep(m, ReportClosed(t));
      && (before.state == Pending ==> (if IsSupl(t) then granted.agnss else granted.internet) == Some(before.(state := Acquired)))
      && (before.state == Pending ==> (if IsSupl(t) then refused.agnss else refused.internet) == Some(Machine(Released, [])))
      && (before.state == Acquired ==> (if IsSupl(t) then closed.agnss else closed.internet) == Some(Machine(Released, [])))
  {
    hide Notices, Outside;
    CallsAreRouted(m, ReportOpenSuccess(t));
    CallsAreRouted(m, ReportOpenFailed(t));
    CallsAreRouted(m, ReportClosed(t));
    var before := (if IsSupl(t) then m.agnss else m.internet).value;
    NobodyOutsideEveryone(before.subs, |before.subs|);
  }
}
