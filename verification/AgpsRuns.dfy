/** What every run of an AGPS machine keeps, and what is conserved. A run is a sequence
    of events; position k of a run is the point after its first k events. */
module AgpsRuns {
  import opened Wrappers
  import opened AgpsModel

  /** An unsubscribe comes from a listed subscriber and carries that subscriber's own
      wait flag, as AgpsManager::releaseATL guarantees. */
  predicate Allowed(m: Machine, e: Event) {
    e.Unsubscribe? ==>
      exists i :: 0 <= i < |m.subs| && m.subs[i].handle == e.handle && m.subs[i].waitForClose == e.waitForClose
  }

  function At(evs: seq<Event>, k: nat): Machine
    requires k <= |evs|
  {
    if k == 0 then FRESH else Step(At(evs, k - 1), evs[k - 1]).next
  }

  /** The transition made by event number k. */
  function Made(evs: seq<Event>, k: nat): Transition
    requires k < |evs|
  {
    Step(At(evs, k), evs[k])
  }

  predicate Legal(evs: seq<Event>) {
    forall k :: 0 <= k < |evs| ==> Allowed(At(evs, k), evs[k])
  }

  function One(b: bool): nat {
    if b then 1 else 0
  }

  // ---------------------------------------------------------------- invariants

  ghost predicate UniqueHandles(subs: seq<Subscriber>) {
    forall i, j :: 0 <= i < j < |subs| ==> subs[i].handle != subs[j].handle
  }

  ghost predicate InactiveWait(subs: seq<Subscriber>) {
    forall i :: 0 <= i < |subs| && subs[i].inactive ==> subs[i].waitForClose
  }

  ghost predicate SomeInactive(subs: seq<Subscriber>) {
    exists i :: 0 <= i < |subs| && subs[i].inactive
  }

  /** Kept by every run, modem restarts included. */
  ghost predicate Sound(m: Machine) {
    UniqueHandles(m.subs) && InactiveWait(m.subs) && (m.state == Released ==> m.subs == [])
  }

  /** Kept by every run without a modem restart. */
  ghost predicate Tight(m: Machine) {
    && Sound(m)
    && (m.state == Released <==> m.subs == [])
    && (m.state in {Pending, Acquired} ==> AnyActive(m.subs))
    && (m.state == Releasing ==> SomeInactive(m.subs))
  }

  lemma {:induction false} OutsideFacts(subs: seq<Subscriber>, n: nat, a: Audience)
    requires n <= |subs|
    requires UniqueHandles(subs)
    ensures forall s :: s in Outside(subs, n, a) <==> s in subs[..n] && !Hears(a, s)
    ensures UniqueHandles(Outside(subs, n, a))
  {
    if n > 0 {
      OutsideFacts(subs, n - 1, a);
      assert subs[..n] == subs[..n - 1] + [subs[n - 1]];
      OneMoreIsUnique(subs, n, Outside(subs, n - 1, a));
    }
  }

  lemma OneMoreIsUnique(subs: seq<Subscriber>, n: nat, picked: seq<Subscriber>)
    requires 0 < n <= |subs| && UniqueHandles(subs) && UniqueHandles(picked)
    requires forall s :: s in picked ==> s in subs[..n - 1]
    ensures UniqueHandles(picked + [subs[n - 1]])
  {
    forall i | 0 <= i < |picked|
      ensures picked[i].handle != subs[n - 1].handle
    {
      assert picked[i] in picked;
      var j :| 0 <= j < n - 1 && subs[..n - 1][j] == picked[i];
      assert subs[j].handle != subs[n - 1].handle;
    }
  }

  lemma {:induction false} WithoutFacts(subs: seq<Subscriber>, n: nat, h: int)
    requires n <= |subs|
    requires UniqueHandles(subs)
    ensures forall s :: s in Without(subs, n, h) <==> s in subs[..n] && s.handle != h
    ensures UniqueHandles(Without(subs, n, h))
  {
    if n > 0 {
      WithoutFacts(subs, n - 1, h);
      assert subs[..n] == subs[..n - 1] + [subs[n - 1]];
      OneMoreIsUnique(subs, n, Without(subs, n - 1, h));
    }
  }

  lemma {:induction false} NobodyOutsideEveryone(subs: seq<Subscriber>, n: nat)
    requires n <= |subs|
    ensures Outside(subs, n, Everyone) == []
  {
    if n > 0 {
      NobodyOutsideEveryone(subs, n - 1);
    }
  }

  /** What is left when the waiting subscribers have gone: the active ones. */
  lemma LeftAfterSweep(subs: seq<Subscriber>)
    requires UniqueHandles(subs)
    ensures var left := Outside(subs, |subs|, InactiveOnes);
      && (forall i :: 0 <= i < |left| ==> !left[i].inactive && left[i] in subs)
      && (left != [] ==> AnyActive(left))
      && UniqueHandles(left)
  {
    var left := Outside(subs, |subs|, InactiveOnes);
    OutsideFacts(subs, |subs|, InactiveOnes);
    assert subs[..|subs|] == subs;
    forall i | 0 <= i < |left|
      ensures !left[i].inactive && left[i] in subs
    {
      assert left[i] in left;
    }
    assert left != [] ==> !left[0].inactive;
  }

  lemma WithoutKeeps(subs: seq<Subscriber>, h: int)
    requires UniqueHandles(subs)
    ensures var left := Without(subs, |subs|, h);
      && UniqueHandles(left)
      && (InactiveWait(subs) ==> InactiveWait(left))
      && (forall s :: s in left <==> s in subs && s.handle != h)
  {
    var left := Without(subs, |subs|, h);
    WithoutFacts(subs, |subs|, h);
    assert subs[..|subs|] == subs;
    if InactiveWait(subs) {
      forall i | 0 <= i < |left| && left[i].inactive
        ensures left[i].waitForClose
      {
        assert left[i] in left;
      }
    }
  }

  lemma DeactivateKeeps(subs: seq<Subscriber>, h: int)
    requires UniqueHandles(subs) && InactiveWait(subs)
    requires Allowed(Machine(Pending, subs), Unsubscribe(h, true))
    ensures UniqueHandles(Deactivate(subs, h)) && InactiveWait(Deactivate(subs, h))
    ensures SomeInactive(Deactivate(subs, h))
  {
    var i :| 0 <= i < |subs| && subs[i].handle == h && subs[i].waitForClose;
    assert Deactivate(subs, h)[i].inactive;
  }

  lemma UnsubscribeKeepsSound(m: Machine, h: int, w: bool)
    requires Sound(m) && Allowed(m, Unsubscribe(h, w))
    ensures Sound(OnUnsubscribe(m, h, w).next)
    ensures Tight(m) ==> Tight(OnUnsubscribe(m, h, w).next)
  {
    hide Without;
    if w {
      assert Allowed(Machine(Pending, m.subs), Unsubscribe(h, true));
      DeactivateKeeps(m.subs, h);
    } else {
      WithoutKeeps(m.subs, h);
      if Tight(m) && m.state == Releasing {
        var i :| 0 <= i < |m.subs| && m.subs[i].inactive;
        var g :| 0 <= g < |m.subs| && m.subs[g].handle == h && !m.subs[g].waitForClose;
        assert m.subs[i] in Without(m.subs, |m.subs|, h);
      }
      var left := Without(m.subs, |m.subs|, h);
      assert left != [] && !AnyActive(left) ==> left[0].inactive;
    }
  }

  lemma SweepKeepsSound(m: Machine)
    requires Sound(m)
    ensures Tight(OnReleasingDone(m).next)
  {
    hide Outside;
    LeftAfterSweep(m.subs);
  }

  lemma ListAfterAdd(subs: seq<Subscriber>, s: Subscriber)
    requires UniqueHandles(subs) && InactiveWait(subs) && !s.inactive
    ensures var added := Add(subs, s);
      && UniqueHandles(added) && InactiveWait(added) && added != []
      && (AnyActive(subs) || subs == [] ==> AnyActive(added))
      && (SomeInactive(subs) ==> SomeInactive(added))
  {
    var added := Add(subs, s);
    assert forall i :: 0 <= i < |subs| ==> added[i] == subs[i];
    assert subs == [] ==> added == [s] && !added[0].inactive;
  }

  lemma AddKeeps(m: Machine, s: Subscriber)
    requires Sound(m) && !s.inactive
    ensures Sound(OnSubscribe(m, s).next)
    ensures Tight(m) ==> Tight(OnSubscribe(m, s).next)
  {
    ListAfterAdd(m.subs, s);
    hide Add, UniqueHandles, InactiveWait, AnyActive, SomeInactive;
  }

  lemma StepKeeps(m: Machine, e: Event)
    requires Sound(m) && Allowed(m, e)
    ensures Sound(Step(m, e).next)
    ensures Tight(m) && e != ModemRestart ==> Tight(Step(m, e).next)
  {
    match e {
      case Subscribe(h, w) => AddKeeps(m, Subscriber(h, w, false));
      case Unsubscribe(h, w) => UnsubscribeKeepsSound(m, h, w);
      case ConnectionReleased | ConnectionDenied =>
        if m.state == Releasing {
          SweepKeepsSound(m);
        } else {
          NobodyOutsideEveryone(m.subs, |m.subs|);
        }
      case _ =>
    }
  }

  lemma FreshIsTight()
    ensures Sound(FRESH) && Tight(FRESH)
  {
  }

  lemma {:induction false} EveryRunIsSound(evs: seq<Event>, k: nat)
    requires Legal(evs) && k <= |evs|
    ensures Sound(At(evs, k))
  {
    hide Step, Sound;
    if k == 0 {
      FreshIsTight();
    } else {
      EveryRunIsSound(evs, k - 1);
      StepKeeps(At(evs, k - 1), evs[k - 1]);
    }
  }

  lemma {:induction false} RestartFreeRunIsTight(evs: seq<Event>, k: nat)
    requires Legal(evs) && k <= |evs| && ModemRestart !in evs
    ensures Tight(At(evs, k))
  {
    hide Step, Sound, Tight;
    FreshIsTight();
    if k > 0 {
      EveryRunIsSound(evs, k - 1);
      RestartFreeRunIsTight(evs, k - 1);
      StepKeeps(At(evs, k - 1), evs[k - 1]);
    }
  }

  /** A connection, or one under way, that nobody is listed for. */
  predicate Stranded(m: Machine) {
    m.state != Released && m.subs == []
  }

  /** A modem restart keeps a machine in order exactly if nobody is listed; otherwise it
      strands the machine, and that alone is what is wrong. */
  lemma RestartStrandsIff(m: Machine)
    requires Tight(m)
    ensures var n := Step(m, ModemRestart).next;
      && (Tight(n) <==> m.subs == [])
      && (Stranded(n) <==> m.subs != [])
      && Sound(n) && n.state == m.state
  {
  }

  /** On runs without a restart no machine is stranded; the first restart does it to exactly
      the machines that have subscribers. */
  lemma FirstRestartStrandsIff(evs: seq<Event>, k: nat)
    requires Legal(evs) && k < |evs| && evs[k] == ModemRestart && ModemRestart !in evs[..k]
    ensures !Stranded(At(evs, k))
    ensures Stranded(At(evs, k + 1)) <==> At(evs, k).subs != []
    ensures Tight(At(evs, k + 1)) <==> At(evs, k).subs == []
  {
    hide Step, Tight, Sound;
    PrefixAgrees(evs, k, k);
    RestartFreeRunIsTight(evs[..k], k);
    RestartStrandsIff(At(evs, k));
    TightIsNotStranded(At(evs, k));
  }

  lemma TightIsNotStranded(m: Machine)
    requires Tight(m)
    ensures !Stranded(m)
  {
  }

  lemma PrefixAgrees(evs: seq<Event>, n: nat, k: nat)
    requires k <= n <= |evs|
    ensures At(evs[..n], k) == At(evs, k)
    ensures Legal(evs) ==> Legal(evs[..n])
  {
    hide Step;
    PrefixAt(evs, n, k);
    forall i | 0 <= i < n
      ensures At(evs[..n], i) == At(evs, i)
    {
      PrefixAt(evs, n, i);
    }
  }

  lemma {:induction false} PrefixAt(evs: seq<Event>, n: nat, k: nat)
    requires k <= n <= |evs|
    ensures At(evs[..n], k) == At(evs, k)
  {
    hide Step;
    if k > 0 {
      PrefixAt(evs, n, k - 1);
    }
  }

  // -------------------------------------------------------------- conservation

  /** Notices that end a subscription: a close, or a refused open. */
  function Ends(told: seq<Notice>, h: int): nat {
    multiset(told)[Closed(h)] + multiset(told)[OpenFailed(h)]
  }

  /** The event inserts h into the list. */
  predicate Inserts(m: Machine, e: Event, h: int) {
    e.Subscribe? && e.handle == h && !Listed(m.subs, h)
  }

  /** The event sweeps h out of the list without a notice. */
  predicate Sweeps(m: Machine, e: Event, h: int) {
    e == ModemRestart && Listed(m.subs, h)
  }

  function Joins(evs: seq<Event>, k: nat, h: int): nat
    requires k <= |evs|
  {
    if k == 0 then 0 else Joins(evs, k - 1, h) + One(Inserts(At(evs, k - 1), evs[k - 1], h))
  }

  /** Terminal notices to h among everything sent up to position k. */
  function Terminals(evs: seq<Event>, k: nat, h: int): nat
    requires k <= |evs|
  {
    if k == 0 then 0 else Terminals(evs, k - 1, h) + Ends(Made(evs, k - 1).told, h)
  }

  function Drops(evs: seq<Event>, k: nat, h: int): nat
    requires k <= |evs|
  {
    if k == 0 then 0 else Drops(evs, k - 1, h) + One(Sweeps(At(evs, k - 1), evs[k - 1], h))
  }

  ghost predicate ListedBelow(subs: seq<Subscriber>, n: nat, h: int)
    requires n <= |subs|
  {
    exists i :: 0 <= i < n && subs[i].handle == h
  }

  lemma EndsOfAppend(a: seq<Notice>, b: seq<Notice>, h: int)
    ensures Ends(a + b, h) == Ends(a, h) + Ends(b, h)
    ensures Ends([], h) == 0
  {
  }

  lemma EndsOfOne(n: Notice, h: int)
    ensures Ends([n], h) == One(n == Closed(h) || n == OpenFailed(h))
  {
  }

  /** A notification sweep with deletion: each subscriber in the audience leaves the
      list with exactly one terminal notice, nobody else is told. */
  lemma {:induction false} SweepBalance(subs: seq<Subscriber>, n: nat, e: Event, a: Audience, h: int)
    requires UniqueHandles(subs) && e != ConnectionGranted && n <= |subs|
    ensures Ends(Notices(subs, n, e, a), h) + One(Listed(Outside(subs, n, a), h)) == One(ListedBelow(subs, n, h))
  {
    hide Ends, Listed;
    NobodyListed(h);
    EndsOfAppend([], [], h);
    if n > 0 {
      var s := subs[n - 1];
      SweepBalance(subs, n - 1, e, a, h);
      ListedOfAppend(Outside(subs, n - 1, a), if Hears(a, s) then [] else [s], h);
      EndsOfAppend(Notices(subs, n - 1, e, a), if Hears(a, s) then [NoticeFor(e, s.handle)] else [], h);
      EndsOfOne(NoticeFor(e, s.handle), h);
      LastListed(subs, n, h);
    }
  }

  lemma LastListed(subs: seq<Subscriber>, n: nat, h: int)
    requires 0 < n <= |subs| && UniqueHandles(subs)
    ensures ListedBelow(subs, n, h) <==> ListedBelow(subs, n - 1, h) || subs[n - 1].handle == h
    ensures subs[n - 1].handle == h ==> !ListedBelow(subs, n - 1, h)
  {
    assert subs[n - 1].handle == h ==> ListedBelow(subs, n, h);
  }

  lemma NobodyListed(h: int)
    ensures !Listed([], h)
  {
  }

  lemma ListedOfAppend(a: seq<Subscriber>, b: seq<Subscriber>, h: int)
    requires |b| <= 1
    ensures Listed(a + b, h) <==> Listed(a, h) || (b != [] && b[0].handle == h)
  {
    if Listed(a, h) {
      var i :| 0 <= i < |a| && a[i].handle == h;
      assert (a + b)[i].handle == h;
    }
    if b != [] {
      assert (a + b)[|a|] == b[0];
    }
  }

  lemma {:induction false} GrantsEndNothing(subs: seq<Subscriber>, n: nat, a: Audience, h: int)
    requires n <= |subs|
    ensures Ends(Notices(subs, n, ConnectionGranted, a), h) == 0
  {
    hide Ends;
    EndsOfAppend([], [], h);
    if n > 0 {
      var s := subs[n - 1];
      GrantsEndNothing(subs, n - 1, a, h);
      EndsOfAppend(Notices(subs, n - 1, ConnectionGranted, a), if Hears(a, s) then [OpenOk(s.handle)] else [], h);
      EndsOfOne(OpenOk(s.handle), h);
    }
  }

  lemma WholeSweepBalance(subs: seq<Subscriber>, e: Event, a: Audience, h: int)
    requires UniqueHandles(subs) && e != ConnectionGranted
    ensures Ends(Notices(subs, |subs|, e, a), h) + One(Listed(Outside(subs, |subs|, a), h)) == One(Listed(subs, h))
  {
    SweepBalance(subs, |subs|, e, a, h);
    assert ListedBelow(subs, |subs|, h) <==> Listed(subs, h);
  }

  lemma UnsubscribeBalance(m: Machine, g: int, w: bool, h: int)
    requires Sound(m) && Allowed(m, Unsubscribe(g, w))
    ensures var t := OnUnsubscribe(m, g, w);
      One(Listed(m.subs, h)) == Ends(t.told, h) + One(Listed(t.next.subs, h))
  {
    hide Without;
    var i :| 0 <= i < |m.subs| && m.subs[i].handle == g;
    if w {
      assert forall j :: 0 <= j < |m.subs| ==> Deactivate(m.subs, g)[j].handle == m.subs[j].handle;
      assert Listed(Deactivate(m.subs, g), h) <==> Listed(m.subs, h);
    } else {
      var left := Without(m.subs, |m.subs|, g);
      WithoutKeeps(m.subs, g);
      assert Ends([Closed(g)], h) == One(g == h);
      if Listed(m.subs, h) && g != h {
        var j :| 0 <= j < |m.subs| && m.subs[j].handle == h;
        assert m.subs[j] in left;
      }
      if Listed(left, h) {
        var j :| 0 <= j < |left| && left[j].handle == h;
        assert left[j] in left;
      }
    }
  }

  lemma SubscribeBalance(m: Machine, s: Subscriber, h: int)
    ensures var t := OnSubscribe(m, s);
      One(Listed(m.subs, h)) + One(s.handle == h && !Listed(m.subs, h)) == Ends(t.told, h) + One(Listed(t.next.subs, h))
  {
    ListedOfAppend(m.subs, [s], h);
    assert Ends([OpenOk(s.handle)], h) == 0;
  }

  lemma StepBalance(m: Machine, e: Event, h: int)
    requires Sound(m) && Allowed(m, e)
    ensures var t := Step(m, e);
      One(Listed(m.subs, h)) + One(Inserts(m, e, h))
      == Ends(t.told, h) + One(Sweeps(m, e, h)) + One(Listed(t.next.subs, h))
  {
    hide Notices, Outside, OnSubscribe, OnUnsubscribe;
    match e {
      case Subscribe(g, w) => SubscribeBalance(m, Subscriber(g, w, false), h);
      case Unsubscribe(g, w) => UnsubscribeBalance(m, g, w, h);
      case ConnectionGranted => GrantsEndNothing(m.subs, |m.subs|, ActiveOnes, h);
      case ModemRestart =>
      case _ =>
        WholeSweepBalance(m.subs, e, Everyone, h);
        WholeSweepBalance(m.subs, ConnectionReleased, InactiveOnes, h);
    }
  }

  /** The conservation law: nobody is dropped silently except by a modem restart, and
      nobody is told twice that the connection is gone. */
  lemma {:induction false} EveryJoinIsAccountedFor(evs: seq<Event>, k: nat, h: int)
    requires Legal(evs) && k <= |evs|
    ensures Joins(evs, k, h) == Terminals(evs, k, h) + Drops(evs, k, h) + One(Listed(At(evs, k).subs, h))
  {
    hide Ends, Listed, Inserts, Sweeps, Step;
    if k == 0 {
      NobodyListed(h);
    } else {
      EveryJoinIsAccountedFor(evs, k - 1, h);
      EveryRunIsSound(evs, k - 1);
      StepBalance(At(evs, k - 1), evs[k - 1], h);
    }
  }

  lemma {:induction false} NoDropsWithoutRestart(evs: seq<Event>, k: nat, h: int)
    requires ModemRestart !in evs && k <= |evs|
    ensures Drops(evs, k, h) == 0
  {
    if k > 0 {
      NoDropsWithoutRestart(evs, k - 1, h);
    }
  }

  // -------------------------------------------------- framework commands

  predicate Connected(s: State) {
    s == Pending || s == Acquired
  }

  /** The framework took the connection away: it refused the request, or it closed an
      acquired connection unasked. */
  predicate Resets(m: Machine, e: Event) {
    (m.state == Pending && e == ConnectionDenied) || (m.state == Acquired && e == ConnectionReleased)
  }

  /** How many times command c was sent up to position k. */
  function Orders(evs: seq<Event>, k: nat, c: Command): nat
    requires k <= |evs|
  {
    if k == 0 then 0 else Orders(evs, k - 1, c) + One(Made(evs, k - 1).order == Some(c))
  }

  function ResetCount(evs: seq<Event>, k: nat): nat
    requires k <= |evs|
  {
    if k == 0 then 0 else ResetCount(evs, k - 1) + One(Resets(At(evs, k - 1), evs[k - 1]))
  }

  /** The last command sent up to position k. */
  function LastOrder(evs: seq<Event>, k: nat): Option<Command>
    requires k <= |evs|
  {
    if k == 0 then None
    else if Made(evs, k - 1).order.Some? then Made(evs, k - 1).order
    else LastOrder(evs, k - 1)
  }

  /** Which command a step sends follows from the states around it. */
  lemma StepOrders(m: Machine, e: Event)
    requires Sound(m) && Allowed(m, e)
    ensures var t := Step(m, e);
      && (t.order == None || t.order == Some(Request) || t.order == Some(Release))
      && (t.order == Some(Request) <==> !Connected(m.state) && Connected(t.next.state))
      && (t.order == Some(Release) <==> Connected(m.state) && !Connected(t.next.state) && !Resets(m, e))
      && (Resets(m, e) ==> Connected(m.state) && !Connected(t.next.state))
      && (t.next.state == Releasing && m.state != Releasing ==> t.order == Some(Release))
  {
    hide Notices, Outside, Retired, RetireNotice, AnyActive, UniqueHandles, InactiveWait;
    if e.Unsubscribe? {
      assert m.state != Released;
    }
  }

  /** Every request is answered by exactly one release or reset, or is still open. */
  lemma {:induction false} OrdersBalance(evs: seq<Event>, k: nat)
    requires Legal(evs) && k <= |evs|
    ensures Orders(evs, k, Request) == Orders(evs, k, Release) + ResetCount(evs, k) + One(Connected(At(evs, k).state))
  {
    hide Step, Resets;
    if k > 0 {
      OrdersBalance(evs, k - 1);
      EveryRunIsSound(evs, k - 1);
      StepOrders(At(evs, k - 1), evs[k - 1]);
    }
  }

  /** The framework's last order matches the state, on every run. */
  lemma {:induction false} LastOrderMatchesState(evs: seq<Event>, k: nat)
    requires Legal(evs) && k <= |evs|
    ensures Connected(At(evs, k).state) ==> LastOrder(evs, k) == Some(Request)
    ensures At(evs, k).state == Releasing ==> LastOrder(evs, k) == Some(Release)
  {
    hide Step, Resets;
    if k > 0 {
      LastOrderMatchesState(evs, k - 1);
      EveryRunIsSound(evs, k - 1);
      StepOrders(At(evs, k - 1), evs[k - 1]);
    }
  }

  /** A command counted between two positions was sent at some step between them. */
  lemma {:induction false} SentBetween(evs: seq<Event>, a: nat, b: nat, c: Command)
    requires a <= b <= |evs| && Orders(evs, b, c) > Orders(evs, a, c)
    ensures exists k :: a <= k < b && Made(evs, k).order == Some(c)
    decreases b
  {
    hide Step, At, Resets, Made;
    if Made(evs, b - 1).order != Some(c) {
      SentBetween(evs, a, b - 1, c);
    }
  }

  lemma {:induction false} ResetBetween(evs: seq<Event>, a: nat, b: nat)
    requires a <= b <= |evs| && ResetCount(evs, b) > ResetCount(evs, a)
    ensures exists k :: a <= k < b && Resets(At(evs, k), evs[k])
    decreases b
  {
    hide Step, At, Resets, Made;
    if !Resets(At(evs, b - 1), evs[b - 1]) {
      ResetBetween(evs, a, b - 1);
    }
  }

  lemma {:induction false} CountsGrow(evs: seq<Event>, a: nat, b: nat, c: Command)
    requires a <= b <= |evs|
    ensures Orders(evs, a, c) <= Orders(evs, b, c)
    ensures ResetCount(evs, a) <= ResetCount(evs, b)
    decreases b
  {
    hide Step, At, Resets, Made;
    if a < b {
      CountsGrow(evs, a, b - 1, c);
    }
  }

  /** A step that sends a command crosses the border between connected and not. */
  lemma OrderCrosses(evs: seq<Event>, k: nat)
    requires Legal(evs) && k < |evs|
    ensures Made(evs, k).order == Some(Request) ==> !Connected(At(evs, k).state) && Connected(At(evs, k + 1).state)
    ensures Made(evs, k).order == Some(Release) ==> Connected(At(evs, k).state) && !Connected(At(evs, k + 1).state)
  {
    hide Step, Resets;
    EveryRunIsSound(evs, k);
    StepOrders(At(evs, k), evs[k]);
  }

  /** Between two releases there is a request. */
  lemma NoSecondReleaseWithoutRequest(evs: seq<Event>, i: nat, j: nat)
    requires Legal(evs) && i < j < |evs|
    requires Made(evs, i).order == Some(Release) && Made(evs, j).order == Some(Release)
    ensures exists k :: i < k < j && Made(evs, k).order == Some(Request)
  {
    hide Step, At, Resets, Connected, Made, Legal;
    OrderCrosses(evs, i);
    OrderCrosses(evs, j);
    OrdersBalance(evs, i + 1);
    OrdersBalance(evs, j);
    CountsGrow(evs, i + 1, j, Release);
    SentBetween(evs, i + 1, j, Request);
  }

  predicate ReleasesOrResets(evs: seq<Event>, k: nat)
    requires k < |evs|
  {
    Made(evs, k).order == Some(Release) || Resets(At(evs, k), evs[k])
  }

  /** Between two requests there is a release, or the framework took the connection away. */
  lemma NoSecondRequestWithoutCause(evs: seq<Event>, i: nat, j: nat)
    requires Legal(evs) && i < j < |evs|
    requires Made(evs, i).order == Some(Request) && Made(evs, j).order == Some(Request)
    ensures exists k :: i < k < j && ReleasesOrResets(evs, k)
  {
    hide Step, At, Resets, Connected, Made, Legal;
    OrderCrosses(evs, i);
    OrderCrosses(evs, j);
    OrdersBalance(evs, i + 1);
    OrdersBalance(evs, j);
    CountsGrow(evs, i + 1, j, Request);
    if Orders(evs, j, Release) > Orders(evs, i + 1, Release) {
      SentBetween(evs, i + 1, j, Release);
      var k :| i + 1 <= k < j && Made(evs, k).order == Some(Release);
      assert ReleasesOrResets(evs, k);
    } else {
      ResetBetween(evs, i + 1, j);
      var k :| i + 1 <= k < j && Resets(At(evs, k), evs[k]);
      assert ReleasesOrResets(evs, k);
    }
  }

  // -------------------------------------------------- grants reach the subscribers

  /** h was told at step k that the connection is open and has been listed ever since. */
  ghost predicate ToldAndKept(evs: seq<Event>, n: nat, h: int, k: nat)
    requires n <= |evs|
  {
    && k < n
    && OpenOk(h) in Made(evs, k).told
    && forall j :: k < j <= n ==> Listed(At(evs, j).subs, h)
  }

  lemma {:induction false} GrantReaches(subs: seq<Subscriber>, n: nat, i: nat)
    requires i < n <= |subs| && !subs[i].inactive
    ensures OpenOk(subs[i].handle) in Notices(subs, n, ConnectionGranted, ActiveOnes)
  {
    if i < n - 1 {
      GrantReaches(subs, n - 1, i);
    }
  }

  /** What an active subscriber of an acquired machine was before the step. */
  lemma ActiveBefore(m: Machine, e: Event, s: Subscriber)
    requires Sound(m) && Allowed(m, e)
    requires Step(m, e).next.state == Acquired && s in Step(m, e).next.subs && !s.inactive
    ensures OpenOk(s.handle) in Step(m, e).told || (m.state == Acquired && s in m.subs)
  {
    hide Notices, Outside, Without, UniqueHandles, InactiveWait;
    match e {
      case Unsubscribe(h, w) =>
        WithoutKeeps(m.subs, h);
        if w {
          var i :| 0 <= i < |m.subs| && Deactivate(m.subs, h)[i] == s;
          assert m.subs[i] == s;
        }
      case ConnectionGranted =>
        if m.state == Pending {
          var i :| 0 <= i < |m.subs| && m.subs[i] == s;
          GrantReaches(m.subs, |m.subs|, i);
        }
      case _ =>
    }
  }

  /** While the connection is acquired, every active subscriber has been told so since it
      joined: the notice came at a step after which it never left the list. */
  lemma {:induction false} ActiveSubscribersWereTold(evs: seq<Event>, n: nat, s: Subscriber)
    requires Legal(evs) && n <= |evs| && At(evs, n).state == Acquired
    requires s in At(evs, n).subs && !s.inactive
    ensures exists k :: ToldAndKept(evs, n, s.handle, k)
  {
    hide Step, Sound, Allowed;
    EveryRunIsSound(evs, n - 1);
    ActiveBefore(At(evs, n - 1), evs[n - 1], s);
    var i :| 0 <= i < |At(evs, n).subs| && At(evs, n).subs[i] == s;
    assert Listed(At(evs, n).subs, s.handle);
    if OpenOk(s.handle) in Made(evs, n - 1).told {
      assert ToldAndKept(evs, n, s.handle, n - 1);
    } else {
      ActiveSubscribersWereTold(evs, n - 1, s);
      var k :| ToldAndKept(evs, n - 1, s.handle, k);
      assert ToldAndKept(evs, n, s.handle, k);
    }
  }
}
