/** The AGPS classes: subscriber, state machine and manager, updated in place.
    Each handler is proved to make exactly the transition of the value model. */
module Agps {
  import opened Wrappers
  import opened AgpsModel
  import opened AgpsRuns
  import opened AgpsManagerRuns

  class AgpsSubscriber {
    const connHandle: int
    const waitForCloseComplete: bool
    var isInactive: bool

    constructor (connHandle: int, waitForCloseComplete: bool, isInactive: bool)
      ensures this.connHandle == connHandle
      ensures this.waitForCloseComplete == waitForCloseComplete
      ensures this.isInactive == isInactive
    {
      this.connHandle := connHandle;
      this.waitForCloseComplete := waitForCloseComplete;
      this.isInactive := isInactive;
    }

    function Value(): Subscriber
      reads this
    {
      Subscriber(connHandle, waitForCloseComplete, isInactive)
    }

    method Clone() returns (copy: AgpsSubscriber)
      ensures fresh(copy) && copy.Value() == Value()
    {
      copy := new AgpsSubscriber(connHandle, waitForCloseComplete, isInactive);
    }
  }

  class AgpsStateMachine {
    var subscriberList: seq<AgpsSubscriber>
    var currentSubscriber: AgpsSubscriber?
    var state: State
    ghost var log: seq<Output>  // what the framework and the ATL callbacks have received

    ghost var subs: seq<Subscriber>  // the list's values

    /** The values are the objects' values. */
    ghost predicate Tied()
      reads `subscriberList, `subs, subscriberList
    {
      && |subs| == |subscriberList|
      && forall i :: 0 <= i < |subs| ==> subs[i] == subscriberList[i].Value()
    }

    /** Between events handles are unique, hence so are the list's objects. */
    ghost predicate Valid()
      reads `subscriberList, `subs, subscriberList
    {
      Tied() && UniqueHandles(subs)
    }

    lemma TiedAt(i: nat)
      requires Tied()
      ensures |subs| == |subscriberList|
      ensures i < |subs| ==> subs[i] == subscriberList[i].Value()
    {
    }

    ghost function Abs(): Machine
      reads `state, `subs
    {
      Machine(state, subs)
    }

    /** The list holds only subscribers it held before, or new ones. */
    twostate predicate ListGrowsFresh()
      reads `subscriberList
    {
      forall s :: s in subscriberList ==> s in old(subscriberList) || fresh(s)
    }

    constructor ()
      ensures Valid() && Abs() == FRESH && log == [] && subscriberList == []
    {
      subscriberList := [];
      subs := [];
      currentSubscriber := null;
      state := Released;
      log := [];
    }

    method SetCurrentSubscriber(s: AgpsSubscriber)
      modifies this`currentSubscriber
      ensures currentSubscriber == s
    {
      currentSubscriber := s;
    }

    /** The subscriber with the given handle, or null. */
    method GetSubscriber(connHandle: int) returns (found: AgpsSubscriber?)
      requires Tied()
      ensures found == null <==> !Listed(subs, connHandle)
      ensures found != null ==> found in subscriberList && found.connHandle == connHandle
    {
      for i := 0 to |subscriberList|
        invariant forall j :: 0 <= j < i ==> subs[j].handle != connHandle
      {
        if subscriberList[i].connHandle == connHandle {
          assert subs[i].handle == connHandle;
          return subscriberList[i];
        }
      }
      found := null;
    }

    method AnyActiveSubscribers() returns (any: bool)
      requires Tied()
      ensures any == AnyActive(subs)
    {
      for i := 0 to |subscriberList|
        invariant forall j :: 0 <= j < i ==> subs[j].inactive
      {
        if !subscriberList[i].isInactive {
          assert !subs[i].inactive;
          return true;
        }
      }
      any := false;
    }

    method AddSubscriber(s: AgpsSubscriber)
      requires Tied()
      modifies this`subscriberList, this`subs
      ensures Tied() && ListGrowsFresh()
      ensures subs == Add(old(subs), s.Value())
    {
      var present := GetSubscriber(s.connHandle);
      if present == null {
        var copy := s.Clone();
        subscriberList := subscriberList + [copy];
        subs := subs + [copy.Value()];
      }
    }

    /** Erases the list element at position i. */
    method Erase(i: nat)
      requires Tied() && i < |subscriberList|
      modifies this`subscriberList, this`subs
      ensures Tied()
      ensures subs == old(subs)[..i] + old(subs)[i + 1..]
      ensures forall s :: s in subscriberList ==> s in old(subscriberList)
    {
      subscriberList := subscriberList[..i] + subscriberList[i + 1..];
      subs := subs[..i] + subs[i + 1..];
    }

    /** Cutting element |kept| out of kept + rest, or keeping it. */
    lemma Splice(kept: seq<Subscriber>, was: seq<Subscriber>, n: nat)
      requires n < |was|
      ensures var all := kept + was[n..];
        && all[|kept|] == was[n]
        && all[..|kept|] + all[|kept| + 1..] == kept + was[n + 1..]
        && all == kept + [was[n]] + was[n + 1..]
    {
    }

    /** Removes every subscriber with the given handle, walking the list in place. */
    method DeleteSubscriber(connHandle: int)
      requires Tied()
      modifies this`subscriberList, this`subs
      ensures Tied() && ListGrowsFresh()
      ensures subs == Without(old(subs), |old(subs)|, connHandle)
    {
      hide Tied, Without;
      ghost var was := subs;
      ghost var n := 0;
      ghost var kept: seq<Subscriber> := [];
      var i := 0;
      WithoutOneMore(was, 0, connHandle);
      while i < |subscriberList|
        invariant Tied()
        invariant 0 <= n <= |was| && i == |kept| && subs == kept + was[n..]
        invariant kept == Without(was, n, connHandle)
        invariant forall s :: s in subscriberList ==> s in old(subscriberList)
        decreases |was| - n
      {
        TiedAt(i);
        Splice(kept, was, n);
        WithoutOneMore(was, n, connHandle);
        if subscriberList[i].connHandle == connHandle {
          Erase(i);
        } else {
          i := i + 1;
          kept := kept + [was[n]];
        }
        n := n + 1;
      }
      TiedAt(i);
    }

    lemma WithoutOneMore(was: seq<Subscriber>, n: nat, h: int)
      requires n <= |was|
      ensures Without(was, 0, h) == []
      ensures n < |was| ==> Without(was, n + 1, h) == Without(was, n, h) + (if was[n].handle == h then [] else [was[n]])
    {
    }

    method NotifyEventToSubscriber(event: Event, connHandle: int, deleteSubscriberPostNotify: bool)
      requires Tied()
      modifies this`log, this`subscriberList, this`subs
      ensures Tied() && ListGrowsFresh()
      ensures log == old(log) + [Tell(NoticeFor(event, connHandle))]
      ensures subs ==
        if deleteSubscriberPostNotify then Without(old(subs), |old(subs)|, connHandle) else old(subs)
      ensures !deleteSubscriberPostNotify ==> subscriberList == old(subscriberList)
    {
      log := log + [Tell(NoticeFor(event, connHandle))];
      if deleteSubscriberPostNotify {
        DeleteSubscriber(connHandle);
      }
    }

    /** Where the notification loop has put the first n subscribers. */
    ghost function Kept(was: seq<Subscriber>, n: nat, delete: bool, a: Audience): seq<Subscriber>
      requires n <= |was|
    {
      if delete then Outside(was, n, a) else was[..n]
    }

    lemma KeptAll(was: seq<Subscriber>, delete: bool, a: Audience)
      ensures Kept(was, |was|, delete, a) == if delete then Outside(was, |was|, a) else was
    {
    }

    lemma NoneYet(was: seq<Subscriber>, e: Event, delete: bool, a: Audience)
      ensures Tells(Notices(was, 0, e, a)) == [] && Kept(was, 0, delete, a) == []
    {
    }

    lemma OneMore(was: seq<Subscriber>, n: nat, e: Event, delete: bool, a: Audience)
      requires n < |was|
      ensures Tells(Notices(was, n + 1, e, a)) ==
        Tells(Notices(was, n, e, a)) + (if Hears(a, was[n]) then [Tell(NoticeFor(e, was[n].handle))] else [])
      ensures Kept(was, n + 1, delete, a) ==
        Kept(was, n, delete, a) + (if delete && Hears(a, was[n]) then [] else [was[n]])
    {
    }

    /** One round of the notification loop, at position i = |kept|: tells subscriber n if it
        is in the audience, erases it if asked to, and returns the next position. */
    method NotifyAt(i: nat, event: Event, deleteSubscriberPostNotify: bool, audience: Audience,
                    ghost kept: seq<Subscriber>, ghost was: seq<Subscriber>, ghost n: nat)
      returns (next: nat)
      requires Tied() && n < |was| && subs == kept + was[n..] && i == |kept|
      modifies this`log, this`subscriberList, this`subs
      ensures Tied()
      ensures forall s :: s in subscriberList ==> s in old(subscriberList)
      ensures log == old(log) + (if Hears(audience, was[n]) then [Tell(NoticeFor(event, was[n].handle))] else [])
      ensures var kept' := kept + (if deleteSubscriberPostNotify && Hears(audience, was[n]) then [] else [was[n]]);
        subs == kept' + was[n + 1..] && next == |kept'|
    {
      Splice(kept, was, n);
      var subscriber := subscriberList[i];
      next := i + 1;
      if audience == Everyone
        || (audience == InactiveOnes && subscriber.isInactive)
        || (audience == ActiveOnes && !subscriber.isInactive)
      {
        NotifyEventToSubscriber(event, subscriber.connHandle, false);
        if deleteSubscriberPostNotify {
          Erase(i);
          next := i;
        }
      }
    }

    /** Tells the audience, in list order, and drops it from the list if asked to. */
    method NotifyAllSubscribers(event: Event, deleteSubscriberPostNotify: bool, audience: Audience)
      requires Tied()
      modifies this`log, this`subscriberList, this`subs
      ensures Tied() && ListGrowsFresh()
      ensures log == old(log) + Tells(Notices(old(subs), |old(subs)|, event, audience))
      ensures subs == if deleteSubscriberPostNotify then Outside(old(subs), |old(subs)|, audience) else old(subs)
    {
      ghost var was := subs;
      ghost var n := 0;
      ghost var kept: seq<Subscriber>, sent: seq<Output> := [], [];
      var i := 0;
      NoneYet(was, event, deleteSubscriberPostNotify, audience);
      hide Tied, Tells, Notices, Outside, Hears, NoticeFor, Kept;
      while i < |subscriberList|
        invariant Tied()
        invariant 0 <= n <= |was| && i == |kept| && subs == kept + was[n..]
        invariant kept == Kept(was, n, deleteSubscriberPostNotify, audience)
        invariant sent == Tells(Notices(was, n, event, audience))
        invariant log == old(log) + sent
        invariant forall s :: s in subscriberList ==> s in old(subscriberList)
        decreases |was| - n
      {
        TiedAt(i);
        OneMore(was, n, event, deleteSubscriberPostNotify, audience);
        i := NotifyAt(i, event, deleteSubscriberPostNotify, audience, kept, was, n);
        n := n + 1;
        kept := Kept(was, n, deleteSubscriberPostNotify, audience);
        sent := Tells(Notices(was, n, event, audience));
      }
      TiedAt(i);
      KeptAll(was, deleteSubscriberPostNotify, audience);
    }

    method RequestOrReleaseDataConn(request: bool)
      modifies this`log
      ensures log == old(log) + [Order(if request then Request else Release)]
    {
      log := log + [Order(if request then Request else Release)];
    }

    method DropAllSubscribers()
      requires Valid()
      modifies this`subscriberList, this`subs
      ensures Valid() && subscriberList == [] && subs == []
    {
      while subscriberList != []
        invariant Tied()
        decreases |subscriberList|
      {
        Erase(0);
      }
    }

    // ------------------------------------------------------------ event handlers

    method ProcessAgpsEventSubscribe()
      requires Valid() && currentSubscriber != null && !currentSubscriber.isInactive
      modifies this`subscriberList, this`subs, this`state, this`log
      ensures Valid() && ListGrowsFresh()
      ensures var t := OnSubscribe(old(Abs()), old(currentSubscriber.Value()));
        Abs() == t.next && log == old(log) + Out(t)
    {
      match state {
        case Released =>
          AddSubscriber(currentSubscriber);
          RequestOrReleaseDataConn(true);
          state := Pending;
        case Pending =>
          AddSubscriber(currentSubscriber);
        case Acquired =>
          NotifyEventToSubscriber(ConnectionGranted, currentSubscriber.connHandle, false);
          AddSubscriber(currentSubscriber);
        case Releasing =>
          AddSubscriber(currentSubscriber);
      }
    }

    /** The current subscriber goes inactive, or is told and taken off the list. */
    method RetireCurrent()
      requires Valid() && currentSubscriber != null && currentSubscriber in subscriberList
      modifies this`subscriberList, this`subs, this`log, currentSubscriber`isInactive
      ensures Valid() && ListGrowsFresh()
      ensures subs == Retired(old(subs), currentSubscriber.connHandle, currentSubscriber.waitForCloseComplete)
      ensures log == old(log) +
        Tells(RetireNotice(currentSubscriber.connHandle, currentSubscriber.waitForCloseComplete))
    {
      var h := currentSubscriber.connHandle;
      if currentSubscriber.waitForCloseComplete {
        assert forall i :: 0 <= i < |subs| ==> (subs[i].handle == h <==> subscriberList[i] == currentSubscriber);
        currentSubscriber.isInactive := true;
        subs := Deactivate(subs, h);
      } else {
        WithoutFacts(subs, |subs|, h);
        NotifyEventToSubscriber(Unsubscribe(h, false), h, true);
      }
    }

    /** Releases the connection if nobody active is left. */
    method ReleaseIfIdle()
      requires Tied()
      modifies `state, `log
      ensures var t := Settle(old(state), subs, []);
        state == t.next.state && log == old(log) + (if t.order.Some? then [Order(t.order.value)] else [])
    {
      TiedAt(0);
      if subscriberList == [] {
        state := Released;
        RequestOrReleaseDataConn(false);
      } else {
        var active := AnyActiveSubscribers();
        if !active {
          state := Releasing;
          RequestOrReleaseDataConn(false);
        }
      }
    }

    method ProcessAgpsEventUnsubscribe()
      requires Valid() && currentSubscriber != null
      requires currentSubscriber in subscriberList
      modifies this`subscriberList, this`subs, this`state, this`log, currentSubscriber`isInactive
      ensures Valid() && ListGrowsFresh()
      ensures var t := OnUnsubscribe(old(Abs()), currentSubscriber.connHandle, currentSubscriber.waitForCloseComplete);
        Abs() == t.next && log == old(log) + Out(t)
    {
      hide UniqueHandles, Retired, RetireNotice, Tied, ListGrowsFresh, AnyActive;
      var h, w := currentSubscriber.connHandle, currentSubscriber.waitForCloseComplete;
      TiedAt(0);
      match state {
        case Released =>
          NotifyEventToSubscriber(Unsubscribe(h, w), h, false);
        case Pending | Acquired =>
          RetireCurrent();
          ReleaseIfIdle();
        case Releasing =>
          RetireCurrent();
          TiedAt(0);
          if subscriberList == [] {
            state := Released;
          }
      }
    }

    method ProcessAgpsEventGranted()
      requires Valid()
      modifies this`subscriberList, this`subs, this`state, this`log
      ensures Valid() && ListGrowsFresh()
      ensures var t := OnGranted(old(Abs())); Abs() == t.next && log == old(log) + Out(t)
    {
      match state {
        case Released | Acquired | Releasing =>
        case Pending =>
          state := Acquired;
          NotifyAllSubscribers(ConnectionGranted, false, ActiveOnes);
      }
    }

    /** Released or denied while releasing: tell those who wait, then reconnect or rest. */
    method FinishReleasing()
      requires Valid() && state == Releasing
      modifies this`subscriberList, this`subs, this`state, this`log
      ensures Valid() && ListGrowsFresh()
      ensures var t := OnReleasingDone(old(Abs())); Abs() == t.next && log == old(log) + Out(t)
    {
      assert UniqueHandles(Outside(subs, |subs|, InactiveOnes)) by {
        OutsideFacts(subs, |subs|, InactiveOnes);
      }
      hide UniqueHandles, Outside, Notices, Tells, Tied, AnyActive, ListGrowsFresh;
      NotifyAllSubscribers(ConnectionReleased, true, InactiveOnes);
      var active := AnyActiveSubscribers();
      if active {
        state := Pending;
        RequestOrReleaseDataConn(true);
      } else {
        state := Released;
      }
    }

    method ProcessAgpsEventReleased()
      requires Valid()
      modifies this`subscriberList, this`subs, this`state, this`log
      ensures Valid() && ListGrowsFresh()
      ensures var t := OnReleased(old(Abs())); Abs() == t.next && log == old(log) + Out(t)
    {
      match state {
        case Released | Pending =>
        case Acquired =>
          state := Released;
          NobodyOutsideEveryone(subs, |subs|);
          NotifyAllSubscribers(ConnectionReleased, true, Everyone);
        case Releasing =>
          FinishReleasing();
      }
    }

    method ProcessAgpsEventDenied()
      requires Valid()
      modifies this`subscriberList, this`subs, this`state, this`log
      ensures Valid() && ListGrowsFresh()
      ensures var t := OnDenied(old(Abs())); Abs() == t.next && log == old(log) + Out(t)
    {
      match state {
        case Released | Acquired =>
        case Releasing =>
          FinishReleasing();
        case Pending =>
          state := Released;
          NobodyOutsideEveryone(subs, |subs|);
          NotifyAllSubscribers(ConnectionDenied, true, Everyone);
      }
    }
  }

  class AgpsManager {
    var agnssNif: AgpsStateMachine?
    var internetNif: AgpsStateMachine?
    var useEmergencyPdn: bool
    ghost var directLog: seq<Notice>  // ATL answers given without a machine

    ghost predicate Valid()
      reads `agnssNif, `internetNif, agnssNif, internetNif
      reads if agnssNif == null then [] else agnssNif.subscriberList
      reads if internetNif == null then [] else internetNif.subscriberList
    {
      && (agnssNif != null ==> agnssNif.Valid())
      && (internetNif != null ==> internetNif.Valid())
      && (agnssNif != null && internetNif != null ==>
            && agnssNif != internetNif
            && (forall s :: s in agnssNif.subscriberList ==> s !in internetNif.subscriberList))
    }

    ghost function AbsOf(nif: AgpsStateMachine?): Option<Machine>
      reads nif
    {
      if nif == null then None else Some(nif.Abs())
    }

    ghost function Abs(): Manager
      reads `agnssNif, `internetNif, agnssNif, internetNif
    {
      Manager(AbsOf(agnssNif), AbsOf(internetNif))
    }

    ghost function Nif(s: Slot): AgpsStateMachine?
      reads this
    {
      if s == Agnss then agnssNif else internetNif
    }

    /** What a machine gained in its log over a call: the output of its event, if it got one. */
    twostate predicate Logged(c: Call, s: Slot)
      reads this, agnssNif, internetNif
      requires Nif(s) != null ==> old(allocated(Nif(s)))
    {
      Nif(s) == old(Nif(s)) && Nif(s) != null ==>
        Nif(s).log == old(Nif(s).log) +
          (match EventFor(old(Abs()), c, s)
           case None => []
           case Some(e) => Out(Step(MachineOf(old(Abs()), s).value, e)))
    }

    constructor (useEmergencyPdn: bool)
      ensures Valid() && Abs() == NO_MACHINES && directLog == []
    {
      this.useEmergencyPdn := useEmergencyPdn;
      agnssNif := null;
      internetNif := null;
      directLog := [];
    }

    method CreateAgpsStateMachines(agpsCapable: bool, wwan: bool, supl: bool, suplEs: bool)
      requires Valid()
      modifies this`agnssNif, this`internetNif
      ensures Valid()
      ensures Abs() == ManagerStep(old(Abs()), CreateMachines(agpsCapable, wwan, supl, suplEs))
    {
      if internetNif == null && wwan {
        internetNif := new AgpsStateMachine();
      }
      if agpsCapable {
        if agnssNif == null && supl && suplEs {
          agnssNif := new AgpsStateMachine();
        }
      }
    }

    method GetAgpsStateMachine(agpsType: AgpsType) returns (sm: AgpsStateMachine?)
      ensures sm == Nif(SlotFor(agpsType))
    {
      match agpsType {
        case TypeInvalid | Supl | SuplEs => sm := agnssNif;
        case WwanAny | OtherType => sm := internetNif;
      }
    }

    method RequestAtl(connHandle: int, agpsType: AgpsType)
      requires Valid()
      modifies this`directLog, agnssNif, internetNif
      ensures Valid()
      ensures Abs() == ManagerStep(old(Abs()), RequestATL(connHandle, agpsType))
      ensures Logged(RequestATL(connHandle, agpsType), Agnss)
      ensures Logged(RequestATL(connHandle, agpsType), Internet)
      ensures directLog == old(directLog) + (if Nif(SlotFor(agpsType)) == null then [OpenFailed(connHandle)] else [])
    {
      hide OnSubscribe, Tells, UniqueHandles, AgpsStateMachine.Tied;
      var effective := agpsType;
      if !useEmergencyPdn && agpsType == SuplEs {
        effective := Supl;
      }
      var sm := GetAgpsStateMachine(effective);
      if sm == null {
        directLog := directLog + [OpenFailed(connHandle)];
        return;
      }
      OneSlotStep(Abs(), RequestATL(connHandle, agpsType), SlotFor(agpsType));
      SubscribeAt(sm, if sm == agnssNif then internetNif else agnssNif, connHandle);
    }

    /** Subscribing at one machine leaves the other untouched. */
    static method SubscribeAt(sm: AgpsStateMachine, ghost other: AgpsStateMachine?, connHandle: int)
      requires sm.Valid()
      requires other != null ==> Apart(sm, other)
      modifies sm
      ensures sm.Valid()
      ensures var t := OnSubscribe(old(sm.Abs()), Subscriber(connHandle, true, false));
        sm.Abs() == t.next && sm.log == old(sm.log) + Out(t)
      ensures other != null ==>
        Apart(sm, other) && other.Abs() == old(other.Abs()) && other.log == old(other.log)
    {
      var subscriber := new AgpsSubscriber(connHandle, true, false);
      sm.SetCurrentSubscriber(subscriber);
      sm.ProcessAgpsEventSubscribe();
    }

    /** The machine and subscriber a release is for; AGNSS is searched first. */
    method FindOwner(connHandle: int) returns (sm: AgpsStateMachine?, subscriber: AgpsSubscriber?)
      requires Valid()
      ensures sm == null <==> subscriber == null
      ensures sm == null ==> forall s :: FindIn(Abs(), s, connHandle) == None
      ensures sm != null ==>
        && subscriber in sm.subscriberList && subscriber.connHandle == connHandle
        && exists s :: sm == Nif(s) && OwnerSlot(s, connHandle, subscriber.Value())
    {
      sm, subscriber := null, null;
      if agnssNif != null {
        subscriber := agnssNif.GetSubscriber(connHandle);
        if subscriber != null {
          sm := agnssNif;
          FoundIsListed(sm, subscriber);
          assert OwnerSlot(Agnss, connHandle, subscriber.Value());
        }
      }
      if sm == null && internetNif != null {
        subscriber := internetNif.GetSubscriber(connHandle);
        if subscriber != null {
          sm := internetNif;
          FoundIsListed(sm, subscriber);
          assert OwnerSlot(Internet, connHandle, subscriber.Value());
        }
      }
    }

    /** Slot s, and only it, finds this value for the handle. */
    ghost predicate OwnerSlot(s: Slot, h: int, v: Subscriber)
      reads this, agnssNif, internetNif
    {
      && FindIn(Abs(), s, h) == Some(v)
      && forall s' :: s' != s ==> FindIn(Abs(), s', h) == None
    }

    method ReleaseAtl(connHandle: int)
      requires Valid()
      modifies agnssNif, internetNif
      modifies if agnssNif == null then [] else agnssNif.subscriberList
      modifies if internetNif == null then [] else internetNif.subscriberList
      ensures Valid()
      ensures Abs() == ManagerStep(old(Abs()), ReleaseATL(connHandle))
      ensures Logged(ReleaseATL(connHandle), Agnss) && Logged(ReleaseATL(connHandle), Internet)
    {
      hide OnUnsubscribe, FindIn, Tells, UniqueHandles, AgpsStateMachine.Tied;
      var sm, subscriber := FindOwner(connHandle);
      if sm == null {
        NoSlotStep(Abs(), ReleaseATL(connHandle));
        return;
      }
      ghost var slot := if sm == agnssNif then Agnss else Internet;
      assert OwnerSlot(slot, connHandle, subscriber.Value());
      OneSlotStep(Abs(), ReleaseATL(connHandle), slot);
      UnsubscribeAt(sm, if sm == agnssNif then internetNif else agnssNif, subscriber);
    }

    /** Unsubscribing at one machine leaves the other untouched. */
    static method UnsubscribeAt(sm: AgpsStateMachine, ghost other: AgpsStateMachine?, subscriber: AgpsSubscriber)
      requires sm.Valid() && subscriber in sm.subscriberList
      requires other != null ==> Apart(sm, other)
      modifies sm, subscriber
      ensures sm.Valid()
      ensures var t := OnUnsubscribe(old(sm.Abs()), subscriber.connHandle, subscriber.waitForCloseComplete);
        sm.Abs() == t.next && sm.log == old(sm.log) + Out(t)
      ensures other != null ==>
        Apart(sm, other) && other.Abs() == old(other.Abs()) && other.log == old(other.log)
    {
      sm.SetCurrentSubscriber(subscriber);
      sm.ProcessAgpsEventUnsubscribe();
    }

    static ghost predicate Apart(sm: AgpsStateMachine, other: AgpsStateMachine)
      reads sm, other, other.subscriberList
    {
      && other != sm && other.Valid()
      && forall s :: s in sm.subscriberList ==> s !in other.subscriberList
    }

    /** The object found carries the flag that the value-level search finds. */
    lemma FoundIsListed(sm: AgpsStateMachine, s: AgpsSubscriber)
      requires sm.Valid() && s in sm.subscriberList
      ensures Find(sm.subs, s.connHandle) == Some(s.Value())
    {
      var i :| 0 <= i < |sm.subscriberList| && sm.subscriberList[i] == s;
      assert sm.subs[i].handle == s.connHandle;
      var r := Find(sm.subs, s.connHandle);
      var j :| 0 <= j < |sm.subs| && sm.subs[j] == r.value;
    }

    /** The framework reports on a type whose machine exists: the source does not check. */
    method ReportAtlOpenSuccess(agpsType: AgpsType)
      requires Valid() && Nif(SlotFor(agpsType)) != null
      modifies agnssNif, internetNif
      ensures Valid()
      ensures Abs() == ManagerStep(old(Abs()), ReportOpenSuccess(agpsType))
      ensures Logged(ReportOpenSuccess(agpsType), Agnss) && Logged(ReportOpenSuccess(agpsType), Internet)
    {
      OneSlotStep(Abs(), ReportOpenSuccess(agpsType), SlotFor(agpsType));
      var sm := GetAgpsStateMachine(agpsType);
      sm.ProcessAgpsEventGranted();
    }

    method ReportAtlOpenFailed(agpsType: AgpsType)
      requires Valid() && Nif(SlotFor(agpsType)) != null
      modifies agnssNif, internetNif
      ensures Valid()
      ensures Abs() == ManagerStep(old(Abs()), ReportOpenFailed(agpsType))
      ensures Logged(ReportOpenFailed(agpsType), Agnss) && Logged(ReportOpenFailed(agpsType), Internet)
    {
      OneSlotStep(Abs(), ReportOpenFailed(agpsType), SlotFor(agpsType));
      var sm := GetAgpsStateMachine(agpsType);
      sm.ProcessAgpsEventDenied();
    }

    method ReportAtlClosed(agpsType: AgpsType)
      requires Valid() && Nif(SlotFor(agpsType)) != null
      modifies agnssNif, internetNif
      ensures Valid()
      ensures Abs() == ManagerStep(old(Abs()), ReportClosed(agpsType))
      ensures Logged(ReportClosed(agpsType), Agnss) && Logged(ReportClosed(agpsType), Internet)
    {
      OneSlotStep(Abs(), ReportClosed(agpsType), SlotFor(agpsType));
      var sm := GetAgpsStateMachine(agpsType);
      sm.ProcessAgpsEventReleased();
    }

    method HandleModemRestart()
      requires Valid()
      modifies agnssNif, internetNif
      ensures Valid()
      ensures Abs() == ManagerStep(old(Abs()), HandleModemSSR)
      ensures Logged(HandleModemSSR, Agnss) && Logged(HandleModemSSR, Internet)
    {
      if agnssNif != null {
        agnssNif.DropAllSubscribers();
      }
      if internetNif != null {
        internetNif.DropAllSubscribers();
      }
    }
  }
}
