/** The AGPS manager: it routes ATL requests and framework reports to its two machines.
    Everything proved of a machine's runs is lifted here to runs of the manager. */
module AgpsManagerRuns {
  import opened Wrappers
  import opened AgpsModel
  import opened AgpsRuns

  datatype AgpsType = TypeInvalid | Supl | WwanAny | SuplEs | OtherType

  datatype Slot = Agnss | Internet

  datatype Manager = Manager(agnss: Option<Machine>, internet: Option<Machine>)

  datatype Call =
    | CreateMachines(agpsCapable: bool, wwan: bool, supl: bool, suplEs: bool)
    | RequestATL(conn: int, agpsType: AgpsType)
    | ReleaseATL(conn: int)
    | ReportOpenSuccess(agpsType: AgpsType)
    | ReportOpenFailed(agpsType: AgpsType)
    | ReportClosed(agpsType: AgpsType)
    | HandleModemSSR

  const NO_MACHINES := Manager(None, None)

  function MachineOf(m: Manager, s: Slot): Option<Machine> {
    if s == Agnss then m.agnss else m.internet
  }

  function SlotFor(t: AgpsType): Slot {
    match t
    case WwanAny | OtherType => Internet
    case _ => Agnss
  }

  function Find(subs: seq<Subscriber>, h: int): (r: Option<Subscriber>)
    ensures r.None? <==> !Listed(subs, h)
    ensures r.Some? ==> r.value in subs && r.value.handle == h
  {
    if subs == [] then None
    else if subs[0].handle == h then Some(subs[0])
    else
      var r := Find(subs[1..], h);
      assert Listed(subs, h) ==> Listed(subs[1..], h) by {
        if Listed(subs, h) {
          var i :| 0 <= i < |subs| && subs[i].handle == h;
          assert subs[1..][i - 1].handle == h;
        }
      }
      r
  }

  /** The subscriber a release is for: the AGNSS machine is searched first. */
  function FindIn(m: Manager, s: Slot, h: int): Option<Subscriber> {
    match MachineOf(m, s)
    case None => None
    case Some(machine) =>
      if s == Internet && m.agnss.Some? && Listed(m.agnss.value.subs, h) then None
      else Find(machine.subs, h)
  }

  predicate Creates(m: Manager, c: Call, s: Slot) {
    && c.CreateMachines?
    && MachineOf(m, s).None?
    && (if s == Agnss then c.agpsCapable && c.supl && c.suplEs else c.wwan)
  }

  /** The event a call raises in the machine of a slot, if any. */
  function EventFor(m: Manager, c: Call, s: Slot): Option<Event> {
    if MachineOf(m, s).None? then None
    else
      match c
      case CreateMachines(_, _, _, _) => None
      case RequestATL(h, t) => if SlotFor(t) == s then Some(Subscribe(h, true)) else None
      case ReleaseATL(h) =>
        (match FindIn(m, s, h)
         case None => None
         case Some(sub) => Some(Unsubscribe(h, sub.waitForClose)))
      case ReportOpenSuccess(t) => if SlotFor(t) == s then Some(ConnectionGranted) else None
      case ReportOpenFailed(t) => if SlotFor(t) == s then Some(ConnectionDenied) else None
      case ReportClosed(t) => if SlotFor(t) == s then Some(ConnectionReleased) else None
      case HandleModemSSR => Some(ModemRestart)
  }

  function SlotStep(m: Manager, c: Call, s: Slot): Option<Machine> {
    if Creates(m, c, s) then Some(FRESH)
    else
      match EventFor(m, c, s)
      case None => MachineOf(m, s)
      case Some(e) => Some(Step(MachineOf(m, s).value, e).next)
  }

  function Other(s: Slot): Slot {
    if s == Agnss then Internet else Agnss
  }

  function WithMachine(m: Manager, s: Slot, machine: Machine): Manager {
    if s == Agnss then m.(agnss := Some(machine)) else m.(internet := Some(machine))
  }

  /** A call that raises an event in one slot only changes that slot's machine. */
  lemma OneSlotStep(m: Manager, c: Call, s: Slot)
    requires !c.CreateMachines? && EventFor(m, c, s).Some? && EventFor(m, c, Other(s)).None?
    ensures MachineOf(m, s).Some?
    ensures ManagerStep(m, c) == WithMachine(m, s, Step(MachineOf(m, s).value, EventFor(m, c, s).value).next)
  {
    hide Step;
  }

  /** A call that raises no event changes nothing. */
  lemma NoSlotStep(m: Manager, c: Call)
    requires !c.CreateMachines? && EventFor(m, c, Agnss).None? && EventFor(m, c, Internet).None?
    ensures ManagerStep(m, c) == m
  {
  }

  /** The machine, if there is one, after an event. */
  function Stepped(machine: Option<Machine>, e: Event): Option<Machine> {
    if machine.None? then None else Some(Step(machine.value, e).next)
  }

  /** The types that go to the machine for the AGNSS connection, an invalid one with them. */
  predicate IsSupl(t: AgpsType) {
    t == Supl || t == SuplEs || t == TypeInvalid
  }

  /** Only the machine that a type belongs to, if there is one, takes the event. */
  predicate OnlyStepped(m: Manager, n: Manager, t: AgpsType, e: Event) {
    if IsSupl(t) then n.agnss == Stepped(m.agnss, e) && n.internet == m.internet
    else n.agnss == m.agnss && n.internet == Stepped(m.internet, e)
  }

  /** h is listed here, and unsubscribes with the flag it is listed with. */
  ghost predicate Leaves(machine: Machine, after: Option<Machine>, h: int) {
    exists s :: s in machine.subs && s.handle == h && after == Some(Step(machine, Unsubscribe(h, s.waitForClose)).next)
  }

  predicate ListedIn(machine: Option<Machine>, h: int) {
    machine.Some? && Listed(machine.value.subs, h)
  }

  /** Of every call: which machine takes which event. */
  ghost predicate Routed(m: Manager, c: Call, n: Manager) {
    match c
    case CreateMachines(capable, wwan, supl, suplEs) =>
      && n.agnss == (if m.agnss.None? && capable && supl && suplEs then Some(Machine(Released, [])) else m.agnss)
      && n.internet == if m.internet.None? && wwan then Some(Machine(Released, [])) else m.internet
    case RequestATL(h, t) => OnlyStepped(m, n, t, Subscribe(h, true))
    case ReleaseATL(h) =>
      if ListedIn(m.agnss, h) then Leaves(m.agnss.value, n.agnss, h) && n.internet == m.internet
      else if ListedIn(m.internet, h) then n.agnss == m.agnss && Leaves(m.internet.value, n.internet, h)
      else n == m
    case ReportOpenSuccess(t) => OnlyStepped(m, n, t, ConnectionGranted)
    case ReportOpenFailed(t) => OnlyStepped(m, n, t, ConnectionDenied)
    case ReportClosed(t) => OnlyStepped(m, n, t, ConnectionReleased)
    case HandleModemSSR => n.agnss == Stepped(m.agnss, ModemRestart) && n.internet == Stepped(m.internet, ModemRestart)
  }

  lemma CallsAreRouted(m: Manager, c: Call)
    ensures Routed(m, c, ManagerStep(m, c))
  {
    hide Step, Find, Listed;
  }

  function ManagerStep(m: Manager, c: Call): Manager {
    Manager(SlotStep(m, c, Agnss), SlotStep(m, c, Internet))
  }

  /** The manager after the first k calls of a run. */
  function ManagerAt(calls: seq<Call>, k: nat): Manager
    requires k <= |calls|
  {
    if k == 0 then NO_MACHINES else ManagerStep(ManagerAt(calls, k - 1), calls[k - 1])
  }

  /** The events that the first k calls of a run raise in one slot. */
  function Projected(calls: seq<Call>, k: nat, s: Slot): seq<Event>
    requires k <= |calls|
  {
    if k == 0 then []
    else
      Projected(calls, k - 1, s) +
      (match EventFor(ManagerAt(calls, k - 1), calls[k - 1], s)
       case None => []
       case Some(e) => [e])
  }

  lemma EventIsAllowed(m: Manager, c: Call, s: Slot)
    requires EventFor(m, c, s).Some?
    ensures MachineOf(m, s).Some? && Allowed(MachineOf(m, s).value, EventFor(m, c, s).value)
  {
    var machine, e := MachineOf(m, s).value, EventFor(m, c, s).value;
    if e.Unsubscribe? {
      var sub := Find(machine.subs, e.handle).value;
      var i :| 0 <= i < |machine.subs| && machine.subs[i] == sub;
    }
  }

  lemma {:induction false} AtOfPrefix(evs: seq<Event>, more: seq<Event>, k: nat)
    requires k <= |evs|
    ensures At(evs + more, k) == At(evs, k)
  {
    hide Step;
    if k > 0 {
      AtOfPrefix(evs, more, k - 1);
    }
  }

  lemma RunOneMore(evs: seq<Event>, e: Event)
    requires Legal(evs) && Allowed(At(evs, |evs|), e)
    ensures Legal(evs + [e])
    ensures At(evs + [e], |evs| + 1) == Step(At(evs, |evs|), e).next
  {
    hide Step, Allowed;
    AtOfPrefix(evs, [e], |evs|);
    forall k | 0 <= k < |evs|
      ensures Allowed(At(evs + [e], k), (evs + [e])[k])
    {
      AtOfPrefix(evs, [e], k);
    }
  }

  /** A manager run is, slot by slot, a legal run of that slot's machine. */
  lemma {:induction false} SlotsRunLegally(calls: seq<Call>, k: nat, s: Slot)
    requires k <= |calls|
    ensures Legal(Projected(calls, k, s))
    ensures var evs, machine := Projected(calls, k, s), MachineOf(ManagerAt(calls, k), s);
      if machine.None? then evs == [] else machine.value == At(evs, |evs|)
  {
    hide Step, Allowed, EventFor, Creates;
    if k > 0 {
      SlotsRunLegally(calls, k - 1, s);
      var m, c := ManagerAt(calls, k - 1), calls[k - 1];
      if EventFor(m, c, s).Some? {
        EventIsAllowed(m, c, s);
        RunOneMore(Projected(calls, k - 1, s), EventFor(m, c, s).value);
      } else {
        assert Projected(calls, k, s) == Projected(calls, k - 1, s);
      }
      SlotOfStep(m, c, s);
    }
  }

  lemma SlotOfStep(m: Manager, c: Call, s: Slot)
    ensures MachineOf(ManagerStep(m, c), s) == SlotStep(m, c, s)
    ensures Creates(m, c, s) ==> MachineOf(m, s).None? && EventFor(m, c, s).None?
  {
  }

  lemma {:induction false} RestartsComeFromSSR(calls: seq<Call>, k: nat, s: Slot)
    requires k <= |calls| && HandleModemSSR !in calls
    ensures ModemRestart !in Projected(calls, k, s)
  {
    hide ManagerStep;
    if k > 0 {
      RestartsComeFromSSR(calls, k - 1, s);
    }
  }

  /** On a run without modem restart, for each machine and handle: insertions equal
      terminal notices, plus one while the handle is still listed. */
  lemma NoSubscriberDroppedOrClosedTwice(calls: seq<Call>, s: Slot, h: int)
    requires HandleModemSSR !in calls && MachineOf(ManagerAt(calls, |calls|), s).Some?
    ensures var evs := Projected(calls, |calls|, s);
      Joins(evs, |evs|, h)
      == Terminals(evs, |evs|, h) + One(Listed(MachineOf(ManagerAt(calls, |calls|), s).value.subs, h))
  {
    var evs := Projected(calls, |calls|, s);
    SlotsRunLegally(calls, |calls|, s);
    RestartsComeFromSSR(calls, |calls|, s);
    EveryJoinIsAccountedFor(evs, |evs|, h);
    NoDropsWithoutRestart(evs, |evs|, h);
  }

  /** State and list agree on every run; without modem restart they determine each other. */
  lemma ManagerKeepsMachines(calls: seq<Call>, s: Slot)
    requires MachineOf(ManagerAt(calls, |calls|), s).Some?
    ensures Sound(MachineOf(ManagerAt(calls, |calls|), s).value)
    ensures HandleModemSSR !in calls ==> Tight(MachineOf(ManagerAt(calls, |calls|), s).value)
  {
    hide Sound, Tight;
    var evs := Projected(calls, |calls|, s);
    SlotsRunLegally(calls, |calls|, s);
    EveryRunIsSound(evs, |evs|);
    if HandleModemSSR !in calls {
      RestartsComeFromSSR(calls, |calls|, s);
      RestartFreeRunIsTight(evs, |evs|);
    }
  }

  /** On every run, modem restarts included, the last framework command fits the state,
      requests and releases balance, and every active subscriber of an acquired
      connection has been told so since it joined. */
  lemma ManagerDrivesFramework(calls: seq<Call>, s: Slot)
    requires MachineOf(ManagerAt(calls, |calls|), s).Some?
    ensures var m, evs := MachineOf(ManagerAt(calls, |calls|), s).value, Projected(calls, |calls|, s);
      && (Connected(m.state) ==> LastOrder(evs, |evs|) == Some(Request))
      && (m.state == Releasing ==> LastOrder(evs, |evs|) == Some(Release))
      && Orders(evs, |evs|, Request) == Orders(evs, |evs|, Release) + ResetCount(evs, |evs|) + One(Connected(m.state))
      && (m.state == Acquired ==> forall sub :: sub in m.subs && !sub.inactive ==>
            exists k :: ToldAndKept(evs, |evs|, sub.handle, k))
  {
    hide Step, ToldAndKept;
    var m, evs := MachineOf(ManagerAt(calls, |calls|), s).value, Projected(calls, |calls|, s);
    SlotsRunLegally(calls, |calls|, s);
    LastOrderMatchesState(evs, |evs|);
    OrdersBalance(evs, |evs|);
    if m.state == Acquired {
      forall sub | sub in m.subs && !sub.inactive
        ensures exists k :: ToldAndKept(evs, |evs|, sub.handle, k)
      {
        ActiveSubscribersWereTold(evs, |evs|, sub);
      }
    }
  }

  /** A first modem restart leaves exactly those machines of the manager with a connection
      for nobody that have subscribers then. */
  lemma FirstRestartStrandsMachinesIff(calls: seq<Call>, s: Slot)
    requires HandleModemSSR !in calls && MachineOf(ManagerAt(calls, |calls|), s).Some?
    ensures var m := MachineOf(ManagerAt(calls, |calls|), s).value;
      var n := MachineOf(ManagerStep(ManagerAt(calls, |calls|), HandleModemSSR), s);
      && n == Some(Machine(m.state, []))
      && !Stranded(m) && (Stranded(n.value) <==> m.subs != [])
  {
    hide Sound, Tight, Stranded;
    var m := MachineOf(ManagerAt(calls, |calls|), s).value;
    ManagerKeepsMachines(calls, s);
    RestartStrandsIff(m);
    TightIsNotStranded(m);
  }

  /** Such a run: a subscription ends without a notice, and the state survives. */
  lemma RestartDropsSilently()
    ensures var calls := [CreateMachines(true, true, true, true), RequestATL(7, WwanAny), HandleModemSSR];
      var evs := Projected(calls, 3, Internet);
      && ManagerAt(calls, 3).internet == Some(Machine(Pending, []))
      && Joins(evs, |evs|, 7) == 1
      && Terminals(evs, |evs|, 7) == 0
  {
    var calls := [CreateMachines(true, true, true, true), RequestATL(7, WwanAny), HandleModemSSR];
    var m1 := Machine(Pending, [Subscriber(7, true, false)]);
    assert ManagerAt(calls, 1) == Manager(Some(FRESH), Some(FRESH));
    assert Step(FRESH, Subscribe(7, true)) == Transition(m1, [], Some(Request));
    assert ManagerAt(calls, 2).internet == Some(m1);
    var evs := [Subscribe(7, true), ModemRestart];
    assert Projected(calls, 1, Internet) == [];
    assert Projected(calls, 2, Internet) == [Subscribe(7, true)];
    assert Projected(calls, 3, Internet) == evs;
    assert At(evs, 1) == m1 && Made(evs, 0).told == [] && Made(evs, 1).told == [];
    assert Joins(evs, 1, 7) == 1 && Joins(evs, 2, 7) == 1;
    assert Terminals(evs, 1, 7) == 0 && Terminals(evs, 2, 7) == 0;
  }
}
