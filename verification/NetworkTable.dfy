/** The table of connected networks that each network report carries on from the last. */
module NetworkTable {
  const MAX_HANDLES: nat := 10
  const MAX_REPORTS: nat := 5
  const HANDLE_UNKNOWN: nat := 0xFFFF_FFFF_FFFF_FFFF
  const TYPE_MOBILE: int := 0
  const TYPE_UNKNOWN: int := 10

  datatype Entry = Entry(handle: nat, kind: int)

  const FREE := Entry(HANDLE_UNKNOWN, TYPE_UNKNOWN)

  /** A report about one network: kind is its type, types the mask of types as a set of
      bit numbers, table the networks known to be connected. */
  datatype Info = Info(kind: int, types: set<nat>, connected: bool, handle: nat, apn: string, table: seq<Entry>)

  type Table = t: seq<Entry> | |t| == MAX_HANDLES witness seq(MAX_HANDLES, _ => FREE)

  predicate Known(e: Entry) {
    e.handle != HANDLE_UNKNOWN
  }

  // ------------------------------------------------------------------ collating

  /** The first place from i on that has the handle, or is free. */
  function Place(t: Table, h: nat, i: nat): (p: nat)
    requires i <= MAX_HANDLES
    ensures i <= p <= MAX_HANDLES
    decreases MAX_HANDLES - i
  {
    if i == MAX_HANDLES || t[i].handle == h || !Known(t[i]) then i else Place(t, h, i + 1)
  }

  function Connect(t: Table, h: nat, kind: int): Table {
    var p := Place(t, h, 0);
    if p == MAX_HANDLES || t[p].handle == h then t else t[p := Entry(h, kind)]
  }

  /** How many places are taken before the first free one, from i on. */
  function Taken(t: Table, i: nat): (n: nat)
    requires i <= MAX_HANDLES
    ensures i <= n <= MAX_HANDLES
    decreases MAX_HANDLES - i
  {
    if i == MAX_HANDLES || !Known(t[i]) then i else Taken(t, i + 1)
  }

  /** The last of the first n places that has the handle and the type. */
  function Found(t: Table, h: nat, kind: int, n: nat): (p: nat)
    requires n <= MAX_HANDLES
    ensures p < n || p == MAX_HANDLES
  {
    if n == 0 then MAX_HANDLES
    else if t[n - 1] == Entry(h, kind) then n - 1
    else Found(t, h, kind, n - 1)
  }

  /** How many of the first n places have the type, but not the handle. */
  function OthersOfType(t: Table, h: nat, kind: int, n: nat): nat
    requires n <= MAX_HANDLES
  {
    if n == 0 then 0
    else OthersOfType(t, h, kind, n - 1) + if t[n - 1].kind == kind && t[n - 1].handle != h then 1 else 0
  }

  /** The last network takes the place of the one that is gone. */
  function Disconnect(t: Table, h: nat, kind: int): Table {
    var n := Taken(t, 0);
    var p := Found(t, h, kind, n);
    if p == MAX_HANDLES then t else t[p := t[n - 1]][n - 1 := FREE]
  }

  function Collated(s: Info, cur: Info): Info
    requires |cur.table| == MAX_HANDLES
  {
    var t := cur.table;
    s.(apn := if s.kind != TYPE_MOBILE && cur.apn != "" then cur.apn else s.apn,
       table := if s.connected then Connect(t, s.handle, s.kind)
                else if s.types != {} then Disconnect(t, s.handle, s.kind)
                else t,
       types := if s.connected then s.types + cur.types
                else if s.types != {} && OthersOfType(t, s.handle, s.kind, Taken(t, 0)) == 0 then cur.types - s.types
                else s.types)
  }

  predicate SameInfo(a: Info, b: Info) {
    a.types == b.types && a.connected == b.connected && a.table == b.table && a.apn == b.apn
  }

  /** The reports kept, oldest first. */
  function Reported(report: seq<Info>, s: Info): seq<Info>
    requires forall r :: r in report ==> |r.table| == MAX_HANDLES
  {
    if report == [] then [s]
    else
      var last := report[|report| - 1];
      var c := Collated(s, last);
      if SameInfo(last, c) then report
      else if |report| + 1 > MAX_REPORTS then (report + [c])[1..]
      else report + [c]
  }

  // ------------------------------------------------------------------ the classes

  class SystemStatusNetworkInfo {
    var kind: int
    var types: set<nat>
    var connected: bool
    var handle: nat
    var apn: string
    const handles: array<Entry>

    ghost predicate Valid() {
      handles.Length == MAX_HANDLES
    }

    ghost function Abs(): Info
      reads this, handles
    {
      Info(kind, types, connected, handle, apn, handles[..])
    }

    constructor (kind: int, types: set<nat>, connected: bool, handle: nat, apn: string, slotKind: int)
      ensures Valid() && fresh(handles)
      ensures Abs() == Info(kind, types, connected, handle, apn, Fresh(handle, slotKind))
    {
      this.kind, this.types, this.connected := kind, types, connected;
      this.handle, this.apn := handle, apn;
      handles := new Entry[MAX_HANDLES](i => if i == 0 then Entry(handle, slotKind) else FREE);
      new;
      assert handles[..] == Fresh(handle, slotKind);
    }

    /** Takes over the table of the last report and updates it in place. */
    method Collate(cur: Info)
      requires Valid() && |cur.table| == MAX_HANDLES
      modifies this, handles
      ensures Abs() == Collated(old(Abs()), cur)
    {
      for i := 0 to MAX_HANDLES
        invariant forall j :: 0 <= j < i ==> handles[j] == cur.table[j]
        modifies handles
      {
        handles[i] := cur.table[i];
      }
      assert handles[..] == cur.table;
      if kind != TYPE_MOBILE && cur.apn != "" {
        apn := cur.apn;
      }
      if connected {
        types := types + cur.types;
        AddHandle(cur.table);
      } else if types != {} {
        RemoveHandle(cur);
      }
    }

    method AddHandle(ghost t: Table)
      requires Valid() && handles[..] == t
      modifies handles
      ensures handles[..] == Connect(t, handle, kind)
    {
      for i := 0 to MAX_HANDLES
        invariant handles[..] == t
        invariant Place(t, handle, 0) == Place(t, handle, i)
      {
        if handle == handles[i].handle {
          return;
        }
        if handles[i].handle == HANDLE_UNKNOWN {
          handles[i] := Entry(handle, kind);
          assert handles[..] == t[i := Entry(handle, kind)];
          return;
        }
      }
    }

    method RemoveHandle(cur: Info)
      requires Valid() && |cur.table| == MAX_HANDLES && handles[..] == cur.table
      modifies `types, handles
      ensures handles[..] == Disconnect(cur.table, handle, kind)
      ensures types == if OthersOfType(cur.table, handle, kind, Taken(cur.table, 0)) == 0 then cur.types - old(types) else old(types)
    {
      ghost var t := cur.table;
      var deletedIndex, lastValidIndex, typeCount := MAX_HANDLES, 0, 0;
      while lastValidIndex < MAX_HANDLES && handles[lastValidIndex].handle != HANDLE_UNKNOWN
        invariant lastValidIndex <= MAX_HANDLES && handles[..] == t
        invariant Taken(t, 0) == Taken(t, lastValidIndex)
        invariant deletedIndex == Found(t, handle, kind, lastValidIndex)
        invariant typeCount == OthersOfType(t, handle, kind, lastValidIndex)
      {
        assert handles[lastValidIndex] == t[lastValidIndex];
        if kind == handles[lastValidIndex].kind {
          if handle == handles[lastValidIndex].handle {
            deletedIndex := lastValidIndex;
          } else {
            typeCount := typeCount + 1;
          }
        }
        lastValidIndex := lastValidIndex + 1;
      }
      assert lastValidIndex < MAX_HANDLES ==> handles[lastValidIndex] == t[lastValidIndex];
      assert lastValidIndex == Taken(t, 0);
      if lastValidIndex > 0 {
        lastValidIndex := lastValidIndex - 1;
      }
      if deletedIndex != MAX_HANDLES {
        handles[deletedIndex] := handles[lastValidIndex];
        handles[lastValidIndex] := FREE;
        assert handles[..] == t[deletedIndex := t[lastValidIndex]][lastValidIndex := FREE];
      }
      if typeCount == 0 {
        types := cur.types - types;
      }
    }
  }

  function Fresh(handle: nat, slotKind: int): Table {
    seq(MAX_HANDLES, i requires 0 <= i < MAX_HANDLES => if i == 0 then Entry(handle, slotKind) else FREE)
  }

  class NetworkInfoReports {
    var report: seq<Info>

    ghost predicate Valid()
      reads this
    {
      forall r :: r in report ==> |r.table| == MAX_HANDLES
    }

    constructor ()
      ensures Valid() && report == []
    {
      report := [];
    }

    method SetItemInReport(s: SystemStatusNetworkInfo) returns (changed: bool)
      requires Valid() && s.Valid()
      modifies this, s, s.handles
      ensures Valid() && report == Reported(old(report), old(s.Abs()))
      ensures changed <==> report != old(report)
    {
      if |report| > 0 {
        var last := report[|report| - 1];
        s.Collate(last);
        if last.types == s.types && last.connected == s.connected && last.table == s.handles[..] && last.apn == s.apn {
          return false;
        }
      }
      ghost var before := report;
      report := report + [Info(s.kind, s.types, s.connected, s.handle, s.apn, s.handles[..])];
      if |report| > MAX_REPORTS {
        report := report[1..];
      }
      changed := true;
    }
  }

  // ------------------------------------------------------------------ what the table stands for

  /** The known networks come first, and none has the handle of another. */
  ghost predicate Tidy(t: Table) {
    && (forall i, j :: 0 <= i < j < MAX_HANDLES && Known(t[j]) ==> Known(t[i]))
    && (forall i, j :: 0 <= i < j < MAX_HANDLES && Known(t[i]) && Known(t[j]) ==> t[i].handle != t[j].handle)
  }

  ghost predicate Has(t: Table, e: Entry) {
    Known(e) && exists i :: 0 <= i < MAX_HANDLES && t[i] == e
  }

  ghost predicate HasHandle(t: Table, h: nat) {
    h != HANDLE_UNKNOWN && exists i :: 0 <= i < MAX_HANDLES && t[i].handle == h
  }

  ghost predicate Full(t: Table) {
    forall i :: 0 <= i < MAX_HANDLES ==> Known(t[i])
  }

  lemma {:induction false} PlaceFacts(t: Table, h: nat, i: nat)
    requires i <= MAX_HANDLES
    ensures var p := Place(t, h, i);
      && (forall j :: i <= j < p ==> Known(t[j]) && t[j].handle != h)
      && (p < MAX_HANDLES ==> t[p].handle == h || !Known(t[p]))
    decreases MAX_HANDLES - i
  {
    if i < MAX_HANDLES && t[i].handle != h && Known(t[i]) {
      PlaceFacts(t, h, i + 1);
    }
  }

  /** Connecting adds the network if its handle is new and there is room, and does nothing
      else. */
  lemma ConnectAdds(t: Table, h: nat, kind: int)
    requires Tidy(t)
    ensures Tidy(Connect(t, h, kind))
    ensures forall e :: Has(Connect(t, h, kind), e) <==>
      Has(t, e) || (e == Entry(h, kind) && Known(e) && !HasHandle(t, h) && !Full(t))
  {
    PlaceFacts(t, h, 0);
    var p, next := Place(t, h, 0), Connect(t, h, kind);
    if next != t {
      assert next[p] == Entry(h, kind);
      forall e
        ensures Has(next, e) <==> Has(t, e) || e == Entry(h, kind)
      {
        if i :| 0 <= i < MAX_HANDLES && t[i] == e && Known(e) {
          assert next[i] == e;
        }
        if i :| 0 <= i < MAX_HANDLES && next[i] == e && Known(e) && i != p {
          assert t[i] == e;
        }
      }
    }
  }

  lemma {:induction false} TakenFacts(t: Table, i: nat)
    requires i <= MAX_HANDLES
    ensures var n := Taken(t, i);
      && (forall j :: i <= j < n ==> Known(t[j]))
      && (n < MAX_HANDLES ==> !Known(t[n]))
    decreases MAX_HANDLES - i
  {
    if i < MAX_HANDLES && Known(t[i]) {
      TakenFacts(t, i + 1);
    }
  }

  lemma {:induction false} FoundFacts(t: Table, h: nat, kind: int, n: nat)
    requires n <= MAX_HANDLES
    ensures var p := Found(t, h, kind, n);
      && (p < MAX_HANDLES ==> t[p] == Entry(h, kind))
      && (p == MAX_HANDLES ==> forall j :: 0 <= j < n ==> t[j] != Entry(h, kind))
  {
    if n > 0 && t[n - 1] != Entry(h, kind) {
      FoundFacts(t, h, kind, n - 1);
    }
  }

  /** Disconnecting removes exactly the network of that type and handle: every other
      survives the swap. */
  lemma DisconnectRemoves(t: Table, h: nat, kind: int)
    requires Tidy(t)
    ensures Tidy(Disconnect(t, h, kind))
    ensures forall e :: Has(Disconnect(t, h, kind), e) <==> Has(t, e) && e != Entry(h, kind)
  {
    var n := Taken(t, 0);
    var p, next := Found(t, h, kind, n), Disconnect(t, h, kind);
    TakenFacts(t, 0);
    FoundFacts(t, h, kind, n);
    if p != MAX_HANDLES {
      SwapDelete(t, p, n);
    }
  }

  lemma SwapDelete(t: Table, p: nat, n: nat)
    requires Tidy(t) && p < n <= MAX_HANDLES
    requires (forall j :: 0 <= j < n ==> Known(t[j])) && (n < MAX_HANDLES ==> !Known(t[n]))
    ensures var next := t[p := t[n - 1]][n - 1 := FREE];
      && Tidy(next) && forall e :: Has(next, e) <==> Has(t, e) && e != t[p]
  {
    var next := t[p := t[n - 1]][n - 1 := FREE];
    assert forall i :: 0 <= i < MAX_HANDLES && i != p && i != n - 1 ==> next[i] == t[i];
    forall e
      ensures Has(next, e) <==> Has(t, e) && e != t[p]
    {
      if i :| 0 <= i < MAX_HANDLES && t[i] == e && Known(e) && e != t[p] {
        assert next[if i == n - 1 then p else i] == e;
      }
      if i :| 0 <= i < MAX_HANDLES && next[i] == e && Known(e) {
        assert t[if i == p then n - 1 else i] == e;
      }
    }
  }

  // ------------------------------------------------------------------ one report

  /** The table that the next report will be collated with. */
  function TableOf(report: seq<Info>): Table
    requires forall r :: r in report ==> |r.table| == MAX_HANDLES
  {
    if report == [] then seq(MAX_HANDLES, _ => FREE) else report[|report| - 1].table
  }

  function At(run: seq<Info>, n: nat): (report: seq<Info>)
    requires n <= |run| && forall s :: s in run ==> |s.table| == MAX_HANDLES
    ensures forall r :: r in report ==> |r.table| == MAX_HANDLES
  {
    if n == 0 then [] else Reported(At(run, n - 1), run[n - 1])
  }

  /** What the networks connected should be after a report. */
  ghost predicate Expected(before: Table, s: Info, e: Entry) {
    if s.connected then
      Has(before, e) || (e == Entry(s.handle, s.kind) && Known(e) && !HasHandle(before, s.handle) && !Full(before))
    else Has(before, e) && (s.types == {} || e != Entry(s.handle, s.kind))
  }

  /** Every report but the first keeps the table tidy, and makes it what is expected. */
  lemma ReportRefinesSet(report: seq<Info>, s: Info)
    requires report != [] && (forall r :: r in report ==> |r.table| == MAX_HANDLES) && |s.table| == MAX_HANDLES
    requires Tidy(TableOf(report))
    ensures (forall r :: r in Reported(report, s) ==> |r.table| == MAX_HANDLES)
      && Reported(report, s) != []
      && Tidy(TableOf(Reported(report, s)))
      && forall e :: Has(TableOf(Reported(report, s)), e) <==> Expected(TableOf(report), s, e)
  {
    var t := TableOf(report);
    ConnectAdds(t, s.handle, s.kind);
    DisconnectRemoves(t, s.handle, s.kind);
    LastReported(report, s);
  }

  lemma LastReported(report: seq<Info>, s: Info)
    requires report != [] && (forall r :: r in report ==> |r.table| == MAX_HANDLES) && |s.table| == MAX_HANDLES
    ensures forall r :: r in Reported(report, s) ==> |r.table| == MAX_HANDLES
    ensures Reported(report, s) != []
    ensures TableOf(Reported(report, s)) == Collated(s, report[|report| - 1]).table
  {
  }

  /** The first report is taken as it comes, whether its network is connected or not. */
  lemma FirstReport(s: Info, slotKind: int)
    requires s.table == Fresh(s.handle, slotKind)
    ensures Tidy(TableOf(Reported([], s)))
    ensures forall e :: Has(TableOf(Reported([], s)), e) <==> Known(e) && e == Entry(s.handle, slotKind)
  {
    assert s.table[0] == Entry(s.handle, slotKind);
  }

  /** What the run leaves connected is exactly the first network, if it was, exactly if the
      first report was of a connection and under the same type. */
  lemma FirstReportIsExactIff(s: Info, slotKind: int)
    requires s.table == Fresh(s.handle, slotKind) && s.handle != HANDLE_UNKNOWN
    ensures (forall e :: Has(TableOf(Reported([], s)), e) <==> Expected(seq(MAX_HANDLES, _ => FREE), s, e))
      <==> s.connected && slotKind == s.kind
  {
    FirstReport(s, slotKind);
    var none: Table := seq(MAX_HANDLES, _ => FREE);
    assert none[0] == FREE;
    assert Has(TableOf(Reported([], s)), Entry(s.handle, slotKind));
  }

  /** A first report of a disconnection: its network is in the table as if connected. */
  lemma FirstDisconnectionIsKept()
    ensures var s := Info(TYPE_MOBILE, {}, false, 7, "", Fresh(7, TYPE_MOBILE));
      Has(TableOf(Reported([], s)), Entry(7, TYPE_MOBILE))
  {
    FirstReport(Info(TYPE_MOBILE, {}, false, 7, "", Fresh(7, TYPE_MOBILE)), TYPE_MOBILE);
  }

  // ------------------------------------------------------------------ the set

  /** The known networks of the first n places. */
  function Contents(t: Table, n: nat): set<Entry>
    requires n <= MAX_HANDLES
  {
    if n == 0 then {} else Contents(t, n - 1) + if Known(t[n - 1]) then {t[n - 1]} else {}
  }

  lemma {:induction false} ContentsHas(t: Table, n: nat, e: Entry)
    requires n <= MAX_HANDLES
    ensures e in Contents(t, n) <==> Known(e) && exists i :: 0 <= i < n && t[i] == e
  {
    if n > 0 {
      ContentsHas(t, n - 1, e);
    }
  }

  lemma {:induction false} ContentsSize(t: Table, n: nat)
    requires n <= MAX_HANDLES && Tidy(t)
    ensures |Contents(t, n)| <= n
    ensures (forall i :: 0 <= i < n ==> Known(t[i])) ==> |Contents(t, n)| == n
  {
    if n > 0 {
      ContentsSize(t, n - 1);
      ContentsHas(t, n - 1, t[n - 1]);
    }
  }

  /** The table is full exactly if it holds as many networks as it has places. */
  lemma FullIsSize(t: Table)
    requires Tidy(t)
    ensures Full(t) <==> |Contents(t, MAX_HANDLES)| == MAX_HANDLES
  {
    ContentsSize(t, MAX_HANDLES);
    ContentsSize(t, MAX_HANDLES - 1);
    assert Known(t[MAX_HANDLES - 1]) ==> Full(t);
  }

  /** A set of at most ten networks with distinct handles. */
  function SetStep(networks: set<Entry>, s: Info): set<Entry> {
    if s.connected then
      if s.handle != HANDLE_UNKNOWN && (forall e :: e in networks ==> e.handle != s.handle) && |networks| < MAX_HANDLES
      then networks + {Entry(s.handle, s.kind)} else networks
    else if s.types == {} then networks
    else networks - {Entry(s.handle, s.kind)}
  }

  function SetAt(run: seq<Info>, n: nat): set<Entry>
    requires n <= |run| && forall s :: s in run ==> |s.table| == MAX_HANDLES
  {
    if n == 0 then {}
    else if n == 1 then Contents(run[0].table, MAX_HANDLES)
    else SetStep(SetAt(run, n - 1), run[n - 1])
  }

  /** Every report but the first does to the table what it does to the set. */
  lemma ReportIsSetStep(report: seq<Info>, s: Info)
    requires report != [] && (forall r :: r in report ==> |r.table| == MAX_HANDLES) && |s.table| == MAX_HANDLES
    requires Tidy(TableOf(report))
    ensures (forall r :: r in Reported(report, s) ==> |r.table| == MAX_HANDLES)
      && Contents(TableOf(Reported(report, s)), MAX_HANDLES) == SetStep(Contents(TableOf(report), MAX_HANDLES), s)
  {
    hide Contents, Reported, Tidy;
    ReportRefinesSet(report, s);
    var t, next := TableOf(report), TableOf(Reported(report, s));
    FullIsSize(t);
    ContentsAtMost(t);
    forall e
      ensures e in Contents(t, MAX_HANDLES) <==> Has(t, e)
      ensures e in Contents(next, MAX_HANDLES) <==> Has(next, e)
    {
      ContentsHas(t, MAX_HANDLES, e);
      ContentsHas(next, MAX_HANDLES, e);
    }
    HandleInContents(t, s.handle);
  }

  lemma ContentsAtMost(t: Table)
    requires Tidy(t)
    ensures |Contents(t, MAX_HANDLES)| <= MAX_HANDLES
  {
    ContentsSize(t, MAX_HANDLES);
  }

  lemma HandleInContents(t: Table, h: nat)
    ensures HasHandle(t, h) <==> h != HANDLE_UNKNOWN && exists e :: e in Contents(t, MAX_HANDLES) && e.handle == h
  {
    hide Contents;
    if HasHandle(t, h) {
      var i :| 0 <= i < MAX_HANDLES && t[i].handle == h;
      ContentsHas(t, MAX_HANDLES, t[i]);
    }
    if e :| e in Contents(t, MAX_HANDLES) && e.handle == h {
      ContentsHas(t, MAX_HANDLES, e);
    }
  }

  // ------------------------------------------------------------------ runs

  /** Reports as they are made, for one network each. */
  ghost predicate Made(run: seq<Info>) {
    forall i :: 0 <= i < |run| ==> MadeForOne(run[i])
  }

  ghost predicate MadeForOne(s: Info) {
    exists k :: s.table == Fresh(s.handle, k)
  }

  lemma MadeTables(run: seq<Info>)
    requires Made(run)
    ensures forall s :: s in run ==> |s.table| == MAX_HANDLES
  {
  }

  /** On every run the table stays without holes and duplicates, holds exactly the networks
      of the set, and at most five reports are kept. */
  lemma {:induction false} EveryRunRefinesSet(run: seq<Info>, n: nat)
    requires 0 < n <= |run| && Made(run)
    ensures (forall s :: s in run ==> |s.table| == MAX_HANDLES)
      && 0 < |At(run, n)| <= MAX_REPORTS
      && Tidy(TableOf(At(run, n)))
      && Contents(TableOf(At(run, n)), MAX_HANDLES) == SetAt(run, n)
  {
    hide Tidy, Contents, SetStep, Fresh, MadeForOne;
    MadeTables(run);
    assert MadeForOne(run[n - 1]) && run[n - 1] in run;
    if n == 1 {
      FirstIsTidy(run[0]);
      assert At(run, 0) == [] && At(run, 1) == [run[0]];
    } else {
      EveryRunRefinesSet(run, n - 1);
      ReportRefinesSet(At(run, n - 1), run[n - 1]);
      ReportIsSetStep(At(run, n - 1), run[n - 1]);
      FewReports(At(run, n - 1), run[n - 1]);
    }
  }

  lemma FirstIsTidy(s: Info)
    requires MadeForOne(s)
    ensures |s.table| == MAX_HANDLES && Tidy(s.table)
  {
    var k :| s.table == Fresh(s.handle, k);
    FirstReport(s, k);
  }

  lemma FewReports(report: seq<Info>, s: Info)
    requires forall r :: r in report ==> |r.table| == MAX_HANDLES
    requires |report| <= MAX_REPORTS
    ensures |Reported(report, s)| <= MAX_REPORTS
  {
  }
}
