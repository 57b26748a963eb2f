/** The mask of types that are connected, and the access point name, which are carried from
    report to report beside the table. */
module NetworkTypes {
  import opened NetworkTable

  /** The state the next report is collated with. */
  function Last(report: seq<Info>): Info
    requires report != []
  {
    report[|report| - 1]
  }

  /** A report names its own type, if that is a known one. */
  predicate NamesItself(s: Info) {
    s.types == if 0 <= s.kind < TYPE_UNKNOWN then {s.kind} else {}
  }

  /** The mask has exactly the known types of the networks in the table. */
  ghost predicate MaskFits(types: set<nat>, t: Table) {
    forall k: nat :: k in types <==> k < TYPE_UNKNOWN && SomeOfType(t, k)
  }

  ghost predicate SomeOfType(t: Table, kind: int) {
    exists e :: Has(t, e) && e.kind == kind
  }

  /** Another network of the type than the one with this handle. */
  ghost predicate OtherOfType(t: Table, h: nat, kind: int) {
    exists e :: Has(t, e) && e.kind == kind && e.handle != h
  }

  // ------------------------------------------------------------------ one report

  lemma {:induction false} OthersCounted(t: Table, h: nat, kind: int, n: nat)
    requires n <= MAX_HANDLES && forall i :: 0 <= i < n ==> Known(t[i])
    ensures OthersOfType(t, h, kind, n) > 0 <==> exists i :: 0 <= i < n && t[i].kind == kind && t[i].handle != h
  {
    if n > 0 {
      OthersCounted(t, h, kind, n - 1);
    }
  }

  lemma OthersIff(t: Table, h: nat, kind: int)
    requires Tidy(t)
    ensures OthersOfType(t, h, kind, Taken(t, 0)) > 0 <==> OtherOfType(t, h, kind)
  {
    var n := Taken(t, 0);
    TakenFacts(t, 0);
    OthersCounted(t, h, kind, n);
    if i :| 0 <= i < n && t[i].kind == kind && t[i].handle != h {
      assert Has(t, t[i]);
    }
    if e :| Has(t, e) && e.kind == kind && e.handle != h {
      var i :| 0 <= i < MAX_HANDLES && t[i] == e;
      assert i < n;
    }
  }

  /** What every report but the first makes of the mask and of the name. */
  lemma ReportCarries(report: seq<Info>, s: Info, k: nat)
    requires report != [] && (forall r :: r in report ==> |r.table| == MAX_HANDLES) && Tidy(TableOf(report))
    ensures Reported(report, s) != []
    ensures var was, now := Last(report), Last(Reported(report, s));
      && (k in now.types <==>
            if s.connected then k in s.types || k in was.types
            else if OtherOfType(was.table, s.handle, s.kind) then k in s.types
            else k in was.types && k !in s.types && s.types != {})
      && (now.apn == if s.kind == TYPE_MOBILE || was.apn == "" then s.apn else was.apn)
      && now.connected == s.connected
  {
    OthersIff(Last(report).table, s.handle, s.kind);
  }

  /** Of every report but the first: the mask, fitting before, fits afterwards exactly if, of
      a connection, the type is in the table then; of a disconnection, nothing of the type is
      left, or everything that is has that type; without a known type, nothing is. */
  lemma MaskFitsIff(report: seq<Info>, s: Info)
    requires report != [] && (forall r :: r in report ==> |r.table| == MAX_HANDLES) && |s.table| == MAX_HANDLES
    requires Tidy(TableOf(report)) && NamesItself(s) && MaskFits(Last(report).types, TableOf(report))
    ensures var t, n := TableOf(report), Reported(report, s);
      && (forall r :: r in n ==> |r.table| == MAX_HANDLES) && n != []
      && (MaskFits(Last(n).types, TableOf(n)) <==>
            if s.connected then s.types == {} || SomeOfType(TableOf(n), s.kind)
            else if s.types == {} then forall k: nat :: k < TYPE_UNKNOWN ==> !SomeOfType(t, k)
            else OtherOfType(t, s.handle, s.kind) ==> forall k: nat :: k < TYPE_UNKNOWN && k != s.kind ==> !SomeOfType(t, k))
  {
    hide Tidy, Reported, Has;
    var t, n := TableOf(report), Reported(report, s);
    ReportRefinesSet(report, s);
    forall k: nat
      ensures k in Last(n).types <==>
        if s.connected then k in s.types || k in Last(report).types
        else if OtherOfType(t, s.handle, s.kind) then k in s.types
        else k in Last(report).types && k !in s.types && s.types != {}
    {
      ReportCarries(report, s, k);
    }
    forall e
      ensures Has(TableOf(n), e) <==> Expected(t, s, e)
    {
    }
    if s.connected {
      ConnectedTypes(t, TableOf(n), s);
      ConnectedMask(Last(report).types, Last(n).types, t, TableOf(n), s);
    } else {
      DisconnectedTypes(t, TableOf(n), s);
    }
  }

  lemma ConnectedMask(was: set<nat>, now: set<nat>, t: Table, n: Table, s: Info)
    requires NamesItself(s) && MaskFits(was, t) && forall k: nat :: k in now <==> k in s.types || k in was
    requires forall k: int :: k != s.kind ==> (SomeOfType(n, k) <==> SomeOfType(t, k))
    requires SomeOfType(t, s.kind) ==> SomeOfType(n, s.kind)
    ensures MaskFits(now, n) <==> s.types == {} || SomeOfType(n, s.kind)
  {
    hide Has;
    if s.types == {} || SomeOfType(n, s.kind) {
      forall k: nat
        ensures k in now <==> k < TYPE_UNKNOWN && SomeOfType(n, k)
      {
        assert k in was <==> k < TYPE_UNKNOWN && SomeOfType(t, k);
      }
    } else {
      var kind: nat := s.kind;
      assert kind in s.types && kind in now && kind < TYPE_UNKNOWN;
    }
  }

  lemma ConnectedTypes(t: Table, n: Table, s: Info)
    requires s.connected && forall e :: Has(n, e) <==> Expected(t, s, e)
    ensures forall k: int :: k != s.kind ==> (SomeOfType(n, k) <==> SomeOfType(t, k))
    ensures SomeOfType(t, s.kind) ==> SomeOfType(n, s.kind)
  {
    hide Has, HasHandle, Full;
    forall k: int | k != s.kind
      ensures SomeOfType(n, k) <==> SomeOfType(t, k)
    {
      if e :| Has(t, e) && e.kind == k {
        assert Has(n, e);
      }
    }
    if e :| Has(t, e) && e.kind == s.kind {
      assert Has(n, e);
    }
  }

  lemma DisconnectedTypes(t: Table, n: Table, s: Info)
    requires !s.connected && forall e :: Has(n, e) <==> Expected(t, s, e)
    ensures forall k: int :: k != s.kind || s.types == {} ==> (SomeOfType(n, k) <==> SomeOfType(t, k))
    ensures s.types != {} ==> (SomeOfType(n, s.kind) <==> OtherOfType(t, s.handle, s.kind))
  {
    hide Has;
    forall k: int | k != s.kind || s.types == {}
      ensures SomeOfType(n, k) <==> SomeOfType(t, k)
    {
      if e :| Has(t, e) && e.kind == k {
        assert Has(n, e);
      }
    }
    if e :| Has(t, e) && e.kind == s.kind && e.handle != s.handle {
      assert Has(n, e);
    }
    if s.types != {} {
      if e :| Has(n, e) && e.kind == s.kind {
        assert Has(t, e) && e != Entry(s.handle, s.kind);
        assert e.handle != s.handle;
      }
    }
  }

  // ------------------------------------------------------------------ runs

  /** The name of a mobile network stays until the next report of one. */
  lemma {:induction false} NameIsKept(run: seq<Info>, i: nat, n: nat)
    requires i < n <= |run| && Made(run) && run[i].kind == TYPE_MOBILE && run[i].apn != ""
    requires forall j :: i < j < n ==> run[j].kind != TYPE_MOBILE
    ensures forall s :: s in run ==> |s.table| == MAX_HANDLES
    ensures At(run, n) != [] && Last(At(run, n)).apn == run[i].apn
  {
    hide Tidy, Reported, MadeForOne, Contents, SetAt;
    MadeTables(run);
    if n == 1 {
      assert At(run, 0) == [];
      FirstIsTaken(run[0]);
    } else {
      EveryRunRefinesSet(run, n - 1);
      if n > i + 1 {
        NameIsKept(run, i, n - 1);
      }
      NameAfter(At(run, n - 1), run[n - 1]);
    }
  }

  lemma NameAfter(report: seq<Info>, s: Info)
    requires report != [] && (forall r :: r in report ==> |r.table| == MAX_HANDLES) && Tidy(TableOf(report))
    ensures Reported(report, s) != []
    ensures Last(Reported(report, s)).apn == if s.kind == TYPE_MOBILE || Last(report).apn == "" then s.apn else Last(report).apn
  {
    ReportCarries(report, s, 0);
  }

  lemma FirstIsTaken(s: Info)
    ensures Reported([], s) == [s]
  {
  }

  const WIFI: int := 1

  function Report(kind: nat, connected: bool, handle: nat): Info {
    Info(kind, {kind}, connected, handle, "", Fresh(handle, kind))
  }

  /** A disconnection of which another of the type is left: the mask keeps nothing but that
      type, whatever else is connected. */
  lemma ForgetsOthers(report: seq<Info>, s: Info, e: Entry, k: nat)
    requires report != [] && (forall r :: r in report ==> |r.table| == MAX_HANDLES) && |s.table| == MAX_HANDLES
    requires Tidy(TableOf(report)) && !s.connected && OtherOfType(TableOf(report), s.handle, s.kind)
    requires Has(TableOf(report), e) && e != Entry(s.handle, s.kind) && k !in s.types
    ensures var n := Reported(report, s);
      && (forall r :: r in n ==> |r.table| == MAX_HANDLES) && n != []
      && k !in Last(n).types && Has(TableOf(n), e)
  {
    hide Reported, Has, Tidy, OtherOfType;
    ReportRefinesSet(report, s);
    ReportCarries(report, s, k);
  }

  /** Of two mobile networks and a wireless one, a mobile one goes: the mask forgets the
      wireless one, which is still connected. */
  lemma DisconnectionForgetsOthers()
    ensures var run := [Report(0, true, 7), Report(0, true, 8), Report(1, true, 9), Report(0, false, 7)];
      && (forall s :: s in run ==> |s.table| == MAX_HANDLES)
      && At(run, 4) != [] && 1 !in Last(At(run, 4)).types && Has(TableOf(At(run, 4)), Entry(9, WIFI))
  {
    hide Reported, Has, Tidy, Fresh, OtherOfType;
    var run := [Report(0, true, 7), Report(0, true, 8), Report(1, true, 9), Report(0, false, 7)];
    forall i | 0 <= i < 4
      ensures MadeForOne(run[i])
    {
      assert run[i].table == Fresh(run[i].handle, run[i].kind);
    }
    MadeTables(run);
    ThreeConnected(run);
    EveryRunRefinesSet(run, 3);
    AnotherIsLeft(TableOf(At(run, 3)));
    ForgetsOthers(At(run, 3), run[3], Entry(9, WIFI), 1);
    assert At(run, 4) == Reported(At(run, 3), run[3]);
  }

  lemma AnotherIsLeft(t: Table)
    requires Has(t, Entry(8, 0))
    ensures OtherOfType(t, 7, 0)
  {
  }

  lemma ThreeConnected(run: seq<Info>)
    requires |run| == 4 && Made(run) && forall s :: s in run ==> |s.table| == MAX_HANDLES
    requires run[..3] == [Report(0, true, 7), Report(0, true, 8), Report(1, true, 9)]
    ensures Has(TableOf(At(run, 3)), Entry(8, 0)) && Has(TableOf(At(run, 3)), Entry(9, WIFI))
  {
    hide Reported, Tidy, Has, Fresh, Made, Contents, SetAt;
    assert run[0] == run[..3][0] && run[1] == run[..3][1] && run[2] == run[..3][2];
    EveryRunRefinesSet(run, 1);
    EveryRunRefinesSet(run, 2);
    FirstReport(run[0], 0);
    assert At(run, 0) == [] && At(run, 1) == Reported([], run[0]);
    OneJoins(At(run, 1));
    assert At(run, 2) == Reported(At(run, 1), run[1]);
    TwoJoin(At(run, 2));
  }

  lemma OneJoins(report: seq<Info>)
    requires report != [] && (forall r :: r in report ==> |r.table| == MAX_HANDLES) && Tidy(TableOf(report))
    requires forall e :: Has(TableOf(report), e) <==> Known(e) && e == Entry(7, 0)
    ensures var n := Reported(report, Report(0, true, 8));
      (forall r :: r in n ==> |r.table| == MAX_HANDLES)
      && forall e :: Has(TableOf(n), e) <==> e == Entry(7, 0) || e == Entry(8, 0)
  {
    hide Reported, Tidy, Has, HasHandle, Full, Fresh;
    ReportRefinesSet(report, Report(0, true, 8));
    OneIsNotFull(TableOf(report), 7, 0);
  }

  lemma TwoJoin(report: seq<Info>)
    requires report != [] && (forall r :: r in report ==> |r.table| == MAX_HANDLES) && Tidy(TableOf(report))
    requires forall e :: Has(TableOf(report), e) <==> e == Entry(7, 0) || e == Entry(8, 0)
    ensures var n := Reported(report, Report(1, true, 9));
      (forall r :: r in n ==> |r.table| == MAX_HANDLES) && Has(TableOf(n), Entry(8, 0)) && Has(TableOf(n), Entry(9, WIFI))
  {
    hide Reported, Tidy, Has, HasHandle, Full, Fresh;
    ReportRefinesSet(report, Report(1, true, 9));
    TwoAreNotFull(TableOf(report));
  }

  lemma OneIsNotFull(t: Table, h: nat, kind: int)
    requires Tidy(t) && forall e :: Has(t, e) ==> e == Entry(h, kind)
    ensures !Full(t) && forall g :: g != h ==> !HasHandle(t, g)
  {
    assert Known(t[0]) ==> Has(t, t[0]);
    assert Known(t[1]) ==> Has(t, t[1]);
    forall g | HasHandle(t, g)
      ensures g == h
    {
      var i :| 0 <= i < MAX_HANDLES && t[i].handle == g;
      assert Has(t, t[i]);
    }
  }

  lemma TwoAreNotFull(t: Table)
    requires Tidy(t) && forall e :: Has(t, e) ==> e == Entry(7, 0) || e == Entry(8, 0)
    ensures !Full(t) && !HasHandle(t, 9)
  {
    assert Known(t[0]) ==> Has(t, t[0]);
    assert Known(t[1]) ==> Has(t, t[1]);
    assert Known(t[2]) ==> Has(t, t[2]);
    assert forall i :: 0 <= i < MAX_HANDLES && Known(t[i]) ==> Has(t, t[i]);
  }
}
