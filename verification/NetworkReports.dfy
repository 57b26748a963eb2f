/** The list of network reports: the last five of all states there have been. */
module NetworkReports {
  import opened NetworkTable
  import opened NetworkTypes

  /** The two say the same of what is connected. */
  predicate Alike(a: Info, b: Info) {
    a.types == b.types && a.connected == b.connected && a.table == b.table && a.apn == b.apn
  }

  /** All states that the first n reports have led to, each collated with the one before it;
      a report that changes nothing leads to none. */
  function History(run: seq<Info>, n: nat): (h: seq<Info>)
    requires n <= |run| && forall s :: s in run ==> |s.table| == MAX_HANDLES
    ensures forall r :: r in h ==> |r.table| == MAX_HANDLES
    ensures n > 0 ==> h != []
  {
    if n == 0 then []
    else
      var h := History(run, n - 1);
      if n == 1 then [run[0]]
      else
        var c := Collated(run[n - 1], h[|h| - 1]);
        CollatedTable(run[n - 1], h[|h| - 1]);
        if Alike(h[|h| - 1], c) then h else h + [c]
  }

  lemma CollatedTable(s: Info, cur: Info)
    requires |cur.table| == MAX_HANDLES && |s.table| == MAX_HANDLES
    ensures |Collated(s, cur).table| == MAX_HANDLES
  {
  }

  /** The last five of a history, or all of it. */
  function LastFive(h: seq<Info>): seq<Info> {
    if |h| <= 5 then h else h[|h| - 5..]
  }

  /** On every run the list kept is the last five states of the history. */
  lemma {:induction false} EveryRunKeepsLast(run: seq<Info>, n: nat)
    requires n <= |run| && forall s :: s in run ==> |s.table| == MAX_HANDLES
    ensures At(run, n) == LastFive(History(run, n))
  {
    hide Collated;
    if n == 1 {
      assert At(run, 0) == [];
    } else if n > 1 {
      EveryRunKeepsLast(run, n - 1);
      var h, kept := History(run, n - 1), At(run, n - 1);
      assert kept[|kept| - 1] == h[|h| - 1];
      var c := Collated(run[n - 1], h[|h| - 1]);
      OneMore(h, c);
    }
  }

  lemma OneMore(h: seq<Info>, c: Info)
    ensures var kept := LastFive(h);
      LastFive(h + [c]) == if |kept| == 5 then (kept + [c])[1..] else kept + [c]
  {
    if |h| >= 5 {
      assert (h + [c])[|h| - 4..] == (h[|h| - 5..] + [c])[1..];
    }
  }

  /** Each report in the list differs from the one before it. */
  lemma {:induction false} NeighboursDiffer(run: seq<Info>, n: nat, i: nat)
    requires n <= |run| && (forall s :: s in run ==> |s.table| == MAX_HANDLES) && i + 1 < |At(run, n)|
    ensures !Alike(At(run, n)[i], At(run, n)[i + 1])
  {
    hide Collated;
    EveryRunKeepsLast(run, n);
    HistoryDiffers(run, n, i + if |History(run, n)| <= 5 then 0 else |History(run, n)| - 5);
  }

  lemma {:induction false} HistoryDiffers(run: seq<Info>, n: nat, i: nat)
    requires n <= |run| && (forall s :: s in run ==> |s.table| == MAX_HANDLES) && i + 1 < |History(run, n)|
    ensures !Alike(History(run, n)[i], History(run, n)[i + 1])
  {
    hide Collated;
    if n > 1 && i + 1 < |History(run, n - 1)| {
      HistoryDiffers(run, n - 1, i);
    }
  }
}
