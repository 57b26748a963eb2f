/** The maps of tracking sessions, and what the loops over them find. */
module TrackingSessions {
  import opened Wrappers
  import opened TrackingModel

  // ------------------------------------------------------------------ session maps

  ghost predicate Sorted(m: seq<Session>) {
    forall i, j :: 0 <= i < j < |m| ==> Before(m[i].key, m[j].key)
  }

  lemma {:induction false} PutFacts(m: seq<Session>, k: SessionKey, o: Options)
    requires Sorted(m)
    ensures Sorted(Put(m, k, o))
    ensures forall s :: s in Put(m, k, o) <==> (s.key != k && s in m) || s == Session(k, o)
  {
    if m != [] {
      PutFacts(m[1..], k, o);
      assert m == [m[0]] + m[1..];
      if m[0].key != k && !Before(k, m[0].key) {
        var rest := Put(m[1..], k, o);
        forall i | 0 <= i < |rest|
          ensures Before(m[0].key, rest[i].key)
        {
          assert rest[i] in rest;
        }
      }
    }
  }

  lemma {:induction false} EraseFacts(m: seq<Session>, k: SessionKey)
    requires Sorted(m)
    ensures Sorted(Erase(m, k))
    ensures forall s :: s in Erase(m, k) <==> s.key != k && s in m
    ensures |Erase(m, k)| >= |m| - 1
  {
    if m != [] {
      EraseFacts(m[1..], k);
      assert m == [m[0]] + m[1..];
      var rest := Erase(m[1..], k);
      forall i | 0 <= i < |rest|
        ensures Before(m[0].key, rest[i].key)
      {
        assert rest[i] in rest;
      }
      if m[0].key == k {
        assert forall s :: s in m[1..] ==> s.key != k;
        EraseNothing(m[1..], k);
      }
    }
  }

  lemma {:induction false} EraseNothing(m: seq<Session>, k: SessionKey)
    requires forall s :: s in m ==> s.key != k
    ensures Erase(m, k) == m
  {
    if m != [] {
      assert m[0] in m;
      EraseNothing(m[1..], k);
    }
  }

  /** The value of a map at a key is unique. */
  lemma FindIs(m: seq<Session>, k: SessionKey, o: Options)
    requires Sorted(m) && Session(k, o) in m
    ensures Find(m, k) == Some(o)
  {
    var i :| 0 <= i < |m| && m[i] == Session(k, o);
    assert Has(m, k);
    var p := Find(m, k).value;
    var j :| 0 <= j < |m| && m[j] == Session(k, p);
    assert i == j;
  }

  lemma {:induction false} ErasePut(m: seq<Session>, k: SessionKey, o: Options)
    requires Sorted(m) && !Has(m, k)
    ensures Erase(Put(m, k, o), k) == m
  {
    assert forall s :: s in m ==> s.key != k by {
      NoneHasKey(m, k);
    }
    EraseNothing(m, k);
    if m != [] {
      assert m == [m[0]] + m[1..] && m[0] in m;
      if Before(k, m[0].key) {
        assert ([Session(k, o)] + m)[1..] == m;
      } else {
        NotInRest(m, k);
        ErasePut(m[1..], k, o);
        assert ([m[0]] + Put(m[1..], k, o))[1..] == Put(m[1..], k, o);
      }
    } else {
      assert [Session(k, o)][1..] == [];
    }
  }

  lemma NoneHasKey(m: seq<Session>, k: SessionKey)
    requires !Has(m, k)
    ensures forall s :: s in m ==> s.key != k
  {
    forall s | s in m
      ensures s.key != k
    {
      var i :| 0 <= i < |m| && m[i] == s;
    }
  }

  lemma NotInRest(m: seq<Session>, k: SessionKey)
    requires m != [] && !Has(m, k)
    ensures !Has(m[1..], k)
  {
    assert forall i :: 0 < i < |m| ==> m[i] == m[1..][i - 1];
  }

  /** Sorted maps with the same sessions are the same. */
  lemma {:induction false} SameSessions(a: seq<Session>, b: seq<Session>)
    requires Sorted(a) && Sorted(b) && forall s :: s in a <==> s in b
    ensures a == b
  {
    if a == [] || b == [] {
      BothEmpty(a, b);
    } else {
      SameFirst(a, b);
      assert a == [a[0]] + a[1..] && b == [b[0]] + b[1..];
      assert forall s :: s in a[1..] <==> s in a && s != a[0];
      assert forall s :: s in b[1..] <==> s in b && s != b[0];
      SameSessions(a[1..], b[1..]);
    }
  }

  lemma BothEmpty(a: seq<Session>, b: seq<Session>)
    requires forall s :: s in a <==> s in b
    ensures a == [] <==> b == []
  {
    if a != [] {
      assert a[0] in b;
    }
    if b != [] {
      assert b[0] in a;
    }
  }

  lemma SameFirst(a: seq<Session>, b: seq<Session>)
    requires Sorted(a) && Sorted(b) && (forall s :: s in a <==> s in b) && a != [] && b != []
    ensures a[0] == b[0]
  {
    assert a[0] in b && b[0] in a;
    var i :| 0 <= i < |b| && b[i] == a[0];
    var j :| 0 <= j < |a| && a[j] == b[0];
  }

  /** Putting back what was there. */
  lemma PutBack(m: seq<Session>, k: SessionKey, o: Options, was: Options)
    requires Sorted(m) && Session(k, was) in m
    ensures Put(Put(m, k, o), k, was) == m
  {
    PutFacts(m, k, o);
    PutFacts(Put(m, k, o), k, was);
    forall s | s in m && s.key == k
      ensures s == Session(k, was)
    {
      FindIs(m, k, was);
      FindIs(m, k, s.options);
    }
    SameSessions(Put(Put(m, k, o), k, was), m);
  }

  lemma KeyOfMember(m: seq<Session>, s: Session)
    requires s in m
    ensures Has(m, s.key)
  {
    var i :| 0 <= i < |m| && m[i] == s;
  }

  /** Session data the commands have let through. */
  ghost predicate Admitted(m: seq<Session>) {
    Sorted(m) && forall s :: s in m ==> s.options.size > 0 && s.options.minInterval >= MIN_TRACKING_INTERVAL
  }

  /** An interval that is fast enough for all sessions. */
  ghost predicate Serves(interval: nat, m: seq<Session>) {
    forall s :: s in m ==> interval <= s.options.minInterval
  }

  /** The smallest interval asked for, exactly. */
  ghost predicate IsFastest(interval: nat, m: seq<Session>) {
    Serves(interval, m) && exists s :: s in m && s.options.minInterval == interval
  }

  lemma AdmittedPut(m: seq<Session>, k: SessionKey, o: Options)
    requires Admitted(m) && o.size > 0 && o.minInterval >= MIN_TRACKING_INTERVAL
    ensures Admitted(Put(m, k, o)) && Put(m, k, o) != []
    ensures forall i: nat :: Serves(i, Put(m, k, o)) <==> Serves(i, Erase(m, k)) && i <= o.minInterval
  {
    PutFacts(m, k, o);
    EraseFacts(m, k);
    assert Session(k, o) in Put(m, k, o);
  }

  // ------------------------------------------------------------------ the loops

  /** The other sessions, those a multiplexing loop looks at. */
  ghost predicate Looked(m: seq<Session>, n: nat, skip: Option<SessionKey>, s: Session)
    requires n <= |m|
  {
    s in m[..n] && skip != Some(s.key)
  }

  /** The loop finds options of a looked-at session with the smallest interval. */
  lemma {:induction false} MuxFacts(m: seq<Session>, n: nat, skip: Option<SessionKey>)
    requires n <= |m|
    requires forall s :: s in m ==> s.options.size > 0
    ensures var o := Mux(m, n, skip).options;
      && (forall s :: Looked(m, n, skip, s) ==> o.minInterval <= s.options.minInterval && o.size > 0)
      && (o.size > 0 ==> exists s :: Looked(m, n, skip, s) && s.options == o)
      && (o.size == 0 ==> o == UNSET)
  {
    if n > 0 {
      MuxFacts(m, n - 1, skip);
      assert m[..n] == m[..n - 1] + [m[n - 1]];
      assert m[n - 1] in m;
      var o, s := Mux(m, n, skip).options, m[n - 1];
      if o.size > 0 {
        if skip != Some(s.key) && o == s.options {
          assert Looked(m, n, skip, s);
        } else {
          var p :| Looked(m, n - 1, skip, p) && p.options == o;
          assert Looked(m, n, skip, p);
        }
      }
    }
  }

  /** Over all sessions: the exact minimum. */
  lemma MuxOfAll(m: seq<Session>)
    requires Admitted(m) && m != []
    ensures var o := Mux(m, |m|, None).options;
      o.size > 0 && IsFastest(o.minInterval, m) && o.minInterval >= MIN_TRACKING_INTERVAL
  {
    MuxFacts(m, |m|, None);
    assert m[..|m|] == m;
    assert forall s :: s in m ==> Looked(m, |m|, None, s);
    assert Looked(m, |m|, None, m[0]);
  }

  /** Over all sessions but one of several: the exact minimum of the others. */
  lemma MuxOfOthers(m: seq<Session>, k: SessionKey)
    requires Admitted(m) && |m| >= 2
    ensures var o := Mux(m, |m|, Some(k)).options;
      && Erase(m, k) != [] && o.size > 0 && IsFastest(o.minInterval, Erase(m, k))
      && o.minInterval >= MIN_TRACKING_INTERVAL
  {
    MuxFacts(m, |m|, Some(k));
    EraseFacts(m, k);
    assert m[..|m|] == m;
    var others := Erase(m, k);
    assert forall s :: s in others <==> Looked(m, |m|, Some(k), s);
    assert others[0] in others;
  }

  // ------------------------------------------------------------------ power modes

  /** The session at this place is looked at, and names no power mode. */
  predicate NamesNone(m: seq<Session>, i: nat, skip: Option<SessionKey>)
    requires i < |m|
  {
    skip != Some(m[i].key) && m[i].options.powerMode == 0
  }

  /** The loop finds the smallest power mode, that is the highest power, of the sessions it
      looks at after the last that names none; what came before that one, it forgets. */
  lemma {:induction false} MuxPowerIsLeast(m: seq<Session>, n: nat, z: nat, skip: Option<SessionKey>)
    requires z <= n <= |m| && (z > 0 ==> NamesNone(m, z - 1, skip))
    requires forall i :: z <= i < n ==> !NamesNone(m, i, skip)
    ensures var p := Mux(m, n, skip).powerMode;
      && (forall i :: z <= i < n && skip != Some(m[i].key) ==> 0 < p <= m[i].options.powerMode)
      && (p > 0 ==> exists i :: z <= i < n && skip != Some(m[i].key) && m[i].options.powerMode == p)
  {
    if z < n {
      MuxPowerIsLeast(m, n - 1, z, skip);
      assert !NamesNone(m, n - 1, skip);
    }
  }

  ghost predicate IsHighestPower(m: seq<Session>, p: nat) {
    && (exists i :: 0 <= i < |m| && m[i].options.powerMode == p > 0)
    && forall i :: 0 <= i < |m| && m[i].options.powerMode > 0 ==> p <= m[i].options.powerMode
  }

  /** Where some session names a power mode, restarting picks the highest power named if
      and only if the first session names one: an invalid mode in the first place is never
      given up. */
  lemma RestartPicksHighestPowerIff(m: seq<Session>)
    requires Admitted(m) && exists i :: 0 <= i < |m| && m[i].options.powerMode > 0
    ensures IsHighestPower(m, HighestPower(m, |m|).powerMode) <==> m[0].options.powerMode > 0
  {
    assert forall i :: 0 <= i < |m| ==> m[i] in m;
    HighestPowerFacts(m, |m|);
  }

  lemma {:induction false} HighestPowerFacts(m: seq<Session>, n: nat)
    requires 0 < n <= |m| && forall i :: 0 <= i < |m| ==> m[i].options.size > 0
    ensures var o := HighestPower(m, n);
      && o.size > 0
      && (m[0].options.powerMode == 0 ==> o.powerMode == 0)
      && (m[0].options.powerMode > 0 ==>
            && (exists i :: 0 <= i < n && m[i].options.powerMode == o.powerMode > 0)
            && forall i :: 0 <= i < n && m[i].options.powerMode > 0 ==> o.powerMode <= m[i].options.powerMode)
  {
    if n > 1 {
      HighestPowerFacts(m, n - 1);
    } else {
      assert HighestPower(m, 0) == UNSET;
    }
  }
}
