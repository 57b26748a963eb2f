/** Sorting the sections of a file list: the comparator as an order, and what its sorting
    comes to. */
module PathSort {
  import opened PathOrder

  // ------------------------------------------------------------------ the order

  /** Comparing the other way round gives the opposite, whatever the lines. */
  lemma CompareSwap(a: Line, b: Line)
    ensures Compare(a, b) == -Compare(b, a)
  {
    LexSwap(a, b);
    LexSwap(RemovePrefix(a), RemovePrefix(b));
  }

  /** Lines compare equal exactly if they are equal, or one is the other behind a '-'. */
  lemma CompareZero(a: Line, b: Line)
    ensures Compare(a, b) == 0 <==>
      || a == b
      || (b != [] && b[0] != DASH && a == [DASH] + b)
      || (a != [] && a[0] != DASH && b == [DASH] + a)
  {
    EqualStripped(a, b);
    if a != [] && a[0] == DASH {
      assert a == [DASH] + a[1..];
    }
    if b != [] && b[0] == DASH {
      assert b == [DASH] + b[1..];
    }
  }

  lemma EqualStripped(a: Line, b: Line)
    ensures Compare(a, b) == 0 <==> (a == [] <==> b == []) && RemovePrefix(a) == RemovePrefix(b)
  {
    LexZero(a, b);
    LexZero(RemovePrefix(a), RemovePrefix(b));
  }

  /** The key of the second is compared with that of the first. */
  function ByKey(a: Line, b: Line): int {
    Lex(Key(a), Key(b))
  }

  /** The comparator is key order, but turned round where one line is deep under the other,
      which in key order comes after it. */
  lemma CompareIsKeyOrderTurned(a: Line, b: Line)
    ensures Compare(a, b) == if DeepUnder(a, b) then 1 else if DeepUnder(b, a) then -1 else ByKey(a, b)
    ensures DeepUnder(a, b) ==> ByKey(a, b) == -1
  {
    var s, t := RemovePrefix(a), RemovePrefix(b);
    CompareIsKeyOrderIff(a, b);
    LexSwap(Key(a), Key(b));
    if DeepUnder(a, b) {
      DeepIsLater(a, b);
    }
    if DeepUnder(b, a) {
      DeepIsLater(b, a);
    }
  }

  lemma DeepIsLater(a: Line, b: Line)
    requires DeepUnder(a, b)
    ensures Compare(a, b) == 1 && Compare(b, a) == -1 && ByKey(a, b) == -1
  {
    BareAgrees(a, b);
    LexAppend([0], PathKey(RemovePrefix(a)), PathKey(RemovePrefix(b)));
  }

  /** Key order is transitive, and its ties are equal keys. */
  lemma ByKeyIsOrder(a: Line, b: Line, c: Line)
    ensures ByKey(a, b) <= 0 && ByKey(b, c) <= 0 ==> ByKey(a, c) <= 0
    ensures ByKey(a, b) == -ByKey(b, a)
    ensures ByKey(a, b) == 0 <==> Key(a) == Key(b)
    ensures -1 <= ByKey(a, b) <= 1
  {
    if ByKey(a, b) <= 0 && ByKey(b, c) <= 0 {
      LexTransitive(Key(a), Key(b), Key(c));
    }
    LexSwap(Key(a), Key(b));
    LexZero(Key(a), Key(b));
    LexRange(Key(a), Key(b));
  }

  lemma {:induction false} LexRange(a: seq<int>, b: seq<int>)
    ensures -1 <= Lex(a, b) <= 1
  {
    if a != [] && b != [] {
      LexRange(a[1..], b[1..]);
    }
  }

  /** Lines with the same key are in the same place among the others. */
  lemma SameKeySameDepth(a: Line, b: Line, c: Line)
    requires Key(a) == Key(b)
    ensures DeepUnder(a, c) <==> DeepUnder(b, c)
    ensures DeepUnder(c, a) <==> DeepUnder(c, b)
  {
    var s, t := RemovePrefix(a), RemovePrefix(b);
    CompareIsKeyOrderTurned(a, b);
    LexZero(Key(a), Key(b));
    if DeepUnder(a, b) || DeepUnder(b, a) {
      LexSwap(Key(a), Key(b));
      CompareIsKeyOrderTurned(b, a);
    }
    EqualStripped(a, b);
  }

  /** Lines without slashes that have the same line deep under them have the same key. */
  lemma SameDepthSameKey(a: Line, b: Line, c: Line)
    requires DeepUnder(a, c) && DeepUnder(b, c)
    ensures Key(a) == Key(b)
  {
    var s, t, d := RemovePrefix(a), RemovePrefix(b), Dir(RemovePrefix(c));
    assert s + [SLASH] == d[..|s| + 1] && t + [SLASH] == d[..|t| + 1];
    FirstSlashes(s, t, d);
    assert s == d[..|s|] && t == d[..|t|];
  }

  lemma FirstSlashes(s: Line, t: Line, d: Line)
    requires SLASH !in s && SLASH !in t && s + [SLASH] <= d && t + [SLASH] <= d
    ensures |s| == |t|
  {
    assert d[|s|] == (s + [SLASH])[|s|] == SLASH && d[|t|] == (t + [SLASH])[|t|] == SLASH;
    assert forall i :: 0 <= i < |s| ==> d[i] == (s + [SLASH])[i] == s[i] && s[i] in s;
    assert forall i :: 0 <= i < |t| ==> d[i] == (t + [SLASH])[i] == t[i] && t[i] in t;
  }

  /** One line is deep under another, and a third comes between them in key order. */
  predicate Between(a: Line, b: Line, c: Line) {
    DeepUnder(a, c) && !DeepUnder(a, b) && ByKey(a, b) == -1 && ByKey(b, c) <= 0
  }

  /** No line of the section comes between two of which one is deep under the other. */
  ghost predicate Orderly(lines: seq<Line>) {
    forall a, b, c :: a in lines && b in lines && c in lines ==> !Between(a, b, c)
  }

  ghost predicate Transitive(lines: seq<Line>) {
    forall a, b, c :: a in lines && b in lines && c in lines ==> !Breaks(a, b, c)
  }

  predicate Breaks(a: Line, b: Line, c: Line) {
    Compare(a, b) <= 0 && Compare(b, c) <= 0 && Compare(a, c) > 0
  }

  /** What comes between goes round in a circle. */
  lemma BetweenBreaks(a: Line, b: Line, c: Line)
    requires Between(a, b, c)
    ensures Breaks(a, b, c)
  {
    hide Compare, DeepUnder, ByKey;
    CompareIsKeyOrderTurned(a, b);
    CompareIsKeyOrderTurned(b, a);
    CompareIsKeyOrderTurned(b, c);
    CompareIsKeyOrderTurned(c, b);
    CompareIsKeyOrderTurned(a, c);
    ByKeyIsOrder(a, b, c);
    ByKeyIsOrder(b, c, a);
    if DeepUnder(b, c) {
      SameDepthSameKey(a, b, c);
    }
  }

  /** Being deep goes from a line without slashes to one with. */
  lemma DeepIsNotAbove(a: Line, b: Line, c: Line)
    requires DeepUnder(a, b)
    ensures !DeepUnder(b, c) && !DeepUnder(c, a)
  {
  }

  /** And whatever goes round does so because something comes between. */
  lemma BreaksMeansBetween(a: Line, b: Line, c: Line)
    requires Breaks(a, b, c)
    ensures Between(a, b, c) || Between(b, c, a) || Between(c, a, b)
  {
    hide Compare, DeepUnder, ByKey;
    CompareIsKeyOrderTurned(a, b);
    CompareIsKeyOrderTurned(b, c);
    CompareIsKeyOrderTurned(a, c);
    ByKeyIsOrder(a, b, c);
    ByKeyIsOrder(b, c, a);
    ByKeyIsOrder(c, a, b);
    if DeepUnder(a, c) {
      DeepIsNotAbove(a, c, b);
      BreaksAbove(a, b, c);
    } else if DeepUnder(b, a) {
      DeepIsNotAbove(b, a, c);
      BreaksAbove(b, c, a);
    } else {
      assert DeepUnder(c, b);
      DeepIsNotAbove(c, b, a);
      BreaksAbove(c, a, b);
    }
  }

  /** The last line is deep under the first, the others do not turn. */
  lemma BreaksAbove(a: Line, b: Line, c: Line)
    requires DeepUnder(a, c) && !DeepUnder(a, b) && !DeepUnder(b, c) && ByKey(a, b) <= 0 && ByKey(b, c) <= 0
    ensures Between(a, b, c)
  {
    hide DeepUnder;
    ByKeyIsOrder(a, b, c);
    if ByKey(a, b) == 0 {
      SameKeySameDepth(a, b, c);
    }
  }

  /** The comparator is transitive on a section if and only if no line of it comes between
      two of which one is deep under the other. */
  lemma TransitiveIff(lines: seq<Line>)
    ensures Transitive(lines) <==> Orderly(lines)
  {
    hide Compare, DeepUnder, ByKey, Between, Breaks;
    if Orderly(lines) {
      forall a, b, c | a in lines && b in lines && c in lines
        ensures !Breaks(a, b, c)
      {
        if Breaks(a, b, c) {
          BreaksMeansBetween(a, b, c);
        }
      }
    } else {
      var a, b, c :| a in lines && b in lines && c in lines && Between(a, b, c);
      BetweenBreaks(a, b, c);
    }
  }

  /** Lines that compare equal compare the same with others. */
  lemma CompareSame(a: Line, b: Line, c: Line)
    requires Compare(a, b) == 0
    ensures Compare(a, c) == Compare(b, c) && Compare(c, a) == Compare(c, b)
  {
    EqualStripped(a, b);
  }

  /** On orderly lines the comparator is transitive, strictly unless all are equal. */
  lemma CompareTransitive(a: Line, b: Line, c: Line)
    requires Orderly([a, b, c])
    requires Compare(a, b) <= 0 && Compare(b, c) <= 0
    ensures Compare(a, c) <= 0
    ensures Compare(a, c) == 0 <==> Compare(a, b) == 0 && Compare(b, c) == 0
  {
    hide Compare, Orderly;
    var all := [a, b, c];
    TransitiveIff(all);
    assert a in all && b in all && c in all;
    assert !Breaks(a, b, c);
    CompareSwap(a, b);
    if Compare(a, c) == 0 {
      CompareSame(a, c, b);
      CompareSwap(b, c);
    } else if Compare(a, b) == 0 {
      CompareSame(a, b, c);
    }
  }

  /** "a-" comes between "a" and "a/b/c", and so: "a" < "a-" < "a/b/c" < "a". */
  lemma CompareIsCyclic()
    ensures exists a: Line, b: Line, c: Line :: Compare(a, b) < 0 && Compare(b, c) < 0 && Compare(c, a) < 0
  {
    var a: Line := [0x61];
    var b: Line := [0x61, DASH];
    var c: Line := [0x61, SLASH, 0x62, SLASH, 0x63];
    assert Compare(a, b) < 0 by {
      LexPrefix(a, b);
    }
    assert c[..4] == [0x61, SLASH, 0x62, SLASH] && c[..4][..3] == [0x61, SLASH, 0x62];
    assert BeforeLastSlash(c[..4]) == [0x61, SLASH, 0x62];
    assert Dir(c) == [0x61, SLASH, 0x62, SLASH];
    assert Compare(b, c) < 0 by {
      assert b[..1] == PathKey(c)[..1] && PathKey(c)[1] == SLASH;
      BareAgrees(b, c);
      LexAt(b, PathKey(c), 1);
    }
    assert Compare(c, a) < 0 by {
      assert Dir(a) == [0x61, SLASH];
      assert DeepUnder(a, c);
      BareAgrees(a, c);
    }
  }

  // ------------------------------------------------------------------ sorting

  ghost predicate Ordered(lines: seq<Line>) {
    forall i, j :: 0 <= i < j < |lines| ==> Compare(lines[i], lines[j]) <= 0
  }

  /** The lines equal to k, in the order they come. */
  function EqualTo(lines: seq<Line>, k: Line): seq<Line> {
    if lines == [] then []
    else if Compare(lines[0], k) == 0 then [lines[0]] + EqualTo(lines[1..], k)
    else EqualTo(lines[1..], k)
  }

  /** A rearrangement that leaves lines that compare equal in their order. */
  ghost predicate StableRearrangement(lines: seq<Line>, sorted: seq<Line>) {
    forall k :: EqualTo(sorted, k) == EqualTo(lines, k)
  }

  /** The line goes before the first that it is smaller than. */
  function Insert(x: Line, lines: seq<Line>): seq<Line> {
    if lines == [] then [x]
    else if Compare(x, lines[0]) < 0 then [x] + lines
    else [lines[0]] + Insert(x, lines[1..])
  }

  /** The first n lines, sorted. */
  function Sort(lines: seq<Line>, n: nat): seq<Line>
    requires n <= |lines|
  {
    if n == 0 then [] else Insert(lines[n - 1], Sort(lines, n - 1))
  }

  lemma OrderlyPart(lines: seq<Line>, part: seq<Line>)
    requires Orderly(lines) && forall x :: x in part ==> x in lines
    ensures Orderly(part)
  {
  }

  lemma {:induction false} InsertMembers(x: Line, lines: seq<Line>)
    ensures forall y :: y in Insert(x, lines) <==> y == x || y in lines
    ensures |Insert(x, lines)| == |lines| + 1
  {
    if lines != [] {
      InsertMembers(x, lines[1..]);
      assert lines == [lines[0]] + lines[1..];
    }
  }

  lemma OrderedCons(x: Line, lines: seq<Line>)
    requires Ordered(lines) && forall y :: y in lines ==> Compare(x, y) <= 0
    ensures Ordered([x] + lines)
  {
    hide Compare;
  }

  lemma {:induction false} InsertKeepsOrder(x: Line, lines: seq<Line>)
    requires Ordered(lines) && Orderly([x] + lines)
    ensures Ordered(Insert(x, lines))
  {
    hide Compare, DeepUnder;
    if lines != [] {
      assert lines == [lines[0]] + lines[1..];
      if Compare(x, lines[0]) < 0 {
        forall y | y in lines
          ensures Compare(x, y) <= 0
        {
          if y != lines[0] {
            assert y in lines[1..];
            assert Compare(lines[0], y) <= 0;
            OrderlyPart([x] + lines, [x, lines[0], y]);
            CompareTransitive(x, lines[0], y);
          }
        }
        OrderedCons(x, lines);
      } else {
        var rest := lines[1..];
        OrderlyPart([x] + lines, [x] + rest);
        InsertKeepsOrder(x, rest);
        InsertMembers(x, rest);
        CompareSwap(x, lines[0]);
        OrderedCons(lines[0], Insert(x, rest));
      }
    }
  }

  /** Where x goes, only smaller or equal lines are before it: after its equals. */
  lemma {:induction false} InsertIsStable(x: Line, lines: seq<Line>, k: Line)
    requires Ordered(lines) && Orderly([x] + lines)
    ensures EqualTo(Insert(x, lines), k) == EqualTo(lines, k) + (if Compare(x, k) == 0 then [x] else [])
  {
    hide Compare, DeepUnder;
    if lines == [] {
      assert [x][1..] == [];
    } else if Compare(x, lines[0]) < 0 {
      assert ([x] + lines)[1..] == lines;
      if Compare(x, k) == 0 {
        NoneEqual(x, lines, k);
      }
    } else {
      var rest := lines[1..];
      assert ([lines[0]] + Insert(x, rest))[1..] == Insert(x, rest);
      OrderlyPart([x] + lines, [x] + rest);
      InsertIsStable(x, rest, k);
    }
  }

  /** If x is smaller than the first of ordered lines, none is equal to what x is. */
  lemma {:induction false} NoneEqual(x: Line, lines: seq<Line>, k: Line)
    requires lines != [] ==> Ordered(lines) && Compare(x, lines[0]) < 0
    requires Orderly([x] + lines) && Compare(x, k) == 0
    ensures EqualTo(lines, k) == []
  {
    hide Compare, DeepUnder;
    if lines != [] {
      CompareSwap(x, lines[0]);
      assert Compare(lines[0], k) != 0 by {
        if Compare(lines[0], k) == 0 {
          EqualSymmetric(x, lines[0], k);
        }
      }
      var rest := lines[1..];
      OrderlyPart([x] + lines, [x] + rest);
      if rest != [] {
        assert rest[0] == lines[1];
        OrderlyPart([x] + lines, [x, lines[0], lines[1]]);
        CompareTransitive(x, lines[0], lines[1]);
      }
      NoneEqual(x, rest, k);
    }
  }

  lemma EqualSymmetric(a: Line, b: Line, k: Line)
    requires Compare(a, k) == 0 && Compare(b, k) == 0
    ensures Compare(a, b) == 0
  {
    CompareZero(a, k);
    CompareZero(b, k);
    CompareZero(a, b);
  }

  lemma {:induction false} EqualToAppend(lines: seq<Line>, x: Line, k: Line)
    ensures EqualTo(lines + [x], k) == EqualTo(lines, k) + (if Compare(x, k) == 0 then [x] else [])
  {
    hide Compare;
    if lines == [] {
      assert lines + [x] == [x] && [x][1..] == [];
    } else {
      assert (lines + [x])[1..] == lines[1..] + [x];
      EqualToAppend(lines[1..], x, k);
    }
  }

  /** Sorting orderly lines orders them, and rearranges them stably. */
  lemma {:induction false} SortSorts(lines: seq<Line>, n: nat)
    requires n <= |lines| && Orderly(lines)
    ensures Ordered(Sort(lines, n))
    ensures StableRearrangement(lines[..n], Sort(lines, n))
    ensures forall x :: x in Sort(lines, n) ==> x in lines
  {
    hide Compare, DeepUnder, EqualTo;
    if n > 0 {
      SortSorts(lines, n - 1);
      var x, rest := lines[n - 1], Sort(lines, n - 1);
      OrderlyPart(lines, [x] + rest);
      InsertKeepsOrder(x, rest);
      InsertMembers(x, rest);
      assert lines[..n] == lines[..n - 1] + [x];
      forall k
        ensures EqualTo(Sort(lines, n), k) == EqualTo(lines[..n], k)
      {
        InsertIsStable(x, rest, k);
        EqualToAppend(lines[..n - 1], x, k);
      }
    }
  }

  // ------------------------------------------------------------------ uniqueness

  lemma {:induction false} EqualToMembers(lines: seq<Line>, k: Line)
    ensures forall x :: x in EqualTo(lines, k) <==> x in lines && Compare(x, k) == 0
  {
    hide Compare;
    if lines != [] {
      assert lines == [lines[0]] + lines[1..];
      EqualToMembers(lines[1..], k);
    }
  }

  /** A stable rearrangement has the same lines, as often. */
  lemma {:induction false} RearrangedMembers(lines: seq<Line>, sorted: seq<Line>)
    requires StableRearrangement(lines, sorted)
    ensures forall x :: x in sorted <==> x in lines
  {
    hide Compare, EqualTo;
    forall x: Line
      ensures x in sorted <==> x in lines
    {
      EqualToMembers(lines, x);
      EqualToMembers(sorted, x);
      assert Compare(x, x) == 0 by {
        CompareZero(x, x);
      }
      assert EqualTo(sorted, x) == EqualTo(lines, x);
    }
  }

  /** The first lines of two ordered stable rearrangements of each other are the same. */
  lemma SameFirst(ys: seq<Line>, zs: seq<Line>)
    requires Ordered(ys) && Ordered(zs) && StableRearrangement(ys, zs) && ys != [] && zs != []
    ensures ys[0] == zs[0]
  {
    hide Compare;
    RearrangedMembers(ys, zs);
    var y, z := ys[0], zs[0];
    CompareZero(y, y);
    CompareZero(z, z);
    assert y in zs && z in ys;
    assert Compare(z, y) <= 0;
    assert Compare(y, z) <= 0;
    CompareSwap(y, z);
    assert EqualTo(ys, y) == EqualTo(zs, y);
    assert EqualTo(ys, y)[0] == y;
    assert EqualTo(zs, y)[0] == z;
  }

  /** There is only one way to order lines stably: what any correct stable sort returns. */
  lemma {:induction false} OrderedRearrangementIsUnique(ys: seq<Line>, zs: seq<Line>)
    requires Ordered(ys) && Ordered(zs) && StableRearrangement(ys, zs)
    ensures ys == zs
  {
    hide Compare;
    EmptyTogether(ys, zs);
    if ys != [] && zs != [] {
      SameFirst(ys, zs);
      forall k
        ensures EqualTo(zs[1..], k) == EqualTo(ys[1..], k)
      {
        assert EqualTo(ys, k) == EqualTo(zs, k);
        var head := if Compare(ys[0], k) == 0 then [ys[0]] else [];
        assert EqualTo(ys, k) == head + EqualTo(ys[1..], k);
        assert EqualTo(zs, k) == head + EqualTo(zs[1..], k);
        SameTails(head, EqualTo(ys[1..], k), EqualTo(zs[1..], k));
      }
      OrderedRearrangementIsUnique(ys[1..], zs[1..]);
      assert ys == [ys[0]] + ys[1..] && zs == [zs[0]] + zs[1..];
    }
  }

  lemma EmptyTogether(ys: seq<Line>, zs: seq<Line>)
    requires StableRearrangement(ys, zs)
    ensures ys == [] <==> zs == []
  {
    RearrangedMembers(ys, zs);
    if ys != [] {
      assert ys[0] in zs;
    }
    if zs != [] {
      assert zs[0] in ys;
    }
  }

  lemma SameTails(head: seq<Line>, a: seq<Line>, b: seq<Line>)
    requires head + a == head + b
    ensures a == b
  {
    assert a == (head + a)[|head|..];
  }

  /** Sorting what is sorted changes nothing. */
  lemma ResortingIsIdentity(lines: seq<Line>)
    requires Orderly(lines)
    ensures var sorted := Sort(lines, |lines|); |sorted| == |lines| && Sort(sorted, |sorted|) == sorted
  {
    var sorted := Sort(lines, |lines|);
    SortSorts(lines, |lines|);
    SortLength(lines, |lines|);
    OrderlyPart(lines, sorted);
    SortSorts(sorted, |sorted|);
    assert sorted[..|sorted|] == sorted;
    OrderedRearrangementIsUnique(sorted, Sort(sorted, |sorted|));
  }

  lemma {:induction false} SortLength(lines: seq<Line>, n: nat)
    requires n <= |lines|
    ensures |Sort(lines, n)| == n
  {
    if n > 0 {
      SortLength(lines, n - 1);
      InsertMembers(lines[n - 1], Sort(lines, n - 1));
    }
  }

  // ------------------------------------------------------------------ the script

  method SortSection(lines: seq<Line>) returns (sorted: seq<Line>)
    ensures sorted == Sort(lines, |lines|)
  {
    sorted := [];
    for i := 0 to |lines|
      invariant sorted == Sort(lines, i)
    {
      sorted := Insert(lines[i], sorted);
    }
  }

  /** Orders every section; the sections stay where they are. */
  method OrderSections(sections: seq<seq<Line>>) returns (ordered: seq<seq<Line>>)
    ensures |ordered| == |sections|
    ensures forall i :: 0 <= i < |sections| && Orderly(sections[i]) ==>
      Ordered(ordered[i]) && StableRearrangement(sections[i], ordered[i])
  {
    hide Orderly, Ordered, StableRearrangement, Sort;
    ordered := [];
    for i := 0 to |sections|
      invariant |ordered| == i
      invariant forall j :: 0 <= j < i && Orderly(sections[j]) ==>
        Ordered(ordered[j]) && StableRearrangement(sections[j], ordered[j])
    {
      var sorted := SortSection(sections[i]);
      if Orderly(sections[i]) {
        SortSorts(sections[i], |sections[i]|);
        assert sections[i][..|sections[i]|] == sections[i];
      }
      ordered := ordered + [sorted];
    }
  }
}
