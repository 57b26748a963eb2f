/** The order in which the lines of a file list are put: the comparator, the key whose
    lexicographic order it is, and the sorting of sections. */
module PathOrder {
  type CodePoint = x: int | 0 <= x < 0x11_0000

  type Line = seq<CodePoint>

  const SLASH: CodePoint := 0x2f
  const DASH: CodePoint := 0x2d

  /** Above every code point. */
  const MAX: int := 0x11_0000

  // ------------------------------------------------------------------ collation

  /** strcoll in the C locale: negative, zero or positive. */
  function Lex(a: seq<int>, b: seq<int>): int {
    if a == [] && b == [] then 0
    else if a == [] then -1
    else if b == [] then 1
    else if a[0] < b[0] then -1
    else if a[0] > b[0] then 1
    else Lex(a[1..], b[1..])
  }

  lemma {:induction false} LexZero(a: seq<int>, b: seq<int>)
    ensures Lex(a, b) == 0 <==> a == b
  {
    if a != [] && b != [] {
      assert a == [a[0]] + a[1..] && b == [b[0]] + b[1..];
      LexZero(a[1..], b[1..]);
    }
  }

  lemma {:induction false} LexSwap(a: seq<int>, b: seq<int>)
    ensures Lex(a, b) == -Lex(b, a)
  {
    if a != [] && b != [] {
      LexSwap(a[1..], b[1..]);
    }
  }

  lemma {:induction false} LexTransitive(a: seq<int>, b: seq<int>, c: seq<int>)
    requires Lex(a, b) <= 0 && Lex(b, c) <= 0
    ensures Lex(a, c) <= 0
  {
    if a != [] && b != [] && c != [] {
      if a[0] == b[0] == c[0] {
        LexTransitive(a[1..], b[1..], c[1..]);
      }
    }
  }

  /** A common beginning does not matter. */
  lemma {:induction false} LexAppend(p: seq<int>, a: seq<int>, b: seq<int>)
    ensures Lex(p + a, p + b) == Lex(a, b)
  {
    if p == [] {
      assert p + a == a && p + b == b;
    } else {
      assert (p + a)[1..] == p[1..] + a && (p + b)[1..] == p[1..] + b;
      LexAppend(p[1..], a, b);
    }
  }

  /** The first difference decides. */
  lemma LexAt(a: seq<int>, b: seq<int>, k: nat)
    requires k < |a| && k < |b| && a[..k] == b[..k] && a[k] != b[k]
    ensures Lex(a, b) == if a[k] < b[k] then -1 else 1
  {
    assert a == a[..k] + a[k..] && b == b[..k] + b[k..];
    LexAppend(a[..k], a[k..], b[k..]);
  }

  /** A proper beginning comes first. */
  lemma LexPrefix(a: seq<int>, b: seq<int>)
    requires a < b
    ensures Lex(a, b) == -1
  {
    assert b == a + b[|a|..] && a + [] == a;
    LexAppend(a, [], b[|a|..]);
  }

  /** Of two sequences one begins the other, or they have a first difference. */
  lemma {:induction false} FirstDifference(a: seq<int>, b: seq<int>) returns (k: nat)
    requires !(a <= b) && !(b <= a)
    ensures k < |a| && k < |b| && a[..k] == b[..k] && a[k] != b[k]
  {
    if a[0] != b[0] {
      k := 0;
    } else {
      assert a == [a[0]] + a[1..] && b == [b[0]] + b[1..];
      var j := FirstDifference(a[1..], b[1..]);
      k := j + 1;
      assert a[..k] == [a[0]] + a[1..][..j] && b[..k] == [b[0]] + b[1..][..j];
    }
  }

  // ------------------------------------------------------------------ the comparator

  function RemovePrefix(s: Line): Line {
    if |s| > 0 && s[0] == DASH then s[1..] else s
  }

  /** What precedes the last slash, or all there is. */
  function BeforeLastSlash(s: Line): Line {
    if SLASH !in s then s
    else if s[|s| - 1] == SLASH then s[..|s| - 1]
    else BeforeLastSlash(s[..|s| - 1])
  }

  function Dir(s: Line): Line {
    BeforeLastSlash(s) + [SLASH]
  }

  function Compare(line1: Line, line2: Line): int {
    if line1 == [] || line2 == [] then Lex(line1, line2)
    else
      var s1, s2 := RemovePrefix(line1), RemovePrefix(line2);
      if SLASH !in s1 && SLASH !in s2 then Lex(s1, s2)
      else if Dir(s1) == Dir(s2) then Lex(s1, s2)
      else if Dir(s2) <= Dir(s1) then -1
      else if Dir(s1) <= Dir(s2) then 1
      else Lex(s1, s2)
  }

  // ------------------------------------------------------------------ the key

  /** What follows the last slash. */
  function File(s: Line): Line
    requires SLASH in s
  {
    if s[|s| - 1] == SLASH then [] else File(s[..|s| - 1]) + [s[|s| - 1]]
  }

  lemma {:induction false} DirAndFile(s: Line)
    requires SLASH in s
    ensures s == Dir(s) + File(s)
    ensures SLASH !in File(s)
  {
    if s[|s| - 1] == SLASH {
      assert s == s[..|s| - 1] + [SLASH];
    } else {
      assert s == s[..|s| - 1] + [s[|s| - 1]];
      DirAndFile(s[..|s| - 1]);
    }
  }

  function PathKey(s: Line): seq<int> {
    if SLASH in s then Dir(s) + [MAX] + File(s) else s
  }

  /** Empty lines come first. */
  function Key(line: Line): seq<int> {
    if line == [] then [] else [0] + PathKey(RemovePrefix(line))
  }

  /** A line without slashes, and one in a directory properly below the line taken as a
      directory. */
  predicate DeepUnder(line: Line, deep: Line) {
    var s, t := RemovePrefix(line), RemovePrefix(deep);
    line != [] && SLASH !in s && SLASH in t && Dir(s) < Dir(t)
  }

  // ------------------------------------------------------------------ agreement

  lemma SameDirectory(s1: Line, s2: Line)
    requires SLASH in s1 && SLASH in s2 && Dir(s1) == Dir(s2)
    ensures Lex(s1, s2) == Lex(PathKey(s1), PathKey(s2))
  {
    DirAndFile(s1);
    DirAndFile(s2);
    LexAppend(Dir(s1), File(s1), File(s2));
    LexAppend(Dir(s1) + [MAX], File(s1), File(s2));
  }

  lemma SubDirectory(s1: Line, s2: Line)
    requires SLASH in s1 && SLASH in s2 && Dir(s2) < Dir(s1)
    ensures Lex(PathKey(s1), PathKey(s2)) == -1
  {
    LexAt(PathKey(s1), PathKey(s2), |Dir(s2)|);
  }

  lemma OtherDirectory(s1: Line, s2: Line)
    requires SLASH in s1 && SLASH in s2 && !(Dir(s1) <= Dir(s2)) && !(Dir(s2) <= Dir(s1))
    ensures Lex(s1, s2) == Lex(PathKey(s1), PathKey(s2))
  {
    DirAndFile(s1);
    DirAndFile(s2);
    var k := FirstDifference(Dir(s1), Dir(s2));
    assert s1[..k] == Dir(s1)[..k] == PathKey(s1)[..k];
    assert s2[..k] == Dir(s2)[..k] == PathKey(s2)[..k];
    LexAt(s1, s2, k);
    LexAt(PathKey(s1), PathKey(s2), k);
  }

  /** A line without slashes cannot agree with a path up to and including a slash. */
  lemma NoCommonSlash(s: seq<int>, t: seq<int>, d: nat, k: nat)
    requires d < |s| && d < k && d < |t| && s[d] != t[d]
    ensures k <= |s| && k <= |t| ==> s[..k] != t[..k]
    ensures !(s <= t) && !(t <= s)
  {
    if k <= |s| && k <= |t| {
      assert s[..k][d] == s[d] && t[..k][d] == t[d];
    }
  }

  /** Where a line without slashes and a path part: before the path's last slash. */
  lemma PartBeforeSlash(s: Line, t: Line) returns (k: nat)
    requires SLASH !in s && SLASH in t
    ensures k <= |s| && k < |Dir(t)| && s[..k] == Dir(t)[..k]
    ensures k == |s| || s[k] != Dir(t)[k]
  {
    var d := |Dir(t)| - 1;
    assert Dir(t)[d] == SLASH;
    if |s| > d {
      NoCommonSlash(s, Dir(t), d, d + 1);
      k := FirstDifference(s, Dir(t));
    } else if s <= Dir(t) {
      k := |s|;
    } else {
      k := FirstDifference(s, Dir(t));
    }
  }

  /** A line without slashes against a path: they are in key order. */
  lemma BareAgainstPath(s: Line, t: Line)
    requires SLASH !in s && SLASH in t
    ensures Lex(s, t) == Lex(s, PathKey(t)) != 0
  {
    DirAndFile(t);
    var k := PartBeforeSlash(s, t);
    assert t[..k] == Dir(t)[..k] == PathKey(t)[..k];
    assert t[k] == Dir(t)[k] == PathKey(t)[k];
    if k == |s| {
      LexPrefix(s, t);
      LexPrefix(s, PathKey(t));
    } else {
      LexAt(s, t, k);
      LexAt(s, PathKey(t), k);
    }
  }

  /** The directory of a path is not properly above a line without slashes; the line taken
      as a directory is above the path's, or is it, only if it begins the path. */
  lemma BareDirectories(s: Line, t: Line)
    requires SLASH !in s && SLASH in t
    ensures !(Dir(t) < Dir(s))
    ensures Dir(s) <= Dir(t) ==> Lex(s, t) == -1
  {
    DirAndFile(t);
    var d := |Dir(t)| - 1;
    assert Dir(t)[d] == SLASH;
    if d < |s| {
      NoCommonSlash(Dir(t), Dir(s), d, d + 1);
    }
    if Dir(s) <= Dir(t) {
      assert s == Dir(s)[..|s|] == Dir(t)[..|s|] == t[..|s|];
      LexPrefix(s, t);
    }
  }

  /** On paths the comparator is lexicographic order on keys. */
  lemma PathsAgree(line1: Line, line2: Line)
    requires line1 != [] && line2 != []
    requires SLASH in RemovePrefix(line1) && SLASH in RemovePrefix(line2)
    ensures Compare(line1, line2) == Lex(PathKey(RemovePrefix(line1)), PathKey(RemovePrefix(line2)))
  {
    var s1, s2 := RemovePrefix(line1), RemovePrefix(line2);
    if Dir(s1) == Dir(s2) {
      SameDirectory(s1, s2);
    } else if Dir(s2) <= Dir(s1) {
      SubDirectory(s1, s2);
    } else if Dir(s1) <= Dir(s2) {
      SubDirectory(s2, s1);
      LexSwap(PathKey(s1), PathKey(s2));
    } else {
      OtherDirectory(s1, s2);
    }
  }

  /** Between a line without slashes and a path it is too, but for the deep paths, which
      it puts the wrong way round. */
  lemma BareAgrees(line1: Line, line2: Line)
    requires line1 != [] && line2 != []
    requires SLASH !in RemovePrefix(line1) && SLASH in RemovePrefix(line2)
    ensures var l := Lex(PathKey(RemovePrefix(line1)), PathKey(RemovePrefix(line2)));
      && Compare(line1, line2) == (if DeepUnder(line1, line2) then 1 else l)
      && Compare(line2, line1) == (if DeepUnder(line1, line2) then -1 else -l)
      && (DeepUnder(line1, line2) ==> l == -1)
  {
    var s, t := RemovePrefix(line1), RemovePrefix(line2);
    BareAgainstPath(s, t);
    BareDirectories(s, t);
    LexSwap(s, t);
  }

  /** The comparator is lexicographic order on keys exactly if neither line, without
      slashes, has the other deep under it. */
  lemma CompareIsKeyOrderIff(line1: Line, line2: Line)
    ensures Compare(line1, line2) == Lex(Key(line1), Key(line2))
      <==> !DeepUnder(line1, line2) && !DeepUnder(line2, line1)
  {
    var s1, s2 := RemovePrefix(line1), RemovePrefix(line2);
    if line1 != [] && line2 != [] {
      LexAppend([0], PathKey(s1), PathKey(s2));
      if SLASH in s1 && SLASH in s2 {
        PathsAgree(line1, line2);
      } else if SLASH in s2 {
        BareAgrees(line1, line2);
      } else if SLASH in s1 {
        BareAgrees(line2, line1);
        LexSwap(PathKey(s1), PathKey(s2));
      }
    }
  }
}
