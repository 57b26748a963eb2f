/** The comparator told from the text of the lines alone. */
module PathText {
  import opened PathOrder

  /** What the line is compared by: itself, but for one '-' in front of it. */
  predicate Reads(line: Line, s: Line) {
    line == [DASH] + s || (line == s && s != [] && s[0] != DASH)
  }

  /** Where it is: what there is up to the last slash, or all of it as a directory. */
  predicate IsDir(s: Line, d: Line) {
    if SLASH in s then d <= s && d != [] && d[|d| - 1] == SLASH && SLASH !in s[|d|..] else d == s + [SLASH]
  }

  /** Every line is read in one way, and is in one place. */
  lemma ReadOneWay(line: Line) returns (s: Line, d: Line)
    requires line != []
    ensures Reads(line, s) && IsDir(s, d)
    ensures forall t :: Reads(line, t) <==> t == s
    ensures forall c :: IsDir(s, c) <==> c == d
  {
    s, d := RemovePrefix(line), Dir(RemovePrefix(line));
    ReadsIff(line, s);
    forall t
      ensures Reads(line, t) <==> t == s
    {
      ReadsIff(line, t);
    }
    forall c
      ensures IsDir(s, c) <==> c == d
    {
      IsDirIff(s, c);
    }
  }

  lemma ReadsIff(line: Line, s: Line)
    requires line != []
    ensures Reads(line, s) <==> s == RemovePrefix(line)
  {
    if line[0] == DASH {
      assert line == [DASH] + line[1..];
      assert line == [DASH] + s ==> s == line[1..];
    }
  }

  lemma IsDirIff(s: Line, d: Line)
    ensures IsDir(s, d) <==> d == Dir(s)
  {
    if SLASH in s {
      DirAndFile(s);
      var e := Dir(s);
      assert s[|e|..] == File(s);
      LastSlash(s, e);
      if IsDir(s, d) {
        LastSlash(s, d);
        assert d == s[..|d|] && e == s[..|e|];
      }
    }
  }

  lemma LastSlash(s: Line, d: Line)
    requires SLASH in s && IsDir(s, d)
    ensures s[|d| - 1] == SLASH && forall i :: |d| <= i < |s| ==> s[i] != SLASH
  {
    assert s[|d| - 1] == d[|d| - 1];
    forall i | |d| <= i < |s|
      ensures s[i] != SLASH
    {
      assert s[|d|..][i - |d|] == s[i];
    }
  }

  /** The comparator: lines are in the order of their text, unless one is in a directory
      below the other's, which comes first; an empty line comes before all. */
  lemma CompareByText(a: Line, s: Line, d: Line, b: Line, t: Line, e: Line)
    requires Reads(a, s) && IsDir(s, d) && Reads(b, t) && IsDir(t, e)
    ensures Compare(a, b) ==
      if (SLASH in s || SLASH in t) && e < d then -1
      else if (SLASH in s || SLASH in t) && d < e then 1
      else Lex(s, t)
    ensures Compare([], a) == -1 && Compare(a, []) == 1 && Compare([], []) == 0
  {
    ReadsIff(a, s);
    ReadsIff(b, t);
    IsDirIff(s, d);
    IsDirIff(t, e);
  }

  /** A '-' in front makes no difference, but to a line that has one already. */
  lemma DashIsIgnored(s: Line, t: Line)
    requires s != [] && s[0] != DASH
    ensures Compare([DASH] + s, t) == Compare(s, t) && Compare(t, [DASH] + s) == Compare(t, s)
  {
    assert ([DASH] + s)[1..] == s;
  }

  /** Which it does not ignore: "-v/b" comes after "v/a", "--v/b" before. */
  lemma SecondDashCounts()
    ensures var b: Line := [0x76, SLASH, 0x62]; var a: Line := [0x76, SLASH, 0x61];
      Compare([DASH] + b, a) == 1 && Compare([DASH, DASH] + b, a) == -1
  {
    var b: Line, a: Line := [0x76, SLASH, 0x62], [0x76, SLASH, 0x61];
    var d: Line := [0x76, SLASH];
    var deeper: Line := [DASH, 0x76, SLASH];
    assert [DASH, DASH] + b == [DASH] + ([DASH] + b) && b == d + [0x62] && a == d + [0x61];
    assert b[2..] == [0x62] && a[2..] == [0x61] && ([DASH] + b)[3..] == [0x62];
    assert IsDir(b, d) && IsDir(a, d) && IsDir([DASH] + b, deeper);
    CompareByText([DASH] + b, b, d, a, a, d);
    CompareByText([DASH, DASH] + b, [DASH] + b, deeper, a, a, d);
    LexAt(b, a, 2);
    LexAt([DASH] + b, a, 0);
  }
}
