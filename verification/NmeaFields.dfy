/** Taking a debug sentence apart into its fields, and the parser with the most of them. */
module NmeaFields {
  function IndexOf(s: string, c: char): (i: nat)
    ensures i <= |s| && c !in s[..i] && (i < |s| ==> s[i] == c)
  {
    if s == "" || s[0] == c then 0
    else
      assert s[..1 + IndexOf(s[1..], c)] == [s[0]] + s[1..][..IndexOf(s[1..], c)];
      1 + IndexOf(s[1..], c)
  }

  /** What is before each comma, from the last one on. */
  function Tokens(s: string): seq<string>
    decreases |s|
  {
    var i := IndexOf(s, ',');
    if i == |s| then [] else [s[..i]] + Tokens(s[i + 1..])
  }

  /** What is after the last comma. */
  function Rest(s: string): string
    decreases |s|
  {
    var i := IndexOf(s, ',');
    if i == |s| then s else Rest(s[i + 1..])
  }

  /** The checksum's mark counts as a comma; a sentence without one has no fields. */
  function Fields(s: string, isDebug: bool): seq<string> {
    var i := IndexOf(s, '*');
    if !isDebug || i == |s| then [] else Tokens(s[i := ','])
  }

  method Tokenize(s: string, isDebug: bool) returns (fields: seq<string>)
    ensures fields == Fields(s, isDebug)
  {
    fields := [];
    if !isDebug {
      return;
    }
    var parser := s;
    var index := IndexOf(parser, '*');
    if index == |parser| {
      return;
    }
    parser := parser[index := ','];
    ghost var all := Tokens(parser);
    index := IndexOf(parser, ',');
    while index < |parser|
      invariant index == IndexOf(parser, ',')
      invariant all == fields + Tokens(parser)
      decreases |parser|
    {
      ghost var rest := Tokens(parser[index + 1..]);
      assert fields + ([parser[..index]] + rest) == (fields + [parser[..index]]) + rest;
      fields := fields + [parser[..index]];
      parser := parser[index + 1..];
      index := IndexOf(parser, ',');
    }
  }

  // ------------------------------------------------------------------ what the fields are

  /** The fields with a comma after each. */
  function Terminated(fields: seq<string>): string {
    if fields == [] then "" else fields[0] + "," + Terminated(fields[1..])
  }

  ghost predicate NoCommas(fields: seq<string>) {
    forall f :: f in fields ==> ',' !in f
  }

  lemma {:induction false} TokensText(s: string)
    ensures s == Terminated(Tokens(s)) + Rest(s)
    decreases |s|
  {
    hide Terminated, IndexOf;
    var i := IndexOf(s, ',');
    assert i == |s| ==> Tokens(s) == [] && Rest(s) == s;
    TerminatedNone(s);
    if i < |s| {
      var f, t := s[..i], s[i + 1..];
      assert s == f + "," + t;
      TokensText(t);
      TerminatedCons(f, Tokens(t), Rest(t));
    }
  }

  lemma TerminatedNone(s: string)
    ensures Terminated([]) + s == s
  {
  }

  lemma TerminatedCons(f: string, fields: seq<string>, rest: string)
    ensures Terminated([f] + fields) + rest == f + "," + (Terminated(fields) + rest)
  {
    assert ([f] + fields)[1..] == fields;
  }

  lemma {:induction false} TokensHaveNoCommas(s: string)
    ensures NoCommas(Tokens(s)) && ',' !in Rest(s)
    decreases |s|
  {
    var i := IndexOf(s, ',');
    if i < |s| {
      TokensHaveNoCommas(s[i + 1..]);
    } else {
      assert s[..i] == s;
    }
  }

  /** Nothing of the text is lost, and no field has a comma. */
  lemma TokensFacts(s: string)
    ensures s == Terminated(Tokens(s)) + Rest(s)
    ensures NoCommas(Tokens(s)) && ',' !in Rest(s)
  {
    TokensText(s);
    TokensHaveNoCommas(s);
  }

  lemma {:induction false} IndexIn(s: string, f: string, c: char, t: string)
    requires s == f + [c] + t && c !in f
    ensures IndexOf(s, c) == |f|
  {
    if f != [] {
      assert f == [f[0]] + f[1..] && s[1..] == f[1..] + [c] + t;
      IndexIn(s[1..], f[1..], c, t);
    }
  }

  /** Conversely, any fields without commas are what their own text is taken apart into. */
  lemma {:induction false} TokensOfTerminated(fields: seq<string>, rest: string)
    requires NoCommas(fields) && ',' !in rest
    ensures Tokens(Terminated(fields) + rest) == fields && Rest(Terminated(fields) + rest) == rest
  {
    var s := Terminated(fields) + rest;
    if fields == [] {
      assert s == rest;
    } else {
      var f, t := fields[0], Terminated(fields[1..]) + rest;
      assert s == f + "," + t;
      IndexIn(s, f, ',', t);
      assert s[|f| + 1..] == t && s[..|f|] == f;
      TokensOfTerminated(fields[1..], rest);
    }
  }

  /** The fields of a sentence are all there is up to its last comma, the first '*' being
      one; no field has a comma. */
  lemma FieldsAreTheText(before: string, after: string)
    requires '*' !in before
    ensures var s := before + "*" + after;
      && NoCommas(Fields(s, true))
      && Terminated(Fields(s, true)) + Rest(before + "," + after) == before + "," + after
  {
    var s := before + "*" + after;
    IndexIn(s, before, '*', after);
    assert s[|before| := ','] == before + "," + after;
    TokensFacts(before + "," + after);
  }

  /** With no comma after the '*', they are exactly what was put together with commas
      before it. */
  lemma FieldsRoundTrip(fields: seq<string>, after: string)
    requires fields != [] && NoCommas(fields) && ',' !in after
    requires forall f :: f in fields ==> '*' !in f
    ensures Fields(Joined(fields) + "*" + after, true) == fields
  {
    var before := Joined(fields);
    JoinedHasNoStar(fields);
    var s := before + "*" + after;
    IndexIn(s, before, '*', after);
    JoinedTerminated(fields);
    assert s[|before| := ','] == Terminated(fields) + after;
    TokensOfTerminated(fields, after);
  }

  /** The fields with a comma between any two. */
  function Joined(fields: seq<string>): string
    requires fields != []
  {
    if |fields| == 1 then fields[0] else fields[0] + "," + Joined(fields[1..])
  }

  lemma {:induction false} JoinedTerminated(fields: seq<string>)
    requires fields != []
    ensures Joined(fields) + "," == Terminated(fields)
  {
    if |fields| > 1 {
      JoinedTerminated(fields[1..]);
    } else {
      assert fields[1..] == [];
    }
  }

  lemma {:induction false} JoinedHasNoStar(fields: seq<string>)
    requires fields != [] && forall f :: f in fields ==> '*' !in f
    ensures '*' !in Joined(fields)
  {
    if |fields| > 1 {
      JoinedHasNoStar(fields[1..]);
    }
  }

  // ------------------------------------------------------------------ PQWP7

  const SV_ALL_NUM_MIN: nat := 134
  const SV_ALL_NUM: nat := 148

  datatype Nav = Nav(kind: string, source: string, ageSec: string)

  const NO_NAV := Nav("", "", "")

  /** One entry per satellite, those that the sentence has no fields for being empty; None
      for a sentence too short. */
  method ParsePqwp7(fields: seq<string>) returns (valid: bool, nav: seq<Nav>)
    ensures valid <==> |fields| >= 2 + 3 * SV_ALL_NUM_MIN
    ensures |nav| == SV_ALL_NUM
    ensures forall i :: 0 <= i < SV_ALL_NUM ==>
      nav[i] == if !valid || (i >= SV_ALL_NUM_MIN && |fields| < 2 + 3 * SV_ALL_NUM) then NO_NAV
                else Nav(fields[3 * i + 2], fields[3 * i + 3], fields[3 * i + 4])
  {
    nav := seq(SV_ALL_NUM, _ => NO_NAV);
    if |fields| < 2 + 3 * SV_ALL_NUM_MIN {
      return false, nav;
    }
    valid := true;
    var svLimit := if |fields| < 2 + 3 * SV_ALL_NUM then SV_ALL_NUM_MIN else SV_ALL_NUM;
    for i := 0 to svLimit
      invariant |nav| == SV_ALL_NUM
      invariant forall k :: 0 <= k < i ==> nav[k] == Nav(fields[3 * k + 2], fields[3 * k + 3], fields[3 * k + 4])
      invariant forall k :: i <= k < SV_ALL_NUM ==> nav[k] == NO_NAV
    {
      nav := nav[i := Nav(fields[i * 3 + 2], fields[i * 3 + 3], fields[i * 3 + 4])];
    }
  }
}
