/** Blacklisted satellites as masks, one per constellation, and as lists of satellites. */
module SvMask {
  import opened Wrappers
  import opened Bits

  datatype Constellation = Unknown | Gps | Sbas | Glonass | Qzss | Beidou | Galileo | Navic

  /** svId 0 stands for all satellites of the constellation. */
  datatype Source = Source(constellation: Constellation, svId: nat)

  datatype Config = Config(glo: Mask, bds: Mask, qzss: Mask, gal: Mask, sbas: Mask, navic: Mask)

  const NONE := Config(0, 0, 0, 0, 0, 0)

  const GLO_INITIAL: nat := 65
  const BDS_INITIAL: nat := 201
  const QZSS_INITIAL: nat := 193
  const GAL_INITIAL: nat := 301
  const SBAS_INITIAL: nat := 120
  const SBAS_LENGTH: nat := 39
  const SBAS_INITIAL2: nat := 183
  const NAVIC_INITIAL: nat := 401

  function MaskOf(c: Config, k: Constellation): Mask {
    match k
    case Glonass => c.glo
    case Beidou => c.bds
    case Qzss => c.qzss
    case Galileo => c.gal
    case Sbas => c.sbas
    case Navic => c.navic
    case _ => 0
  }

  function WithMask(c: Config, k: Constellation, m: Mask): Config {
    match k
    case Glonass => c.(glo := m)
    case Beidou => c.(bds := m)
    case Qzss => c.(qzss := m)
    case Galileo => c.(gal := m)
    case Sbas => c.(sbas := m)
    case Navic => c.(navic := m)
    case _ => c
  }

  predicate Masked(k: Constellation) {
    k != Unknown && k != Gps
  }

  // ------------------------------------------------------------------ list to mask

  /** Where the ids of a source's range start, and at which bit; None for a bad id. */
  datatype Range = Range(initial: nat, offset: nat)

  function RangeOf(s: Source): Option<Range> {
    match s.constellation
    case Glonass => Some(Range(GLO_INITIAL, 0))
    case Beidou => Some(Range(BDS_INITIAL, 0))
    case Qzss => Some(Range(QZSS_INITIAL, 0))
    case Galileo => Some(Range(GAL_INITIAL, 0))
    case Navic => Some(Range(NAVIC_INITIAL, 0))
    case Sbas =>
      if s.svId == 0 then Some(Range(0, 0))
      else if s.svId >= SBAS_INITIAL2 then Some(Range(SBAS_INITIAL2, SBAS_LENGTH))
      else if SBAS_INITIAL <= s.svId < SBAS_INITIAL + SBAS_LENGTH then Some(Range(SBAS_INITIAL, 0))
      else None
    case _ => None
  }

  /** The shift that a source asks for is one that a 64-bit word has. */
  predicate InRange(s: Source) {
    s.constellation == Sbas ==> !(SBAS_INITIAL2 + WIDTH - SBAS_LENGTH <= s.svId < SBAS_INITIAL2 + WIDTH)
  }

  function Added(c: Config, s: Source): Config
    requires InRange(s)
  {
    match RangeOf(s)
    case None => c
    case Some(r) =>
      if s.svId == 0 then WithMask(c, s.constellation, ALL_ONES)
      else if s.svId < r.initial || s.svId >= r.initial + WIDTH then c
      else WithMask(c, s.constellation, WithBit(MaskOf(c, s.constellation), s.svId + r.offset - r.initial))
  }

  function WithBit(m: Mask, k: nat): Mask
    requires k < WIDTH
  {
    IsMask(m);
    PowFits(k, WIDTH);
    OrFits(m, Pow2(k), WIDTH);
    IsMask(Or(m, Pow2(k)));
    Or(m, Pow2(k))
  }

  function AddedAll(c: Config, sources: seq<Source>, n: nat): Config
    requires n <= |sources| && forall s :: s in sources ==> InRange(s)
  {
    if n == 0 then c else Added(AddedAll(c, sources, n - 1), sources[n - 1])
  }

  /** An empty list clears the masks, any other adds to them. */
  function ToConfig(c: Config, sources: seq<Source>): Config
    requires forall s :: s in sources ==> InRange(s)
  {
    if sources == [] then NONE else AddedAll(c, sources, |sources|)
  }

  // ------------------------------------------------------------------ mask to list

  function SvIdOf(k: Constellation, initial: nat, bit: nat): nat {
    if k == Sbas && bit >= SBAS_LENGTH then bit - SBAS_LENGTH + SBAS_INITIAL2 else bit + initial
  }

  /** The satellites of the bits of m, the lowest of which has this number. */
  function Listed(m: nat, bit: nat, initial: nat, k: Constellation): seq<Source> {
    if m == 0 then []
    else (if m % 2 == 1 then [Source(k, SvIdOf(k, initial, bit))] else []) + Listed(m / 2, bit + 1, initial, k)
  }

  function MaskToList(m: Mask, initial: nat, k: Constellation): seq<Source> {
    if m == ALL_ONES then [Source(k, 0)] else Listed(m, 0, initial, k)
  }

  /** The two ranges of SBAS, by the shifts that cut them out. */
  function SbasLow(m: Mask): Mask {
    LowFits(Double(m, WIDTH - SBAS_LENGTH), WIDTH);
    var up := Shl(m, WIDTH - SBAS_LENGTH);
    ShrFits(up, WIDTH - SBAS_LENGTH);
    Shr(up, WIDTH - SBAS_LENGTH)
  }

  function SbasHigh(m: Mask): Mask {
    IsMask(m);
    ShrFits(m, SBAS_LENGTH);
    Shr(m, SBAS_LENGTH)
  }

  lemma {:induction false} ShrFits(m: nat, k: nat)
    requires Fits(m, WIDTH)
    ensures Shr(m, k) < LIMIT
  {
    IsMask(m);
    if k > 0 {
      IsMask(m / 2);
      ShrFits(m / 2, k - 1);
    }
  }

  function SbasToList(m: Mask): seq<Source> {
    MaskToList(SbasLow(m), SBAS_INITIAL, Sbas) + MaskToList(SbasHigh(m), SBAS_INITIAL2, Sbas)
  }

  /** The part of the list for one constellation. */
  function ListFor(c: Config, k: Constellation): seq<Source> {
    if MaskOf(c, k) == 0 then []
    else
      match k
      case Beidou => MaskToList(c.bds, BDS_INITIAL, k)
      case Galileo => MaskToList(c.gal, GAL_INITIAL, k)
      case Glonass => MaskToList(c.glo, GLO_INITIAL, k)
      case Qzss => MaskToList(c.qzss, QZSS_INITIAL, k)
      case Sbas => SbasToList(c.sbas)
      case Navic => MaskToList(c.navic, NAVIC_INITIAL, k)
      case _ => []
  }

  function FromConfig(c: Config): seq<Source> {
    ListFor(c, Beidou) + ListFor(c, Galileo) + ListFor(c, Glonass) + ListFor(c, Qzss) + ListFor(c, Sbas)
    + ListFor(c, Navic)
  }

  // ------------------------------------------------------------------ what lists mean

  /** The bit that a satellite has in the mask of its constellation. */
  function BitOf(k: Constellation, svId: nat): Option<nat> {
    match k
    case Glonass => if 65 <= svId < 129 then Some(svId - 65) else None
    case Beidou => if 201 <= svId < 265 then Some(svId - 201) else None
    case Qzss => if 193 <= svId < 257 then Some(svId - 193) else None
    case Galileo => if 301 <= svId < 365 then Some(svId - 301) else None
    case Navic => if 401 <= svId < 465 then Some(svId - 401) else None
    case Sbas =>
      if 120 <= svId <= 158 then Some(svId - 120)
      else if 183 <= svId <= 207 then Some(svId - 183 + 39)
      else None
    case _ => None
  }

  predicate Blocks(s: Source, k: Constellation, bit: nat) {
    s.constellation == k && Masked(k) && (s.svId == 0 || BitOf(k, s.svId) == Some(bit))
  }

  lemma AddedBits(c: Config, s: Source, k: Constellation, bit: nat)
    requires InRange(s) && bit < WIDTH
    ensures Bit(MaskOf(Added(c, s), k), bit) <==> Bit(MaskOf(c, k), bit) || Blocks(s, k, bit)
  {
    hide Bit, Pow2, Or;
    AllOnesBits(bit);
    if s.svId != 0 && s.constellation == k {
      match BitOf(k, s.svId)
      case None =>
      case Some(b) =>
        OrBits(MaskOf(c, k), Pow2(b), bit);
        PowBits(b, bit);
    }
    NoBits(bit);
  }

  ghost predicate SomeBlocks(sources: seq<Source>, k: Constellation, bit: nat) {
    exists s :: s in sources && Blocks(s, k, bit)
  }

  lemma {:induction false} AddedAllBits(c: Config, sources: seq<Source>, n: nat, k: Constellation, bit: nat)
    requires n <= |sources| && (forall s :: s in sources ==> InRange(s)) && bit < WIDTH
    ensures Bit(MaskOf(AddedAll(c, sources, n), k), bit) <==> Bit(MaskOf(c, k), bit) || SomeBlocks(sources[..n], k, bit)
  {
    hide Bit, Added, Blocks;
    if n > 0 {
      AddedAllBits(c, sources, n - 1, k, bit);
      AddedBits(AddedAll(c, sources, n - 1), sources[n - 1], k, bit);
      assert sources[..n] == sources[..n - 1] + [sources[n - 1]];
    }
  }

  /** What the masks of a list are: a bit is set exactly if it was, or a source of the list
      blocks its satellite. */
  lemma ToConfigBits(c: Config, sources: seq<Source>, k: Constellation, bit: nat)
    requires sources != [] && (forall s :: s in sources ==> InRange(s)) && bit < WIDTH
    ensures Bit(MaskOf(ToConfig(c, sources), k), bit) <==> Bit(MaskOf(c, k), bit) || SomeBlocks(sources, k, bit)
  {
    assert sources[..|sources|] == sources;
    AddedAllBits(c, sources, |sources|, k, bit);
  }

  lemma SameMasks(a: Mask, b: Mask)
    requires forall i: nat :: i < WIDTH ==> (Bit(a, i) <==> Bit(b, i))
    ensures a == b
  {
    forall i: nat
      ensures Bit(a, i) <==> Bit(b, i)
    {
      if i >= WIDTH {
        MaskBits(a, i);
        MaskBits(b, i);
      }
    }
    SameBits(a, b);
  }

  lemma SameConfigs(a: Config, b: Config)
    requires forall k, i: nat :: i < WIDTH ==> (Bit(MaskOf(a, k), i) <==> Bit(MaskOf(b, k), i))
    ensures a == b
  {
    forall k: Constellation
      ensures MaskOf(a, k) == MaskOf(b, k)
    {
      SameMasks(MaskOf(a, k), MaskOf(b, k));
    }
    assert MaskOf(a, Glonass) == MaskOf(b, Glonass) && MaskOf(a, Beidou) == MaskOf(b, Beidou);
    assert MaskOf(a, Qzss) == MaskOf(b, Qzss) && MaskOf(a, Galileo) == MaskOf(b, Galileo);
    assert MaskOf(a, Sbas) == MaskOf(b, Sbas) && MaskOf(a, Navic) == MaskOf(b, Navic);
  }

  /** Neither the order of a list nor what is repeated in it matters. */
  lemma OrderDoesNotMatter(c: Config, a: seq<Source>, b: seq<Source>)
    requires forall s :: s in a <==> s in b
    requires forall s :: s in a ==> InRange(s)
    ensures ToConfig(c, a) == ToConfig(c, b)
  {
    hide ToConfig, Bit, Blocks;
    if a == [] || b == [] {
      BothEmpty(a, b);
    } else {
      forall k, i: nat | i < WIDTH
        ensures Bit(MaskOf(ToConfig(c, a), k), i) <==> Bit(MaskOf(ToConfig(c, b), k), i)
      {
        ToConfigBits(c, a, k, i);
        ToConfigBits(c, b, k, i);
      }
      SameConfigs(ToConfig(c, a), ToConfig(c, b));
    }
  }

  lemma BothEmpty(a: seq<Source>, b: seq<Source>)
    requires forall s :: s in a <==> s in b
    ensures a == [] <==> b == []
  {
    if a != [] {
      assert a[0] in b;
    }
    if b != [] {
      assert b[0] in a;
    }
  }

  // ------------------------------------------------------------------ round trip

  /** The source is the satellite of the j-th bit of m, the lowest bit having that number. */
  predicate Names(m: nat, bit: nat, initial: nat, k: Constellation, s: Source, j: nat) {
    Bit(m, j) && s == Source(k, SvIdOf(k, initial, bit + j))
  }

  lemma {:induction false} ListedHas(m: nat, bit: nat, initial: nat, k: Constellation, s: Source)
    ensures s in Listed(m, bit, initial, k) <==> exists j: nat :: Names(m, bit, initial, k, s, j)
  {
    if m == 0 {
      forall j: nat
        ensures !Bit(m, j)
      {
        NoBits(j);
      }
    } else {
      var half, next := m / 2, bit + 1;
      ListedHas(half, next, initial, k, s);
      if j: nat :| Names(half, next, initial, k, s, j) {
        assert Names(m, bit, initial, k, s, j + 1);
      }
      if j: nat :| Names(m, bit, initial, k, s, j) {
        assert j > 0 ==> Names(half, next, initial, k, s, j - 1);
      }
      if m % 2 == 1 {
        assert Names(m, bit, initial, k, Source(k, SvIdOf(k, initial, bit)), 0);
      }
    }
  }

  /** The list of a mask blocks exactly the satellites of its bits. */
  lemma MaskToListBlocks(m: Mask, initial: nat, k: Constellation, b: nat)
    requires b < WIDTH && Masked(k) && k != Sbas && BitOf(k, initial) == Some(0)
    ensures SomeBlocks(MaskToList(m, initial, k), k, b) <==> Bit(m, b)
  {
    var list := MaskToList(m, initial, k);
    if m == ALL_ONES {
      AllOnesBits(b);
      assert Source(k, 0) in list;
    } else {
      if Bit(m, b) {
        var s := Source(k, SvIdOf(k, initial, b));
        ListedHas(m, 0, initial, k, s);
        assert Names(m, 0, initial, k, s, b) && Blocks(s, k, b);
      }
      if s :| s in list && Blocks(s, k, b) {
        ListedHas(m, 0, initial, k, s);
      }
    }
  }

  lemma MaskToListMembers(m: Mask, initial: nat, k: Constellation)
    requires k != Sbas
    ensures forall s :: s in MaskToList(m, initial, k) ==> s.constellation == k && InRange(s)
  {
    if m != ALL_ONES {
      forall s | s in MaskToList(m, initial, k)
        ensures s.constellation == k
      {
        ListedHas(m, 0, initial, k, s);
      }
    }
  }

  /** The two shifts cut out the bits below 39, the one shift those from 39 on. */
  lemma SbasBits(m: Mask, j: nat)
    ensures Bit(SbasLow(m), j) <==> j < SBAS_LENGTH && Bit(m, j)
    ensures Bit(SbasHigh(m), j) <==> Bit(m, j + SBAS_LENGTH)
    ensures SbasLow(m) != ALL_ONES && SbasHigh(m) != ALL_ONES
  {
    hide Bit;
    SbasPart(m, j);
    SbasPart(m, WIDTH - 1);
    MaskBits(m, WIDTH - 1 + SBAS_LENGTH);
    AllOnesBits(WIDTH - 1);
  }

  lemma SbasPart(m: Mask, j: nat)
    ensures Bit(SbasLow(m), j) <==> j < SBAS_LENGTH && Bit(m, j)
    ensures Bit(SbasHigh(m), j) <==> Bit(m, j + SBAS_LENGTH)
  {
    hide Bit, Shl, Shr;
    ShrBits(Shl(m, WIDTH - SBAS_LENGTH), WIDTH - SBAS_LENGTH, j);
    ShlBits(m, WIDTH - SBAS_LENGTH, j + (WIDTH - SBAS_LENGTH));
    ShrBits(m, SBAS_LENGTH, j);
  }

  function SbasSource(j: nat): Source {
    Source(Sbas, if j < SBAS_LENGTH then j + SBAS_INITIAL else j - SBAS_LENGTH + SBAS_INITIAL2)
  }

  lemma SbasMembers(m: Mask, s: Source)
    ensures s in SbasToList(m) <==> exists j: nat :: j < WIDTH && Bit(m, j) && s == SbasSource(j)
  {
    hide Bit, SbasLow, SbasHigh, Listed;
    SbasBits(m, 0);
    var low, high := Listed(SbasLow(m), 0, SBAS_INITIAL, Sbas), Listed(SbasHigh(m), 0, SBAS_INITIAL2, Sbas);
    assert SbasToList(m) == low + high;
    ListedHas(SbasLow(m), 0, SBAS_INITIAL, Sbas, s);
    ListedHas(SbasHigh(m), 0, SBAS_INITIAL2, Sbas, s);
    if s in low {
      var j: nat :| Names(SbasLow(m), 0, SBAS_INITIAL, Sbas, s, j);
      SbasBits(m, j);
      assert s == SbasSource(j);
    }
    if s in high {
      var j: nat :| Names(SbasHigh(m), 0, SBAS_INITIAL2, Sbas, s, j);
      SbasBits(m, j);
      if j + SBAS_LENGTH >= WIDTH {
        MaskBits(m, j + SBAS_LENGTH);
      }
      assert s == SbasSource(j + SBAS_LENGTH);
    }
    if j: nat :| j < WIDTH && Bit(m, j) && s == SbasSource(j) {
      if j < SBAS_LENGTH {
        SbasBits(m, j);
        assert Names(SbasLow(m), 0, SBAS_INITIAL, Sbas, s, j);
      } else {
        SbasBits(m, j - SBAS_LENGTH);
        assert Names(SbasHigh(m), 0, SBAS_INITIAL2, Sbas, s, j - SBAS_LENGTH);
      }
    }
  }

  lemma SbasToListBlocks(m: Mask, b: nat)
    requires b < WIDTH
    ensures SomeBlocks(SbasToList(m), Sbas, b) <==> Bit(m, b)
  {
    hide Bit, SbasToList;
    assert BitOf(Sbas, SbasSource(b).svId) == Some(b);
    SbasMembers(m, SbasSource(b));
    if s :| s in SbasToList(m) && Blocks(s, Sbas, b) {
      SbasMembers(m, s);
    }
  }

  lemma ListForBlocks(c: Config, k: Constellation, b: nat)
    requires b < WIDTH
    ensures SomeBlocks(ListFor(c, k), k, b) <==> Bit(MaskOf(c, k), b)
    ensures forall s :: s in ListFor(c, k) ==> s.constellation == k && InRange(s)
  {
    hide Bit, MaskToList, SbasToList, Blocks;
    NoBits(b);
    if MaskOf(c, k) != 0 {
      match k
      case Beidou => MaskToListBlocks(c.bds, BDS_INITIAL, k, b); MaskToListMembers(c.bds, BDS_INITIAL, k);
      case Galileo => MaskToListBlocks(c.gal, GAL_INITIAL, k, b); MaskToListMembers(c.gal, GAL_INITIAL, k);
      case Glonass => MaskToListBlocks(c.glo, GLO_INITIAL, k, b); MaskToListMembers(c.glo, GLO_INITIAL, k);
      case Qzss => MaskToListBlocks(c.qzss, QZSS_INITIAL, k, b); MaskToListMembers(c.qzss, QZSS_INITIAL, k);
      case Navic => MaskToListBlocks(c.navic, NAVIC_INITIAL, k, b); MaskToListMembers(c.navic, NAVIC_INITIAL, k);
      case Sbas =>
        SbasToListBlocks(c.sbas, b);
        forall s | s in ListFor(c, k)
          ensures s.constellation == k && InRange(s)
        {
          SbasMembers(c.sbas, s);
        }
      case _ =>
    }
  }

  /** The list of a configuration blocks exactly the satellites of its bits. */
  lemma FromConfigBlocks(c: Config, k: Constellation, b: nat)
    requires b < WIDTH
    ensures SomeBlocks(FromConfig(c), k, b) <==> Bit(MaskOf(c, k), b)
    ensures forall s :: s in FromConfig(c) ==> InRange(s)
  {
    hide Bit, ListFor;
    forall j
      ensures SomeBlocks(ListFor(c, j), j, b) <==> Bit(MaskOf(c, j), b)
      ensures forall s :: s in ListFor(c, j) ==> s.constellation == j && InRange(s)
      ensures forall s :: s in ListFor(c, j) ==> s in FromConfig(c)
    {
      ListForBlocks(c, j, b);
      ListForPart(c, j);
    }
    assert forall s :: s in FromConfig(c) ==> s in ListFor(c, s.constellation);
  }

  lemma ListForPart(c: Config, k: Constellation)
    ensures forall s :: s in ListFor(c, k) ==> s in FromConfig(c)
  {
  }

  /** Every configuration comes back from its list: all masks of all six constellations,
      SBAS in its two ranges, and the mask of all ones in its short form. */
  lemma RoundTrip(c: Config)
    ensures forall s :: s in FromConfig(c) ==> InRange(s)
    ensures ToConfig(NONE, FromConfig(c)) == c
  {
    hide Bit, FromConfig, ToConfig, Blocks;
    FromConfigBlocks(c, Glonass, 0);
    var list := FromConfig(c);
    var back := ToConfig(NONE, list);
    forall k, i: nat | i < WIDTH
      ensures Bit(MaskOf(back, k), i) <==> Bit(MaskOf(c, k), i)
    {
      FromConfigBlocks(c, k, i);
      NoBits(i);
      if list != [] {
        ToConfigBits(NONE, list, k, i);
      } else {
        EmptyClears(list);
      }
    }
    SameConfigs(back, c);
  }

  lemma EmptyClears(list: seq<Source>)
    requires list == []
    ensures ToConfig(NONE, list) == NONE
  {
  }

  // ------------------------------------------------------------------ the loops

  /** config is updated in place; valid tells whether there is anything in it, or it has
      been cleared. */
  method ConvertToGnssSvIdConfig(sources: seq<Source>, before: Config) returns (config: Config, valid: bool)
    requires forall s :: s in sources ==> InRange(s)
    ensures config == ToConfig(before, sources)
    ensures valid <==> sources == [] || config != NONE
  {
    config := before;
    if |sources| == 0 {
      config, valid := NONE, true;
    } else {
      for i := 0 to |sources|
        invariant config == AddedAll(before, sources, i)
      {
        config := Added(config, sources[i]);
      }
      valid := config.glo != 0 || config.bds != 0 || config.gal != 0 || config.qzss != 0 || config.sbas != 0
        || config.navic != 0;
    }
  }

  method ConvertGnssSvIdMaskToList(svIdMask: Mask, initial: nat, k: Constellation) returns (list: seq<Source>)
    ensures list == MaskToList(svIdMask, initial, k)
  {
    if svIdMask == ALL_ONES {
      return [Source(k, 0)];
    }
    hide SvIdOf;
    list := [];
    var m, bit := svIdMask, 0;
    while m > 0
      invariant m >= 0
      invariant Listed(svIdMask, 0, initial, k) == list + Listed(m, bit, initial, k)
      decreases m
    {
      ghost var rest := Listed(m / 2, bit + 1, initial, k);
      if m % 2 == 1 {
        var source := Source(k, SvIdOf(k, initial, bit));
        assert list + ([source] + rest) == (list + [source]) + rest;
        list := list + [source];
      } else {
        assert [] + rest == rest;
      }
      bit := bit + 1;
      m := m / 2;
    }
  }
}
