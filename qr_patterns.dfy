/**
 * The function patterns that src/qrcode.rs paints into the module matrix, each stated as a pure
 * function from the matrix before the painter to the matrix after it, module by module: finder
 * patterns, separators, alignment patterns, timing patterns, the dark module, the format strips and
 * the version blocks, and their composition in `all_functional_patterns`.
 */
module QrPatterns {
  import opened Wrappers
  import opened QrGrid
  import opened Ec
  import opened QrTables

  /** The distance from `c` to `a` on one axis. */
  function Distance(a: nat, c: nat): nat
  {
    if a < c then c - a else a - c
  }

  /** The ring of (dx, dy) around (c, c): the larger of the two axis distances. */
  function Ring(dx: nat, dy: nat, c: nat): nat
  {
    var a := Distance(dx, c);
    var b := Distance(dy, c);
    if a < b then b else a
  }

  /** The finder pattern module at column `dx` and row `dy`, described by its rings. */
  function FinderReference(dx: nat, dy: nat): Bit
  {
    if Ring(dx, dy, 3) == 2 then Zero(true) else One(true)
  }

  /** The finder pattern is a dark ring 3, a light ring 2 and a dark 3 x 3 core, all functional. */
  lemma FinderPatternIsConcentric()
    ensures |FINDER_PATTERN| == 49
    ensures forall dx: nat, dy: nat | dx < 7 && dy < 7 :: FINDER_PATTERN[dx + 7 * dy] == FinderReference(dx, dy)
  {
    forall dx: nat, dy: nat | dx < 7 && dy < 7
      ensures FINDER_PATTERN[dx + 7 * dy] == FinderReference(dx, dy)
    {
      assert dx == 0 || dx == 1 || dx == 2 || dx == 3 || dx == 4 || dx == 5 || dx == 6;
      assert dy == 0 || dy == 1 || dy == 2 || dy == 3 || dy == 4 || dy == 5 || dy == 6;
    }
  }

  /** The alignment pattern module at column `dx` and row `dy`, described by its rings. */
  function AlignmentReference(dx: nat, dy: nat): Bit
  {
    if Ring(dx, dy, 2) == 1 then Zero(true) else One(true)
  }

  /** The alignment pattern is a dark ring 2, a light ring 1 and a dark centre, all functional. */
  lemma AlignmentPatternIsConcentric()
    ensures |ALIGNMENT_PATTERN| == 25
    ensures forall dx: nat, dy: nat | dx < 5 && dy < 5 :: ALIGNMENT_PATTERN[dx + 5 * dy] == AlignmentReference(dx, dy)
  {
    forall dx: nat, dy: nat | dx < 5 && dy < 5
      ensures ALIGNMENT_PATTERN[dx + 5 * dy] == AlignmentReference(dx, dy)
    {
      assert dx == 0 || dx == 1 || dx == 2 || dx == 3 || dx == 4;
      assert dy == 0 || dy == 1 || dy == 2 || dy == 3 || dy == 4;
    }
  }

  // ---------------------------------------------------------------------------------------------
  // Finder patterns and separators (src/qrcode.rs:80-169)

  /** The top-left corners of the three finder patterns. */
  function FinderCorners(size: nat): seq<(nat, nat)>
    requires size >= 7
  {
    [(0, 0), (size - 7, 0), (0, size - 7)]
  }

  /** The finder pattern module that covers (x, y), if (x, y) lies in one of the three squares. */
  function FinderAt(size: nat, x: nat, y: nat): Option<Bit>
    requires size >= 7
  {
    if InRect(0, 0, 7, 7, x, y) then Some(FINDER_PATTERN[x + 7 * y])
    else if InRect(size - 7, 0, 7, 7, x, y) then Some(FINDER_PATTERN[(x - (size - 7)) + 7 * y])
    else if InRect(0, size - 7, 7, 7, x, y) then Some(FINDER_PATTERN[x + 7 * (y - (size - 7))])
    else None
  }

  /** A module painted by `covered` when it says so, the old module otherwise. */
  function Overlay(data: seq<Bit>, size: nat, covered: Option<Bit>, x: nat, y: nat): Bit
  {
    if covered.Some? then covered.value else At(data, size, x, y)
  }

  /** The matrix after `finder_patterns`. */
  function FinderPatterns(data: seq<Bit>, size: nat): seq<Bit>
    requires size >= 7
  {
    Tabulate(size, (x: nat, y: nat) => Overlay(data, size, FinderAt(size, x, y), x, y))
  }

  lemma FinderPatternsAt(data: seq<Bit>, size: nat, x: nat, y: nat)
    requires size >= 7 && x < size && y < size
    ensures At(FinderPatterns(data, size), size, x, y) == Overlay(data, size, FinderAt(size, x, y), x, y)
  {
    TabulateAt(size, (x: nat, y: nat) => Overlay(data, size, FinderAt(size, x, y), x, y), x, y);
  }

  /** The separator strips: a column of 8 and a row of 7 light modules beside each finder. */
  predicate OnSeparator(size: nat, x: nat, y: nat)
    requires size >= 8
  {
    InRect(7, 0, 1, 8, x, y) || InRect(size - 8, 0, 1, 8, x, y) || InRect(7, size - 8, 1, 8, x, y)
    || InRect(0, 7, 7, 1, x, y) || InRect(size - 7, 7, 7, 1, x, y) || InRect(0, size - 8, 7, 1, x, y)
  }

  /** The matrix after `separators_patterns`. */
  function Separators(data: seq<Bit>, size: nat): seq<Bit>
    requires size >= 8
  {
    Tabulate(size, (x: nat, y: nat) => if OnSeparator(size, x, y) then Zero(true) else At(data, size, x, y))
  }

  lemma SeparatorsAt(data: seq<Bit>, size: nat, x: nat, y: nat)
    requires size >= 8 && x < size && y < size
    ensures At(Separators(data, size), size, x, y)
         == if OnSeparator(size, x, y) then Zero(true) else At(data, size, x, y)
  {
    TabulateAt(size, (x: nat, y: nat) => if OnSeparator(size, x, y) then Zero(true) else At(data, size, x, y), x, y);
  }

  // ---------------------------------------------------------------------------------------------
  // Alignment patterns (src/qrcode.rs:171-281)

  /** The pairs `elem1, elem2` of `combination`, for the first elements in `outer`. */
  function PairsOf(outer: seq<nat>, inner: seq<nat>): seq<(nat, nat)>
  {
    if |outer| == 0 then []
    else PairsOf(outer[..|outer| - 1], inner) + seq(|inner|, j requires 0 <= j < |inner| => (outer[|outer| - 1], inner[j]))
  }

  /** The result of `combination(coords)`: every ordered pair of entries. */
  function Pairs(coords: seq<nat>): seq<(nat, nat)>
  {
    PairsOf(coords, coords)
  }

  /** Pair `j + |inner| * i` of `PairsOf(outer, inner)` is (outer[i], inner[j]): outer element first, rows in order. */
  lemma {:induction false} PairsOfAt(outer: seq<nat>, inner: seq<nat>, i: nat, j: nat)
    requires i < |outer| && j < |inner|
    ensures |PairsOf(outer, inner)| == |inner| * |outer|
    ensures j + |inner| * i < |PairsOf(outer, inner)|
    ensures PairsOf(outer, inner)[j + |inner| * i] == (outer[i], inner[j])
  {
    var n := |outer| - 1;
    var front := PairsOf(outer[..n], inner);
    PairsOfLength(outer[..n], inner);
    RowStep(n, |inner|);
    if i < n {
      PairsOfAt(outer[..n], inner, i, j);
    } else {
      assert j + |inner| * i == |front| + j;
    }
  }

  lemma {:induction false} PairsOfLength(outer: seq<nat>, inner: seq<nat>)
    ensures |PairsOf(outer, inner)| == |inner| * |outer|
  {
    if |outer| > 0 {
      PairsOfLength(outer[..|outer| - 1], inner);
      RowStep(|outer| - 1, |inner|);
    }
  }

  /** A pair occurs in `PairsOf(outer, inner)` exactly when its parts occur in `outer` and `inner`. */
  lemma {:induction false} PairsOfMembers(outer: seq<nat>, inner: seq<nat>, p: (nat, nat))
    ensures p in PairsOf(outer, inner) <==> p.0 in outer && p.1 in inner
  {
    if |outer| > 0 {
      var n := |outer| - 1;
      PairsOfMembers(outer[..n], inner, p);
      assert outer == outer[..n] + [outer[n]];
      if p.0 == outer[n] && p.1 in inner {
        var j :| 0 <= j < |inner| && inner[j] == p.1;
        assert PairsOf(outer, inner)[|PairsOf(outer[..n], inner)| + j] == p;
      }
    }
  }

  /** The 5 x 5 alignment pattern module that covers (x, y) when the pattern is centred on (cx, cy). */
  function AlignmentAt(cx: nat, cy: nat, x: nat, y: nat): Option<Bit>
    requires cx >= 2 && cy >= 2
  {
    if InRect(cx - 2, cy - 2, 5, 5, x, y) then Some(ALIGNMENT_PATTERN[(x - (cx - 2)) + 5 * (y - (cy - 2))]) else None
  }

  /** A centre `draw_alignment_pattern` can take: `x - 2` does not underflow and `get(x, y)` is in bounds. */
  predicate CentreInRange(size: nat, centre: (nat, nat))
  {
    2 <= centre.0 < size && 2 <= centre.1 < size
  }

  /** The matrix after `draw_alignment_pattern(cx, cy)`: untouched if the centre is functional. */
  function DrawAlignment(data: seq<Bit>, size: nat, cx: nat, cy: nat): (r: seq<Bit>)
    requires |data| == size * size && CentreInRange(size, (cx, cy))
    ensures |r| == |data|
  {
    if At(data, size, cx, cy).functional then data
    else Tabulate(size, (x: nat, y: nat) => Overlay(data, size, AlignmentAt(cx, cy, x, y), x, y))
  }

  lemma DrawAlignmentAt(data: seq<Bit>, size: nat, cx: nat, cy: nat, x: nat, y: nat)
    requires |data| == size * size && CentreInRange(size, (cx, cy)) && x < size && y < size
    ensures !At(data, size, cx, cy).functional ==>
      At(DrawAlignment(data, size, cx, cy), size, x, y) == Overlay(data, size, AlignmentAt(cx, cy, x, y), x, y)
  {
    if !At(data, size, cx, cy).functional {
      TabulateAt(size, (x: nat, y: nat) => Overlay(data, size, AlignmentAt(cx, cy, x, y), x, y), x, y);
    }
  }

  /** The matrix after drawing the alignment patterns centred on `centres`, in order. */
  function DrawAll(data: seq<Bit>, size: nat, centres: seq<(nat, nat)>): (r: seq<Bit>)
    requires |data| == size * size
    requires forall k | 0 <= k < |centres| :: CentreInRange(size, centres[k])
    ensures |r| == |data|
  {
    if |centres| == 0 then data
    else
      var last := centres[|centres| - 1];
      DrawAlignment(DrawAll(data, size, centres[..|centres| - 1]), size, last.0, last.1)
  }

  /** The centres `alignment_patterns` visits: (18, 18) for version 1, otherwise `combination(COORDS[version - 2])`. */
  function AlignmentCentres(version: nat): (r: seq<(nat, nat)>)
    requires 1 <= version <= 40
    ensures forall k | 0 <= k < |r| :: CentreInRange(SizeFromVersion(version), r[k])
  {
    if version == 1 then [(18, 18)]
    else
      var coords := AlignmentCoords(version - 2);
      AlignmentCoordsShape(version);
      CentresOfPairsInRange(version, coords);
      Pairs(coords)
  }

  lemma CentresOfPairsInRange(version: nat, coords: seq<nat>)
    requires CoordsShaped(version, coords)
    ensures forall k | 0 <= k < |Pairs(coords)| :: CentreInRange(SizeFromVersion(version), Pairs(coords)[k])
  {
    forall k | 0 <= k < |Pairs(coords)|
      ensures CentreInRange(SizeFromVersion(version), Pairs(coords)[k])
    {
      var p := Pairs(coords)[k];
      PairsOfMembers(coords, coords, p);
    }
  }

  /** The matrix after `alignment_patterns`. */
  function AlignmentPatterns(data: seq<Bit>, version: nat): (r: seq<Bit>)
    requires 1 <= version <= 40 && |data| == SizeFromVersion(version) * SizeFromVersion(version)
    ensures |r| == |data|
  {
    DrawAll(data, SizeFromVersion(version), AlignmentCentres(version))
  }

  // ---------------------------------------------------------------------------------------------
  // Timing patterns and the dark module (src/qrcode.rs:283-322)

  /** The timing module at coordinate `c`: dark on even coordinates. */
  function TimingBit(c: nat): Bit
  {
    if c % 2 == 0 then One(true) else Zero(true)
  }

  /** Row 6 from x = 8 to size - 9 and column 6 from y = 8 to size - 9. */
  predicate OnTimingRow(size: nat, x: nat, y: nat)
  {
    y == 6 && 8 <= x && x + 8 < size
  }

  predicate OnTimingColumn(size: nat, x: nat, y: nat)
  {
    x == 6 && 8 <= y && y + 8 < size
  }

  /** A timing module: painted only where the module is not already functional. */
  function TimingModule(data: seq<Bit>, size: nat, x: nat, y: nat): Bit
  {
    var old_ := At(data, size, x, y);
    if old_.functional then old_
    else if OnTimingRow(size, x, y) then TimingBit(x)
    else if OnTimingColumn(size, x, y) then TimingBit(y)
    else old_
  }

  /** The matrix after `timing_patterns`. */
  function TimingPatterns(data: seq<Bit>, size: nat): seq<Bit>
  {
    Tabulate(size, (x: nat, y: nat) => TimingModule(data, size, x, y))
  }

  lemma TimingPatternsAt(data: seq<Bit>, size: nat, x: nat, y: nat)
    requires x < size && y < size
    ensures At(TimingPatterns(data, size), size, x, y) == TimingModule(data, size, x, y)
  {
    TabulateAt(size, (x: nat, y: nat) => TimingModule(data, size, x, y), x, y);
  }

  /** The matrix after `dark_module`: One(true) at (8, 4 * version + 9). */
  function DarkModule(data: seq<Bit>, version: nat): seq<Bit>
    requires |data| == SizeFromVersion(version) * SizeFromVersion(version)
  {
    Put(data, SizeFromVersion(version), 8, 4 * version + 9, One(true))
  }

  // ---------------------------------------------------------------------------------------------
  // Format information (src/qrcode.rs:324-371)

  /** The FORMAT_BITS index of format_information (src/qrcode.rs:331-338): the mask plus 8 per level. */
  function FormatIndex(mask: nat, level: EcLevel): (index: nat)
    ensures index == mask + 8 * Ordinal(level)
    ensures index % 8 == mask % 8
  {
    mask + match level
      case L => 0
      case M => 8 * 1
      case Q => 8 * 2
      case H => 8 * 3
  }

  /** The format word `FORMAT_BITS[index]` (src/qrcode.rs:340). */
  function FormatWord(mask: nat, level: EcLevel): bv32
    requires FormatIndex(mask, level) < 32
  {
    FormatBits(FormatIndex(mask, level))
  }

  /** For a mask below 8 the format word, unmasked, carries the level indicator and the mask. */
  lemma FormatWordEncodes(mask: nat, level: EcLevel)
    requires mask < 8
    ensures FormatIndex(mask, level) < 32
    ensures FormatWord(mask, level) < 0x8000
    ensures ((FormatWord(mask, level) ^ 0x5412) >> 10) as nat == 8 * LevelIndicator(Ordinal(level)) + mask
  {
    var index := FormatIndex(mask, level);
    FormatBitsDecode(index);
    assert index / 8 == Ordinal(level) && index % 8 == mask;
  }

  /** Distinct (level, mask) settings get distinct format words. */
  lemma FormatWordsDistinct(mask1: nat, level1: EcLevel, mask2: nat, level2: EcLevel)
    requires mask1 < 8 && mask2 < 8
    ensures FormatIndex(mask1, level1) < 32 && FormatIndex(mask2, level2) < 32
    ensures FormatWord(mask1, level1) == FormatWord(mask2, level2) <==> mask1 == mask2 && level1 == level2
  {
    FormatWordEncodes(mask1, level1);
    FormatWordEncodes(mask2, level2);
    if FormatWord(mask1, level1) == FormatWord(mask2, level2) {
      assert LevelIndicator(Ordinal(level1)) == LevelIndicator(Ordinal(level2));
      OrdinalInjective(level1, level2);
    }
  }

  /** The number of non-functional modules (x, 8) with x < n: the bits the row strip has used before x = n. */
  function FreeOnRow(data: seq<Bit>, size: nat, n: nat): (r: nat)
    ensures r <= n
  {
    if n == 0 then 0
    else FreeOnRow(data, size, n - 1) + (if At(data, size, n - 1, 8).functional then 0 else 1)
  }

  /** First strip (src/qrcode.rs:343-350): the free modules of row 8, x = 0..8, take bits 0, 1, ... in order. */
  function RowStripModule(data: seq<Bit>, size: nat, bits: seq<Bit>, x: nat, y: nat): Bit
    requires |bits| == 15
  {
    var old_ := At(data, size, x, y);
    if y == 8 && x < 9 && !old_.functional then bits[FreeOnRow(data, size, x)] else old_
  }

  function RowStrip(data: seq<Bit>, size: nat, bits: seq<Bit>): seq<Bit>
    requires |bits| == 15
  {
    Tabulate(size, (x: nat, y: nat) => RowStripModule(data, size, bits, x, y))
  }

  lemma RowStripAt(data: seq<Bit>, size: nat, bits: seq<Bit>, x: nat, y: nat)
    requires |bits| == 15 && x < size && y < size
    ensures At(RowStrip(data, size, bits), size, x, y) == RowStripModule(data, size, bits, x, y)
  {
    TabulateAt(size, (x: nat, y: nat) => RowStripModule(data, size, bits, x, y), x, y);
  }

  /** The number of non-functional modules (8, y') with y <= y' <= 8. */
  function FreeOnColumn(data: seq<Bit>, size: nat, y: nat): (r: nat)
    requires y <= 9
    ensures r <= 9 - y
    decreases 9 - y
  {
    if y == 9 then 0
    else FreeOnColumn(data, size, y + 1) + (if At(data, size, 8, y).functional then 0 else 1)
  }

  lemma {:induction false} FreeOnColumnGrows(data: seq<Bit>, size: nat, y: nat)
    requires y <= 9
    ensures FreeOnColumn(data, size, y) <= FreeOnColumn(data, size, 0)
    decreases y
  {
    if y > 0 {
      FreeOnColumnGrows(data, size, y - 1);
    }
  }

  /**
   * Second strip (src/qrcode.rs:352-359): the free modules of column 8, from y = 8 up to y = 0,
   * take bits 7, 8, ... in order. The source indexes `bits` past its 15 entries unless at most 8 of
   * these 9 modules are free.
   */
  function ColumnStripModule(data: seq<Bit>, size: nat, bits: seq<Bit>, x: nat, y: nat): Bit
    requires |bits| == 15 && FreeOnColumn(data, size, 0) <= 8
  {
    var old_ := At(data, size, x, y);
    if x == 8 && y < 9 && !old_.functional then
      FreeOnColumnGrows(data, size, y);
      bits[7 + FreeOnColumn(data, size, y + 1)]
    else old_
  }

  function ColumnStrip(data: seq<Bit>, size: nat, bits: seq<Bit>): seq<Bit>
    requires |bits| == 15 && FreeOnColumn(data, size, 0) <= 8
  {
    Tabulate(size, (x: nat, y: nat) => ColumnStripModule(data, size, bits, x, y))
  }

  lemma ColumnStripAt(data: seq<Bit>, size: nat, bits: seq<Bit>, x: nat, y: nat)
    requires |bits| == 15 && FreeOnColumn(data, size, 0) <= 8 && x < size && y < size
    ensures At(ColumnStrip(data, size, bits), size, x, y) == ColumnStripModule(data, size, bits, x, y)
  {
    TabulateAt(size, (x: nat, y: nat) => ColumnStripModule(data, size, bits, x, y), x, y);
  }

  /**
   * Last two strips (src/qrcode.rs:361-370), with no functional check: bits 0..6 from (8, size - 1)
   * up to (8, size - 7), and bits 7..14 from (size - 8, 8) right to (size - 1, 8).
   */
  function FixedStripModule(data: seq<Bit>, size: nat, bits: seq<Bit>, x: nat, y: nat): Bit
    requires |bits| == 15
  {
    if x == 8 && size - 7 <= y < size then bits[size - 1 - y]
    else if y == 8 && size - 8 <= x < size then bits[7 + (x - (size - 8))]
    else At(data, size, x, y)
  }

  function FixedStrips(data: seq<Bit>, size: nat, bits: seq<Bit>): seq<Bit>
    requires |bits| == 15
  {
    Tabulate(size, (x: nat, y: nat) => FixedStripModule(data, size, bits, x, y))
  }

  lemma FixedStripsAt(data: seq<Bit>, size: nat, bits: seq<Bit>, x: nat, y: nat)
    requires |bits| == 15 && x < size && y < size
    ensures At(FixedStrips(data, size, bits), size, x, y) == FixedStripModule(data, size, bits, x, y)
  {
    TabulateAt(size, (x: nat, y: nat) => FixedStripModule(data, size, bits, x, y), x, y);
  }

  /** The column strip stays within the 15 bits when column 8 has a functional module at or above row 8. */
  predicate FormatFits(data: seq<Bit>, size: nat, bits: seq<Bit>)
    requires |bits| == 15
  {
    FreeOnColumn(RowStrip(data, size, bits), size, 0) <= 8
  }

  /** The matrix after `format_information`, given the 15 bits of the format word. */
  function FormatInformation(data: seq<Bit>, size: nat, bits: seq<Bit>): seq<Bit>
    requires |bits| == 15 && FormatFits(data, size, bits)
  {
    FixedStrips(ColumnStrip(RowStrip(data, size, bits), size, bits), size, bits)
  }

  // ---------------------------------------------------------------------------------------------
  // Version information (src/qrcode.rs:373-412)

  /** The version word `VERSION_BITS[version - 7]` (src/qrcode.rs:386). */
  function VersionWord(version: nat): bv32
    requires 7 <= version <= 40
  {
    VersionBits(version - 7)
  }

  /** The version word is 18 bits wide and names its version in its top six bits. */
  lemma VersionWordEncodes(version: nat)
    requires 7 <= version <= 40
    ensures VersionWord(version) < 0x40000
    ensures (VersionWord(version) >> 12) as nat == version
  {
    VersionBitsDecode(version - 7);
  }

  /** Bit i at (i / 3, size - 11 + i % 3) and at (size - 11 + i % 3, i / 3). */
  function VersionModule(data: seq<Bit>, size: nat, bits: seq<Bit>, x: nat, y: nat): Bit
    requires |bits| == 18 && size >= 11
  {
    if x < 6 && size - 11 <= y < size - 8 then bits[3 * x + (y - (size - 11))]
    else if size - 11 <= x < size - 8 && y < 6 then bits[3 * y + (x - (size - 11))]
    else At(data, size, x, y)
  }

  /** The matrix after `version_information`, given the 18 bits of the version word. */
  function VersionInformation(data: seq<Bit>, size: nat, bits: seq<Bit>): seq<Bit>
    requires |bits| == 18 && size >= 11
  {
    Tabulate(size, (x: nat, y: nat) => VersionModule(data, size, bits, x, y))
  }

  lemma VersionInformationAt(data: seq<Bit>, size: nat, bits: seq<Bit>, x: nat, y: nat)
    requires |bits| == 18 && size >= 11 && x < size && y < size
    ensures At(VersionInformation(data, size, bits), size, x, y) == VersionModule(data, size, bits, x, y)
  {
    TabulateAt(size, (x: nat, y: nat) => VersionModule(data, size, bits, x, y), x, y);
  }

  // ---------------------------------------------------------------------------------------------
  // all_functional_patterns (src/qrcode.rs:414-424)

  /** The matrix after the first five painters: finders, separators, alignment, timing, dark module. */
  function PatternsBeforeFormat(data: seq<Bit>, version: nat): (r: seq<Bit>)
    requires 1 <= version <= 40 && |data| == SizeFromVersion(version) * SizeFromVersion(version)
    ensures |r| == |data|
  {
    var size := SizeFromVersion(version);
    var timed := TimingPatterns(AlignmentPatterns(Separators(FinderPatterns(data, size), size), version), size);
    DarkModule(timed, version)
  }

  /** The matrix after `all_functional_patterns`, given the format and version bits. */
  function AllFunctionalPatterns(data: seq<Bit>, version: nat, formatBits: seq<Bit>, versionBits: seq<Bit>): seq<Bit>
    requires 1 <= version <= 40 && |data| == SizeFromVersion(version) * SizeFromVersion(version)
    requires |formatBits| == 15 && (version >= 7 ==> |versionBits| == 18)
  {
    var size := SizeFromVersion(version);
    var before := PatternsBeforeFormat(data, version);
    FormatFitsAfterTiming(data, version, formatBits);
    var formatted := FormatInformation(before, size, formatBits);
    if version >= 7 then VersionInformation(formatted, size, versionBits) else formatted
  }

  /** One functional module among (8, 0..8) leaves at most 8 free ones. */
  lemma {:induction false} FreeOnColumnBelowNine(data: seq<Bit>, size: nat, y: nat, marked: nat)
    requires y <= 9 && marked < 9 && At(data, size, 8, marked).functional
    ensures FreeOnColumn(data, size, y) <= (if y <= marked then 8 - y else 9 - y)
    decreases 9 - y
  {
    if y < 9 {
      FreeOnColumnBelowNine(data, size, y + 1, marked);
    }
  }

  /** The timing row has made (8, 6) functional by the time the format strips run. */
  lemma FormatFitsAfterTiming(data: seq<Bit>, version: nat, formatBits: seq<Bit>)
    requires 1 <= version <= 40 && |data| == SizeFromVersion(version) * SizeFromVersion(version)
    requires |formatBits| == 15
    ensures FormatFits(PatternsBeforeFormat(data, version), SizeFromVersion(version), formatBits)
  {
    var size := SizeFromVersion(version);
    var aligned := AlignmentPatterns(Separators(FinderPatterns(data, size), size), version);
    var timed := TimingPatterns(aligned, size);
    var before := PatternsBeforeFormat(data, version);
    TimingPatternsAt(aligned, size, 8, 6);
    AtPut(timed, size, 8, 4 * version + 9, One(true), 8, 6);
    RowStripAt(before, size, formatBits, 8, 6);
    FreeOnColumnBelowNine(RowStrip(before, size, formatBits), size, 0, 6);
  }
}
