/**
 * The copy of the format word next to the top-left finder (src/qrcode.rs:343-359), worked out on
 * the layout the earlier painters leave there: along row 8 and column 8, up to module 8, only the
 * timing modules (6, 8) and (8, 6) are functional.
 */
module QrFormatCorner {
  import opened QrGrid
  import opened QrTables
  import opened QrPatterns

  /** Among (0..8, 8) and (8, 0..8) exactly (6, 8) and (8, 6) are functional. */
  predicate CornerLayout(data: seq<Bit>, size: nat)
  {
    size >= 21
    && (forall k: nat | k <= 8 :: At(data, size, k, 8).functional <==> k == 6)
    && (forall k: nat | k <= 8 :: At(data, size, 8, k).functional <==> k == 6)
  }

  /** Row 8 has one functional module, at x = 6, among its first nine. */
  lemma {:induction false} FreeOnRowInCorner(data: seq<Bit>, size: nat, x: nat)
    requires CornerLayout(data, size) && x <= 9
    ensures FreeOnRow(data, size, x) == if x <= 6 then x else x - 1
  {
    if x > 0 {
      FreeOnRowInCorner(data, size, x - 1);
    }
  }

  /** 1 when bit 7 is written as a non-functional module, 0 when it is written as a functional one. */
  function FreeCorner(bits: seq<Bit>): nat
    requires |bits| == 15
  {
    if bits[7].functional then 0 else 1
  }

  /**
   * After the row strip, (8, 8) holds bit 7, so it is free for the column strip only when bit 7 is
   * not functional; (8, 6) is the only other functional module of the column.
   */
  lemma {:induction false} FreeOnColumnAfterRow(data: seq<Bit>, size: nat, bits: seq<Bit>, y: nat)
    requires CornerLayout(data, size) && |bits| == 15 && y <= 8
    ensures FreeOnColumn(RowStrip(data, size, bits), size, y) == FreeCorner(bits) + (if y <= 6 then 7 - y else 8 - y)
    decreases 8 - y
  {
    var row := RowStrip(data, size, bits);
    RowStripAt(data, size, bits, 8, y);
    if y == 8 {
      FreeOnRowInCorner(data, size, 8);
      assert At(row, size, 8, 8) == bits[7];
    } else {
      FreeOnColumnAfterRow(data, size, bits, y + 1);
    }
  }

  /** The row strip leaves the layout of column 8 below row 8 as it was. */
  lemma RowStripInCorner(data: seq<Bit>, size: nat, bits: seq<Bit>, x: nat, y: nat)
    requires CornerLayout(data, size) && |bits| == 15 && x <= 8 && y <= 8
    ensures x < 6 && y == 8 ==> At(RowStrip(data, size, bits), size, x, y) == bits[x]
    ensures x == 7 && y == 8 ==> At(RowStrip(data, size, bits), size, x, y) == bits[6]
    ensures x == 8 && y == 8 ==> At(RowStrip(data, size, bits), size, x, y) == bits[7]
    ensures y != 8 ==> At(RowStrip(data, size, bits), size, x, y) == At(data, size, x, y)
    ensures x == 6 && y == 8 ==> At(RowStrip(data, size, bits), size, x, y) == At(data, size, x, y)
  {
    RowStripAt(data, size, bits, x, y);
    FreeOnRowInCorner(data, size, x);
  }

  /** The last two strips stay on the far rows and columns, away from the top-left corner. */
  lemma FixedStripsAvoidCorner(data: seq<Bit>, size: nat, bits: seq<Bit>, x: nat, y: nat)
    requires size >= 21 && |bits| == 15 && x <= 8 && y <= 8
    ensures At(FixedStrips(data, size, bits), size, x, y) == At(data, size, x, y)
  {
    FixedStripsAt(data, size, bits, x, y);
  }

  /** Near the top-left finder the matrix after `format_information` is the column strip over the row strip. */
  lemma CornerThroughStrips(data: seq<Bit>, size: nat, bits: seq<Bit>, x: nat, y: nat)
    requires CornerLayout(data, size) && |bits| == 15 && x <= 8 && y <= 8
    ensures FormatFits(data, size, bits)
    ensures At(FormatInformation(data, size, bits), size, x, y)
         == ColumnStripModule(RowStrip(data, size, bits), size, bits, x, y)
  {
    var row := RowStrip(data, size, bits);
    FreeOnColumnAfterRow(data, size, bits, 0);
    FixedStripsAvoidCorner(ColumnStrip(row, size, bits), size, bits, x, y);
    ColumnStripAt(row, size, bits, x, y);
  }

  /** Module (8, y) of the top-left copy, for y <= 8. */
  lemma CornerColumnModule(data: seq<Bit>, size: nat, bits: seq<Bit>, y: nat)
    requires CornerLayout(data, size) && |bits| == 15 && y <= 8
    ensures FormatFits(data, size, bits)
    ensures y == 8 ==> At(FormatInformation(data, size, bits), size, 8, y) == bits[7]
    ensures y == 7 ==> At(FormatInformation(data, size, bits), size, 8, y) == bits[7 + FreeCorner(bits)]
    ensures y == 6 ==> At(FormatInformation(data, size, bits), size, 8, y) == At(data, size, 8, 6)
    ensures y < 6 ==> At(FormatInformation(data, size, bits), size, 8, y) == bits[13 + FreeCorner(bits) - y]
  {
    var row := RowStrip(data, size, bits);
    CornerThroughStrips(data, size, bits, 8, y);
    RowStripInCorner(data, size, bits, 8, y);
    if y == 8 {
      FreeOnColumnAfterRow(data, size, bits, 8);
      assert At(row, size, 8, 8) == bits[7];
    } else if y == 6 {
      assert At(row, size, 8, 6).functional;
    } else {
      FreeOnColumnAfterRow(data, size, bits, y + 1);
      assert !At(row, size, 8, y).functional;
      assert ColumnStripModule(row, size, bits, 8, y) == bits[7 + FreeOnColumn(row, size, y + 1)];
    }
  }

  /** Module (x, 8) of the top-left copy, for x < 8. */
  lemma CornerRowModule(data: seq<Bit>, size: nat, bits: seq<Bit>, x: nat)
    requires CornerLayout(data, size) && |bits| == 15 && x < 8
    ensures FormatFits(data, size, bits)
    ensures x < 6 ==> At(FormatInformation(data, size, bits), size, x, 8) == bits[x]
    ensures x == 6 ==> At(FormatInformation(data, size, bits), size, x, 8) == At(data, size, 6, 8)
    ensures x == 7 ==> At(FormatInformation(data, size, bits), size, x, 8) == bits[6]
  {
    CornerThroughStrips(data, size, bits, x, 8);
    RowStripInCorner(data, size, bits, x, 8);
  }

  /**
   * The top-left copy as `format_information` writes it: bits 0..5 on (0..5, 8), bit 6 on (7, 8),
   * bit 7 on (8, 8); then, counting again from 7 while skipping (8, 8) when bit 7 made it functional,
   * bit 7 + g on (8, 7) and bit 13 + g - y on (8, y) for y < 6, where g is 1 for a non-functional
   * bit 7 and 0 for a functional one.
   */
  lemma FormatCornerCopy(data: seq<Bit>, size: nat, bits: seq<Bit>)
    requires CornerLayout(data, size) && |bits| == 15
    ensures FormatFits(data, size, bits)
    ensures var m := FormatInformation(data, size, bits); var g := FreeCorner(bits);
      (forall x: nat | x < 6 :: At(m, size, x, 8) == bits[x])
      && At(m, size, 7, 8) == bits[6] && At(m, size, 8, 8) == bits[7] && At(m, size, 8, 7) == bits[7 + g]
      && (forall y: nat | y < 6 :: At(m, size, 8, y) == bits[13 + g - y])
      && At(m, size, 6, 8) == At(data, size, 6, 8) && At(m, size, 8, 6) == At(data, size, 8, 6)
  {
    FreeOnColumnAfterRow(data, size, bits, 0);
    var m := FormatInformation(data, size, bits);
    forall x: nat | x < 6
      ensures At(m, size, x, 8) == bits[x]
    {
      CornerRowModule(data, size, bits, x);
    }
    forall y: nat | y < 6
      ensures At(m, size, 8, y) == bits[13 + FreeCorner(bits) - y]
    {
      CornerColumnModule(data, size, bits, y);
    }
    CornerRowModule(data, size, bits, 7);
    CornerRowModule(data, size, bits, 6);
    CornerColumnModule(data, size, bits, 8);
    CornerColumnModule(data, size, bits, 7);
    CornerColumnModule(data, size, bits, 6);
  }

  /**
   * With a functional bit 7 the copy is shifted: (8, 7) repeats bit 7 where bit 8 belongs, and the
   * modules above hold bits 8..13 where bits 9..14 belong, so bit 14 is not in this copy.
   */
  lemma FunctionalBitsShiftColumn(data: seq<Bit>, size: nat, bits: seq<Bit>)
    requires CornerLayout(data, size) && |bits| == 15 && bits[7].functional
    ensures FormatFits(data, size, bits)
    ensures var m := FormatInformation(data, size, bits);
      At(m, size, 8, 8) == bits[7] && At(m, size, 8, 7) == bits[7]
      && (forall y: nat | y < 6 :: At(m, size, 8, y) == bits[13 - y])
  {
    FormatCornerCopy(data, size, bits);
    var m := FormatInformation(data, size, bits);
    forall y: nat | y < 6
      ensures At(m, size, 8, y) == bits[13 - y]
    {
      assert 13 + FreeCorner(bits) - y == 13 - y;
    }
  }

  // ---------------------------------------------------------------------------------------------
  // The column strip as evidently intended: bit 7 is already on (8, 8), so the strip starts at
  // (8, 7) with bit 8.

  /** The number of non-functional modules (8, y') with y <= y' <= 7. */
  function FreeBelowCorner(data: seq<Bit>, size: nat, y: nat): (r: nat)
    requires y <= 8
    ensures r <= 8 - y
    decreases 8 - y
  {
    if y == 8 then 0
    else FreeBelowCorner(data, size, y + 1) + (if At(data, size, 8, y).functional then 0 else 1)
  }

  lemma {:induction false} FreeBelowCornerGrows(data: seq<Bit>, size: nat, y: nat)
    requires y <= 8
    ensures FreeBelowCorner(data, size, y) <= FreeBelowCorner(data, size, 0)
    decreases y
  {
    if y > 0 {
      FreeBelowCornerGrows(data, size, y - 1);
    }
  }

  /** The free modules of column 8, from y = 7 up to y = 0, take bits 8, 9, ... in order. */
  function CorrectedColumnStripModule(data: seq<Bit>, size: nat, bits: seq<Bit>, x: nat, y: nat): Bit
    requires |bits| == 15 && FreeBelowCorner(data, size, 0) <= 7
  {
    var old_ := At(data, size, x, y);
    if x == 8 && y < 8 && !old_.functional then
      FreeBelowCornerGrows(data, size, y);
      bits[8 + FreeBelowCorner(data, size, y + 1)]
    else old_
  }

  function CorrectedColumnStrip(data: seq<Bit>, size: nat, bits: seq<Bit>): seq<Bit>
    requires |bits| == 15 && FreeBelowCorner(data, size, 0) <= 7
  {
    Tabulate(size, (x: nat, y: nat) => CorrectedColumnStripModule(data, size, bits, x, y))
  }

  lemma CorrectedColumnStripAt(data: seq<Bit>, size: nat, bits: seq<Bit>, x: nat, y: nat)
    requires |bits| == 15 && FreeBelowCorner(data, size, 0) <= 7 && x < size && y < size
    ensures At(CorrectedColumnStrip(data, size, bits), size, x, y) == CorrectedColumnStripModule(data, size, bits, x, y)
  {
    TabulateAt(size, (x: nat, y: nat) => CorrectedColumnStripModule(data, size, bits, x, y), x, y);
  }

  /** Below row 8 column 8 has one functional module, (8, 6), whatever the row strip wrote. */
  lemma {:induction false} FreeBelowCornerAfterRow(data: seq<Bit>, size: nat, bits: seq<Bit>, y: nat)
    requires CornerLayout(data, size) && |bits| == 15 && y <= 8
    ensures FreeBelowCorner(RowStrip(data, size, bits), size, y) == if y <= 6 then 7 - y else 8 - y
    decreases 8 - y
  {
    if y < 8 {
      RowStripInCorner(data, size, bits, 8, y);
      FreeBelowCornerAfterRow(data, size, bits, y + 1);
    }
  }

  /** `format_information` with the corrected column strip. */
  function CorrectedFormatInformation(data: seq<Bit>, size: nat, bits: seq<Bit>): seq<Bit>
    requires |bits| == 15 && FreeBelowCorner(RowStrip(data, size, bits), size, 0) <= 7
  {
    FixedStrips(CorrectedColumnStrip(RowStrip(data, size, bits), size, bits), size, bits)
  }

  /**
   * The corrected top-left copy puts the 15 bits where section 6.9 of ISO/IEC 18004:2006 places
   * them, functional or not, taking bits[j] as bit 14 - j of the word as the other copy
   * (src/qrcode.rs:361-370) does: bits 0..5 on (0..5, 8), bit 6 on (7, 8), bit 7 on (8, 8), bit 8 on (8, 7)
   * and bit 14 - y on (8, y) for y < 6.
   */
  lemma CorrectedFormatCornerCopy(data: seq<Bit>, size: nat, bits: seq<Bit>)
    requires CornerLayout(data, size) && |bits| == 15
    ensures FreeBelowCorner(RowStrip(data, size, bits), size, 0) <= 7
    ensures var m := CorrectedFormatInformation(data, size, bits);
      (forall x: nat | x < 6 :: At(m, size, x, 8) == bits[x])
      && At(m, size, 7, 8) == bits[6] && At(m, size, 8, 8) == bits[7] && At(m, size, 8, 7) == bits[8]
      && (forall y: nat | y < 6 :: At(m, size, 8, y) == bits[14 - y])
      && At(m, size, 6, 8) == At(data, size, 6, 8) && At(m, size, 8, 6) == At(data, size, 8, 6)
  {
    var row := RowStrip(data, size, bits);
    FreeBelowCornerAfterRow(data, size, bits, 0);
    var col := CorrectedColumnStrip(row, size, bits);
    var m := CorrectedFormatInformation(data, size, bits);
    forall x: nat | x < 6
      ensures At(m, size, x, 8) == bits[x]
    {
      FixedStripsAvoidCorner(col, size, bits, x, 8);
      CorrectedColumnStripAt(row, size, bits, x, 8);
      RowStripInCorner(data, size, bits, x, 8);
    }
    forall y: nat | y < 6
      ensures At(m, size, 8, y) == bits[14 - y]
    {
      FixedStripsAvoidCorner(col, size, bits, 8, y);
      CorrectedColumnStripAt(row, size, bits, 8, y);
      RowStripInCorner(data, size, bits, 8, y);
      FreeBelowCornerAfterRow(data, size, bits, y + 1);
    }
    FixedStripsAvoidCorner(col, size, bits, 7, 8);
    CorrectedColumnStripAt(row, size, bits, 7, 8);
    RowStripInCorner(data, size, bits, 7, 8);
    FixedStripsAvoidCorner(col, size, bits, 8, 8);
    CorrectedColumnStripAt(row, size, bits, 8, 8);
    RowStripInCorner(data, size, bits, 8, 8);
    FixedStripsAvoidCorner(col, size, bits, 8, 7);
    CorrectedColumnStripAt(row, size, bits, 8, 7);
    RowStripInCorner(data, size, bits, 8, 7);
    FreeBelowCornerAfterRow(data, size, bits, 8);
    FixedStripsAvoidCorner(col, size, bits, 6, 8);
    CorrectedColumnStripAt(row, size, bits, 6, 8);
    RowStripInCorner(data, size, bits, 6, 8);
    FixedStripsAvoidCorner(col, size, bits, 8, 6);
    CorrectedColumnStripAt(row, size, bits, 8, 6);
    RowStripInCorner(data, size, bits, 8, 6);
  }

  // ---------------------------------------------------------------------------------------------
  // The painters before `format_information` leave exactly this layout

  /** None of (0..8, 8) and (8, 0..8) is functional, as in a new matrix. */
  predicate FreeCornerLines(data: seq<Bit>, size: nat)
  {
    forall k: nat | k <= 8 :: !At(data, size, k, 8).functional && !At(data, size, 8, k).functional
  }

  /** The 5 x 5 block of an alignment pattern centred on c contains (x, y). */
  predicate Reaches(c: (nat, nat), x: nat, y: nat)
  {
    c.0 <= x + 2 && x <= c.0 + 2 && c.1 <= y + 2 && y <= c.1 + 2
  }

  /**
   * Drawing alignment patterns keeps (x, y) and (6, 6) when (6, 6) is functional and every other
   * centre's block misses both: the centre (6, 6) itself is skipped.
   */
  lemma {:induction false} DrawAllKeeps(data: seq<Bit>, size: nat, centres: seq<(nat, nat)>, x: nat, y: nat)
    requires |data| == size * size && 7 <= size && x < size && y < size
    requires forall k | 0 <= k < |centres| :: CentreInRange(size, centres[k])
    requires At(data, size, 6, 6).functional
    requires forall k | 0 <= k < |centres| :: centres[k] == (6, 6) || (!Reaches(centres[k], 6, 6) && !Reaches(centres[k], x, y))
    ensures At(DrawAll(data, size, centres), size, x, y) == At(data, size, x, y)
    ensures At(DrawAll(data, size, centres), size, 6, 6) == At(data, size, 6, 6)
    decreases |centres|
  {
    if |centres| > 0 {
      var n := |centres| - 1;
      var prefix := centres[..n];
      DrawAllKeeps(data, size, prefix, x, y);
      var mid := DrawAll(data, size, prefix);
      var c := centres[n];
      DrawAlignmentAt(mid, size, c.0, c.1, x, y);
      DrawAlignmentAt(mid, size, c.0, c.1, 6, 6);
    }
  }

  /** Apart from (6, 6), whose centre is functional by then, every alignment centre has a coordinate of at least 18. */
  lemma CentresAwayFromCorner(version: nat, k: nat)
    requires 1 <= version <= 40 && k < |AlignmentCentres(version)|
    ensures var c := AlignmentCentres(version)[k]; c == (6, 6) || c.0 >= 18 || c.1 >= 18
  {
    if version > 1 {
      var coords := AlignmentCoords(version - 2);
      AlignmentCoordsShape(version);
      var c := AlignmentCentres(version)[k];
      PairsOfMembers(coords, coords, c);
      var i :| 0 <= i < |coords| && coords[i] == c.0;
      var j :| 0 <= j < |coords| && coords[j] == c.1;
    }
  }

  /** `alignment_patterns` leaves row 8 and column 8 up to module 8 as they were. */
  lemma AlignmentKeepsCorner(data: seq<Bit>, version: nat, x: nat, y: nat)
    requires 1 <= version <= 40 && |data| == SizeFromVersion(version) * SizeFromVersion(version)
    requires At(data, SizeFromVersion(version), 6, 6).functional
    requires (x <= 8 && y == 8) || (x == 8 && y <= 8)
    ensures At(AlignmentPatterns(data, version), SizeFromVersion(version), x, y) == At(data, SizeFromVersion(version), x, y)
  {
    var size := SizeFromVersion(version);
    var centres := AlignmentCentres(version);
    forall k | 0 <= k < |centres|
      ensures centres[k] == (6, 6) || (!Reaches(centres[k], 6, 6) && !Reaches(centres[k], x, y))
    {
      CentresAwayFromCorner(version, k);
    }
    DrawAllKeeps(data, size, centres, x, y);
  }

  /** One module of the corner lines through the first four painters. */
  lemma CornerModuleBeforeFormat(data: seq<Bit>, version: nat, x: nat, y: nat)
    requires 1 <= version <= 40 && |data| == SizeFromVersion(version) * SizeFromVersion(version)
    requires FreeCornerLines(data, SizeFromVersion(version))
    requires (x <= 8 && y == 8) || (x == 8 && y <= 8)
    ensures At(PatternsBeforeFormat(data, version), SizeFromVersion(version), x, y).functional <==> (x, y) == (6, 8) || (x, y) == (8, 6)
  {
    var size := SizeFromVersion(version);
    var found := FinderPatterns(data, size);
    var separated := Separators(found, size);
    var aligned := AlignmentPatterns(separated, version);
    var timed := TimingPatterns(aligned, size);
    FinderPatternsAt(data, size, x, y);
    SeparatorsAt(found, size, x, y);
    FinderPatternsAt(data, size, 6, 6);
    FinderPatternIsConcentric();
    SeparatorsAt(found, size, 6, 6);
    AlignmentKeepsCorner(separated, version, x, y);
    TimingPatternsAt(aligned, size, x, y);
    AtPut(timed, size, 8, 4 * version + 9, One(true), x, y);
  }

  /** From a matrix with free corner lines, the painters before `format_information` leave CornerLayout. */
  lemma CornerLayoutBeforeFormat(data: seq<Bit>, version: nat)
    requires 1 <= version <= 40 && |data| == SizeFromVersion(version) * SizeFromVersion(version)
    requires FreeCornerLines(data, SizeFromVersion(version))
    ensures CornerLayout(PatternsBeforeFormat(data, version), SizeFromVersion(version))
  {
    var size := SizeFromVersion(version);
    ValidSizeBounds(version);
    forall k: nat | k <= 8
      ensures At(PatternsBeforeFormat(data, version), size, k, 8).functional <==> k == 6
      ensures At(PatternsBeforeFormat(data, version), size, 8, k).functional <==> k == 6
    {
      CornerModuleBeforeFormat(data, version, k, 8);
      CornerModuleBeforeFormat(data, version, 8, k);
    }
  }

  /** The version blocks lie away from both copies of the format word. */
  lemma VersionAvoidsFormat(data: seq<Bit>, size: nat, bits: seq<Bit>, x: nat, y: nat)
    requires |bits| == 18 && size >= 21 && x < size && y < size && (x == 8 || y == 8)
    ensures At(VersionInformation(data, size, bits), size, x, y) == At(data, size, x, y)
  {
    VersionInformationAt(data, size, bits, x, y);
  }

  /** The second copy, written without looking at the functional flags: bits 0..6 of the
      column copy from (8, size - 1) upwards ... */
  lemma FormatSecondCopyColumn(data: seq<Bit>, size: nat, bits: seq<Bit>)
    requires size >= 21 && |bits| == 15 && FormatFits(data, size, bits)
    ensures var m := FormatInformation(data, size, bits);
      forall y: nat | size - 7 <= y < size :: At(m, size, 8, y) == bits[size - 1 - y]
  {
    var col := ColumnStrip(RowStrip(data, size, bits), size, bits);
    forall y: nat | size - 7 <= y < size
      ensures At(FormatInformation(data, size, bits), size, 8, y) == bits[size - 1 - y]
    {
      FixedStripsAt(col, size, bits, 8, y);
    }
  }

  /** ... and bits 7..14 of the row copy from (size - 8, 8) rightwards. */
  lemma FormatSecondCopyRow(data: seq<Bit>, size: nat, bits: seq<Bit>)
    requires size >= 21 && |bits| == 15 && FormatFits(data, size, bits)
    ensures var m := FormatInformation(data, size, bits);
      forall x: nat | size - 8 <= x < size :: At(m, size, x, 8) == bits[7 + (x - (size - 8))]
  {
    var col := ColumnStrip(RowStrip(data, size, bits), size, bits);
    forall x: nat | size - 8 <= x < size
      ensures At(FormatInformation(data, size, bits), size, x, 8) == bits[7 + (x - (size - 8))]
    {
      FixedStripsAt(col, size, bits, x, 8);
    }
  }

  /** `version_information` keeps row 8 and column 8 of the formatted matrix. */
  lemma SymbolKeepsFormat(data: seq<Bit>, version: nat, formatBits: seq<Bit>, versionBits: seq<Bit>, x: nat, y: nat)
    requires 1 <= version <= 40 && |data| == SizeFromVersion(version) * SizeFromVersion(version)
    requires |formatBits| == 15 && (version >= 7 ==> |versionBits| == 18)
    requires x < SizeFromVersion(version) && y < SizeFromVersion(version) && (x == 8 || y == 8)
    ensures FormatFits(PatternsBeforeFormat(data, version), SizeFromVersion(version), formatBits)
    ensures At(AllFunctionalPatterns(data, version, formatBits, versionBits), SizeFromVersion(version), x, y)
         == At(FormatInformation(PatternsBeforeFormat(data, version), SizeFromVersion(version), formatBits), SizeFromVersion(version), x, y)
  {
    var size := SizeFromVersion(version);
    FormatFitsAfterTiming(data, version, formatBits);
    if version >= 7 {
      VersionAvoidsFormat(FormatInformation(PatternsBeforeFormat(data, version), size, formatBits), size, versionBits, x, y);
    }
  }

  /**
   * In the symbol `all_functional_patterns` paints on a new matrix, the top-left copy of the format
   * word is as FormatCornerCopy states.
   */
  lemma TopLeftCopyInSymbol(data: seq<Bit>, version: nat, formatBits: seq<Bit>, versionBits: seq<Bit>)
    requires 1 <= version <= 40 && |data| == SizeFromVersion(version) * SizeFromVersion(version)
    requires |formatBits| == 15 && (version >= 7 ==> |versionBits| == 18)
    requires FreeCornerLines(data, SizeFromVersion(version))
    ensures var size := SizeFromVersion(version);
      var m := AllFunctionalPatterns(data, version, formatBits, versionBits); var g := FreeCorner(formatBits);
      (forall x: nat | x < 6 :: At(m, size, x, 8) == formatBits[x])
      && At(m, size, 7, 8) == formatBits[6] && At(m, size, 8, 8) == formatBits[7]
      && At(m, size, 8, 7) == formatBits[7 + g]
      && (forall y: nat | y < 6 :: At(m, size, 8, y) == formatBits[13 + g - y])
  {
    var size := SizeFromVersion(version);
    var before := PatternsBeforeFormat(data, version);
    CornerLayoutBeforeFormat(data, version);
    FormatCornerCopy(before, size, formatBits);
    forall x: nat, y: nat | x <= 8 && y <= 8 && (x == 8 || y == 8)
      ensures At(AllFunctionalPatterns(data, version, formatBits, versionBits), size, x, y)
           == At(FormatInformation(before, size, formatBits), size, x, y)
    {
      SymbolKeepsFormat(data, version, formatBits, versionBits, x, y);
    }
  }

  /**
   * In every symbol `all_functional_patterns` paints, the second copy of the format word holds
   * bits 0..6 from (8, size - 1) up to (8, size - 7). (Row 8 of the symbol is FormatSecondCopyRow's
   * row, by SymbolKeepsFormat.)
   */
  lemma SecondCopyColumnInSymbol(data: seq<Bit>, version: nat, formatBits: seq<Bit>, versionBits: seq<Bit>)
    requires 1 <= version <= 40 && |data| == SizeFromVersion(version) * SizeFromVersion(version)
    requires |formatBits| == 15 && (version >= 7 ==> |versionBits| == 18)
    ensures var size := SizeFromVersion(version);
      var m := AllFunctionalPatterns(data, version, formatBits, versionBits);
      forall y: nat | size - 7 <= y < size :: At(m, size, 8, y) == formatBits[size - 1 - y]
  {
    var size := SizeFromVersion(version);
    var before := PatternsBeforeFormat(data, version);
    FormatFitsAfterTiming(data, version, formatBits);
    FormatSecondCopyColumn(before, size, formatBits);
    forall y: nat | size - 7 <= y < size
      ensures At(AllFunctionalPatterns(data, version, formatBits, versionBits), size, 8, y)
           == At(FormatInformation(before, size, formatBits), size, 8, y)
    {
      SymbolKeepsFormat(data, version, formatBits, versionBits, 8, y);
    }
  }
}
