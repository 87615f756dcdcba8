/**
 * What the painters of src/qrcode.rs leave in the matrix, stated module by module, and the facts
 * its tests check.
 */
module QrProperties {
  import opened Wrappers
  import opened QrGrid
  import opened QrTables
  import opened QrPatterns
  import QrCodes
  import QrFunctional

  // ---------------------------------------------------------------------------------------------
  // Finder patterns and separators

  /** Corner k of the three finders holds FINDER_PATTERN[dx + 7 * dy] at offset (dx, dy), functional. */
  lemma FinderModules(data: seq<Bit>, size: nat, k: nat, dx: nat, dy: nat)
    requires size >= 14 && k < 3 && dx < 7 && dy < 7
    ensures var c := FinderCorners(size)[k];
      c.0 + dx < size && c.1 + dy < size
      && At(FinderPatterns(data, size), size, c.0 + dx, c.1 + dy) == FINDER_PATTERN[dx + 7 * dy]
      && FINDER_PATTERN[dx + 7 * dy].functional
  {
    var c := FinderCorners(size)[k];
    FinderPatternsAt(data, size, c.0 + dx, c.1 + dy);
    QrFunctional.FinderModuleFunctional(size, c.0 + dx, c.1 + dy);
    if k == 0 {
      assert FinderAt(size, dx, dy) == Some(FINDER_PATTERN[dx + 7 * dy]);
    } else if k == 1 {
      assert FinderAt(size, size - 7 + dx, dy) == Some(FINDER_PATTERN[dx + 7 * dy]);
    } else {
      assert FinderAt(size, dx, size - 7 + dy) == Some(FINDER_PATTERN[dx + 7 * dy]);
    }
  }

  /** Outside the three 7 x 7 corner squares `finder_patterns` changes nothing. */
  lemma FinderPatternsOnlyCorners(data: seq<Bit>, size: nat, x: nat, y: nat)
    requires size >= 7 && x < size && y < size
    requires !InRect(0, 0, 7, 7, x, y) && !InRect(size - 7, 0, 7, 7, x, y) && !InRect(0, size - 7, 7, 7, x, y)
    ensures At(FinderPatterns(data, size), size, x, y) == At(data, size, x, y)
  {
    FinderPatternsAt(data, size, x, y);
  }

  /** The separator strips lie outside the finder squares, so `separators_patterns` keeps every finder module. */
  lemma SeparatorsKeepFinders(data: seq<Bit>, size: nat, x: nat, y: nat)
    requires size >= 21 && x < size && y < size
    ensures OnSeparator(size, x, y) ==> FinderAt(size, x, y).None?
    ensures FinderAt(size, x, y).Some? ==>
      At(Separators(FinderPatterns(data, size), size), size, x, y) == FinderAt(size, x, y).value
  {
    SeparatorsAt(FinderPatterns(data, size), size, x, y);
    FinderPatternsAt(data, size, x, y);
  }

  /** `separators_patterns` writes only Zero(true), and only on its six strips. */
  lemma SeparatorsWriteLightStrips(data: seq<Bit>, size: nat, x: nat, y: nat)
    requires size >= 8 && x < size && y < size
    ensures At(Separators(data, size), size, x, y) != At(data, size, x, y) ==>
      OnSeparator(size, x, y) && At(Separators(data, size), size, x, y) == Zero(true)
    ensures OnSeparator(size, x, y) ==> At(Separators(data, size), size, x, y) == Zero(true)
  {
    SeparatorsAt(data, size, x, y);
  }

  // ---------------------------------------------------------------------------------------------
  // Alignment patterns

  /**
   * `draw_alignment_pattern(cx, cy)`: nothing changes if the centre is functional; otherwise the
   * 5 x 5 block with top-left (cx - 2, cy - 2) holds ALIGNMENT_PATTERN, functional, and the rest is kept.
   */
  lemma DrawAlignmentEffect(data: seq<Bit>, size: nat, cx: nat, cy: nat, x: nat, y: nat)
    requires |data| == size * size && CentreInRange(size, (cx, cy)) && x < size && y < size
    ensures At(data, size, cx, cy).functional ==> DrawAlignment(data, size, cx, cy) == data
    ensures !At(data, size, cx, cy).functional && InRect(cx - 2, cy - 2, 5, 5, x, y) ==>
      var b := ALIGNMENT_PATTERN[(x - (cx - 2)) + 5 * (y - (cy - 2))];
      At(DrawAlignment(data, size, cx, cy), size, x, y) == b && b.functional
    ensures !InRect(cx - 2, cy - 2, 5, 5, x, y) ==>
      At(DrawAlignment(data, size, cx, cy), size, x, y) == At(data, size, x, y)
  {
    DrawAlignmentAt(data, size, cx, cy, x, y);
    AlignmentPatternIsConcentric();
  }

  /** `combination` has n * n pairs, and (a, b) is among them exactly when both are coordinates. */
  lemma PairsComplete(coords: seq<nat>, a: nat, b: nat)
    ensures |Pairs(coords)| == |coords| * |coords|
    ensures (a, b) in Pairs(coords) <==> a in coords && b in coords
  {
    PairsOfLength(coords, coords);
    PairsOfMembers(coords, coords, (a, b));
  }

  // ---------------------------------------------------------------------------------------------
  // Timing patterns and the dark module

  /**
   * For 8 <= c <= size - 9, the modules (c, 6) and (6, c) end up functional: a module that was not
   * becomes dark exactly when c is even, and one that was is left as it was.
   */
  lemma TimingEffect(data: seq<Bit>, size: nat, c: nat)
    requires 8 <= c && c + 8 < size
    ensures var t := TimingPatterns(data, size);
      At(t, size, c, 6).functional && At(t, size, 6, c).functional
      && (At(data, size, c, 6).functional ==> At(t, size, c, 6) == At(data, size, c, 6))
      && (At(data, size, 6, c).functional ==> At(t, size, 6, c) == At(data, size, 6, c))
      && (!At(data, size, c, 6).functional ==> (At(t, size, c, 6).One? <==> c % 2 == 0))
      && (!At(data, size, 6, c).functional ==> (At(t, size, 6, c).One? <==> c % 2 == 0))
  {
    TimingPatternsAt(data, size, c, 6);
    TimingPatternsAt(data, size, 6, c);
  }

  /** `timing_patterns` touches nothing off row 6 and column 6. */
  lemma TimingOnlyOnLines(data: seq<Bit>, size: nat, x: nat, y: nat)
    requires x < size && y < size && x != 6 && y != 6
    ensures At(TimingPatterns(data, size), size, x, y) == At(data, size, x, y)
  {
    TimingPatternsAt(data, size, x, y);
  }

  /** The dark module (8, 4 * version + 9) is (8, size - 8); it is the only module `dark_module` changes. */
  lemma DarkModulePlacement(data: seq<Bit>, version: nat, x: nat, y: nat)
    requires 1 <= version <= 40 && |data| == SizeFromVersion(version) * SizeFromVersion(version)
    requires x < SizeFromVersion(version) && y < SizeFromVersion(version)
    ensures 4 * version + 9 == SizeFromVersion(version) - 8
    ensures At(DarkModule(data, version), SizeFromVersion(version), x, y)
         == if x == 8 && y == SizeFromVersion(version) - 8 then One(true) else At(data, SizeFromVersion(version), x, y)
  {
    AtPut(data, SizeFromVersion(version), 8, 4 * version + 9, One(true), x, y);
  }

  // ---------------------------------------------------------------------------------------------
  // Version information

  /** Bit i of the version word sits at (i / 3, size - 11 + i % 3) and at the transposed (size - 11 + i % 3, i / 3). */
  lemma VersionBitPlacement(data: seq<Bit>, size: nat, bits: seq<Bit>, i: nat)
    requires |bits| == 18 && size >= 21 && i < 18
    ensures var v := VersionInformation(data, size, bits);
      At(v, size, i / 3, size - 11 + i % 3) == bits[i] && At(v, size, size - 11 + i % 3, i / 3) == bits[i]
  {
    VersionInformationAt(data, size, bits, i / 3, size - 11 + i % 3);
    VersionInformationAt(data, size, bits, size - 11 + i % 3, i / 3);
  }

  /** The two version blocks are transposes of each other. */
  lemma VersionBlocksTransposed(data: seq<Bit>, size: nat, bits: seq<Bit>, a: nat, b: nat)
    requires |bits| == 18 && size >= 21 && a < 6 && b < 3
    ensures var v := VersionInformation(data, size, bits);
      At(v, size, a, size - 11 + b) == At(v, size, size - 11 + b, a)
  {
    var i := 3 * a + b;
    assert i / 3 == a && i % 3 == b;
    VersionBitPlacement(data, size, bits, i);
  }

  // ---------------------------------------------------------------------------------------------
  // Facts the tests of src/qrcode.rs check

  /** Sizes of versions 1, 10, 20, 40 and 100, and the 625 modules of version 2. */
  lemma SizeExamples()
    ensures SizeFromVersion(1) == 21 && SizeFromVersion(10) == 57 && SizeFromVersion(20) == 97
    ensures SizeFromVersion(40) == 177 && SizeFromVersion(100) == 417
    ensures |QrCodes.Blank(SizeFromVersion(2))| == 625
  {
  }

  /** On a new version 1 symbol, `get(0, 0)` is a light module and `get(100, 100)` is None. */
  lemma GetOnBlank()
    ensures Get(QrCodes.Blank(21), 21, 0, 0) == Some(Zero(false))
    ensures Get(QrCodes.Blank(21), 21, 100, 100) == None
  {
  }

  /** The outer ring of every finder is dark and functional, whatever was there before. */
  lemma FinderRingIsDark(data: seq<Bit>, size: nat, k: nat, dx: nat, dy: nat)
    requires size >= 14 && k < 3 && dx < 7 && dy < 7 && (dx == 0 || dx == 6 || dy == 0 || dy == 6)
    ensures var c := FinderCorners(size)[k];
      At(FinderPatterns(data, size), size, c.0 + dx, c.1 + dy) == One(true)
  {
    FinderModules(data, size, k, dx, dy);
    FinderPatternIsConcentric();
    assert Ring(dx, dy, 3) == 3;
  }

  /** The opposite corner stays light after `finder_patterns`, for the smallest and the largest symbol. */
  lemma FinderLeavesFarCorner()
    ensures At(FinderPatterns(QrCodes.Blank(21), 21), 21, 20, 20).Zero?
    ensures At(FinderPatterns(QrCodes.Blank(177), 177), 177, 176, 176).Zero?
  {
    FinderPatternsOnlyCorners(QrCodes.Blank(21), 21, 20, 20);
    FinderPatternsOnlyCorners(QrCodes.Blank(177), 177, 176, 176);
  }
}
