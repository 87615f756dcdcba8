/**
 * The functional flag through `all_functional_patterns` and `fill` (src/qrcode.rs:414-485): every
 * painter keeps what earlier painters reserved, the function patterns end up reserved, and the data
 * walk leaves them alone.
 */
module QrFunctional {
  import opened Wrappers
  import opened QrGrid
  import opened QrTables
  import opened QrPatterns
  import QrWalk

  /** Every module functional in `a` is functional in `b`. */
  predicate KeepsFunctional(a: seq<Bit>, b: seq<Bit>, size: nat)
  {
    forall x: nat, y: nat | x < size && y < size :: At(a, size, x, y).functional ==> At(b, size, x, y).functional
  }

  /** All bits of a format or version word carry the functional flag. */
  predicate AllFunctional(bits: seq<Bit>)
  {
    forall j | 0 <= j < |bits| :: bits[j].functional
  }

  /** Every finder module is functional. */
  lemma FinderModuleFunctional(size: nat, x: nat, y: nat)
    requires size >= 7
    ensures FinderAt(size, x, y).Some? ==> FinderAt(size, x, y).value.functional
  {
    FinderPatternIsConcentric();
    if InRect(0, 0, 7, 7, x, y) {
      assert FINDER_PATTERN[x + 7 * y] == FinderReference(x, y);
    } else if InRect(size - 7, 0, 7, 7, x, y) {
      assert FINDER_PATTERN[(x - (size - 7)) + 7 * y] == FinderReference(x - (size - 7), y);
    } else if InRect(0, size - 7, 7, 7, x, y) {
      assert FINDER_PATTERN[x + 7 * (y - (size - 7))] == FinderReference(x, y - (size - 7));
    }
  }

  lemma FinderKeepsFunctional(data: seq<Bit>, size: nat)
    requires size >= 7
    ensures KeepsFunctional(data, FinderPatterns(data, size), size)
  {
    forall x: nat, y: nat | x < size && y < size
      ensures At(data, size, x, y).functional ==> At(FinderPatterns(data, size), size, x, y).functional
    {
      FinderPatternsAt(data, size, x, y);
      FinderModuleFunctional(size, x, y);
    }
  }

  lemma SeparatorsKeepFunctional(data: seq<Bit>, size: nat)
    requires size >= 8
    ensures KeepsFunctional(data, Separators(data, size), size)
  {
    forall x: nat, y: nat | x < size && y < size
      ensures At(data, size, x, y).functional ==> At(Separators(data, size), size, x, y).functional
    {
      SeparatorsAt(data, size, x, y);
    }
  }

  /** Each alignment pattern only writes functional modules, whichever centres are skipped. */
  lemma {:induction false} DrawAllKeepsFunctional(data: seq<Bit>, size: nat, centres: seq<(nat, nat)>)
    requires |data| == size * size
    requires forall k | 0 <= k < |centres| :: CentreInRange(size, centres[k])
    ensures KeepsFunctional(data, DrawAll(data, size, centres), size)
    decreases |centres|
  {
    if |centres| > 0 {
      var n := |centres| - 1;
      DrawAllKeepsFunctional(data, size, centres[..n]);
      var mid := DrawAll(data, size, centres[..n]);
      var c := centres[n];
      AlignmentPatternIsConcentric();
      forall x: nat, y: nat | x < size && y < size
        ensures At(mid, size, x, y).functional ==> At(DrawAll(data, size, centres), size, x, y).functional
      {
        DrawAlignmentAt(mid, size, c.0, c.1, x, y);
      }
    }
  }

  lemma TimingKeepsFunctional(data: seq<Bit>, size: nat)
    ensures KeepsFunctional(data, TimingPatterns(data, size), size)
  {
    forall x: nat, y: nat | x < size && y < size
      ensures At(data, size, x, y).functional ==> At(TimingPatterns(data, size), size, x, y).functional
    {
      TimingPatternsAt(data, size, x, y);
    }
  }

  lemma DarkModuleKeepsFunctional(data: seq<Bit>, version: nat)
    requires 1 <= version <= 40 && |data| == SizeFromVersion(version) * SizeFromVersion(version)
    ensures KeepsFunctional(data, DarkModule(data, version), SizeFromVersion(version))
  {
    var size := SizeFromVersion(version);
    forall x: nat, y: nat | x < size && y < size
      ensures At(data, size, x, y).functional ==> At(DarkModule(data, version), size, x, y).functional
    {
      AtPut(data, size, 8, 4 * version + 9, One(true), x, y);
    }
  }

  /** With functional bits, the four format strips reserve every module they visit. */
  lemma FormatKeepsFunctional(data: seq<Bit>, size: nat, bits: seq<Bit>, x: nat, y: nat)
    requires |bits| == 15 && AllFunctional(bits) && FormatFits(data, size, bits) && x < size && y < size
    ensures At(data, size, x, y).functional ==> At(FormatInformation(data, size, bits), size, x, y).functional
    ensures (y == 8 && (x <= 8 || size - 8 <= x)) || (x == 8 && (y <= 8 || size - 7 <= y)) ==>
      At(FormatInformation(data, size, bits), size, x, y).functional
  {
    var row := RowStrip(data, size, bits);
    var col := ColumnStrip(row, size, bits);
    RowStripAt(data, size, bits, x, y);
    ColumnStripAt(row, size, bits, x, y);
    FixedStripsAt(col, size, bits, x, y);
  }

  lemma VersionKeepsFunctional(data: seq<Bit>, size: nat, bits: seq<Bit>, x: nat, y: nat)
    requires |bits| == 18 && AllFunctional(bits) && size >= 11 && x < size && y < size
    ensures At(data, size, x, y).functional ==> At(VersionInformation(data, size, bits), size, x, y).functional
    ensures (x < 6 && size - 11 <= y < size - 8) || (size - 11 <= x < size - 8 && y < 6) ==>
      At(VersionInformation(data, size, bits), size, x, y).functional
  {
    VersionInformationAt(data, size, bits, x, y);
  }

  /** The version block modules: (0..5, size - 11..size - 9) and its transpose. */
  predicate OnVersionBlock(size: nat, x: nat, y: nat)
  {
    (x < 6 && size - 11 <= y < size - 8) || (size - 11 <= x < size - 8 && y < 6)
  }

  /** The format strip modules: row 8 and column 8 next to the three finders. */
  predicate OnFormatStrip(size: nat, x: nat, y: nat)
  {
    (y == 8 && (x <= 8 || size - 8 <= x)) || (x == 8 && (y <= 8 || size - 7 <= y))
  }

  /** The modules every symbol of this version reserves, apart from the alignment patterns. */
  predicate OnFunctionPattern(version: nat, x: nat, y: nat)
    requires 1 <= version <= 40
  {
    var size := SizeFromVersion(version);
    FinderAt(size, x, y).Some? || OnSeparator(size, x, y) || OnTimingRow(size, x, y) || OnTimingColumn(size, x, y)
    || (x == 8 && y == size - 8) || OnFormatStrip(size, x, y) || (version >= 7 && OnVersionBlock(size, x, y))
  }

  /** After the first five painters, finders, separators, timing lines and the dark module are functional. */
  lemma PatternsBeforeFormatReserve(data: seq<Bit>, version: nat, x: nat, y: nat)
    requires 1 <= version <= 40 && |data| == SizeFromVersion(version) * SizeFromVersion(version)
    requires x < SizeFromVersion(version) && y < SizeFromVersion(version)
    ensures var size := SizeFromVersion(version);
      At(data, size, x, y).functional || FinderAt(size, x, y).Some? || OnSeparator(size, x, y)
      || OnTimingRow(size, x, y) || OnTimingColumn(size, x, y) || (x == 8 && y == size - 8)
      ==> At(PatternsBeforeFormat(data, version), size, x, y).functional
  {
    var size := SizeFromVersion(version);
    var aligned := AlignmentPatterns(Separators(FinderPatterns(data, size), size), version);
    AlignedReserve(data, version, x, y);
    TimingPatternsAt(aligned, size, x, y);
    AtPut(TimingPatterns(aligned, size), size, 8, 4 * version + 9, One(true), x, y);
  }

  /** The finder, separator and alignment stages keep what was functional and mark the finder
      patterns and the separators. */
  lemma AlignedReserve(data: seq<Bit>, version: nat, x: nat, y: nat)
    requires 1 <= version <= 40 && |data| == SizeFromVersion(version) * SizeFromVersion(version)
    requires x < SizeFromVersion(version) && y < SizeFromVersion(version)
    ensures var size := SizeFromVersion(version);
      At(data, size, x, y).functional || FinderAt(size, x, y).Some? || OnSeparator(size, x, y)
      ==> At(AlignmentPatterns(Separators(FinderPatterns(data, size), size), version), size, x, y).functional
  {
    var size := SizeFromVersion(version);
    var found := FinderPatterns(data, size);
    var separated := Separators(found, size);
    FinderPatternsAt(data, size, x, y);
    FinderModuleFunctional(size, x, y);
    SeparatorsAt(found, size, x, y);
    DrawAllKeepsFunctional(separated, size, AlignmentCentres(version));
  }

  /**
   * With functional format and version bits, every module of the finders, separators, timing lines,
   * dark module, format strips and (from version 7) version blocks is functional after
   * `all_functional_patterns`, and so is every module that was functional before it.
   */
  lemma FunctionPatternsAreFunctional(data: seq<Bit>, version: nat, formatBits: seq<Bit>, versionBits: seq<Bit>, x: nat, y: nat)
    requires 1 <= version <= 40 && |data| == SizeFromVersion(version) * SizeFromVersion(version)
    requires |formatBits| == 15 && (version >= 7 ==> |versionBits| == 18)
    requires AllFunctional(formatBits) && AllFunctional(versionBits)
    requires x < SizeFromVersion(version) && y < SizeFromVersion(version)
    requires OnFunctionPattern(version, x, y) || At(data, SizeFromVersion(version), x, y).functional
    ensures At(AllFunctionalPatterns(data, version, formatBits, versionBits), SizeFromVersion(version), x, y).functional
  {
    var size := SizeFromVersion(version);
    var before := PatternsBeforeFormat(data, version);
    PatternsBeforeFormatReserve(data, version, x, y);
    FormatFitsAfterTiming(data, version, formatBits);
    FormatKeepsFunctional(before, size, formatBits, x, y);
    if version >= 7 {
      VersionKeepsFunctional(FormatInformation(before, size, formatBits), size, versionBits, x, y);
    }
  }

  /**
   * The data walk on the painted symbol leaves every function-pattern module exactly as
   * `all_functional_patterns` left it.
   */
  lemma FillSparesFunctionPatterns(data: seq<Bit>, version: nat, formatBits: seq<Bit>, versionBits: seq<Bit>, bits: seq<Bit>, x: nat, y: nat)
    requires 1 <= version <= 40 && |data| == SizeFromVersion(version) * SizeFromVersion(version)
    requires |formatBits| == 15 && (version >= 7 ==> |versionBits| == 18)
    requires AllFunctional(formatBits) && AllFunctional(versionBits)
    requires x < SizeFromVersion(version) && y < SizeFromVersion(version) && OnFunctionPattern(version, x, y)
    requires QrWalk.Fill(AllFunctionalPatterns(data, version, formatBits, versionBits), SizeFromVersion(version), bits).Some?
    ensures var symbol := AllFunctionalPatterns(data, version, formatBits, versionBits);
      var filled := QrWalk.Fill(symbol, SizeFromVersion(version), bits).value;
      At(filled, SizeFromVersion(version), x, y) == At(symbol, SizeFromVersion(version), x, y)
      && At(filled, SizeFromVersion(version), x, y).functional
  {
    var size := SizeFromVersion(version);
    var symbol := AllFunctionalPatterns(data, version, formatBits, versionBits);
    FunctionPatternsAreFunctional(data, version, formatBits, versionBits, x, y);
    QrWalk.FillKeepsFunctional(symbol, size, QrWalk.Start(size), bits, x, y);
  }
}
