/**
 * `QrCode` of src/qrcode.rs: the symbol under construction, whose module matrix `data` the painters
 * and `fill` rewrite in place through `put`. Every painter method is proved to leave exactly the
 * matrix its specification in QrPatterns describes.
 */
module QrCodes {
  import opened Wrappers
  import opened QrGrid
  import opened Ec
  import opened QrTables
  import QrPatterns
  import QrWalk

  /** The blank matrix of `new`: `size * size` light, non-functional modules. */
  function Blank(size: nat): (r: seq<Bit>)
    ensures |r| == size * size
    ensures forall i | 0 <= i < |r| :: r[i] == Zero(false)
  {
    seq(size * size, _ => Zero(false))
  }

  /** Which corner square of `FinderCorners` the finder painter has finished: the first `k` of them. */
  predicate FinderDone(size: nat, k: nat, x: nat, y: nat)
    requires size >= 7
  {
    (k > 0 && InRect(0, 0, 7, 7, x, y))
    || (k > 1 && InRect(size - 7, 0, 7, 7, x, y))
    || (k > 2 && InRect(0, size - 7, 7, 7, x, y))
  }

  /** The module (cx + dx, cy + dy) of corner k is covered by FINDER_PATTERN[dx + 7 * dy]. */
  lemma FinderAtCorner(size: nat, k: nat, dx: nat, dy: nat)
    requires size >= 14 && k < 3 && dx < 7 && dy < 7
    ensures var c := QrPatterns.FinderCorners(size)[k];
      QrPatterns.FinderAt(size, c.0 + dx, c.1 + dy) == Some(FINDER_PATTERN[dx + 7 * dy])
  {
  }

  /** Whether (x, y) lies in one of the first k rectangles of width w and height h anchored at `rects`. */
  predicate Covered(rects: seq<(nat, nat)>, w: nat, h: nat, k: nat, x: nat, y: nat)
    requires k <= |rects|
  {
    k > 0 && (Covered(rects, w, h, k - 1, x, y) || InRect(rects[k - 1].0, rects[k - 1].1, w, h, x, y))
  }

  /** The strips `separators_patterns` paints are exactly the separator modules. */
  lemma SeparatorStrips(size: nat, top: seq<(nat, nat)>, right: seq<(nat, nat)>, x: nat, y: nat)
    requires size >= 8
    requires top == [(7, 0), (size - 8, 0), (7, size - 8)] && right == [(0, 7), (size - 7, 7), (0, size - 8)]
    ensures Covered(top, 1, 8, 3, x, y) || Covered(right, 7, 1, 3, x, y) <==> QrPatterns.OnSeparator(size, x, y)
  {
    assert Covered(top, 1, 8, 1, x, y) == InRect(7, 0, 1, 8, x, y);
    assert Covered(top, 1, 8, 2, x, y) == (Covered(top, 1, 8, 1, x, y) || InRect(size - 8, 0, 1, 8, x, y));
    assert Covered(top, 1, 8, 3, x, y) == (Covered(top, 1, 8, 2, x, y) || InRect(7, size - 8, 1, 8, x, y));
    assert Covered(right, 7, 1, 1, x, y) == InRect(0, 7, 7, 1, x, y);
    assert Covered(right, 7, 1, 2, x, y) == (Covered(right, 7, 1, 1, x, y) || InRect(size - 7, 7, 7, 1, x, y));
    assert Covered(right, 7, 1, 3, x, y) == (Covered(right, 7, 1, 2, x, y) || InRect(0, size - 8, 7, 1, x, y));
  }

  /** `combination` (src/qrcode.rs:171-181): every ordered pair of entries, outer entry first. */
  method Combination(coords: seq<nat>) returns (res: seq<(nat, nat)>)
    ensures res == QrPatterns.Pairs(coords)
  {
    res := [];
    for i := 0 to |coords|
      invariant res == QrPatterns.PairsOf(coords[..i], coords)
    {
      ghost var prefix := res;
      for j := 0 to |coords|
        invariant |res| == |prefix| + j
        invariant res[..|prefix|] == prefix
        invariant forall m | 0 <= m < j :: res[|prefix| + m] == (coords[i], coords[m])
      {
        res := res + [(coords[i], coords[j])];
      }
      assert coords[..i + 1][..i] == coords[..i];
      assert res == QrPatterns.PairsOf(coords[..i + 1], coords);
    }
    assert coords[..|coords|] == coords;
  }

  /**
   * One turn of the inner `loop` of `fill` (src/qrcode.rs:435-475): the `match up` that moves the
   * cursor, before the functional check. It is the executable twin of `QrWalk.Step`, not a second
   * model of the walk: it updates the walk variables as the source does, and its ensures ties it to Step.
   */
  method Turn(size: nat, x: nat, y: nat, up: bool, i: nat) returns (x': nat, y': nat, up': bool, i': nat)
    requires QrWalk.InWalk(size, QrWalk.Cursor(x, y, up, i))
    requires QrWalk.Step(size, QrWalk.Cursor(x, y, up, i)).Some?
    ensures QrWalk.Step(size, QrWalk.Cursor(x, y, up, i)) == Some(QrWalk.Cursor(x', y', up', i'))
  {
    x', y', up', i' := x, y, up, i;
    if up {
      if y <= 0 {
        up' := false;
        x' := x' - 1;
        if x' == 7 {
          x' := x' - 1;
        }
        y' := 0;
      } else {
        if i % 2 == 0 {
          x' := x' - 1;
        } else {
          x' := x' + 1;
          y' := y' - 1;
        }
        i' := i' + 1;
      }
    } else {
      if y >= size - 1 {
        up' := true;
        x' := x' - 1;
        if x' == 7 {
          x' := x' - 1;
        }
        y' := size - 1;
      } else {
        if i % 2 == 0 {
          x' := x' - 1;
        } else {
          x' := x' + 1;
          y' := y' + 1;
        }
        i' := i' + 1;
      }
    }
  }

  class QrCode {
    /** The module matrix, `size * size` modules indexed `x + size * y`. */
    var data: seq<Bit>
    const version: nat
    const ecLevel: EcLevel
    const maskPattern: nat

    /** `size` (src/qrcode.rs:77-79). */
    function Size(): nat
    {
      SizeFromVersion(version)
    }

    /** A version `new` accepts and a matrix of `size * size` modules. */
    ghost predicate Valid()
      reads this
    {
      1 <= version <= 40 && |data| == Size() * Size()
    }

    constructor Init(version: nat, ecLevel: EcLevel, maskPattern: nat)
      requires 1 <= version <= 40
      ensures Valid()
      ensures this.version == version && this.ecLevel == ecLevel && this.maskPattern == maskPattern
      ensures data == Blank(SizeFromVersion(version))
    {
      this.version := version;
      this.ecLevel := ecLevel;
      this.maskPattern := maskPattern;
      data := Blank(SizeFromVersion(version));
    }

    /**
     * `new` (src/qrcode.rs:52-71): "Invalid version." for version 0 or above 40; otherwise a symbol
     * of side 17 + 4 * version whose modules are all Zero(false).
     */
    static method New(version: U8, ecLevel: EcLevel, maskPattern: U8) returns (r: Result<QrCode, string>)
      ensures r.Err? <==> version > 40 || version == 0
      ensures r.Err? ==> r.error == "Invalid version."
      ensures r.Ok? ==> fresh(r.value) && r.value.Valid()
      ensures r.Ok? ==> r.value.version == version && r.value.ecLevel == ecLevel && r.value.maskPattern == maskPattern
      ensures r.Ok? ==> r.value.Size() == 17 + 4 * version && r.value.data == Blank(r.value.Size())
    {
      if version > 40 || version == 0 {
        r := Err("Invalid version.");
      } else {
        var qr := new QrCode.Init(version, ecLevel, maskPattern);
        r := Ok(qr);
      }
    }

    /** `get` (src/qrcode.rs:22-28). */
    method Get(x: nat, y: nat) returns (b: Option<Bit>)
      requires Valid()
      ensures b == QrGrid.Get(data, Size(), x, y)
      ensures b.None? <==> !(x < Size() && y < Size())
      ensures b.Some? ==> b.value == At(data, Size(), x, y)
    {
      var size := Size();
      var index := CoordsToIndex(x, y, size);
      if index.Some? && index.value < |data| {
        b := Some(data[index.value]);
      } else {
        b := None;
      }
    }

    /** `put` (src/qrcode.rs:30-34): replaces module (x, y) if it is on the matrix, and nothing else. */
    method Put(x: nat, y: nat, b: Bit)
      requires Valid()
      modifies this
      ensures Valid()
      ensures data == QrGrid.Put(old(data), Size(), x, y, b)
      ensures forall x': nat, y': nat | x' < Size() && y' < Size() ::
        At(data, Size(), x', y') == if x' == x && y' == y then b else At(old(data), Size(), x', y')
    {
      var size := Size();
      var index := CoordsToIndex(x, y, size);
      if index.Some? {
        data := data[index.value := b];
      }
      forall x': nat, y': nat | x' < size && y' < size
        ensures At(data, size, x', y') == if x' == x && y' == y then b else At(old(data), size, x', y')
      {
        AtPut(old(data), size, x, y, b, x', y');
      }
    }

    /** `finder_patterns` (src/qrcode.rs:80-151). */
    method FinderPatterns()
      requires Valid()
      modifies this
      ensures Valid()
      ensures data == QrPatterns.FinderPatterns(old(data), Size())
    {
      var size := Size();
      ghost var before := data;
      var corners := QrPatterns.FinderCorners(size);
      for k := 0 to 3
        invariant Valid()
        invariant forall x: nat, y: nat | x < size && y < size ::
          At(data, size, x, y) == if FinderDone(size, k, x, y)
            then QrPatterns.Overlay(before, size, QrPatterns.FinderAt(size, x, y), x, y)
            else At(before, size, x, y)
      {
        var (cx, cy) := corners[k];
        for dx := 0 to 7
          invariant Valid()
          invariant forall x: nat, y: nat | x < size && y < size ::
            At(data, size, x, y) == if FinderDone(size, k, x, y) || InRect(cx, cy, dx, 7, x, y)
              then QrPatterns.Overlay(before, size, QrPatterns.FinderAt(size, x, y), x, y)
              else At(before, size, x, y)
        {
          for dy := 0 to 7
            invariant Valid()
            invariant forall x: nat, y: nat | x < size && y < size ::
              At(data, size, x, y) == if FinderDone(size, k, x, y) || InRect(cx, cy, dx, 7, x, y) || InRect(cx + dx, cy, 1, dy, x, y)
                then QrPatterns.Overlay(before, size, QrPatterns.FinderAt(size, x, y), x, y)
                else At(before, size, x, y)
          {
            FinderAtCorner(size, k, dx, dy);
            Put(cx + dx, cy + dy, FINDER_PATTERN[dx + 7 * dy]);
          }
        }
      }
      forall x: nat, y: nat | x < size && y < size
        ensures At(data, size, x, y) == At(QrPatterns.FinderPatterns(before, size), size, x, y)
      {
        QrPatterns.FinderPatternsAt(before, size, x, y);
      }
      Extensionality(data, QrPatterns.FinderPatterns(before, size), size);
    }

    /** `separators_patterns` (src/qrcode.rs:153-169): light functional strips beside the finders. */
    method SeparatorsPatterns()
      requires Valid()
      modifies this
      ensures Valid()
      ensures data == QrPatterns.Separators(old(data), Size())
    {
      var size := Size();
      ghost var before := data;
      var top := [(7, 0), (size - 8, 0), (7, size - 8)];
      var right := [(0, 7), (size - 7, 7), (0, size - 8)];
      for k := 0 to 3
        invariant Valid()
        invariant forall x: nat, y: nat | x < size && y < size ::
          At(data, size, x, y) == if Covered(top, 1, 8, k, x, y) then Zero(true) else At(before, size, x, y)
      {
        var (x0, y0) := top[k];
        for dy := 0 to 8
          invariant Valid()
          invariant forall x: nat, y: nat | x < size && y < size ::
            At(data, size, x, y) == if Covered(top, 1, 8, k, x, y) || InRect(x0, y0, 1, dy, x, y)
              then Zero(true) else At(before, size, x, y)
        {
          Put(x0, y0 + dy, Zero(true));
        }
      }
      for k := 0 to 3
        invariant Valid()
        invariant forall x: nat, y: nat | x < size && y < size ::
          At(data, size, x, y) == if Covered(top, 1, 8, 3, x, y) || Covered(right, 7, 1, k, x, y)
            then Zero(true) else At(before, size, x, y)
      {
        var (x0, y0) := right[k];
        for dx := 0 to 7
          invariant Valid()
          invariant forall x: nat, y: nat | x < size && y < size ::
            At(data, size, x, y) == if Covered(top, 1, 8, 3, x, y) || Covered(right, 7, 1, k, x, y) || InRect(x0, y0, dx, 1, x, y)
              then Zero(true) else At(before, size, x, y)
        {
          Put(x0 + dx, y0, Zero(true));
        }
      }
      forall x: nat, y: nat | x < size && y < size
        ensures At(data, size, x, y) == At(QrPatterns.Separators(before, size), size, x, y)
      {
        SeparatorStrips(size, top, right, x, y);
        QrPatterns.SeparatorsAt(before, size, x, y);
      }
      Extensionality(data, QrPatterns.Separators(before, size), size);
    }

    /** `draw_alignment_pattern` (src/qrcode.rs:183-229): the 5 x 5 pattern around (x, y) unless that module is functional. */
    method DrawAlignmentPattern(x: nat, y: nat)
      requires Valid() && QrPatterns.CentreInRange(Size(), (x, y))
      modifies this
      ensures Valid()
      ensures data == QrPatterns.DrawAlignment(old(data), Size(), x, y)
    {
      var size := Size();
      ghost var before := data;
      var cx := x - 2;
      var cy := y - 2;
      var centre := Get(x, y);
      if !centre.value.functional {
        for dx := 0 to 5
          invariant Valid()
          invariant forall x': nat, y': nat | x' < size && y' < size ::
            At(data, size, x', y') == if InRect(cx, cy, dx, 5, x', y')
              then QrPatterns.Overlay(before, size, QrPatterns.AlignmentAt(x, y, x', y'), x', y')
              else At(before, size, x', y')
        {
          for dy := 0 to 5
            invariant Valid()
            invariant forall x': nat, y': nat | x' < size && y' < size ::
              At(data, size, x', y') == if InRect(cx, cy, dx, 5, x', y') || InRect(cx + dx, cy, 1, dy, x', y')
                then QrPatterns.Overlay(before, size, QrPatterns.AlignmentAt(x, y, x', y'), x', y')
                else At(before, size, x', y')
          {
            Put(cx + dx, cy + dy, ALIGNMENT_PATTERN[dx + 5 * dy]);
          }
        }
        forall x': nat, y': nat | x' < size && y' < size
          ensures At(data, size, x', y') == At(QrPatterns.DrawAlignment(before, size, x, y), size, x', y')
        {
          QrPatterns.DrawAlignmentAt(before, size, x, y, x', y');
        }
        Extensionality(data, QrPatterns.DrawAlignment(before, size, x, y), size);
      }
    }

    /** `alignment_patterns` (src/qrcode.rs:231-281 for the table, 273-281 for the loop). */
    method AlignmentPatterns()
      requires Valid()
      modifies this
      ensures Valid()
      ensures data == QrPatterns.AlignmentPatterns(old(data), version)
    {
      var size := Size();
      ghost var before := data;
      if version == 1 {
        DrawAlignmentPattern(18, 18);
        assert [(18, 18)][..0] == [];
        assert QrPatterns.DrawAll(before, size, [(18, 18)]) == QrPatterns.DrawAlignment(before, size, 18, 18);
      } else {
        var combinations := Combination(AlignmentCoords(version - 2));
        ghost var centres := QrPatterns.AlignmentCentres(version);
        for k := 0 to |combinations|
          invariant Valid()
          invariant data == QrPatterns.DrawAll(before, size, centres[..k])
        {
          var (x, y) := combinations[k];
          DrawAlignmentPattern(x, y);
          assert centres[..k + 1][..k] == centres[..k];
        }
        assert centres[..|combinations|] == centres;
      }
    }

    /** `timing_patterns` (src/qrcode.rs:283-318): alternating modules on row 6 and column 6, skipping functional ones. */
    method TimingPatterns()
      requires Valid()
      modifies this
      ensures Valid()
      ensures data == QrPatterns.TimingPatterns(old(data), Size())
    {
      var size := Size();
      ghost var before := data;
      var length := size - 16;
      for dx := 0 to length
        invariant Valid()
        invariant forall x: nat, y: nat | x < size && y < size ::
          At(data, size, x, y) == if y == 6 && 8 <= x < dx + 8
            then QrPatterns.TimingModule(before, size, x, y) else At(before, size, x, y)
      {
        var x := dx + 8;
        var b := Get(x, 6);
        if !b.value.functional {
          var bit := if x % 2 == 0 then One(true) else Zero(true);
          Put(x, 6, bit);
        }
      }
      for dy := 0 to length
        invariant Valid()
        invariant forall x: nat, y: nat | x < size && y < size ::
          At(data, size, x, y) == if QrPatterns.OnTimingRow(size, x, y) || (x == 6 && 8 <= y < dy + 8)
            then QrPatterns.TimingModule(before, size, x, y) else At(before, size, x, y)
      {
        var y := dy + 8;
        var b := Get(6, y);
        if !b.value.functional {
          var bit := if y % 2 == 0 then One(true) else Zero(true);
          Put(6, y, bit);
        }
      }
      forall x: nat, y: nat | x < size && y < size
        ensures At(data, size, x, y) == At(QrPatterns.TimingPatterns(before, size), size, x, y)
      {
        QrPatterns.TimingPatternsAt(before, size, x, y);
      }
      Extensionality(data, QrPatterns.TimingPatterns(before, size), size);
    }

    /** `dark_module` (src/qrcode.rs:320-322). */
    method DarkModule()
      requires Valid()
      modifies this
      ensures Valid()
      ensures data == QrPatterns.DarkModule(old(data), version)
    {
      Put(8, 4 * version + 9, One(true));
    }

    /**
     * `format_information` (src/qrcode.rs:324-371), given the 15 modules that `Bit::from` makes of
     * FORMAT_BITS[mask + 8 * level]; the table lookup is why the index must stay below 32.
     */
    method FormatInformation(bits: seq<Bit>)
      requires Valid() && |bits| == 15
      requires QrPatterns.FormatIndex(maskPattern, ecLevel) < 32
      requires QrPatterns.FormatFits(data, Size(), bits)
      modifies this
      ensures Valid()
      ensures data == QrPatterns.FormatInformation(old(data), Size(), bits)
    {
      FormatRowStrip(bits);
      FormatColumnStrip(bits);
      FormatFixedStrips(bits);
    }

    /** First strip of `format_information` (src/qrcode.rs:342-350): free modules of row 8 take bits 0, 1, ... */
    method FormatRowStrip(bits: seq<Bit>)
      requires Valid() && |bits| == 15
      modifies this
      ensures Valid()
      ensures data == QrPatterns.RowStrip(old(data), Size(), bits)
    {
      var size := Size();
      ghost var before := data;
      var i := 0;
      for x := 0 to 9
        invariant Valid()
        invariant i == QrPatterns.FreeOnRow(before, size, x)
        invariant forall x': nat, y': nat | x' < size && y' < size ::
          At(data, size, x', y') == if y' == 8 && x' < x
            then QrPatterns.RowStripModule(before, size, bits, x', y') else At(before, size, x', y')
      {
        var b := Get(x, 8);
        if !b.value.functional {
          Put(x, 8, bits[i]);
          i := i + 1;
        }
      }
      forall x: nat, y: nat | x < size && y < size
        ensures At(data, size, x, y) == At(QrPatterns.RowStrip(before, size, bits), size, x, y)
      {
        QrPatterns.RowStripAt(before, size, bits, x, y);
      }
      Extensionality(data, QrPatterns.RowStrip(before, size, bits), size);
    }

    /** Second strip (src/qrcode.rs:352-359): free modules of column 8, from y = 8 up, take bits 7, 8, ... */
    method FormatColumnStrip(bits: seq<Bit>)
      requires Valid() && |bits| == 15
      requires QrPatterns.FreeOnColumn(data, Size(), 0) <= 8
      modifies this
      ensures Valid()
      ensures data == QrPatterns.ColumnStrip(old(data), Size(), bits)
    {
      var size := Size();
      ghost var before := data;
      var i := 7;
      for y := 9 downto 0
        invariant Valid()
        invariant i == 7 + QrPatterns.FreeOnColumn(before, size, y)
        invariant forall x': nat, y': nat | x' < size && y' < size ::
          At(data, size, x', y') == if x' == 8 && y <= y' < 9
            then QrPatterns.ColumnStripModule(before, size, bits, x', y') else At(before, size, x', y')
      {
        var b := Get(8, y);
        if !b.value.functional {
          QrPatterns.FreeOnColumnGrows(before, size, y);
          Put(8, y, bits[i]);
          i := i + 1;
        }
      }
      forall x: nat, y: nat | x < size && y < size
        ensures At(data, size, x, y) == At(QrPatterns.ColumnStrip(before, size, bits), size, x, y)
      {
        QrPatterns.ColumnStripAt(before, size, bits, x, y);
      }
      Extensionality(data, QrPatterns.ColumnStrip(before, size, bits), size);
    }

    /** Last two strips (src/qrcode.rs:361-370): bits 0..6 up column 8 at the bottom, bits 7..14 along row 8 at the right. */
    method FormatFixedStrips(bits: seq<Bit>)
      requires Valid() && |bits| == 15
      modifies this
      ensures Valid()
      ensures data == QrPatterns.FixedStrips(old(data), Size(), bits)
    {
      var size := Size();
      ghost var before := data;
      var i := 0;
      for y: nat := size downto size - 7
        invariant Valid()
        invariant i == size - y
        invariant forall x': nat, y': nat | x' < size && y' < size ::
          At(data, size, x', y') == if x' == 8 && y <= y' < size then bits[size - 1 - y'] else At(before, size, x', y')
      {
        Put(8, y, bits[i]);
        i := i + 1;
      }
      i := 7;
      for x: nat := size - 8 to size
        invariant Valid()
        invariant i == 7 + (x - (size - 8))
        invariant forall x': nat, y': nat | x' < size && y' < size ::
          At(data, size, x', y') ==
            if x' == 8 && size - 7 <= y' < size then bits[size - 1 - y']
            else if y' == 8 && size - 8 <= x' < x then bits[7 + (x' - (size - 8))]
            else At(before, size, x', y')
      {
        Put(x, 8, bits[i]);
        i := i + 1;
      }
      forall x: nat, y: nat | x < size && y < size
        ensures At(data, size, x, y) == At(QrPatterns.FixedStrips(before, size, bits), size, x, y)
      {
        QrPatterns.FixedStripsAt(before, size, bits, x, y);
      }
      Extensionality(data, QrPatterns.FixedStrips(before, size, bits), size);
    }

    /**
     * `version_information` (src/qrcode.rs:373-412), given the 18 modules that `Bit::from` makes of
     * VERSION_BITS[version - 7]; the source asserts the version is at least 7.
     */
    method VersionInformation(bits: seq<Bit>)
      requires Valid() && version >= 7 && |bits| == 18
      modifies this
      ensures Valid()
      ensures data == QrPatterns.VersionInformation(old(data), Size(), bits)
    {
      var size := Size();
      ghost var before := data;
      VersionBottomLeft(bits);
      VersionTopRight(bits);
      forall x: nat, y: nat | x < size && y < size
        ensures At(data, size, x, y) == At(QrPatterns.VersionInformation(before, size, bits), size, x, y)
      {
        QrPatterns.VersionInformationAt(before, size, bits, x, y);
      }
      Extensionality(data, QrPatterns.VersionInformation(before, size, bits), size);
    }

    /** First loop of `version_information` (src/qrcode.rs:388-397): bit i at (i / 3, size - 11 + i % 3). */
    method VersionBottomLeft(bits: seq<Bit>)
      requires Valid() && version >= 7 && |bits| == 18
      modifies this
      ensures Valid()
      ensures forall x': nat, y': nat | x' < Size() && y' < Size() ::
        At(data, Size(), x', y') == if x' < 6 && Size() - 11 <= y' < Size() - 8
          then bits[3 * x' + (y' - (Size() - 11))] else At(old(data), Size(), x', y')
    {
      var size := Size();
      ghost var before := data;
      var x: nat := 0;
      var y: nat := size - 11;
      for i := 0 to 18
        invariant Valid()
        invariant size - 11 <= y <= size - 8
        invariant 3 * x + (y - (size - 11)) == i
        invariant y == size - 11 <==> i == 0
        invariant forall x': nat, y': nat | x' < size && y' < size ::
          At(data, size, x', y') == if x' < 6 && size - 11 <= y' < size - 8 && 3 * x' + (y' - (size - 11)) < i
            then bits[3 * x' + (y' - (size - 11))] else At(before, size, x', y')
      {
        if i % 3 == 0 && i != 0 {
          x := x + 1;
          y := size - 11;
        }
        Put(x, y, bits[i]);
        y := y + 1;
      }
    }

    /** Second loop of `version_information` (src/qrcode.rs:399-409): bit i at (size - 11 + i % 3, i / 3). */
    method VersionTopRight(bits: seq<Bit>)
      requires Valid() && version >= 7 && |bits| == 18
      modifies this
      ensures Valid()
      ensures forall x': nat, y': nat | x' < Size() && y' < Size() ::
        At(data, Size(), x', y') == if Size() - 11 <= x' < Size() - 8 && y' < 6
          then bits[3 * y' + (x' - (Size() - 11))] else At(old(data), Size(), x', y')
    {
      var size := Size();
      ghost var before := data;
      var x: nat := size - 11;
      var y: nat := 0;
      for i := 0 to 18
        invariant Valid()
        invariant size - 11 <= x <= size - 8
        invariant 3 * y + (x - (size - 11)) == i
        invariant x == size - 11 <==> i == 0
        invariant forall x': nat, y': nat | x' < size && y' < size ::
          At(data, size, x', y') == if size - 11 <= x' < size - 8 && y' < 6 && 3 * y' + (x' - (size - 11)) < i
            then bits[3 * y' + (x' - (size - 11))] else At(before, size, x', y')
      {
        if i % 3 == 0 && i != 0 {
          y := y + 1;
          x := size - 11;
        }
        Put(x, y, bits[i]);
        x := x + 1;
      }
    }

    /** `all_functional_patterns` (src/qrcode.rs:414-424): the painters in order, version blocks from version 7. */
    method AllFunctionalPatterns(formatBits: seq<Bit>, versionBits: seq<Bit>)
      requires Valid() && |formatBits| == 15 && (version >= 7 ==> |versionBits| == 18)
      requires QrPatterns.FormatIndex(maskPattern, ecLevel) < 32
      modifies this
      ensures Valid()
      ensures data == QrPatterns.AllFunctionalPatterns(old(data), version, formatBits, versionBits)
    {
      ghost var before := data;
      FinderPatterns();
      SeparatorsPatterns();
      AlignmentPatterns();
      TimingPatterns();
      DarkModule();
      assert data == QrPatterns.PatternsBeforeFormat(before, version);
      QrPatterns.FormatFitsAfterTiming(before, version, formatBits);
      FormatInformation(formatBits);
      if version >= 7 {
        VersionInformation(versionBits);
      }
    }

    /**
     * `fill` (src/qrcode.rs:426-485): for each bit, step the cursor until `get` finds a
     * non-functional module, and put the bit there. The source panics when x would drop below
     * zero; the precondition is that it does not.
     */
    method Fill(bits: seq<Bit>)
      requires Valid() && QrWalk.Fill(data, Size(), bits).Some?
      modifies this
      ensures Valid()
      ensures Some(data) == QrWalk.Fill(old(data), Size(), bits)
    {
      var size := Size();
      var x: nat := size - 1;
      var y: nat := size - 1;
      var up := true;
      var i: nat := 0;
      assert QrWalk.Cursor(x, y, up, i) == QrWalk.Start(size) && bits[0..] == bits;
      for k := 0 to |bits|
        invariant Valid()
        invariant QrWalk.InWalk(size, QrWalk.Cursor(x, y, up, i))
        invariant QrWalk.FillFrom(data, size, QrWalk.Cursor(x, y, up, i), bits[k..]) == QrWalk.Fill(old(data), size, bits)
      {
        ghost var from := QrWalk.Cursor(x, y, up, i);
        ghost var target := QrWalk.Advance(data, size, from);
        assert target.Some?;
        ghost var snapshot := data;
        while true
          invariant data == snapshot
          invariant QrWalk.InWalk(size, QrWalk.Cursor(x, y, up, i))
          invariant QrWalk.Advance(data, size, QrWalk.Cursor(x, y, up, i)) == target
          decreases QrWalk.XRight(QrWalk.Cursor(x, y, up, i)), QrWalk.Remaining(size, QrWalk.Cursor(x, y, up, i))
        {
          ghost var before := QrWalk.Cursor(x, y, up, i);
          x, y, up, i := Turn(size, x, y, up, i);
          var b := Get(x, y);
          if !b.value.functional {
            assert target == Some(QrWalk.Cursor(x, y, up, i));
            break;
          }
        }
        assert bits[k..][1..] == bits[k + 1..];
        Put(x, y, bits[k]);
      }
      assert bits[|bits|..] == [];
    }
  }
}
