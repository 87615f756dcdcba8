/**
 * The constant tables of src/qrcode.rs: the finder and alignment patterns, the alignment centre
 * coordinates of each version, and the format and version words. The lookup tables are written as
 * balanced decision trees over the row index, holding the entries of the source in order.
 */
module QrTables {
  import opened QrGrid

  /** FINDER_PATTERN (src/qrcode.rs:82-132), row-major 7 x 7, written as its seven rows. */
  const FINDER_PATTERN: seq<Bit> :=
    [One(true), One(true), One(true), One(true), One(true), One(true), One(true)] +
    [One(true), Zero(true), Zero(true), Zero(true), Zero(true), Zero(true), One(true)] +
    [One(true), Zero(true), One(true), One(true), One(true), Zero(true), One(true)] +
    [One(true), Zero(true), One(true), One(true), One(true), Zero(true), One(true)] +
    [One(true), Zero(true), One(true), One(true), One(true), Zero(true), One(true)] +
    [One(true), Zero(true), Zero(true), Zero(true), Zero(true), Zero(true), One(true)] +
    [One(true), One(true), One(true), One(true), One(true), One(true), One(true)]

  /** ALIGNMENT_PATTERN (src/qrcode.rs:189-215), row-major 5 x 5. */
  const ALIGNMENT_PATTERN: seq<Bit> :=
    [One(true), One(true), One(true), One(true), One(true)] +
    [One(true), Zero(true), Zero(true), Zero(true), One(true)] +
    [One(true), Zero(true), One(true), Zero(true), One(true)] +
    [One(true), Zero(true), Zero(true), Zero(true), One(true)] +
    [One(true), One(true), One(true), One(true), One(true)]

  /** `COORDS[row]` (src/qrcode.rs:231-271): the alignment centre coordinates of version row + 2. */
  function AlignmentCoords(row: nat): seq<nat>
    requires row < 39
  {
    if row < 19 then
      if row < 9 then
        if row < 4 then
          if row < 2 then
            if row < 1 then
              [6, 18]
            else
              [6, 22]
          else
            if row < 3 then
              [6, 26]
            else
              [6, 30]
        else
          if row < 6 then
            if row < 5 then
              [6, 34]
            else
              [6, 22, 38]
          else
            if row < 7 then
              [6, 24, 42]
            else
              if row < 8 then
                [6, 26, 46]
              else
                [6, 28, 50]
      else
        if row < 14 then
          if row < 11 then
            if row < 10 then
              [6, 30, 54]
            else
              [6, 32, 58]
          else
            if row < 12 then
              [6, 34, 62]
            else
              if row < 13 then
                [6, 26, 46, 66]
              else
                [6, 26, 48, 70]
        else
          if row < 16 then
            if row < 15 then
              [6, 26, 50, 74]
            else
              [6, 30, 54, 78]
          else
            if row < 17 then
              [6, 30, 56, 82]
            else
              if row < 18 then
                [6, 30, 58, 86]
              else
                [6, 34, 62, 90]
    else
      if row < 29 then
        if row < 24 then
          if row < 21 then
            if row < 20 then
              [6, 28, 50, 72, 94]
            else
              [6, 26, 50, 74, 98]
          else
            if row < 22 then
              [6, 30, 54, 78, 102]
            else
              if row < 23 then
                [6, 28, 54, 80, 106]
              else
                [6, 32, 58, 84, 110]
        else
          if row < 26 then
            if row < 25 then
              [6, 30, 58, 86, 114]
            else
              [6, 34, 62, 90, 118]
          else
            if row < 27 then
              [6, 26, 50, 74, 98, 122]
            else
              if row < 28 then
                [6, 30, 54, 78, 102, 126]
              else
                [6, 26, 52, 78, 104, 130]
      else
        if row < 34 then
          if row < 31 then
            if row < 30 then
              [6, 30, 56, 82, 108, 134]
            else
              [6, 34, 60, 86, 112, 138]
          else
            if row < 32 then
              [6, 30, 58, 86, 114, 142]
            else
              if row < 33 then
                [6, 34, 62, 90, 118, 146]
              else
                [6, 30, 54, 78, 102, 126, 150]
        else
          if row < 36 then
            if row < 35 then
              [6, 24, 50, 76, 102, 128, 154]
            else
              [6, 28, 54, 80, 106, 132, 158]
          else
            if row < 37 then
              [6, 32, 58, 84, 110, 136, 162]
            else
              if row < 38 then
                [6, 26, 54, 82, 110, 138, 166]
              else
                [6, 30, 58, 86, 114, 142, 170]
  }

  /** `FORMAT_BITS[index]` (src/qrcode.rs:325-329): the masked 15-bit format word. */
  function FormatBits(index: nat): bv32
    requires index < 32
  {
    if index < 16 then
      if index < 8 then
        if index < 4 then
          if index < 2 then
            if index < 1 then
              0x77C4
            else
              0x72F3
          else
            if index < 3 then
              0x7DAA
            else
              0x789D
        else
          if index < 6 then
            if index < 5 then
              0x662F
            else
              0x6318
          else
            if index < 7 then
              0x6C41
            else
              0x6976
      else
        if index < 12 then
          if index < 10 then
            if index < 9 then
              0x5412
            else
              0x5125
          else
            if index < 11 then
              0x5E7C
            else
              0x5B4B
        else
          if index < 14 then
            if index < 13 then
              0x45F9
            else
              0x40CE
          else
            if index < 15 then
              0x4F97
            else
              0x4AA0
    else
      if index < 24 then
        if index < 20 then
          if index < 18 then
            if index < 17 then
              0x355F
            else
              0x3068
          else
            if index < 19 then
              0x3F31
            else
              0x3A06
        else
          if index < 22 then
            if index < 21 then
              0x24B4
            else
              0x2183
          else
            if index < 23 then
              0x2EDA
            else
              0x2BED
      else
        if index < 28 then
          if index < 26 then
            if index < 25 then
              0x1689
            else
              0x13BE
          else
            if index < 27 then
              0x1CE7
            else
              0x19D0
        else
          if index < 30 then
            if index < 29 then
              0x0762
            else
              0x0255
          else
            if index < 31 then
              0x0D0C
            else
              0x083B
  }

  /** `VERSION_BITS[row]` (src/qrcode.rs:379-384): the 18-bit version word of version row + 7. */
  function VersionBits(row: nat): bv32
    requires row < 34
  {
    if row < 17 then
      if row < 8 then
        if row < 4 then
          if row < 2 then
            if row < 1 then
              0x07C94
            else
              0x085BC
          else
            if row < 3 then
              0x09A99
            else
              0x0A4D3
        else
          if row < 6 then
            if row < 5 then
              0x0BBF6
            else
              0x0C762
          else
            if row < 7 then
              0x0D847
            else
              0x0E60D
      else
        if row < 12 then
          if row < 10 then
            if row < 9 then
              0x0F928
            else
              0x10B78
          else
            if row < 11 then
              0x1145D
            else
              0x12A17
        else
          if row < 14 then
            if row < 13 then
              0x13532
            else
              0x149A6
          else
            if row < 15 then
              0x15683
            else
              if row < 16 then
                0x168C9
              else
                0x177EC
    else
      if row < 25 then
        if row < 21 then
          if row < 19 then
            if row < 18 then
              0x18EC4
            else
              0x191E1
          else
            if row < 20 then
              0x1AFAB
            else
              0x1B08E
        else
          if row < 23 then
            if row < 22 then
              0x1CC1A
            else
              0x1D33F
          else
            if row < 24 then
              0x1ED75
            else
              0x1F250
      else
        if row < 29 then
          if row < 27 then
            if row < 26 then
              0x209D5
            else
              0x216F0
          else
            if row < 28 then
              0x228BA
            else
              0x2379F
        else
          if row < 31 then
            if row < 30 then
              0x24B0B
            else
              0x2542E
          else
            if row < 32 then
              0x26A64
            else
              if row < 33 then
                0x27541
              else
                0x28C69
  }

  /**
   * The shape Annex E of ISO/IEC 18004:2006 gives one coordinate list: at least two strictly
   * increasing coordinates from 6 to size - 7, so every centre lies at least 6 modules inside each
   * edge, and all but the first are at least 18, clear of the top-left finder and its format strips.
   */
  predicate CoordsShaped(version: nat, coords: seq<nat>)
  {
    |coords| >= 2 && coords[0] == 6 && coords[|coords| - 1] + 7 == SizeFromVersion(version)
    && (forall k | 0 <= k < |coords| - 1 :: coords[k] < coords[k + 1])
    && (forall k | 0 <= k < |coords| :: 6 <= coords[k] && coords[k] + 7 <= SizeFromVersion(version))
    && (forall k | 1 <= k < |coords| :: 18 <= coords[k])
  }

  lemma AlignmentCoordsFacts0()
    ensures CoordsShaped(2, AlignmentCoords(0))
    ensures CoordsShaped(3, AlignmentCoords(1))
    ensures CoordsShaped(4, AlignmentCoords(2))
    ensures CoordsShaped(5, AlignmentCoords(3))
  {
  }

  lemma AlignmentCoordsIn0(row: nat)
    requires 0 <= row < 4
    ensures CoordsShaped(row + 2, AlignmentCoords(row))
  {
    AlignmentCoordsFacts0();
    assert row == 0 || row == 1 || row == 2 || row == 3;
  }

  lemma AlignmentCoordsFacts1()
    ensures CoordsShaped(6, AlignmentCoords(4))
    ensures CoordsShaped(7, AlignmentCoords(5))
    ensures CoordsShaped(8, AlignmentCoords(6))
    ensures CoordsShaped(9, AlignmentCoords(7))
  {
  }

  lemma AlignmentCoordsIn1(row: nat)
    requires 4 <= row < 8
    ensures CoordsShaped(row + 2, AlignmentCoords(row))
  {
    AlignmentCoordsFacts1();
    assert row == 4 || row == 5 || row == 6 || row == 7;
  }

  lemma AlignmentCoordsFacts2()
    ensures CoordsShaped(10, AlignmentCoords(8))
    ensures CoordsShaped(11, AlignmentCoords(9))
    ensures CoordsShaped(12, AlignmentCoords(10))
    ensures CoordsShaped(13, AlignmentCoords(11))
  {
  }

  lemma AlignmentCoordsIn2(row: nat)
    requires 8 <= row < 12
    ensures CoordsShaped(row + 2, AlignmentCoords(row))
  {
    AlignmentCoordsFacts2();
    assert row == 8 || row == 9 || row == 10 || row == 11;
  }

  lemma AlignmentCoordsFacts3()
    ensures CoordsShaped(14, AlignmentCoords(12))
    ensures CoordsShaped(15, AlignmentCoords(13))
    ensures CoordsShaped(16, AlignmentCoords(14))
    ensures CoordsShaped(17, AlignmentCoords(15))
  {
  }

  lemma AlignmentCoordsIn3(row: nat)
    requires 12 <= row < 16
    ensures CoordsShaped(row + 2, AlignmentCoords(row))
  {
    AlignmentCoordsFacts3();
    assert row == 12 || row == 13 || row == 14 || row == 15;
  }

  lemma AlignmentCoordsFacts4()
    ensures CoordsShaped(18, AlignmentCoords(16))
    ensures CoordsShaped(19, AlignmentCoords(17))
    ensures CoordsShaped(20, AlignmentCoords(18))
    ensures CoordsShaped(21, AlignmentCoords(19))
  {
  }

  lemma AlignmentCoordsIn4(row: nat)
    requires 16 <= row < 20
    ensures CoordsShaped(row + 2, AlignmentCoords(row))
  {
    AlignmentCoordsFacts4();
    assert row == 16 || row == 17 || row == 18 || row == 19;
  }

  lemma AlignmentCoordsFacts5()
    ensures CoordsShaped(22, AlignmentCoords(20))
    ensures CoordsShaped(23, AlignmentCoords(21))
    ensures CoordsShaped(24, AlignmentCoords(22))
    ensures CoordsShaped(25, AlignmentCoords(23))
  {
  }

  lemma AlignmentCoordsIn5(row: nat)
    requires 20 <= row < 24
    ensures CoordsShaped(row + 2, AlignmentCoords(row))
  {
    AlignmentCoordsFacts5();
    assert row == 20 || row == 21 || row == 22 || row == 23;
  }

  lemma AlignmentCoordsFacts6()
    ensures CoordsShaped(26, AlignmentCoords(24))
    ensures CoordsShaped(27, AlignmentCoords(25))
    ensures CoordsShaped(28, AlignmentCoords(26))
    ensures CoordsShaped(29, AlignmentCoords(27))
  {
  }

  lemma AlignmentCoordsIn6(row: nat)
    requires 24 <= row < 28
    ensures CoordsShaped(row + 2, AlignmentCoords(row))
  {
    AlignmentCoordsFacts6();
    assert row == 24 || row == 25 || row == 26 || row == 27;
  }

  lemma AlignmentCoordsFacts7()
    ensures CoordsShaped(30, AlignmentCoords(28))
    ensures CoordsShaped(31, AlignmentCoords(29))
  {
  }

  lemma AlignmentCoordsFacts7b()
    ensures CoordsShaped(32, AlignmentCoords(30))
    ensures CoordsShaped(33, AlignmentCoords(31))
  {
  }

  lemma AlignmentCoordsIn7(row: nat)
    requires 28 <= row < 32
    ensures CoordsShaped(row + 2, AlignmentCoords(row))
  {
    AlignmentCoordsFacts7();
    AlignmentCoordsFacts7b();
    assert row == 28 || row == 29 || row == 30 || row == 31;
  }

  lemma AlignmentCoordsFacts8()
    ensures CoordsShaped(34, AlignmentCoords(32))
    ensures CoordsShaped(35, AlignmentCoords(33))
  {
  }

  lemma AlignmentCoordsFacts8b()
    ensures CoordsShaped(36, AlignmentCoords(34))
    ensures CoordsShaped(37, AlignmentCoords(35))
  {
  }

  lemma AlignmentCoordsIn8(row: nat)
    requires 32 <= row < 36
    ensures CoordsShaped(row + 2, AlignmentCoords(row))
  {
    AlignmentCoordsFacts8();
    AlignmentCoordsFacts8b();
    assert row == 32 || row == 33 || row == 34 || row == 35;
  }

  lemma AlignmentCoordsFacts9()
    ensures CoordsShaped(38, AlignmentCoords(36))
    ensures CoordsShaped(39, AlignmentCoords(37))
  {
  }

  lemma AlignmentCoordsFacts9b()
    ensures CoordsShaped(40, AlignmentCoords(38))
  {
  }

  lemma AlignmentCoordsIn9(row: nat)
    requires 36 <= row < 39
    ensures CoordsShaped(row + 2, AlignmentCoords(row))
  {
    AlignmentCoordsFacts9();
    AlignmentCoordsFacts9b();
    assert row == 36 || row == 37 || row == 38;
  }

  /** Every version 2..40 lists its alignment coordinates in the shape of Annex E of ISO/IEC 18004:2006. */
  lemma AlignmentCoordsShape(version: nat)
    requires 2 <= version <= 40
    ensures CoordsShaped(version, AlignmentCoords(version - 2))
  {
    var row := version - 2;
    if row < 20 {
      if row < 8 {
        if row < 4 {
          AlignmentCoordsIn0(row);
        } else {
          AlignmentCoordsIn1(row);
        }
      } else {
        if row < 12 {
          AlignmentCoordsIn2(row);
        } else {
          if row < 16 {
            AlignmentCoordsIn3(row);
          } else {
            AlignmentCoordsIn4(row);
          }
        }
      }
    } else {
      if row < 28 {
        if row < 24 {
          AlignmentCoordsIn5(row);
        } else {
          AlignmentCoordsIn6(row);
        }
      } else {
        if row < 32 {
          AlignmentCoordsIn7(row);
        } else {
          if row < 36 {
            AlignmentCoordsIn8(row);
          } else {
            AlignmentCoordsIn9(row);
          }
        }
      }
    }
  }

  /**
   * The two error-correction level bits that section 6.9.1 of ISO/IEC 18004 assigns to the table
   * column `column` (L, M, Q, H): 01, 00, 11, 10.
   */
  function LevelIndicator(column: nat): nat
    requires column < 4
  {
    if column == 0 then 1 else if column == 1 then 0 else if column == 2 then 3 else 2
  }

  /** Unmasking entry `index` of FORMAT_BITS gives the level indicator of column index / 8 followed by mask index % 8. */
  predicate FormatWordDecodes(index: nat)
    requires index < 32
  {
    FormatBits(index) < 0x8000
    && ((FormatBits(index) ^ 0x5412) >> 10) as nat == 8 * LevelIndicator(index / 8) + index % 8
  }

  lemma FormatBitsFacts0()
    ensures FormatWordDecodes(0)
    ensures FormatWordDecodes(1)
    ensures FormatWordDecodes(2)
    ensures FormatWordDecodes(3)
  {
  }

  lemma FormatBitsFacts1()
    ensures FormatWordDecodes(4)
    ensures FormatWordDecodes(5)
    ensures FormatWordDecodes(6)
    ensures FormatWordDecodes(7)
  {
  }

  lemma FormatBitsFacts2()
    ensures FormatWordDecodes(8)
    ensures FormatWordDecodes(9)
    ensures FormatWordDecodes(10)
    ensures FormatWordDecodes(11)
  {
  }

  lemma FormatBitsFacts3()
    ensures FormatWordDecodes(12)
    ensures FormatWordDecodes(13)
    ensures FormatWordDecodes(14)
    ensures FormatWordDecodes(15)
  {
  }

  lemma FormatBitsFacts4()
    ensures FormatWordDecodes(16)
    ensures FormatWordDecodes(17)
    ensures FormatWordDecodes(18)
    ensures FormatWordDecodes(19)
  {
  }

  lemma FormatBitsFacts5()
    ensures FormatWordDecodes(20)
    ensures FormatWordDecodes(21)
    ensures FormatWordDecodes(22)
    ensures FormatWordDecodes(23)
  {
  }

  lemma FormatBitsFacts6()
    ensures FormatWordDecodes(24)
    ensures FormatWordDecodes(25)
    ensures FormatWordDecodes(26)
    ensures FormatWordDecodes(27)
  {
  }

  lemma FormatBitsFacts7()
    ensures FormatWordDecodes(28)
    ensures FormatWordDecodes(29)
    ensures FormatWordDecodes(30)
    ensures FormatWordDecodes(31)
  {
  }

  lemma FormatBitsIn0(index: nat)
    requires 0 <= index < 4
    ensures FormatWordDecodes(index)
  {
    FormatBitsFacts0();
    assert index == 0 || index == 1 || index == 2 || index == 3;
  }

  lemma FormatBitsIn1(index: nat)
    requires 4 <= index < 8
    ensures FormatWordDecodes(index)
  {
    FormatBitsFacts1();
    assert index == 4 || index == 5 || index == 6 || index == 7;
  }

  lemma FormatBitsIn2(index: nat)
    requires 8 <= index < 12
    ensures FormatWordDecodes(index)
  {
    FormatBitsFacts2();
    assert index == 8 || index == 9 || index == 10 || index == 11;
  }

  lemma FormatBitsIn3(index: nat)
    requires 12 <= index < 16
    ensures FormatWordDecodes(index)
  {
    FormatBitsFacts3();
    assert index == 12 || index == 13 || index == 14 || index == 15;
  }

  lemma FormatBitsIn4(index: nat)
    requires 16 <= index < 20
    ensures FormatWordDecodes(index)
  {
    FormatBitsFacts4();
    assert index == 16 || index == 17 || index == 18 || index == 19;
  }

  lemma FormatBitsIn5(index: nat)
    requires 20 <= index < 24
    ensures FormatWordDecodes(index)
  {
    FormatBitsFacts5();
    assert index == 20 || index == 21 || index == 22 || index == 23;
  }

  lemma FormatBitsIn6(index: nat)
    requires 24 <= index < 28
    ensures FormatWordDecodes(index)
  {
    FormatBitsFacts6();
    assert index == 24 || index == 25 || index == 26 || index == 27;
  }

  lemma FormatBitsIn7(index: nat)
    requires 28 <= index < 32
    ensures FormatWordDecodes(index)
  {
    FormatBitsFacts7();
    assert index == 28 || index == 29 || index == 30 || index == 31;
  }

  /** Every format word is 15 bits wide and, unmasked, carries its level indicator and mask. */
  lemma FormatBitsDecode(index: nat)
    requires index < 32
    ensures FormatWordDecodes(index)
  {
    if index < 16 {
      if index < 8 {
        if index < 4 {
          FormatBitsIn0(index);
        } else {
          FormatBitsIn1(index);
        }
      } else {
        if index < 12 {
          FormatBitsIn2(index);
        } else {
          FormatBitsIn3(index);
        }
      }
    } else {
      if index < 24 {
        if index < 20 {
          FormatBitsIn4(index);
        } else {
          FormatBitsIn5(index);
        }
      } else {
        if index < 28 {
          FormatBitsIn6(index);
        } else {
          FormatBitsIn7(index);
        }
      }
    }
  }

  /** Entry `row` of VERSION_BITS is 18 bits wide and its top six bits are the version row + 7. */
  predicate VersionWordDecodes(row: nat)
    requires row < 34
  {
    VersionBits(row) < 0x40000 && (VersionBits(row) >> 12) as nat == row + 7
  }

  lemma VersionBitsFacts0()
    ensures VersionWordDecodes(0)
    ensures VersionWordDecodes(1)
    ensures VersionWordDecodes(2)
    ensures VersionWordDecodes(3)
  {
  }

  lemma VersionBitsFacts1()
    ensures VersionWordDecodes(4)
    ensures VersionWordDecodes(5)
    ensures VersionWordDecodes(6)
    ensures VersionWordDecodes(7)
  {
  }

  lemma VersionBitsFacts2()
    ensures VersionWordDecodes(8)
    ensures VersionWordDecodes(9)
    ensures VersionWordDecodes(10)
    ensures VersionWordDecodes(11)
  {
  }

  lemma VersionBitsFacts3()
    ensures VersionWordDecodes(12)
    ensures VersionWordDecodes(13)
    ensures VersionWordDecodes(14)
    ensures VersionWordDecodes(15)
  {
  }

  lemma VersionBitsFacts4()
    ensures VersionWordDecodes(16)
    ensures VersionWordDecodes(17)
    ensures VersionWordDecodes(18)
    ensures VersionWordDecodes(19)
  {
  }

  lemma VersionBitsFacts5()
    ensures VersionWordDecodes(20)
    ensures VersionWordDecodes(21)
    ensures VersionWordDecodes(22)
    ensures VersionWordDecodes(23)
  {
  }

  lemma VersionBitsFacts6()
    ensures VersionWordDecodes(24)
    ensures VersionWordDecodes(25)
    ensures VersionWordDecodes(26)
    ensures VersionWordDecodes(27)
  {
  }

  lemma VersionBitsFacts7()
    ensures VersionWordDecodes(28)
    ensures VersionWordDecodes(29)
    ensures VersionWordDecodes(30)
    ensures VersionWordDecodes(31)
  {
  }

  lemma VersionBitsFacts8()
    ensures VersionWordDecodes(32)
    ensures VersionWordDecodes(33)
  {
  }

  /** Every version word is 18 bits wide and carries its version in its top six bits. */
  lemma VersionBitsDecode(row: nat)
    requires row < 34
    ensures VersionWordDecodes(row)
  {
    if row < 16 {
      if row < 8 {
        if row < 4 {
          VersionBitsFacts0();
          assert row == 0 || row == 1 || row == 2 || row == 3;
        } else {
          VersionBitsFacts1();
          assert row == 4 || row == 5 || row == 6 || row == 7;
        }
      } else {
        if row < 12 {
          VersionBitsFacts2();
          assert row == 8 || row == 9 || row == 10 || row == 11;
        } else {
          VersionBitsFacts3();
          assert row == 12 || row == 13 || row == 14 || row == 15;
        }
      }
    } else {
      if row < 24 {
        if row < 20 {
          VersionBitsFacts4();
          assert row == 16 || row == 17 || row == 18 || row == 19;
        } else {
          VersionBitsFacts5();
          assert row == 20 || row == 21 || row == 22 || row == 23;
        }
      } else {
        if row < 28 {
          VersionBitsFacts6();
          assert row == 24 || row == 25 || row == 26 || row == 27;
        } else {
          if row < 32 {
            VersionBitsFacts7();
            assert row == 28 || row == 29 || row == 30 || row == 31;
          } else {
            VersionBitsFacts8();
            assert row == 32 || row == 33;
          }
        }
      }
    }
  }
}
