/**
 * The Galois field GF(256) behind the Reed-Solomon encoder of src/ec.rs: its exponential and
 * logarithm tables, built on the primitive polynomial x^8 + x^4 + x^3 + x^2 + 1 (0x11D),
 * and the facts the encoder relies on.
 */
module Gf256 {

  /** Entry `j` of sixteen consecutive table bytes. */
  function Select16(j: nat, b0: bv8, b1: bv8, b2: bv8, b3: bv8, b4: bv8, b5: bv8, b6: bv8, b7: bv8, b8: bv8, b9: bv8, b10: bv8, b11: bv8, b12: bv8, b13: bv8, b14: bv8, b15: bv8): bv8
    requires j < 16
  {
    if j < 8 then
      if j < 4 then
        if j < 2 then
          if j < 1 then
            b0
          else
            b1
        else
          if j < 3 then
            b2
          else
            b3
      else
        if j < 6 then
          if j < 5 then
            b4
          else
            b5
        else
          if j < 7 then
            b6
          else
            b7
    else
      if j < 12 then
        if j < 10 then
          if j < 9 then
            b8
          else
            b9
        else
          if j < 11 then
            b10
          else
            b11
      else
        if j < 14 then
          if j < 13 then
            b12
          else
            b13
        else
          if j < 15 then
            b14
          else
            b15
  }

  /** `EXP_TABLE` (src/ec.rs:203-218): entry i is the field element α^i, for i = 0..255. */
  function ExpTable(i: nat): bv8
    requires i < 256
  {
    if i < 128 then
      if i < 64 then
        if i < 32 then
          if i < 16 then
            Select16(i - 0, 0x01, 0x02, 0x04, 0x08, 0x10, 0x20, 0x40, 0x80, 0x1d, 0x3a, 0x74, 0xe8, 0xcd, 0x87, 0x13, 0x26)
          else
            Select16(i - 16, 0x4c, 0x98, 0x2d, 0x5a, 0xb4, 0x75, 0xea, 0xc9, 0x8f, 0x03, 0x06, 0x0c, 0x18, 0x30, 0x60, 0xc0)
        else
          if i < 48 then
            Select16(i - 32, 0x9d, 0x27, 0x4e, 0x9c, 0x25, 0x4a, 0x94, 0x35, 0x6a, 0xd4, 0xb5, 0x77, 0xee, 0xc1, 0x9f, 0x23)
          else
            Select16(i - 48, 0x46, 0x8c, 0x05, 0x0a, 0x14, 0x28, 0x50, 0xa0, 0x5d, 0xba, 0x69, 0xd2, 0xb9, 0x6f, 0xde, 0xa1)
      else
        if i < 96 then
          if i < 80 then
            Select16(i - 64, 0x5f, 0xbe, 0x61, 0xc2, 0x99, 0x2f, 0x5e, 0xbc, 0x65, 0xca, 0x89, 0x0f, 0x1e, 0x3c, 0x78, 0xf0)
          else
            Select16(i - 80, 0xfd, 0xe7, 0xd3, 0xbb, 0x6b, 0xd6, 0xb1, 0x7f, 0xfe, 0xe1, 0xdf, 0xa3, 0x5b, 0xb6, 0x71, 0xe2)
        else
          if i < 112 then
            Select16(i - 96, 0xd9, 0xaf, 0x43, 0x86, 0x11, 0x22, 0x44, 0x88, 0x0d, 0x1a, 0x34, 0x68, 0xd0, 0xbd, 0x67, 0xce)
          else
            Select16(i - 112, 0x81, 0x1f, 0x3e, 0x7c, 0xf8, 0xed, 0xc7, 0x93, 0x3b, 0x76, 0xec, 0xc5, 0x97, 0x33, 0x66, 0xcc)
    else
      if i < 192 then
        if i < 160 then
          if i < 144 then
            Select16(i - 128, 0x85, 0x17, 0x2e, 0x5c, 0xb8, 0x6d, 0xda, 0xa9, 0x4f, 0x9e, 0x21, 0x42, 0x84, 0x15, 0x2a, 0x54)
          else
            Select16(i - 144, 0xa8, 0x4d, 0x9a, 0x29, 0x52, 0xa4, 0x55, 0xaa, 0x49, 0x92, 0x39, 0x72, 0xe4, 0xd5, 0xb7, 0x73)
        else
          if i < 176 then
            Select16(i - 160, 0xe6, 0xd1, 0xbf, 0x63, 0xc6, 0x91, 0x3f, 0x7e, 0xfc, 0xe5, 0xd7, 0xb3, 0x7b, 0xf6, 0xf1, 0xff)
          else
            Select16(i - 176, 0xe3, 0xdb, 0xab, 0x4b, 0x96, 0x31, 0x62, 0xc4, 0x95, 0x37, 0x6e, 0xdc, 0xa5, 0x57, 0xae, 0x41)
      else
        if i < 224 then
          if i < 208 then
            Select16(i - 192, 0x82, 0x19, 0x32, 0x64, 0xc8, 0x8d, 0x07, 0x0e, 0x1c, 0x38, 0x70, 0xe0, 0xdd, 0xa7, 0x53, 0xa6)
          else
            Select16(i - 208, 0x51, 0xa2, 0x59, 0xb2, 0x79, 0xf2, 0xf9, 0xef, 0xc3, 0x9b, 0x2b, 0x56, 0xac, 0x45, 0x8a, 0x09)
        else
          if i < 240 then
            Select16(i - 224, 0x12, 0x24, 0x48, 0x90, 0x3d, 0x7a, 0xf4, 0xf5, 0xf7, 0xf3, 0xfb, 0xeb, 0xcb, 0x8b, 0x0b, 0x16)
          else
            Select16(i - 240, 0x2c, 0x58, 0xb0, 0x7d, 0xfa, 0xe9, 0xcf, 0x83, 0x1b, 0x36, 0x6c, 0xd8, 0xad, 0x47, 0x8e, 0x01)
  }

  /** `LOG_TABLE` (src/ec.rs:222-238): entry v is the exponent i with α^i = v; entry 0 holds the
      placeholder 0xff. */
  function LogTable(i: nat): bv8
    requires i < 256
  {
    if i < 128 then
      if i < 64 then
        if i < 32 then
          if i < 16 then
            Select16(i - 0, 0xff, 0x00, 0x01, 0x19, 0x02, 0x32, 0x1a, 0xc6, 0x03, 0xdf, 0x33, 0xee, 0x1b, 0x68, 0xc7, 0x4b)
          else
            Select16(i - 16, 0x04, 0x64, 0xe0, 0x0e, 0x34, 0x8d, 0xef, 0x81, 0x1c, 0xc1, 0x69, 0xf8, 0xc8, 0x08, 0x4c, 0x71)
        else
          if i < 48 then
            Select16(i - 32, 0x05, 0x8a, 0x65, 0x2f, 0xe1, 0x24, 0x0f, 0x21, 0x35, 0x93, 0x8e, 0xda, 0xf0, 0x12, 0x82, 0x45)
          else
            Select16(i - 48, 0x1d, 0xb5, 0xc2, 0x7d, 0x6a, 0x27, 0xf9, 0xb9, 0xc9, 0x9a, 0x09, 0x78, 0x4d, 0xe4, 0x72, 0xa6)
      else
        if i < 96 then
          if i < 80 then
            Select16(i - 64, 0x06, 0xbf, 0x8b, 0x62, 0x66, 0xdd, 0x30, 0xfd, 0xe2, 0x98, 0x25, 0xb3, 0x10, 0x91, 0x22, 0x88)
          else
            Select16(i - 80, 0x36, 0xd0, 0x94, 0xce, 0x8f, 0x96, 0xdb, 0xbd, 0xf1, 0xd2, 0x13, 0x5c, 0x83, 0x38, 0x46, 0x40)
        else
          if i < 112 then
            Select16(i - 96, 0x1e, 0x42, 0xb6, 0xa3, 0xc3, 0x48, 0x7e, 0x6e, 0x6b, 0x3a, 0x28, 0x54, 0xfa, 0x85, 0xba, 0x3d)
          else
            Select16(i - 112, 0xca, 0x5e, 0x9b, 0x9f, 0x0a, 0x15, 0x79, 0x2b, 0x4e, 0xd4, 0xe5, 0xac, 0x73, 0xf3, 0xa7, 0x57)
    else
      if i < 192 then
        if i < 160 then
          if i < 144 then
            Select16(i - 128, 0x07, 0x70, 0xc0, 0xf7, 0x8c, 0x80, 0x63, 0x0d, 0x67, 0x4a, 0xde, 0xed, 0x31, 0xc5, 0xfe, 0x18)
          else
            Select16(i - 144, 0xe3, 0xa5, 0x99, 0x77, 0x26, 0xb8, 0xb4, 0x7c, 0x11, 0x44, 0x92, 0xd9, 0x23, 0x20, 0x89, 0x2e)
        else
          if i < 176 then
            Select16(i - 160, 0x37, 0x3f, 0xd1, 0x5b, 0x95, 0xbc, 0xcf, 0xcd, 0x90, 0x87, 0x97, 0xb2, 0xdc, 0xfc, 0xbe, 0x61)
          else
            Select16(i - 176, 0xf2, 0x56, 0xd3, 0xab, 0x14, 0x2a, 0x5d, 0x9e, 0x84, 0x3c, 0x39, 0x53, 0x47, 0x6d, 0x41, 0xa2)
      else
        if i < 224 then
          if i < 208 then
            Select16(i - 192, 0x1f, 0x2d, 0x43, 0xd8, 0xb7, 0x7b, 0xa4, 0x76, 0xc4, 0x17, 0x49, 0xec, 0x7f, 0x0c, 0x6f, 0xf6)
          else
            Select16(i - 208, 0x6c, 0xa1, 0x3b, 0x52, 0x29, 0x9d, 0x55, 0xaa, 0xfb, 0x60, 0x86, 0xb1, 0xbb, 0xcc, 0x3e, 0x5a)
        else
          if i < 240 then
            Select16(i - 224, 0xcb, 0x59, 0x5f, 0xb0, 0x9c, 0xa9, 0xa0, 0x51, 0x0b, 0xf5, 0x16, 0xeb, 0x7a, 0x75, 0x2c, 0xd7)
          else
            Select16(i - 240, 0x4f, 0xae, 0xd5, 0xe9, 0xe6, 0xe7, 0xad, 0xe8, 0x74, 0xd6, 0xf4, 0xea, 0xa8, 0x50, 0x58, 0xaf)
  }

  /** `s % 255`, the reduction create_ec_for_block applies to an exponent sum `g + LOG[lead]`
      of two bytes. */
  function Mod255(s: nat): (r: nat)
    requires s <= 510
    ensures r == s % 255 && r < 255
  {
    if s < 255 then s else if s < 510 then s - 255 else 0
  }

  /** Multiplication by α = x, reducing by x^8 + x^4 + x^3 + x^2 + 1 when the product has degree 8. */
  function TimesAlpha(v: bv8): bv8
  {
    if v & 0x80 == 0 then v << 1 else (v << 1) ^ 0x1d
  }

  /** α^i by repeated multiplication: the independent definition EXP_TABLE is checked against. */
  function AlphaPower(i: nat): bv8
  {
    if i == 0 then 1 else TimesAlpha(AlphaPower(i - 1))
  }

  /** The three table facts at index k: consecutive EXP entries differ by a factor α, and LOG and EXP
      undo each other. */
  predicate TableFactsAt(k: nat)
    requires k < 256
  {
    (k < 255 ==> ExpTable(k + 1) == TimesAlpha(ExpTable(k)) && LogTable(ExpTable(k) as int) as int == k) &&
    (k >= 1 ==> ExpTable(LogTable(k) as int) as int == k)
  }

  lemma TableFactsChunk0()
    ensures forall k :: 0 <= k < 16 ==> TableFactsAt(k)
  {
  }

  lemma TableFactsChunk1()
    ensures forall k :: 16 <= k < 32 ==> TableFactsAt(k)
  {
  }

  lemma TableFactsChunk2()
    ensures forall k :: 32 <= k < 48 ==> TableFactsAt(k)
  {
  }

  lemma TableFactsChunk3()
    ensures forall k :: 48 <= k < 64 ==> TableFactsAt(k)
  {
  }

  lemma TableFactsChunk4()
    ensures forall k :: 64 <= k < 80 ==> TableFactsAt(k)
  {
  }

  lemma TableFactsChunk5()
    ensures forall k :: 80 <= k < 96 ==> TableFactsAt(k)
  {
  }

  lemma TableFactsChunk6()
    ensures forall k :: 96 <= k < 112 ==> TableFactsAt(k)
  {
  }

  lemma TableFactsChunk7()
    ensures forall k :: 112 <= k < 128 ==> TableFactsAt(k)
  {
  }

  lemma TableFactsChunk8()
    ensures forall k :: 128 <= k < 144 ==> TableFactsAt(k)
  {
  }

  lemma TableFactsChunk9()
    ensures forall k :: 144 <= k < 160 ==> TableFactsAt(k)
  {
  }

  lemma TableFactsChunk10()
    ensures forall k :: 160 <= k < 176 ==> TableFactsAt(k)
  {
  }

  lemma TableFactsChunk11()
    ensures forall k :: 176 <= k < 192 ==> TableFactsAt(k)
  {
  }

  lemma TableFactsChunk12()
    ensures forall k :: 192 <= k < 208 ==> TableFactsAt(k)
  {
  }

  lemma TableFactsChunk13()
    ensures forall k :: 208 <= k < 224 ==> TableFactsAt(k)
  {
  }

  lemma TableFactsChunk14()
    ensures forall k :: 224 <= k < 240 ==> TableFactsAt(k)
  {
  }

  lemma TableFactsChunk15()
    ensures forall k :: 240 <= k < 256 ==> TableFactsAt(k)
  {
  }

  lemma TableFacts(k: nat)
    requires k < 256
    ensures TableFactsAt(k)
  {
    if k < 128 {
      if k < 16 {
        TableFactsChunk0();
      } else if k < 32 {
        TableFactsChunk1();
      } else if k < 48 {
        TableFactsChunk2();
      } else if k < 64 {
        TableFactsChunk3();
      } else if k < 80 {
        TableFactsChunk4();
      } else if k < 96 {
        TableFactsChunk5();
      } else if k < 112 {
        TableFactsChunk6();
      } else {
        TableFactsChunk7();
      }
    } else {
      if k < 144 {
        TableFactsChunk8();
      } else if k < 160 {
        TableFactsChunk9();
      } else if k < 176 {
        TableFactsChunk10();
      } else if k < 192 {
        TableFactsChunk11();
      } else if k < 208 {
        TableFactsChunk12();
      } else if k < 224 {
        TableFactsChunk13();
      } else if k < 240 {
        TableFactsChunk14();
      } else {
        TableFactsChunk15();
      }
    }
  }

  /** EXP_TABLE lists the powers of α: entry i is α^i, so entry 255 wraps around to α^0 = 1. */
  lemma {:induction false} ExpTableIsAlphaPower(i: nat)
    requires i < 256
    ensures ExpTable(i) == AlphaPower(i)
  {
    if i > 0 {
      ExpTableIsAlphaPower(i - 1);
      TableFacts(i - 1);
    }
  }

  /** LOG_TABLE undoes EXP_TABLE on the exponents 0..254. */
  lemma LogInvertsExp(i: nat)
    requires i < 255
    ensures LogTable(ExpTable(i) as int) as int == i
  {
    TableFacts(i);
  }

  /** EXP_TABLE undoes LOG_TABLE on the non-zero field elements. */
  lemma ExpInvertsLog(v: nat)
    requires 1 <= v < 256
    ensures ExpTable(LogTable(v) as int) as int == v
  {
    TableFacts(v);
  }
}

