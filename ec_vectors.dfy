/**
 * The two create_ec_for_block tests of src/ec.rs, worked through the division one codeword and one
 * round at a time. The rounds are proved for any product that agrees with the tables on the
 * products this division needs, and those products are read off the tables separately.
 */
module EcVectors {
  import opened Gf256
  import opened EcTables
  import opened Ec

  const SimpleGenerator: seq<bv8> := [0xc6, 0xc7, 0x03]

  lemma SimpleGeneratorFromTable()
    ensures GeneratorPolynomial(3) == SimpleGenerator
  {
  }

  /** The padded buffer of this test, codeword by codeword. */
  predicate IsSimpleBuffer(c: seq<bv8>)
  {
    |c| == 6
    && c[0] == 1 && c[1] == 2 && c[2] == 3 && c[3] == 0 && c[4] == 0 && c[5] == 0
  }

  /** The products the division of this test multiplies, with their values. */
  predicate SimpleProducts(mul: (bv8, bv8) -> bv8)
  {
    mul(198, 1) == 7 && mul(199, 1) == 14 && mul(3, 1) == 8 && mul(198, 5) == 27
    && mul(199, 5) == 54 && mul(3, 5) == 40 && mul(198, 22) == 98 && mul(199, 22) == 196
    && mul(3, 22) == 176
  }

  lemma SimpleTableProducts0()
    ensures TableProduct(198, 1) == 7
    ensures TableProduct(199, 1) == 14
    ensures TableProduct(3, 1) == 8
    ensures TableProduct(198, 5) == 27
  {
    assert LogTable(1) == 0;
    assert LogTable(5) == 50;
  }

  lemma SimpleTableProducts1()
    ensures TableProduct(199, 5) == 54
    ensures TableProduct(3, 5) == 40
    ensures TableProduct(198, 22) == 98
    ensures TableProduct(199, 22) == 196
  {
    assert LogTable(5) == 50;
    assert LogTable(22) == 239;
  }

  lemma SimpleTableProducts2()
    ensures TableProduct(3, 22) == 176
  {
    assert LogTable(22) == 239;
  }

  /** The tables give each of the products the values the division relies on. */
  lemma SimpleProductsFromTables()
    ensures SimpleProducts(TableProduct)
  {
    SimpleTableProducts0();
    SimpleTableProducts1();
    SimpleTableProducts2();
  }

  lemma SimpleRound1(buffer: seq<bv8>, mul: (bv8, bv8) -> bv8)
    requires IsSimpleBuffer(buffer) && SimpleProducts(mul)
    ensures Codeword(buffer, SimpleGenerator, 1, 1, mul) == 5
    ensures Codeword(buffer, SimpleGenerator, 1, 2, mul) == 13
    ensures Codeword(buffer, SimpleGenerator, 1, 3, mul) == 8
    ensures Codeword(buffer, SimpleGenerator, 1, 4, mul) == 0
    ensures Codeword(buffer, SimpleGenerator, 1, 5, mul) == 0
  {
  }

  lemma SimpleRound2(buffer: seq<bv8>, mul: (bv8, bv8) -> bv8)
    requires IsSimpleBuffer(buffer) && SimpleProducts(mul)
    ensures Codeword(buffer, SimpleGenerator, 2, 2, mul) == 22
    ensures Codeword(buffer, SimpleGenerator, 2, 3, mul) == 62
    ensures Codeword(buffer, SimpleGenerator, 2, 4, mul) == 40
    ensures Codeword(buffer, SimpleGenerator, 2, 5, mul) == 0
  {
    SimpleRound1(buffer, mul);
  }

  lemma SimpleRound3(buffer: seq<bv8>, mul: (bv8, bv8) -> bv8)
    requires IsSimpleBuffer(buffer) && SimpleProducts(mul)
    ensures Codeword(buffer, SimpleGenerator, 3, 3, mul) == 92
    ensures Codeword(buffer, SimpleGenerator, 3, 4, mul) == 236
    ensures Codeword(buffer, SimpleGenerator, 3, 5, mul) == 176
  {
    SimpleRound2(buffer, mul);
  }

  lemma SimpleDivisionPart0(block: seq<bv8>, mul: (bv8, bv8) -> bv8)
    requires block == [1, 2, 3] && SimpleProducts(mul)
    ensures |Rounds(Padded(block, 3), SimpleGenerator, 3, mul)| == 6
    ensures Rounds(Padded(block, 3), SimpleGenerator, 3, mul)[3] == 92
    ensures Rounds(Padded(block, 3), SimpleGenerator, 3, mul)[4] == 236
    ensures Rounds(Padded(block, 3), SimpleGenerator, 3, mul)[5] == 176
  {
    var buffer := Padded(block, 3);
    assert IsSimpleBuffer(buffer);
    SimpleRound3(buffer, mul);
    RoundsAgreeWithCodeword(buffer, SimpleGenerator, 3, 3, mul);
    RoundsAgreeWithCodeword(buffer, SimpleGenerator, 3, 4, mul);
    RoundsAgreeWithCodeword(buffer, SimpleGenerator, 3, 5, mul);
  }

  /** The division of this test, for any product that agrees with the tables on the products
      it needs. */
  lemma SimpleDivision(block: seq<bv8>, mul: (bv8, bv8) -> bv8)
    requires block == [1, 2, 3] && SimpleProducts(mul)
    ensures Rounds(Padded(block, 3), SimpleGenerator, 3, mul)[3..] == [92, 236, 176]
  {
    SimpleDivisionPart0(block, mul);
  }

  /** The test of src/ec.rs:131-139: block [1, 2, 3] with three EC codewords gives [92, 236, 176]. */
  lemma CreateEcForBlockSimpleVector(block: seq<bv8>)
    requires block == [1, 2, 3]
    ensures EcForBlock(block, 3, GeneratorPolynomial(3)) == [92, 236, 176]
  {
    SimpleGeneratorFromTable();
    SimpleProductsFromTables();
    SimpleDivision(block, TableProduct);
  }

  const ComplexGenerator: seq<bv8> := [0x4a, 0x98, 0xb0, 0x64, 0x56, 0x64, 0x6a, 0x68, 0x82, 0xda, 0xce, 0x8c, 0x4e]

  lemma ComplexGeneratorFromTable()
    ensures GeneratorPolynomial(13) == ComplexGenerator
  {
  }

  /** The padded buffer of this test, codeword by codeword. */
  predicate IsComplexBuffer(c: seq<bv8>)
  {
    |c| == 26
    && c[0] == 32 && c[1] == 91 && c[2] == 11 && c[3] == 120 && c[4] == 209 && c[5] == 114 && c[6] == 220 && c[7] == 77
    && c[8] == 67 && c[9] == 64 && c[10] == 236 && c[11] == 17 && c[12] == 236 && c[13] == 0 && c[14] == 0 && c[15] == 0
    && c[16] == 0 && c[17] == 0 && c[18] == 0 && c[19] == 0 && c[20] == 0 && c[21] == 0 && c[22] == 0 && c[23] == 0
    && c[24] == 0 && c[25] == 0
  }

  /** The products the division of this test multiplies, with their values. */
  predicate ComplexProducts(mul: (bv8, bv8) -> bv8)
  {
    mul(74, 32) == 240 && mul(152, 32) == 213 && mul(176, 32) == 49 && mul(100, 32) == 26
    && mul(86, 32) == 163 && mul(106, 32) == 206 && mul(104, 32) == 189 && mul(130, 32) == 169
    && mul(218, 32) == 9 && mul(206, 32) == 178 && mul(140, 32) == 77 && mul(78, 32) == 187
    && mul(74, 171) == 173 && mul(152, 171) == 15 && mul(176, 171) == 134 && mul(100, 171) == 201
    && mul(86, 171) == 58 && mul(106, 171) == 48 && mul(104, 171) == 12 && mul(130, 171) == 40
    && mul(218, 171) == 21 && mul(206, 171) == 23 && mul(140, 171) == 161 && mul(78, 171) == 2
    && mul(74, 115) == 243 && mul(152, 115) == 93 && mul(176, 115) == 253 && mul(100, 115) == 16
    && mul(86, 115) == 233 && mul(106, 115) == 116 && mul(104, 115) == 29 && mul(130, 115) == 78
    && mul(218, 115) == 236 && mul(206, 115) == 103 && mul(140, 115) == 238 && mul(78, 115) == 139
    && mul(74, 181) == 248 && mul(152, 181) == 50 && mul(176, 181) == 43 && mul(100, 181) == 42
    && mul(86, 181) == 133 && mul(106, 181) == 82 && mul(104, 181) == 154 && mul(130, 181) == 123
    && mul(218, 181) == 32 && mul(206, 181) == 27 && mul(140, 181) == 98 && mul(78, 181) == 59
    && mul(74, 232) == 214 && mul(152, 232) == 99 && mul(176, 232) == 220 && mul(100, 232) == 206
    && mul(86, 232) == 175 && mul(106, 232) == 237 && mul(104, 232) == 124 && mul(130, 232) == 21
    && mul(218, 232) == 122 && mul(206, 232) == 155 && mul(140, 232) == 170 && mul(78, 232) == 225
    && mul(74, 1) == 137 && mul(152, 1) == 73 && mul(176, 1) == 227 && mul(100, 1) == 17
    && mul(86, 1) == 177 && mul(106, 1) == 52 && mul(104, 1) == 13 && mul(130, 1) == 46
    && mul(218, 1) == 43 && mul(206, 1) == 83 && mul(140, 1) == 132 && mul(78, 1) == 120
    && mul(74, 45) == 91 && mul(152, 45) == 215 && mul(176, 45) == 50 && mul(100, 45) == 199
    && mul(86, 45) == 13 && mul(106, 45) == 151 && mul(104, 45) == 236 && mul(130, 45) == 82
    && mul(218, 45) == 203 && mul(206, 45) == 18 && mul(140, 45) == 183 && mul(78, 45) == 217
    && mul(74, 71) == 101 && mul(152, 71) == 85 && mul(176, 71) == 241 && mul(100, 71) == 67
    && mul(86, 71) == 107 && mul(106, 71) == 13 && mul(104, 71) == 68 && mul(130, 71) == 133
    && mul(218, 71) == 195 && mul(206, 71) == 221 && mul(140, 71) == 33 && mul(78, 71) == 30
    && mul(74, 196) == 4 && mul(152, 196) == 253 && mul(176, 196) == 13 && mul(100, 196) == 24
    && mul(86, 196) == 19 && mul(106, 196) == 78 && mul(104, 196) == 157 && mul(130, 196) == 105
    && mul(218, 196) == 154 && mul(206, 196) == 218 && mul(140, 196) == 153 && mul(78, 196) == 64
    && mul(74, 102) == 28 && mul(152, 102) == 201 && mul(176, 102) == 35 && mul(100, 102) == 72
    && mul(86, 102) == 121 && mul(106, 102) == 247 && mul(104, 102) == 244 && mul(130, 102) == 2
    && mul(218, 102) == 225 && mul(206, 102) == 60 && mul(140, 102) == 232 && mul(78, 102) == 221
    && mul(74, 42) == 195 && mul(152, 42) == 53 && mul(176, 42) == 161 && mul(100, 42) == 176
    && mul(86, 42) == 61 && mul(106, 42) == 27 && mul(104, 42) == 207 && mul(130, 42) == 152
    && mul(218, 42) == 26 && mul(206, 42) == 182 && mul(140, 42) == 12 && mul(78, 42) == 172
    && mul(74, 215) == 250 && mul(152, 215) == 194 && mul(176, 215) == 163 && mul(100, 215) == 38
    && mul(86, 215) == 2 && mul(106, 215) == 117 && mul(104, 215) == 90 && mul(130, 215) == 193
    && mul(218, 215) == 109 && mul(206, 215) == 118 && mul(140, 215) == 160 && mul(78, 215) == 27
    && mul(74, 49) == 1 && mul(152, 49) == 120 && mul(176, 49) == 68 && mul(100, 49) == 6
    && mul(86, 49) == 205 && mul(106, 49) == 157 && mul(104, 49) == 96 && mul(130, 49) == 93
    && mul(218, 49) == 168 && mul(206, 49) == 184 && mul(140, 49) == 97 && mul(78, 49) == 16
  }

  lemma ComplexTableProducts0()
    ensures TableProduct(74, 32) == 240
    ensures TableProduct(152, 32) == 213
    ensures TableProduct(176, 32) == 49
    ensures TableProduct(100, 32) == 26
  {
    assert LogTable(32) == 5;
  }

  lemma ComplexTableProducts1()
    ensures TableProduct(86, 32) == 163
    ensures TableProduct(106, 32) == 206
    ensures TableProduct(104, 32) == 189
    ensures TableProduct(130, 32) == 169
  {
    assert LogTable(32) == 5;
  }

  lemma ComplexTableProducts2()
    ensures TableProduct(218, 32) == 9
    ensures TableProduct(206, 32) == 178
    ensures TableProduct(140, 32) == 77
    ensures TableProduct(78, 32) == 187
  {
    assert LogTable(32) == 5;
  }

  lemma ComplexTableProducts3()
    ensures TableProduct(74, 171) == 173
    ensures TableProduct(152, 171) == 15
    ensures TableProduct(176, 171) == 134
    ensures TableProduct(100, 171) == 201
  {
    assert LogTable(171) == 178;
  }

  lemma ComplexTableProducts4()
    ensures TableProduct(86, 171) == 58
    ensures TableProduct(106, 171) == 48
    ensures TableProduct(104, 171) == 12
    ensures TableProduct(130, 171) == 40
  {
    assert LogTable(171) == 178;
  }

  lemma ComplexTableProducts5()
    ensures TableProduct(218, 171) == 21
    ensures TableProduct(206, 171) == 23
    ensures TableProduct(140, 171) == 161
    ensures TableProduct(78, 171) == 2
  {
    assert LogTable(171) == 178;
  }

  lemma ComplexTableProducts6()
    ensures TableProduct(74, 115) == 243
    ensures TableProduct(152, 115) == 93
    ensures TableProduct(176, 115) == 253
    ensures TableProduct(100, 115) == 16
  {
    assert LogTable(115) == 159;
  }

  lemma ComplexTableProducts7()
    ensures TableProduct(86, 115) == 233
    ensures TableProduct(106, 115) == 116
    ensures TableProduct(104, 115) == 29
    ensures TableProduct(130, 115) == 78
  {
    assert LogTable(115) == 159;
  }

  lemma ComplexTableProducts8()
    ensures TableProduct(218, 115) == 236
    ensures TableProduct(206, 115) == 103
    ensures TableProduct(140, 115) == 238
    ensures TableProduct(78, 115) == 139
  {
    assert LogTable(115) == 159;
  }

  lemma ComplexTableProducts9()
    ensures TableProduct(74, 181) == 248
    ensures TableProduct(152, 181) == 50
    ensures TableProduct(176, 181) == 43
    ensures TableProduct(100, 181) == 42
  {
    assert LogTable(181) == 42;
  }

  lemma ComplexTableProducts10()
    ensures TableProduct(86, 181) == 133
    ensures TableProduct(106, 181) == 82
    ensures TableProduct(104, 181) == 154
    ensures TableProduct(130, 181) == 123
  {
    assert LogTable(181) == 42;
  }

  lemma ComplexTableProducts11()
    ensures TableProduct(218, 181) == 32
    ensures TableProduct(206, 181) == 27
    ensures TableProduct(140, 181) == 98
    ensures TableProduct(78, 181) == 59
  {
    assert LogTable(181) == 42;
  }

  lemma ComplexTableProducts12()
    ensures TableProduct(74, 232) == 214
    ensures TableProduct(152, 232) == 99
    ensures TableProduct(176, 232) == 220
    ensures TableProduct(100, 232) == 206
  {
    assert LogTable(232) == 11;
  }

  lemma ComplexTableProducts13()
    ensures TableProduct(86, 232) == 175
    ensures TableProduct(106, 232) == 237
    ensures TableProduct(104, 232) == 124
    ensures TableProduct(130, 232) == 21
  {
    assert LogTable(232) == 11;
  }

  lemma ComplexTableProducts14()
    ensures TableProduct(218, 232) == 122
    ensures TableProduct(206, 232) == 155
    ensures TableProduct(140, 232) == 170
    ensures TableProduct(78, 232) == 225
  {
    assert LogTable(232) == 11;
  }

  lemma ComplexTableProducts15()
    ensures TableProduct(74, 1) == 137
    ensures TableProduct(152, 1) == 73
    ensures TableProduct(176, 1) == 227
    ensures TableProduct(100, 1) == 17
  {
    assert LogTable(1) == 0;
  }

  lemma ComplexTableProducts16()
    ensures TableProduct(86, 1) == 177
    ensures TableProduct(106, 1) == 52
    ensures TableProduct(104, 1) == 13
    ensures TableProduct(130, 1) == 46
  {
    assert LogTable(1) == 0;
  }

  lemma ComplexTableProducts17()
    ensures TableProduct(218, 1) == 43
    ensures TableProduct(206, 1) == 83
    ensures TableProduct(140, 1) == 132
    ensures TableProduct(78, 1) == 120
  {
    assert LogTable(1) == 0;
  }

  lemma ComplexTableProducts18()
    ensures TableProduct(74, 45) == 91
    ensures TableProduct(152, 45) == 215
    ensures TableProduct(176, 45) == 50
    ensures TableProduct(100, 45) == 199
  {
    assert LogTable(45) == 18;
  }

  lemma ComplexTableProducts19()
    ensures TableProduct(86, 45) == 13
    ensures TableProduct(106, 45) == 151
    ensures TableProduct(104, 45) == 236
    ensures TableProduct(130, 45) == 82
  {
    assert LogTable(45) == 18;
  }

  lemma ComplexTableProducts20()
    ensures TableProduct(218, 45) == 203
    ensures TableProduct(206, 45) == 18
    ensures TableProduct(140, 45) == 183
    ensures TableProduct(78, 45) == 217
  {
    assert LogTable(45) == 18;
  }

  lemma ComplexTableProducts21()
    ensures TableProduct(74, 71) == 101
    ensures TableProduct(152, 71) == 85
    ensures TableProduct(176, 71) == 241
    ensures TableProduct(100, 71) == 67
  {
    assert LogTable(71) == 253;
  }

  lemma ComplexTableProducts22()
    ensures TableProduct(86, 71) == 107
    ensures TableProduct(106, 71) == 13
    ensures TableProduct(104, 71) == 68
    ensures TableProduct(130, 71) == 133
  {
    assert LogTable(71) == 253;
  }

  lemma ComplexTableProducts23()
    ensures TableProduct(218, 71) == 195
    ensures TableProduct(206, 71) == 221
    ensures TableProduct(140, 71) == 33
    ensures TableProduct(78, 71) == 30
  {
    assert LogTable(71) == 253;
  }

  lemma ComplexTableProducts24()
    ensures TableProduct(74, 196) == 4
    ensures TableProduct(152, 196) == 253
    ensures TableProduct(176, 196) == 13
    ensures TableProduct(100, 196) == 24
  {
    assert LogTable(196) == 183;
  }

  lemma ComplexTableProducts25()
    ensures TableProduct(86, 196) == 19
    ensures TableProduct(106, 196) == 78
    ensures TableProduct(104, 196) == 157
    ensures TableProduct(130, 196) == 105
  {
    assert LogTable(196) == 183;
  }

  lemma ComplexTableProducts26()
    ensures TableProduct(218, 196) == 154
    ensures TableProduct(206, 196) == 218
    ensures TableProduct(140, 196) == 153
    ensures TableProduct(78, 196) == 64
  {
    assert LogTable(196) == 183;
  }

  lemma ComplexTableProducts27()
    ensures TableProduct(74, 102) == 28
    ensures TableProduct(152, 102) == 201
    ensures TableProduct(176, 102) == 35
    ensures TableProduct(100, 102) == 72
  {
    assert LogTable(102) == 126;
  }

  lemma ComplexTableProducts28()
    ensures TableProduct(86, 102) == 121
    ensures TableProduct(106, 102) == 247
    ensures TableProduct(104, 102) == 244
    ensures TableProduct(130, 102) == 2
  {
    assert LogTable(102) == 126;
  }

  lemma ComplexTableProducts29()
    ensures TableProduct(218, 102) == 225
    ensures TableProduct(206, 102) == 60
    ensures TableProduct(140, 102) == 232
    ensures TableProduct(78, 102) == 221
  {
    assert LogTable(102) == 126;
  }

  lemma ComplexTableProducts30()
    ensures TableProduct(74, 42) == 195
    ensures TableProduct(152, 42) == 53
    ensures TableProduct(176, 42) == 161
    ensures TableProduct(100, 42) == 176
  {
    assert LogTable(42) == 142;
  }

  lemma ComplexTableProducts31()
    ensures TableProduct(86, 42) == 61
    ensures TableProduct(106, 42) == 27
    ensures TableProduct(104, 42) == 207
    ensures TableProduct(130, 42) == 152
  {
    assert LogTable(42) == 142;
  }

  lemma ComplexTableProducts32()
    ensures TableProduct(218, 42) == 26
    ensures TableProduct(206, 42) == 182
    ensures TableProduct(140, 42) == 12
    ensures TableProduct(78, 42) == 172
  {
    assert LogTable(42) == 142;
  }

  lemma ComplexTableProducts33()
    ensures TableProduct(74, 215) == 250
    ensures TableProduct(152, 215) == 194
    ensures TableProduct(176, 215) == 163
    ensures TableProduct(100, 215) == 38
  {
    assert LogTable(215) == 170;
  }

  lemma ComplexTableProducts34()
    ensures TableProduct(86, 215) == 2
    ensures TableProduct(106, 215) == 117
    ensures TableProduct(104, 215) == 90
    ensures TableProduct(130, 215) == 193
  {
    assert LogTable(215) == 170;
  }

  lemma ComplexTableProducts35()
    ensures TableProduct(218, 215) == 109
    ensures TableProduct(206, 215) == 118
    ensures TableProduct(140, 215) == 160
    ensures TableProduct(78, 215) == 27
  {
    assert LogTable(215) == 170;
  }

  lemma ComplexTableProducts36()
    ensures TableProduct(74, 49) == 1
    ensures TableProduct(152, 49) == 120
    ensures TableProduct(176, 49) == 68
    ensures TableProduct(100, 49) == 6
  {
    assert LogTable(49) == 181;
  }

  lemma ComplexTableProducts37()
    ensures TableProduct(86, 49) == 205
    ensures TableProduct(106, 49) == 157
    ensures TableProduct(104, 49) == 96
    ensures TableProduct(130, 49) == 93
  {
    assert LogTable(49) == 181;
  }

  lemma ComplexTableProducts38()
    ensures TableProduct(218, 49) == 168
    ensures TableProduct(206, 49) == 184
    ensures TableProduct(140, 49) == 97
    ensures TableProduct(78, 49) == 16
  {
    assert LogTable(49) == 181;
  }

  /** The tables give each of the products the values the division relies on. */
  lemma ComplexProductsFromTables()
    ensures ComplexProducts(TableProduct)
  {
    ComplexTableProducts0();
    ComplexTableProducts1();
    ComplexTableProducts2();
    ComplexTableProducts3();
    ComplexTableProducts4();
    ComplexTableProducts5();
    ComplexTableProducts6();
    ComplexTableProducts7();
    ComplexTableProducts8();
    ComplexTableProducts9();
    ComplexTableProducts10();
    ComplexTableProducts11();
    ComplexTableProducts12();
    ComplexTableProducts13();
    ComplexTableProducts14();
    ComplexTableProducts15();
    ComplexTableProducts16();
    ComplexTableProducts17();
    ComplexTableProducts18();
    ComplexTableProducts19();
    ComplexTableProducts20();
    ComplexTableProducts21();
    ComplexTableProducts22();
    ComplexTableProducts23();
    ComplexTableProducts24();
    ComplexTableProducts25();
    ComplexTableProducts26();
    ComplexTableProducts27();
    ComplexTableProducts28();
    ComplexTableProducts29();
    ComplexTableProducts30();
    ComplexTableProducts31();
    ComplexTableProducts32();
    ComplexTableProducts33();
    ComplexTableProducts34();
    ComplexTableProducts35();
    ComplexTableProducts36();
    ComplexTableProducts37();
    ComplexTableProducts38();
  }

  lemma ComplexRound1Part0(buffer: seq<bv8>, mul: (bv8, bv8) -> bv8)
    requires IsComplexBuffer(buffer) && ComplexProducts(mul)
    ensures Codeword(buffer, ComplexGenerator, 1, 1, mul) == 171
    ensures Codeword(buffer, ComplexGenerator, 1, 2, mul) == 222
    ensures Codeword(buffer, ComplexGenerator, 1, 3, mul) == 73
    ensures Codeword(buffer, ComplexGenerator, 1, 4, mul) == 203
    ensures Codeword(buffer, ComplexGenerator, 1, 5, mul) == 209
    ensures Codeword(buffer, ComplexGenerator, 1, 6, mul) == 198
    ensures Codeword(buffer, ComplexGenerator, 1, 7, mul) == 131
  {
  }

  lemma ComplexRound1Part1(buffer: seq<bv8>, mul: (bv8, bv8) -> bv8)
    requires IsComplexBuffer(buffer) && ComplexProducts(mul)
    ensures Codeword(buffer, ComplexGenerator, 1, 8, mul) == 254
    ensures Codeword(buffer, ComplexGenerator, 1, 9, mul) == 233
    ensures Codeword(buffer, ComplexGenerator, 1, 10, mul) == 229
    ensures Codeword(buffer, ComplexGenerator, 1, 11, mul) == 163
    ensures Codeword(buffer, ComplexGenerator, 1, 12, mul) == 161
    ensures Codeword(buffer, ComplexGenerator, 1, 13, mul) == 187
    ensures Codeword(buffer, ComplexGenerator, 1, 14, mul) == 0
  {
  }

  lemma ComplexRound1Part2(buffer: seq<bv8>, mul: (bv8, bv8) -> bv8)
    requires IsComplexBuffer(buffer) && ComplexProducts(mul)
    ensures Codeword(buffer, ComplexGenerator, 1, 15, mul) == 0
    ensures Codeword(buffer, ComplexGenerator, 1, 16, mul) == 0
    ensures Codeword(buffer, ComplexGenerator, 1, 17, mul) == 0
    ensures Codeword(buffer, ComplexGenerator, 1, 18, mul) == 0
    ensures Codeword(buffer, ComplexGenerator, 1, 19, mul) == 0
    ensures Codeword(buffer, ComplexGenerator, 1, 20, mul) == 0
    ensures Codeword(buffer, ComplexGenerator, 1, 21, mul) == 0
  {
  }

  lemma ComplexRound1Part3(buffer: seq<bv8>, mul: (bv8, bv8) -> bv8)
    requires IsComplexBuffer(buffer) && ComplexProducts(mul)
    ensures Codeword(buffer, ComplexGenerator, 1, 22, mul) == 0
    ensures Codeword(buffer, ComplexGenerator, 1, 23, mul) == 0
    ensures Codeword(buffer, ComplexGenerator, 1, 24, mul) == 0
    ensures Codeword(buffer, ComplexGenerator, 1, 25, mul) == 0
  {
  }

  lemma ComplexRound2Part0(buffer: seq<bv8>, mul: (bv8, bv8) -> bv8)
    requires IsComplexBuffer(buffer) && ComplexProducts(mul)
    ensures Codeword(buffer, ComplexGenerator, 2, 2, mul) == 115
    ensures Codeword(buffer, ComplexGenerator, 2, 3, mul) == 70
    ensures Codeword(buffer, ComplexGenerator, 2, 4, mul) == 77
    ensures Codeword(buffer, ComplexGenerator, 2, 5, mul) == 24
    ensures Codeword(buffer, ComplexGenerator, 2, 6, mul) == 252
    ensures Codeword(buffer, ComplexGenerator, 2, 7, mul) == 74
    ensures Codeword(buffer, ComplexGenerator, 2, 8, mul) == 206
  {
    ComplexRound1Part0(buffer, mul);
    ComplexRound1Part1(buffer, mul);
    ComplexRound1Part2(buffer, mul);
    ComplexRound1Part3(buffer, mul);
  }

  lemma ComplexRound2Part1(buffer: seq<bv8>, mul: (bv8, bv8) -> bv8)
    requires IsComplexBuffer(buffer) && ComplexProducts(mul)
    ensures Codeword(buffer, ComplexGenerator, 2, 9, mul) == 229
    ensures Codeword(buffer, ComplexGenerator, 2, 10, mul) == 205
    ensures Codeword(buffer, ComplexGenerator, 2, 11, mul) == 182
    ensures Codeword(buffer, ComplexGenerator, 2, 12, mul) == 182
    ensures Codeword(buffer, ComplexGenerator, 2, 13, mul) == 26
    ensures Codeword(buffer, ComplexGenerator, 2, 14, mul) == 2
    ensures Codeword(buffer, ComplexGenerator, 2, 15, mul) == 0
  {
    ComplexRound1Part0(buffer, mul);
    ComplexRound1Part1(buffer, mul);
    ComplexRound1Part2(buffer, mul);
    ComplexRound1Part3(buffer, mul);
  }

  lemma ComplexRound2Part2(buffer: seq<bv8>, mul: (bv8, bv8) -> bv8)
    requires IsComplexBuffer(buffer) && ComplexProducts(mul)
    ensures Codeword(buffer, ComplexGenerator, 2, 16, mul) == 0
    ensures Codeword(buffer, ComplexGenerator, 2, 17, mul) == 0
    ensures Codeword(buffer, ComplexGenerator, 2, 18, mul) == 0
    ensures Codeword(buffer, ComplexGenerator, 2, 19, mul) == 0
    ensures Codeword(buffer, ComplexGenerator, 2, 20, mul) == 0
    ensures Codeword(buffer, ComplexGenerator, 2, 21, mul) == 0
    ensures Codeword(buffer, ComplexGenerator, 2, 22, mul) == 0
  {
    ComplexRound1Part0(buffer, mul);
    ComplexRound1Part1(buffer, mul);
    ComplexRound1Part2(buffer, mul);
    ComplexRound1Part3(buffer, mul);
  }

  lemma ComplexRound2Part3(buffer: seq<bv8>, mul: (bv8, bv8) -> bv8)
    requires IsComplexBuffer(buffer) && ComplexProducts(mul)
    ensures Codeword(buffer, ComplexGenerator, 2, 23, mul) == 0
    ensures Codeword(buffer, ComplexGenerator, 2, 24, mul) == 0
    ensures Codeword(buffer, ComplexGenerator, 2, 25, mul) == 0
  {
    ComplexRound1Part0(buffer, mul);
    ComplexRound1Part1(buffer, mul);
    ComplexRound1Part2(buffer, mul);
    ComplexRound1Part3(buffer, mul);
  }

  lemma ComplexRound3Part0(buffer: seq<bv8>, mul: (bv8, bv8) -> bv8)
    requires IsComplexBuffer(buffer) && ComplexProducts(mul)
    ensures Codeword(buffer, ComplexGenerator, 3, 3, mul) == 181
    ensures Codeword(buffer, ComplexGenerator, 3, 4, mul) == 16
    ensures Codeword(buffer, ComplexGenerator, 3, 5, mul) == 229
    ensures Codeword(buffer, ComplexGenerator, 3, 6, mul) == 236
    ensures Codeword(buffer, ComplexGenerator, 3, 7, mul) == 163
    ensures Codeword(buffer, ComplexGenerator, 3, 8, mul) == 222
    ensures Codeword(buffer, ComplexGenerator, 3, 9, mul) == 145
  {
    ComplexRound2Part0(buffer, mul);
    ComplexRound2Part1(buffer, mul);
    ComplexRound2Part2(buffer, mul);
    ComplexRound2Part3(buffer, mul);
  }

  lemma ComplexRound3Part1(buffer: seq<bv8>, mul: (bv8, bv8) -> bv8)
    requires IsComplexBuffer(buffer) && ComplexProducts(mul)
    ensures Codeword(buffer, ComplexGenerator, 3, 10, mul) == 208
    ensures Codeword(buffer, ComplexGenerator, 3, 11, mul) == 248
    ensures Codeword(buffer, ComplexGenerator, 3, 12, mul) == 90
    ensures Codeword(buffer, ComplexGenerator, 3, 13, mul) == 125
    ensures Codeword(buffer, ComplexGenerator, 3, 14, mul) == 236
    ensures Codeword(buffer, ComplexGenerator, 3, 15, mul) == 139
    ensures Codeword(buffer, ComplexGenerator, 3, 16, mul) == 0
  {
    ComplexRound2Part0(buffer, mul);
    ComplexRound2Part1(buffer, mul);
    ComplexRound2Part2(buffer, mul);
    ComplexRound2Part3(buffer, mul);
  }

  lemma ComplexRound3Part2(buffer: seq<bv8>, mul: (bv8, bv8) -> bv8)
    requires IsComplexBuffer(buffer) && ComplexProducts(mul)
    ensures Codeword(buffer, ComplexGenerator, 3, 17, mul) == 0
    ensures Codeword(buffer, ComplexGenerator, 3, 18, mul) == 0
    ensures Codeword(buffer, ComplexGenerator, 3, 19, mul) == 0
    ensures Codeword(buffer, ComplexGenerator, 3, 20, mul) == 0
    ensures Codeword(buffer, ComplexGenerator, 3, 21, mul) == 0
    ensures Codeword(buffer, ComplexGenerator, 3, 22, mul) == 0
    ensures Codeword(buffer, ComplexGenerator, 3, 23, mul) == 0
  {
    ComplexRound2Part0(buffer, mul);
    ComplexRound2Part1(buffer, mul);
    ComplexRound2Part2(buffer, mul);
    ComplexRound2Part3(buffer, mul);
  }

  lemma ComplexRound3Part3(buffer: seq<bv8>, mul: (bv8, bv8) -> bv8)
    requires IsComplexBuffer(buffer) && ComplexProducts(mul)
    ensures Codeword(buffer, ComplexGenerator, 3, 24, mul) == 0
    ensures Codeword(buffer, ComplexGenerator, 3, 25, mul) == 0
  {
    ComplexRound2Part0(buffer, mul);
    ComplexRound2Part1(buffer, mul);
    ComplexRound2Part2(buffer, mul);
    ComplexRound2Part3(buffer, mul);
  }

  lemma ComplexRound4Part0(buffer: seq<bv8>, mul: (bv8, bv8) -> bv8)
    requires IsComplexBuffer(buffer) && ComplexProducts(mul)
    ensures Codeword(buffer, ComplexGenerator, 4, 4, mul) == 232
    ensures Codeword(buffer, ComplexGenerator, 4, 5, mul) == 215
    ensures Codeword(buffer, ComplexGenerator, 4, 6, mul) == 199
    ensures Codeword(buffer, ComplexGenerator, 4, 7, mul) == 137
    ensures Codeword(buffer, ComplexGenerator, 4, 8, mul) == 91
    ensures Codeword(buffer, ComplexGenerator, 4, 9, mul) == 187
    ensures Codeword(buffer, ComplexGenerator, 4, 10, mul) == 130
  {
    ComplexRound3Part0(buffer, mul);
    ComplexRound3Part1(buffer, mul);
    ComplexRound3Part2(buffer, mul);
    ComplexRound3Part3(buffer, mul);
  }

  lemma ComplexRound4Part1(buffer: seq<bv8>, mul: (bv8, bv8) -> bv8)
    requires IsComplexBuffer(buffer) && ComplexProducts(mul)
    ensures Codeword(buffer, ComplexGenerator, 4, 11, mul) == 98
    ensures Codeword(buffer, ComplexGenerator, 4, 12, mul) == 33
    ensures Codeword(buffer, ComplexGenerator, 4, 13, mul) == 93
    ensures Codeword(buffer, ComplexGenerator, 4, 14, mul) == 247
    ensures Codeword(buffer, ComplexGenerator, 4, 15, mul) == 233
    ensures Codeword(buffer, ComplexGenerator, 4, 16, mul) == 59
    ensures Codeword(buffer, ComplexGenerator, 4, 17, mul) == 0
  {
    ComplexRound3Part0(buffer, mul);
    ComplexRound3Part1(buffer, mul);
    ComplexRound3Part2(buffer, mul);
    ComplexRound3Part3(buffer, mul);
  }

  lemma ComplexRound4Part2(buffer: seq<bv8>, mul: (bv8, bv8) -> bv8)
    requires IsComplexBuffer(buffer) && ComplexProducts(mul)
    ensures Codeword(buffer, ComplexGenerator, 4, 18, mul) == 0
    ensures Codeword(buffer, ComplexGenerator, 4, 19, mul) == 0
    ensures Codeword(buffer, ComplexGenerator, 4, 20, mul) == 0
    ensures Codeword(buffer, ComplexGenerator, 4, 21, mul) == 0
    ensures Codeword(buffer, ComplexGenerator, 4, 22, mul) == 0
    ensures Codeword(buffer, ComplexGenerator, 4, 23, mul) == 0
    ensures Codeword(buffer, ComplexGenerator, 4, 24, mul) == 0
  {
    ComplexRound3Part0(buffer, mul);
    ComplexRound3Part1(buffer, mul);
    ComplexRound3Part2(buffer, mul);
    ComplexRound3Part3(buffer, mul);
  }

  lemma ComplexRound4Part3(buffer: seq<bv8>, mul: (bv8, bv8) -> bv8)
    requires IsComplexBuffer(buffer) && ComplexProducts(mul)
    ensures Codeword(buffer, ComplexGenerator, 4, 25, mul) == 0
  {
    ComplexRound3Part0(buffer, mul);
    ComplexRound3Part1(buffer, mul);
    ComplexRound3Part2(buffer, mul);
    ComplexRound3Part3(buffer, mul);
  }

  lemma ComplexRound5Part0(buffer: seq<bv8>, mul: (bv8, bv8) -> bv8)
    requires IsComplexBuffer(buffer) && ComplexProducts(mul)
    ensures Codeword(buffer, ComplexGenerator, 5, 5, mul) == 1
    ensures Codeword(buffer, ComplexGenerator, 5, 6, mul) == 164
    ensures Codeword(buffer, ComplexGenerator, 5, 7, mul) == 85
    ensures Codeword(buffer, ComplexGenerator, 5, 8, mul) == 149
    ensures Codeword(buffer, ComplexGenerator, 5, 9, mul) == 20
    ensures Codeword(buffer, ComplexGenerator, 5, 10, mul) == 76
    ensures Codeword(buffer, ComplexGenerator, 5, 11, mul) == 143
  {
    ComplexRound4Part0(buffer, mul);
    ComplexRound4Part1(buffer, mul);
    ComplexRound4Part2(buffer, mul);
    ComplexRound4Part3(buffer, mul);
  }

  lemma ComplexRound5Part1(buffer: seq<bv8>, mul: (bv8, bv8) -> bv8)
    requires IsComplexBuffer(buffer) && ComplexProducts(mul)
    ensures Codeword(buffer, ComplexGenerator, 5, 12, mul) == 93
    ensures Codeword(buffer, ComplexGenerator, 5, 13, mul) == 72
    ensures Codeword(buffer, ComplexGenerator, 5, 14, mul) == 141
    ensures Codeword(buffer, ComplexGenerator, 5, 15, mul) == 114
    ensures Codeword(buffer, ComplexGenerator, 5, 16, mul) == 145
    ensures Codeword(buffer, ComplexGenerator, 5, 17, mul) == 225
    ensures Codeword(buffer, ComplexGenerator, 5, 18, mul) == 0
  {
    ComplexRound4Part0(buffer, mul);
    ComplexRound4Part1(buffer, mul);
    ComplexRound4Part2(buffer, mul);
    ComplexRound4Part3(buffer, mul);
  }

  lemma ComplexRound5Part2(buffer: seq<bv8>, mul: (bv8, bv8) -> bv8)
    requires IsComplexBuffer(buffer) && ComplexProducts(mul)
    ensures Codeword(buffer, ComplexGenerator, 5, 19, mul) == 0
    ensures Codeword(buffer, ComplexGenerator, 5, 20, mul) == 0
    ensures Codeword(buffer, ComplexGenerator, 5, 21, mul) == 0
    ensures Codeword(buffer, ComplexGenerator, 5, 22, mul) == 0
    ensures Codeword(buffer, ComplexGenerator, 5, 23, mul) == 0
    ensures Codeword(buffer, ComplexGenerator, 5, 24, mul) == 0
    ensures Codeword(buffer, ComplexGenerator, 5, 25, mul) == 0
  {
    ComplexRound4Part0(buffer, mul);
    ComplexRound4Part1(buffer, mul);
    ComplexRound4Part2(buffer, mul);
    ComplexRound4Part3(buffer, mul);
  }

  lemma ComplexRound6Part0(buffer: seq<bv8>, mul: (bv8, bv8) -> bv8)
    requires IsComplexBuffer(buffer) && ComplexProducts(mul)
    ensures Codeword(buffer, ComplexGenerator, 6, 6, mul) == 45
    ensures Codeword(buffer, ComplexGenerator, 6, 7, mul) == 28
    ensures Codeword(buffer, ComplexGenerator, 6, 8, mul) == 118
    ensures Codeword(buffer, ComplexGenerator, 6, 9, mul) == 5
    ensures Codeword(buffer, ComplexGenerator, 6, 10, mul) == 253
    ensures Codeword(buffer, ComplexGenerator, 6, 11, mul) == 158
    ensures Codeword(buffer, ComplexGenerator, 6, 12, mul) == 105
  {
    ComplexRound5Part0(buffer, mul);
    ComplexRound5Part1(buffer, mul);
    ComplexRound5Part2(buffer, mul);
  }

  lemma ComplexRound6Part1(buffer: seq<bv8>, mul: (bv8, bv8) -> bv8)
    requires IsComplexBuffer(buffer) && ComplexProducts(mul)
    ensures Codeword(buffer, ComplexGenerator, 6, 13, mul) == 69
    ensures Codeword(buffer, ComplexGenerator, 6, 14, mul) == 163
    ensures Codeword(buffer, ComplexGenerator, 6, 15, mul) == 89
    ensures Codeword(buffer, ComplexGenerator, 6, 16, mul) == 194
    ensures Codeword(buffer, ComplexGenerator, 6, 17, mul) == 101
    ensures Codeword(buffer, ComplexGenerator, 6, 18, mul) == 120
    ensures Codeword(buffer, ComplexGenerator, 6, 19, mul) == 0
  {
    ComplexRound5Part0(buffer, mul);
    ComplexRound5Part1(buffer, mul);
    ComplexRound5Part2(buffer, mul);
  }

  lemma ComplexRound6Part2(buffer: seq<bv8>, mul: (bv8, bv8) -> bv8)
    requires IsComplexBuffer(buffer) && ComplexProducts(mul)
    ensures Codeword(buffer, ComplexGenerator, 6, 20, mul) == 0
    ensures Codeword(buffer, ComplexGenerator, 6, 21, mul) == 0
    ensures Codeword(buffer, ComplexGenerator, 6, 22, mul) == 0
    ensures Codeword(buffer, ComplexGenerator, 6, 23, mul) == 0
    ensures Codeword(buffer, ComplexGenerator, 6, 24, mul) == 0
    ensures Codeword(buffer, ComplexGenerator, 6, 25, mul) == 0
  {
    ComplexRound5Part0(buffer, mul);
    ComplexRound5Part1(buffer, mul);
    ComplexRound5Part2(buffer, mul);
  }

  lemma ComplexRound7Part0(buffer: seq<bv8>, mul: (bv8, bv8) -> bv8)
    requires IsComplexBuffer(buffer) && ComplexProducts(mul)
    ensures Codeword(buffer, ComplexGenerator, 7, 7, mul) == 71
    ensures Codeword(buffer, ComplexGenerator, 7, 8, mul) == 161
    ensures Codeword(buffer, ComplexGenerator, 7, 9, mul) == 55
    ensures Codeword(buffer, ComplexGenerator, 7, 10, mul) == 58
    ensures Codeword(buffer, ComplexGenerator, 7, 11, mul) == 147
    ensures Codeword(buffer, ComplexGenerator, 7, 12, mul) == 174
    ensures Codeword(buffer, ComplexGenerator, 7, 13, mul) == 210
  {
    ComplexRound6Part0(buffer, mul);
    ComplexRound6Part1(buffer, mul);
    ComplexRound6Part2(buffer, mul);
  }

  lemma ComplexRound7Part1(buffer: seq<bv8>, mul: (bv8, bv8) -> bv8)
    requires IsComplexBuffer(buffer) && ComplexProducts(mul)
    ensures Codeword(buffer, ComplexGenerator, 7, 14, mul) == 79
    ensures Codeword(buffer, ComplexGenerator, 7, 15, mul) == 11
    ensures Codeword(buffer, ComplexGenerator, 7, 16, mul) == 9
    ensures Codeword(buffer, ComplexGenerator, 7, 17, mul) == 119
    ensures Codeword(buffer, ComplexGenerator, 7, 18, mul) == 207
    ensures Codeword(buffer, ComplexGenerator, 7, 19, mul) == 217
    ensures Codeword(buffer, ComplexGenerator, 7, 20, mul) == 0
  {
    ComplexRound6Part0(buffer, mul);
    ComplexRound6Part1(buffer, mul);
    ComplexRound6Part2(buffer, mul);
  }

  lemma ComplexRound7Part2(buffer: seq<bv8>, mul: (bv8, bv8) -> bv8)
    requires IsComplexBuffer(buffer) && ComplexProducts(mul)
    ensures Codeword(buffer, ComplexGenerator, 7, 21, mul) == 0
    ensures Codeword(buffer, ComplexGenerator, 7, 22, mul) == 0
    ensures Codeword(buffer, ComplexGenerator, 7, 23, mul) == 0
    ensures Codeword(buffer, ComplexGenerator, 7, 24, mul) == 0
    ensures Codeword(buffer, ComplexGenerator, 7, 25, mul) == 0
  {
    ComplexRound6Part0(buffer, mul);
    ComplexRound6Part1(buffer, mul);
    ComplexRound6Part2(buffer, mul);
  }

  lemma ComplexRound8Part0(buffer: seq<bv8>, mul: (bv8, bv8) -> bv8)
    requires IsComplexBuffer(buffer) && ComplexProducts(mul)
    ensures Codeword(buffer, ComplexGenerator, 8, 8, mul) == 196
    ensures Codeword(buffer, ComplexGenerator, 8, 9, mul) == 98
    ensures Codeword(buffer, ComplexGenerator, 8, 10, mul) == 203
    ensures Codeword(buffer, ComplexGenerator, 8, 11, mul) == 208
    ensures Codeword(buffer, ComplexGenerator, 8, 12, mul) == 197
    ensures Codeword(buffer, ComplexGenerator, 8, 13, mul) == 145
    ensures Codeword(buffer, ComplexGenerator, 8, 14, mul) == 66
  {
    ComplexRound7Part0(buffer, mul);
    ComplexRound7Part1(buffer, mul);
    ComplexRound7Part2(buffer, mul);
  }

  lemma ComplexRound8Part1(buffer: seq<bv8>, mul: (bv8, bv8) -> bv8)
    requires IsComplexBuffer(buffer) && ComplexProducts(mul)
    ensures Codeword(buffer, ComplexGenerator, 8, 15, mul) == 79
    ensures Codeword(buffer, ComplexGenerator, 8, 16, mul) == 140
    ensures Codeword(buffer, ComplexGenerator, 8, 17, mul) == 180
    ensures Codeword(buffer, ComplexGenerator, 8, 18, mul) == 18
    ensures Codeword(buffer, ComplexGenerator, 8, 19, mul) == 248
    ensures Codeword(buffer, ComplexGenerator, 8, 20, mul) == 30
    ensures Codeword(buffer, ComplexGenerator, 8, 21, mul) == 0
  {
    ComplexRound7Part0(buffer, mul);
    ComplexRound7Part1(buffer, mul);
    ComplexRound7Part2(buffer, mul);
  }

  lemma ComplexRound8Part2(buffer: seq<bv8>, mul: (bv8, bv8) -> bv8)
    requires IsComplexBuffer(buffer) && ComplexProducts(mul)
    ensures Codeword(buffer, ComplexGenerator, 8, 22, mul) == 0
    ensures Codeword(buffer, ComplexGenerator, 8, 23, mul) == 0
    ensures Codeword(buffer, ComplexGenerator, 8, 24, mul) == 0
    ensures Codeword(buffer, ComplexGenerator, 8, 25, mul) == 0
  {
    ComplexRound7Part0(buffer, mul);
    ComplexRound7Part1(buffer, mul);
    ComplexRound7Part2(buffer, mul);
  }

  lemma ComplexRound9Part0(buffer: seq<bv8>, mul: (bv8, bv8) -> bv8)
    requires IsComplexBuffer(buffer) && ComplexProducts(mul)
    ensures Codeword(buffer, ComplexGenerator, 9, 9, mul) == 102
    ensures Codeword(buffer, ComplexGenerator, 9, 10, mul) == 54
    ensures Codeword(buffer, ComplexGenerator, 9, 11, mul) == 221
    ensures Codeword(buffer, ComplexGenerator, 9, 12, mul) == 221
    ensures Codeword(buffer, ComplexGenerator, 9, 13, mul) == 130
    ensures Codeword(buffer, ComplexGenerator, 9, 14, mul) == 90
    ensures Codeword(buffer, ComplexGenerator, 9, 15, mul) == 1
  {
    ComplexRound8Part0(buffer, mul);
    ComplexRound8Part1(buffer, mul);
    ComplexRound8Part2(buffer, mul);
  }

  lemma ComplexRound9Part1(buffer: seq<bv8>, mul: (bv8, bv8) -> bv8)
    requires IsComplexBuffer(buffer) && ComplexProducts(mul)
    ensures Codeword(buffer, ComplexGenerator, 9, 16, mul) == 17
    ensures Codeword(buffer, ComplexGenerator, 9, 17, mul) == 221
    ensures Codeword(buffer, ComplexGenerator, 9, 18, mul) == 136
    ensures Codeword(buffer, ComplexGenerator, 9, 19, mul) == 34
    ensures Codeword(buffer, ComplexGenerator, 9, 20, mul) == 135
    ensures Codeword(buffer, ComplexGenerator, 9, 21, mul) == 64
    ensures Codeword(buffer, ComplexGenerator, 9, 22, mul) == 0
  {
    ComplexRound8Part0(buffer, mul);
    ComplexRound8Part1(buffer, mul);
    ComplexRound8Part2(buffer, mul);
  }

  lemma ComplexRound9Part2(buffer: seq<bv8>, mul: (bv8, bv8) -> bv8)
    requires IsComplexBuffer(buffer) && ComplexProducts(mul)
    ensures Codeword(buffer, ComplexGenerator, 9, 23, mul) == 0
    ensures Codeword(buffer, ComplexGenerator, 9, 24, mul) == 0
    ensures Codeword(buffer, ComplexGenerator, 9, 25, mul) == 0
  {
    ComplexRound8Part0(buffer, mul);
    ComplexRound8Part1(buffer, mul);
    ComplexRound8Part2(buffer, mul);
  }

  lemma ComplexRound10Part0(buffer: seq<bv8>, mul: (bv8, bv8) -> bv8)
    requires IsComplexBuffer(buffer) && ComplexProducts(mul)
    ensures Codeword(buffer, ComplexGenerator, 10, 10, mul) == 42
    ensures Codeword(buffer, ComplexGenerator, 10, 11, mul) == 20
    ensures Codeword(buffer, ComplexGenerator, 10, 12, mul) == 254
    ensures Codeword(buffer, ComplexGenerator, 10, 13, mul) == 202
    ensures Codeword(buffer, ComplexGenerator, 10, 14, mul) == 35
    ensures Codeword(buffer, ComplexGenerator, 10, 15, mul) == 73
    ensures Codeword(buffer, ComplexGenerator, 10, 16, mul) == 230
  {
    ComplexRound9Part0(buffer, mul);
    ComplexRound9Part1(buffer, mul);
    ComplexRound9Part2(buffer, mul);
  }

  lemma ComplexRound10Part1(buffer: seq<bv8>, mul: (bv8, bv8) -> bv8)
    requires IsComplexBuffer(buffer) && ComplexProducts(mul)
    ensures Codeword(buffer, ComplexGenerator, 10, 17, mul) == 41
    ensures Codeword(buffer, ComplexGenerator, 10, 18, mul) == 138
    ensures Codeword(buffer, ComplexGenerator, 10, 19, mul) == 195
    ensures Codeword(buffer, ComplexGenerator, 10, 20, mul) == 187
    ensures Codeword(buffer, ComplexGenerator, 10, 21, mul) == 168
    ensures Codeword(buffer, ComplexGenerator, 10, 22, mul) == 221
    ensures Codeword(buffer, ComplexGenerator, 10, 23, mul) == 0
  {
    ComplexRound9Part0(buffer, mul);
    ComplexRound9Part1(buffer, mul);
    ComplexRound9Part2(buffer, mul);
  }

  lemma ComplexRound10Part2(buffer: seq<bv8>, mul: (bv8, bv8) -> bv8)
    requires IsComplexBuffer(buffer) && ComplexProducts(mul)
    ensures Codeword(buffer, ComplexGenerator, 10, 24, mul) == 0
    ensures Codeword(buffer, ComplexGenerator, 10, 25, mul) == 0
  {
    ComplexRound9Part0(buffer, mul);
    ComplexRound9Part1(buffer, mul);
    ComplexRound9Part2(buffer, mul);
  }

  lemma ComplexRound11Part0(buffer: seq<bv8>, mul: (bv8, bv8) -> bv8)
    requires IsComplexBuffer(buffer) && ComplexProducts(mul)
    ensures Codeword(buffer, ComplexGenerator, 11, 11, mul) == 215
    ensures Codeword(buffer, ComplexGenerator, 11, 12, mul) == 203
    ensures Codeword(buffer, ComplexGenerator, 11, 13, mul) == 107
    ensures Codeword(buffer, ComplexGenerator, 11, 14, mul) == 147
    ensures Codeword(buffer, ComplexGenerator, 11, 15, mul) == 116
    ensures Codeword(buffer, ComplexGenerator, 11, 16, mul) == 86
    ensures Codeword(buffer, ComplexGenerator, 11, 17, mul) == 50
  {
    ComplexRound10Part0(buffer, mul);
    ComplexRound10Part1(buffer, mul);
    ComplexRound10Part2(buffer, mul);
  }

  lemma ComplexRound11Part1(buffer: seq<bv8>, mul: (bv8, bv8) -> bv8)
    requires IsComplexBuffer(buffer) && ComplexProducts(mul)
    ensures Codeword(buffer, ComplexGenerator, 11, 18, mul) == 69
    ensures Codeword(buffer, ComplexGenerator, 11, 19, mul) == 91
    ensures Codeword(buffer, ComplexGenerator, 11, 20, mul) == 161
    ensures Codeword(buffer, ComplexGenerator, 11, 21, mul) == 30
    ensures Codeword(buffer, ComplexGenerator, 11, 22, mul) == 209
    ensures Codeword(buffer, ComplexGenerator, 11, 23, mul) == 172
    ensures Codeword(buffer, ComplexGenerator, 11, 24, mul) == 0
  {
    ComplexRound10Part0(buffer, mul);
    ComplexRound10Part1(buffer, mul);
    ComplexRound10Part2(buffer, mul);
  }

  lemma ComplexRound11Part2(buffer: seq<bv8>, mul: (bv8, bv8) -> bv8)
    requires IsComplexBuffer(buffer) && ComplexProducts(mul)
    ensures Codeword(buffer, ComplexGenerator, 11, 25, mul) == 0
  {
    ComplexRound10Part0(buffer, mul);
    ComplexRound10Part1(buffer, mul);
    ComplexRound10Part2(buffer, mul);
  }

  lemma ComplexRound12Part0(buffer: seq<bv8>, mul: (bv8, bv8) -> bv8)
    requires IsComplexBuffer(buffer) && ComplexProducts(mul)
    ensures Codeword(buffer, ComplexGenerator, 12, 12, mul) == 49
    ensures Codeword(buffer, ComplexGenerator, 12, 13, mul) == 169
    ensures Codeword(buffer, ComplexGenerator, 12, 14, mul) == 48
    ensures Codeword(buffer, ComplexGenerator, 12, 15, mul) == 82
    ensures Codeword(buffer, ComplexGenerator, 12, 16, mul) == 84
    ensures Codeword(buffer, ComplexGenerator, 12, 17, mul) == 20
    ensures Codeword(buffer, ComplexGenerator, 12, 18, mul) == 48
  {
    ComplexRound11Part0(buffer, mul);
    ComplexRound11Part1(buffer, mul);
    ComplexRound11Part2(buffer, mul);
  }

  lemma ComplexRound12Part1(buffer: seq<bv8>, mul: (bv8, bv8) -> bv8)
    requires IsComplexBuffer(buffer) && ComplexProducts(mul)
    ensures Codeword(buffer, ComplexGenerator, 12, 19, mul) == 1
    ensures Codeword(buffer, ComplexGenerator, 12, 20, mul) == 96
    ensures Codeword(buffer, ComplexGenerator, 12, 21, mul) == 115
    ensures Codeword(buffer, ComplexGenerator, 12, 22, mul) == 167
    ensures Codeword(buffer, ComplexGenerator, 12, 23, mul) == 12
    ensures Codeword(buffer, ComplexGenerator, 12, 24, mul) == 27
    ensures Codeword(buffer, ComplexGenerator, 12, 25, mul) == 0
  {
    ComplexRound11Part0(buffer, mul);
    ComplexRound11Part1(buffer, mul);
    ComplexRound11Part2(buffer, mul);
  }

  lemma ComplexRound13Part0(buffer: seq<bv8>, mul: (bv8, bv8) -> bv8)
    requires IsComplexBuffer(buffer) && ComplexProducts(mul)
    ensures Codeword(buffer, ComplexGenerator, 13, 13, mul) == 168
    ensures Codeword(buffer, ComplexGenerator, 13, 14, mul) == 72
    ensures Codeword(buffer, ComplexGenerator, 13, 15, mul) == 22
    ensures Codeword(buffer, ComplexGenerator, 13, 16, mul) == 82
    ensures Codeword(buffer, ComplexGenerator, 13, 17, mul) == 217
    ensures Codeword(buffer, ComplexGenerator, 13, 18, mul) == 54
    ensures Codeword(buffer, ComplexGenerator, 13, 19, mul) == 156
  {
    ComplexRound12Part0(buffer, mul);
    ComplexRound12Part1(buffer, mul);
  }

  lemma ComplexRound13Part1(buffer: seq<bv8>, mul: (bv8, bv8) -> bv8)
    requires IsComplexBuffer(buffer) && ComplexProducts(mul)
    ensures Codeword(buffer, ComplexGenerator, 13, 20, mul) == 0
    ensures Codeword(buffer, ComplexGenerator, 13, 21, mul) == 46
    ensures Codeword(buffer, ComplexGenerator, 13, 22, mul) == 15
    ensures Codeword(buffer, ComplexGenerator, 13, 23, mul) == 180
    ensures Codeword(buffer, ComplexGenerator, 13, 24, mul) == 122
    ensures Codeword(buffer, ComplexGenerator, 13, 25, mul) == 16
  {
    ComplexRound12Part0(buffer, mul);
    ComplexRound12Part1(buffer, mul);
  }

  lemma ComplexDivisionPart0(block: seq<bv8>, mul: (bv8, bv8) -> bv8)
    requires block == [32, 91, 11, 120, 209, 114, 220, 77, 67, 64, 236, 17, 236] && ComplexProducts(mul)
    ensures |Rounds(Padded(block, 13), ComplexGenerator, 13, mul)| == 26
    ensures Rounds(Padded(block, 13), ComplexGenerator, 13, mul)[13] == 168
    ensures Rounds(Padded(block, 13), ComplexGenerator, 13, mul)[14] == 72
    ensures Rounds(Padded(block, 13), ComplexGenerator, 13, mul)[15] == 22
    ensures Rounds(Padded(block, 13), ComplexGenerator, 13, mul)[16] == 82
    ensures Rounds(Padded(block, 13), ComplexGenerator, 13, mul)[17] == 217
  {
    var buffer := Padded(block, 13);
    assert IsComplexBuffer(buffer);
    ComplexRound13Part0(buffer, mul);
    RoundsAgreeWithCodeword(buffer, ComplexGenerator, 13, 13, mul);
    RoundsAgreeWithCodeword(buffer, ComplexGenerator, 13, 14, mul);
    RoundsAgreeWithCodeword(buffer, ComplexGenerator, 13, 15, mul);
    RoundsAgreeWithCodeword(buffer, ComplexGenerator, 13, 16, mul);
    RoundsAgreeWithCodeword(buffer, ComplexGenerator, 13, 17, mul);
  }

  lemma ComplexDivisionPart1(block: seq<bv8>, mul: (bv8, bv8) -> bv8)
    requires block == [32, 91, 11, 120, 209, 114, 220, 77, 67, 64, 236, 17, 236] && ComplexProducts(mul)
    ensures |Rounds(Padded(block, 13), ComplexGenerator, 13, mul)| == 26
    ensures Rounds(Padded(block, 13), ComplexGenerator, 13, mul)[18] == 54
    ensures Rounds(Padded(block, 13), ComplexGenerator, 13, mul)[19] == 156
    ensures Rounds(Padded(block, 13), ComplexGenerator, 13, mul)[20] == 0
    ensures Rounds(Padded(block, 13), ComplexGenerator, 13, mul)[21] == 46
    ensures Rounds(Padded(block, 13), ComplexGenerator, 13, mul)[22] == 15
  {
    var buffer := Padded(block, 13);
    assert IsComplexBuffer(buffer);
    ComplexRound13Part0(buffer, mul);
    ComplexRound13Part1(buffer, mul);
    RoundsAgreeWithCodeword(buffer, ComplexGenerator, 13, 18, mul);
    RoundsAgreeWithCodeword(buffer, ComplexGenerator, 13, 19, mul);
    RoundsAgreeWithCodeword(buffer, ComplexGenerator, 13, 20, mul);
    RoundsAgreeWithCodeword(buffer, ComplexGenerator, 13, 21, mul);
    RoundsAgreeWithCodeword(buffer, ComplexGenerator, 13, 22, mul);
  }

  lemma ComplexDivisionPart2(block: seq<bv8>, mul: (bv8, bv8) -> bv8)
    requires block == [32, 91, 11, 120, 209, 114, 220, 77, 67, 64, 236, 17, 236] && ComplexProducts(mul)
    ensures |Rounds(Padded(block, 13), ComplexGenerator, 13, mul)| == 26
    ensures Rounds(Padded(block, 13), ComplexGenerator, 13, mul)[23] == 180
    ensures Rounds(Padded(block, 13), ComplexGenerator, 13, mul)[24] == 122
    ensures Rounds(Padded(block, 13), ComplexGenerator, 13, mul)[25] == 16
  {
    var buffer := Padded(block, 13);
    assert IsComplexBuffer(buffer);
    ComplexRound13Part1(buffer, mul);
    RoundsAgreeWithCodeword(buffer, ComplexGenerator, 13, 23, mul);
    RoundsAgreeWithCodeword(buffer, ComplexGenerator, 13, 24, mul);
    RoundsAgreeWithCodeword(buffer, ComplexGenerator, 13, 25, mul);
  }

  /** The division of this test, for any product that agrees with the tables on the products
      it needs. */
  lemma ComplexDivision(block: seq<bv8>, mul: (bv8, bv8) -> bv8)
    requires block == [32, 91, 11, 120, 209, 114, 220, 77, 67, 64, 236, 17, 236] && ComplexProducts(mul)
    ensures Rounds(Padded(block, 13), ComplexGenerator, 13, mul)[13..] == [168, 72, 22, 82, 217, 54, 156, 0, 46, 15, 180, 122, 16]
  {
    ComplexDivisionPart0(block, mul);
    ComplexDivisionPart1(block, mul);
    ComplexDivisionPart2(block, mul);
  }

  /** The test of src/ec.rs:141-151: a 13-codeword block with 13 EC codewords. */
  lemma CreateEcForBlockComplexVector(block: seq<bv8>)
    requires block == [32, 91, 11, 120, 209, 114, 220, 77, 67, 64, 236, 17, 236]
    ensures EcForBlock(block, 13, GeneratorPolynomial(13)) == [168, 72, 22, 82, 217, 54, 156, 0, 46, 15, 180, 122, 16]
  {
    ComplexGeneratorFromTable();
    ComplexProductsFromTables();
    ComplexDivision(block, TableProduct);
  }

  /** Column `column` of three blocks of three codewords reads one codeword from each block. */
  lemma SquareColumn(a: bv8, b: bv8, c: bv8, d: bv8, e: bv8, f: bv8, g: bv8, h: bv8, i: bv8, column: nat)
    requires column < 3
    ensures Column([[a, b, c], [d, e, f], [g, h, i]], column) == [[a, b, c][column], [d, e, f][column], [g, h, i][column]]
  {
    var blocks: seq<seq<bv8>> := [[a, b, c], [d, e, f], [g, h, i]];
    assert blocks[..2] == [[a, b, c], [d, e, f]];
    assert blocks[..2][..1] == [[a, b, c]];
    assert blocks[..2][..1][..0] == [];
    assert Column(blocks[..2][..1], column) == [[a, b, c][column]];
    assert Column(blocks[..2], column) == [[a, b, c][column], [d, e, f][column]];
  }

  /** The test of src/ec.rs:99-104: three blocks of three codewords interleave column by column. */
  lemma InterleaveEqualLengthVector()
    ensures Interleaved([[1, 2, 3], [4, 5, 6], [7, 8, 9]]) == [1, 4, 7, 2, 5, 8, 3, 6, 9]
  {
    var blocks: seq<seq<bv8>> := [[1, 2, 3], [4, 5, 6], [7, 8, 9]];
    assert MaxLength(blocks) == 3;
    SquareColumn(1, 2, 3, 4, 5, 6, 7, 8, 9, 0);
    SquareColumn(1, 2, 3, 4, 5, 6, 7, 8, 9, 1);
    SquareColumn(1, 2, 3, 4, 5, 6, 7, 8, 9, 2);
    assert InterleavedUpTo(blocks, 1) == [1, 4, 7];
    assert InterleavedUpTo(blocks, 2) == [1, 4, 7, 2, 5, 8];
  }

  /** The test of src/ec.rs:106-111: blocks of lengths 2, 3 and 1; exhausted blocks are skipped. */
  lemma InterleaveUnequalLengthVector()
    ensures Interleaved([[1, 2], [3, 4, 5], [6]]) == [1, 3, 6, 2, 4, 5]
  {
    var blocks: seq<seq<bv8>> := [[1, 2], [3, 4, 5], [6]];
    assert blocks[..2] == [[1, 2], [3, 4, 5]];
    assert blocks[..2][..1] == [[1, 2]];
    assert blocks[..2][..1][..0] == [];
    assert MaxLength(blocks) == 3;
    assert Column(blocks[..2][..1], 0) == [1];
    assert Column(blocks[..2], 0) == [1, 3];
    assert Column(blocks, 0) == [1, 3, 6];
    assert Column(blocks[..2][..1], 1) == [2];
    assert Column(blocks[..2], 1) == [2, 4];
    assert Column(blocks, 1) == [2, 4];
    assert Column(blocks[..2][..1], 2) == [];
    assert Column(blocks[..2], 2) == [5];
    assert Column(blocks, 2) == [5];
    assert InterleavedUpTo(blocks, 1) == [1, 3, 6];
    assert InterleavedUpTo(blocks, 2) == [1, 3, 6, 2, 4];
    assert InterleavedUpTo(blocks, 3) == [1, 3, 6, 2, 4, 5];
  }
}
