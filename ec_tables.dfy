/**
 * The fixed tables of src/ec.rs that size the Reed-Solomon blocks: the number of error-correction
 * codewords per block, the data block layout of each version and level, and the generator
 * polynomials. Rows are indexed from 0; the row for version v is row v - 1.
 */
module EcTables {

  /** One entry of `DATA_BYTES_PER_BLOCK` (src/ec.rs:323-535), read as src/ec.rs:22 destructures it:
      `count1` blocks of `size1` data codewords, then `count2` blocks of `size2` data codewords. */
  datatype BlockLayout = BlockLayout(size1: nat, count1: nat, size2: nat, count2: nat)

  /** Entry `j` of one row of four, one per error-correction level in the order L, M, Q, H. */
  function Select4<T>(j: nat, l: T, m: T, q: T, h: T): T
    requires j < 4
  {
    if j < 2 then (if j < 1 then l else m) else (if j < 3 then q else h)
  }

  /** `EC_BYTES_PER_BLOCK[row][column]` (src/ec.rs:157-198). */
  function EcBytesPerBlock(row: nat, column: nat): nat
    requires row < 40 && column < 4
  {
    if row < 20 then
      if row < 10 then
        if row < 5 then
          if row < 2 then
            if row < 1 then
              Select4(column, 7, 10, 13, 17)
            else
              Select4(column, 10, 16, 22, 28)
          else
            if row < 3 then
              Select4(column, 15, 26, 18, 22)
            else
              if row < 4 then
                Select4(column, 20, 18, 26, 16)
              else
                Select4(column, 26, 24, 18, 22)
        else
          if row < 7 then
            if row < 6 then
              Select4(column, 18, 16, 24, 28)
            else
              Select4(column, 20, 18, 18, 26)
          else
            if row < 8 then
              Select4(column, 24, 22, 22, 26)
            else
              if row < 9 then
                Select4(column, 30, 22, 20, 24)
              else
                Select4(column, 18, 26, 24, 28)
      else
        if row < 15 then
          if row < 12 then
            if row < 11 then
              Select4(column, 20, 30, 28, 24)
            else
              Select4(column, 24, 22, 26, 28)
          else
            if row < 13 then
              Select4(column, 26, 22, 24, 22)
            else
              if row < 14 then
                Select4(column, 30, 24, 20, 24)
              else
                Select4(column, 22, 24, 30, 24)
        else
          if row < 17 then
            if row < 16 then
              Select4(column, 24, 28, 24, 30)
            else
              Select4(column, 28, 28, 28, 28)
          else
            if row < 18 then
              Select4(column, 30, 26, 28, 28)
            else
              if row < 19 then
                Select4(column, 28, 26, 26, 26)
              else
                Select4(column, 28, 26, 30, 28)
    else
      if row < 30 then
        if row < 25 then
          if row < 22 then
            if row < 21 then
              Select4(column, 28, 26, 28, 30)
            else
              Select4(column, 28, 28, 30, 24)
          else
            if row < 23 then
              Select4(column, 30, 28, 30, 30)
            else
              if row < 24 then
                Select4(column, 30, 28, 30, 30)
              else
                Select4(column, 26, 28, 30, 30)
        else
          if row < 27 then
            if row < 26 then
              Select4(column, 28, 28, 28, 30)
            else
              Select4(column, 30, 28, 30, 30)
          else
            if row < 28 then
              Select4(column, 30, 28, 30, 30)
            else
              if row < 29 then
                Select4(column, 30, 28, 30, 30)
              else
                Select4(column, 30, 28, 30, 30)
      else
        if row < 35 then
          if row < 32 then
            if row < 31 then
              Select4(column, 30, 28, 30, 30)
            else
              Select4(column, 30, 28, 30, 30)
          else
            if row < 33 then
              Select4(column, 30, 28, 30, 30)
            else
              if row < 34 then
                Select4(column, 30, 28, 30, 30)
              else
                Select4(column, 30, 28, 30, 30)
        else
          if row < 37 then
            if row < 36 then
              Select4(column, 30, 28, 30, 30)
            else
              Select4(column, 30, 28, 30, 30)
          else
            if row < 38 then
              Select4(column, 30, 28, 30, 30)
            else
              if row < 39 then
                Select4(column, 30, 28, 30, 30)
              else
                Select4(column, 30, 28, 30, 30)
  }

  /** `DATA_BYTES_PER_BLOCK[row][column]` (src/ec.rs:323-535). */
  function DataBytesPerBlock(row: nat, column: nat): BlockLayout
    requires row < 40 && column < 4
  {
    if row < 20 then
      if row < 10 then
        if row < 5 then
          if row < 2 then
            if row < 1 then
              Select4(column, BlockLayout(19, 1, 0, 0), BlockLayout(16, 1, 0, 0), BlockLayout(13, 1, 0, 0), BlockLayout(9, 1, 0, 0))
            else
              Select4(column, BlockLayout(34, 1, 0, 0), BlockLayout(28, 1, 0, 0), BlockLayout(22, 1, 0, 0), BlockLayout(16, 1, 0, 0))
          else
            if row < 3 then
              Select4(column, BlockLayout(55, 1, 0, 0), BlockLayout(44, 1, 0, 0), BlockLayout(17, 2, 0, 0), BlockLayout(13, 2, 0, 0))
            else
              if row < 4 then
                Select4(column, BlockLayout(80, 1, 0, 0), BlockLayout(32, 2, 0, 0), BlockLayout(24, 2, 0, 0), BlockLayout(9, 4, 0, 0))
              else
                Select4(column, BlockLayout(108, 1, 0, 0), BlockLayout(43, 2, 0, 0), BlockLayout(15, 2, 16, 2), BlockLayout(11, 2, 12, 2))
        else
          if row < 7 then
            if row < 6 then
              Select4(column, BlockLayout(68, 2, 0, 0), BlockLayout(27, 4, 0, 0), BlockLayout(19, 4, 0, 0), BlockLayout(15, 4, 0, 0))
            else
              Select4(column, BlockLayout(78, 2, 0, 0), BlockLayout(31, 4, 0, 0), BlockLayout(14, 2, 15, 4), BlockLayout(13, 4, 14, 1))
          else
            if row < 8 then
              Select4(column, BlockLayout(97, 2, 0, 0), BlockLayout(38, 2, 39, 2), BlockLayout(18, 4, 19, 2), BlockLayout(14, 4, 15, 2))
            else
              if row < 9 then
                Select4(column, BlockLayout(116, 2, 0, 0), BlockLayout(36, 3, 37, 2), BlockLayout(16, 4, 17, 4), BlockLayout(12, 4, 13, 4))
              else
                Select4(column, BlockLayout(68, 2, 69, 2), BlockLayout(43, 4, 44, 1), BlockLayout(19, 6, 20, 2), BlockLayout(15, 6, 16, 2))
      else
        if row < 15 then
          if row < 12 then
            if row < 11 then
              Select4(column, BlockLayout(81, 4, 0, 0), BlockLayout(50, 1, 51, 4), BlockLayout(22, 4, 23, 4), BlockLayout(12, 3, 13, 8))
            else
              Select4(column, BlockLayout(92, 2, 93, 2), BlockLayout(36, 6, 37, 2), BlockLayout(20, 4, 21, 6), BlockLayout(14, 7, 15, 4))
          else
            if row < 13 then
              Select4(column, BlockLayout(107, 4, 0, 0), BlockLayout(37, 8, 38, 1), BlockLayout(20, 8, 21, 4), BlockLayout(11, 12, 12, 4))
            else
              if row < 14 then
                Select4(column, BlockLayout(115, 3, 116, 1), BlockLayout(40, 4, 41, 5), BlockLayout(16, 11, 17, 5), BlockLayout(12, 11, 13, 5))
              else
                Select4(column, BlockLayout(87, 5, 88, 1), BlockLayout(41, 5, 42, 5), BlockLayout(24, 5, 25, 7), BlockLayout(12, 11, 13, 7))
        else
          if row < 17 then
            if row < 16 then
              Select4(column, BlockLayout(98, 5, 99, 1), BlockLayout(45, 7, 46, 3), BlockLayout(19, 15, 20, 2), BlockLayout(15, 3, 16, 13))
            else
              Select4(column, BlockLayout(107, 1, 108, 5), BlockLayout(46, 10, 47, 1), BlockLayout(22, 1, 23, 15), BlockLayout(14, 2, 15, 17))
          else
            if row < 18 then
              Select4(column, BlockLayout(120, 5, 121, 1), BlockLayout(43, 9, 44, 4), BlockLayout(22, 17, 23, 1), BlockLayout(14, 2, 15, 19))
            else
              if row < 19 then
                Select4(column, BlockLayout(113, 3, 114, 4), BlockLayout(44, 3, 45, 11), BlockLayout(21, 17, 22, 4), BlockLayout(13, 9, 14, 16))
              else
                Select4(column, BlockLayout(107, 3, 108, 5), BlockLayout(41, 3, 42, 13), BlockLayout(24, 15, 25, 5), BlockLayout(15, 15, 16, 10))
    else
      if row < 30 then
        if row < 25 then
          if row < 22 then
            if row < 21 then
              Select4(column, BlockLayout(116, 4, 117, 4), BlockLayout(42, 17, 0, 0), BlockLayout(22, 17, 23, 6), BlockLayout(16, 19, 17, 6))
            else
              Select4(column, BlockLayout(111, 2, 112, 7), BlockLayout(46, 17, 0, 0), BlockLayout(24, 7, 25, 16), BlockLayout(13, 34, 0, 0))
          else
            if row < 23 then
              Select4(column, BlockLayout(121, 4, 122, 5), BlockLayout(47, 4, 48, 14), BlockLayout(24, 11, 25, 14), BlockLayout(15, 16, 16, 14))
            else
              if row < 24 then
                Select4(column, BlockLayout(117, 6, 118, 4), BlockLayout(45, 6, 46, 14), BlockLayout(24, 11, 25, 16), BlockLayout(16, 30, 17, 2))
              else
                Select4(column, BlockLayout(106, 8, 107, 4), BlockLayout(47, 8, 48, 13), BlockLayout(24, 7, 25, 22), BlockLayout(15, 22, 16, 13))
        else
          if row < 27 then
            if row < 26 then
              Select4(column, BlockLayout(114, 10, 115, 2), BlockLayout(46, 19, 47, 4), BlockLayout(22, 28, 23, 6), BlockLayout(16, 33, 17, 4))
            else
              Select4(column, BlockLayout(122, 8, 123, 4), BlockLayout(45, 22, 46, 3), BlockLayout(23, 8, 24, 26), BlockLayout(15, 12, 16, 28))
          else
            if row < 28 then
              Select4(column, BlockLayout(117, 3, 118, 10), BlockLayout(45, 3, 46, 23), BlockLayout(24, 4, 25, 31), BlockLayout(15, 11, 16, 31))
            else
              if row < 29 then
                Select4(column, BlockLayout(116, 7, 117, 7), BlockLayout(45, 21, 46, 7), BlockLayout(23, 1, 24, 37), BlockLayout(15, 19, 16, 26))
              else
                Select4(column, BlockLayout(115, 5, 116, 10), BlockLayout(47, 19, 48, 10), BlockLayout(24, 15, 25, 25), BlockLayout(15, 23, 16, 25))
      else
        if row < 35 then
          if row < 32 then
            if row < 31 then
              Select4(column, BlockLayout(115, 13, 116, 3), BlockLayout(46, 2, 47, 29), BlockLayout(24, 42, 25, 1), BlockLayout(15, 23, 16, 28))
            else
              Select4(column, BlockLayout(115, 17, 0, 0), BlockLayout(46, 10, 47, 23), BlockLayout(24, 10, 25, 35), BlockLayout(15, 19, 16, 35))
          else
            if row < 33 then
              Select4(column, BlockLayout(115, 17, 116, 1), BlockLayout(46, 14, 47, 21), BlockLayout(24, 29, 25, 19), BlockLayout(15, 11, 16, 46))
            else
              if row < 34 then
                Select4(column, BlockLayout(115, 13, 116, 6), BlockLayout(46, 14, 47, 23), BlockLayout(24, 44, 25, 7), BlockLayout(16, 59, 17, 1))
              else
                Select4(column, BlockLayout(121, 12, 122, 7), BlockLayout(47, 12, 48, 26), BlockLayout(24, 39, 25, 14), BlockLayout(15, 22, 16, 41))
        else
          if row < 37 then
            if row < 36 then
              Select4(column, BlockLayout(121, 6, 122, 14), BlockLayout(47, 6, 48, 34), BlockLayout(24, 46, 25, 10), BlockLayout(15, 2, 16, 64))
            else
              Select4(column, BlockLayout(122, 17, 123, 4), BlockLayout(46, 29, 47, 14), BlockLayout(24, 49, 25, 10), BlockLayout(15, 24, 16, 46))
          else
            if row < 38 then
              Select4(column, BlockLayout(122, 4, 123, 18), BlockLayout(46, 13, 47, 32), BlockLayout(24, 48, 25, 14), BlockLayout(15, 42, 16, 32))
            else
              if row < 39 then
                Select4(column, BlockLayout(117, 20, 118, 4), BlockLayout(47, 40, 48, 7), BlockLayout(24, 43, 25, 22), BlockLayout(15, 10, 16, 67))
              else
                Select4(column, BlockLayout(118, 19, 119, 6), BlockLayout(47, 18, 48, 31), BlockLayout(24, 34, 25, 34), BlockLayout(15, 20, 16, 61))
  }

  /** `GENERATOR_POLYNOMIALS[k]` (src/ec.rs:243-317): the coefficients below the leading one of the
      generator polynomial of degree k, as exponents of α. */
  function GeneratorPolynomial(k: nat): seq<bv8>
    requires k < 70
  {
    if k < 35 then
      if k < 17 then
        if k < 8 then
          if k < 4 then
            if k < 2 then
              if k < 1 then
                []
              else
                [0x00]
            else
              if k < 3 then
                [0x19, 0x01]
              else
                [0xc6, 0xc7, 0x03]
          else
            if k < 6 then
              if k < 5 then
                [0x4b, 0xf9, 0x4e, 0x06]
              else
                [0x71, 0xa4, 0xa6, 0x77, 0x0a]
            else
              if k < 7 then
                [0xa6, 0x00, 0x86, 0x05, 0xb0, 0x0f]
              else
                [0x57, 0xe5, 0x92, 0x95, 0xee, 0x66, 0x15]
        else
          if k < 12 then
            if k < 10 then
              if k < 9 then
                [0xaf, 0xee, 0xd0, 0xf9, 0xd7, 0xfc, 0xc4, 0x1c]
              else
                [0x5f, 0xf6, 0x89, 0xe7, 0xeb, 0x95, 0x0b, 0x7b, 0x24]
            else
              if k < 11 then
                [0xfb, 0x43, 0x2e, 0x3d, 0x76, 0x46, 0x40, 0x5e, 0x20, 0x2d]
              else
                [0xdc, 0xc0, 0x5b, 0xc2, 0xac, 0xb1, 0xd1, 0x74, 0xe3, 0x0a, 0x37]
          else
            if k < 14 then
              if k < 13 then
                [0x66, 0x2b, 0x62, 0x79, 0xbb, 0x71, 0xc6, 0x8f, 0x83, 0x57, 0x9d, 0x42]
              else
                [0x4a, 0x98, 0xb0, 0x64, 0x56, 0x64, 0x6a, 0x68, 0x82, 0xda, 0xce, 0x8c, 0x4e]
            else
              if k < 15 then
                [0xc7, 0xf9, 0x9b, 0x30, 0xbe, 0x7c, 0xda, 0x89, 0xd8, 0x57, 0xcf, 0x3b, 0x16, 0x5b]
              else
                if k < 16 then
                  [0x08, 0xb7, 0x3d, 0x5b, 0xca, 0x25, 0x33, 0x3a, 0x3a, 0xed, 0x8c, 0x7c, 0x05, 0x63, 0x69]
                else
                  [0x78, 0x68, 0x6b, 0x6d, 0x66, 0xa1, 0x4c, 0x03, 0x5b, 0xbf, 0x93, 0xa9, 0xb6, 0xc2, 0xe1, 0x78]
      else
        if k < 26 then
          if k < 21 then
            if k < 19 then
              if k < 18 then
                [0x2b, 0x8b, 0xce, 0x4e, 0x2b, 0xef, 0x7b, 0xce, 0xd6, 0x93, 0x18, 0x63, 0x96, 0x27, 0xf3, 0xa3, 0x88]
              else
                [0xd7, 0xea, 0x9e, 0x5e, 0xb8, 0x61, 0x76, 0xaa, 0x4f, 0xbb, 0x98, 0x94, 0xfc, 0xb3, 0x05, 0x62, 0x60, 0x99]
            else
              if k < 20 then
                [0x43, 0x03, 0x69, 0x99, 0x34, 0x5a, 0x53, 0x11, 0x96, 0x9f, 0x2c, 0x80, 0x99, 0x85, 0xfc, 0xde, 0x8a, 0xdc, 0xab]
              else
                [0x11, 0x3c, 0x4f, 0x32, 0x3d, 0xa3, 0x1a, 0xbb, 0xca, 0xb4, 0xdd, 0xe1, 0x53, 0xef, 0x9c, 0xa4, 0xd4, 0xd4, 0xbc, 0xbe]
          else
            if k < 23 then
              if k < 22 then
                [0xf0, 0xe9, 0x68, 0xf7, 0xb5, 0x8c, 0x43, 0x62, 0x55, 0xc8, 0xd2, 0x73, 0x94, 0x89, 0xe6, 0x24, 0x7a, 0xfe, 0x94, 0xaf, 0xd2]
              else
                [0xd2, 0xab, 0xf7, 0xf2, 0x5d, 0xe6, 0x0e, 0x6d, 0xdd, 0x35, 0xc8, 0x4a, 0x08, 0xac, 0x62, 0x50, 0xdb, 0x86, 0xa0, 0x69, 0xa5, 0xe7]
            else
              if k < 24 then
                [0xab, 0x66, 0x92, 0x5b, 0x31, 0x67, 0x41, 0x11, 0xc1, 0x96, 0x0e, 0x19, 0xb7, 0xf8, 0x5e, 0xa4, 0xe0, 0xc0, 0x01, 0x4e, 0x38, 0x93, 0xfd]
              else
                if k < 25 then
                  [0xe5, 0x79, 0x87, 0x30, 0xd3, 0x75, 0xfb, 0x7e, 0x9f, 0xb4, 0xa9, 0x98, 0xc0, 0xe2, 0xe4, 0xda, 0x6f, 0x00, 0x75, 0xe8, 0x57, 0x60, 0xe3, 0x15]
                else
                  [0xe7, 0xb5, 0x9c, 0x27, 0xaa, 0x1a, 0x0c, 0x3b, 0x0f, 0x94, 0xc9, 0x36, 0x42, 0xed, 0xd0, 0x63, 0xa7, 0x90, 0xb6, 0x5f, 0xf3, 0x81, 0xb2, 0xfc, 0x2d]
        else
          if k < 30 then
            if k < 28 then
              if k < 27 then
                [0xad, 0x7d, 0x9e, 0x02, 0x67, 0xb6, 0x76, 0x11, 0x91, 0xc9, 0x6f, 0x1c, 0xa5, 0x35, 0xa1, 0x15, 0xf5, 0x8e, 0x0d, 0x66, 0x30, 0xe3, 0x99, 0x91, 0xda, 0x46]
              else
                [0x4f, 0xe4, 0x08, 0xa5, 0xe3, 0x15, 0xb4, 0x1d, 0x09, 0xed, 0x46, 0x63, 0x2d, 0x3a, 0x8a, 0x87, 0x49, 0x7e, 0xac, 0x5e, 0xd8, 0xc1, 0x9d, 0x1a, 0x11, 0x95, 0x60]
            else
              if k < 29 then
                [0xa8, 0xdf, 0xc8, 0x68, 0xe0, 0xea, 0x6c, 0xb4, 0x6e, 0xbe, 0xc3, 0x93, 0xcd, 0x1b, 0xe8, 0xc9, 0x15, 0x2b, 0xf5, 0x57, 0x2a, 0xc3, 0xd4, 0x77, 0xf2, 0x25, 0x09, 0x7b]
              else
                [0x9c, 0x2d, 0xb7, 0x1d, 0x97, 0xdb, 0x36, 0x60, 0xf9, 0x18, 0x88, 0x05, 0xf1, 0xaf, 0xbd, 0x1c, 0x4b, 0xea, 0x96, 0x94, 0x17, 0x09, 0xca, 0xa2, 0x44, 0xfa, 0x8c, 0x18, 0x97]
          else
            if k < 32 then
              if k < 31 then
                [0x29, 0xad, 0x91, 0x98, 0xd8, 0x1f, 0xb3, 0xb6, 0x32, 0x30, 0x6e, 0x56, 0xef, 0x60, 0xde, 0x7d, 0x2a, 0xad, 0xe2, 0xc1, 0xe0, 0x82, 0x9c, 0x25, 0xfb, 0xd8, 0xee, 0x28, 0xc0, 0xb4]
              else
                [0x14, 0x25, 0xfc, 0x5d, 0x3f, 0x4b, 0xe1, 0x1f, 0x73, 0x53, 0x71, 0x27, 0x2c, 0x49, 0x7a, 0x89, 0x76, 0x77, 0x90, 0xf8, 0xf8, 0x37, 0x01, 0xe1, 0x69, 0x7b, 0xb7, 0x75, 0xbb, 0xc8, 0xd2]
            else
              if k < 33 then
                [0x0a, 0x06, 0x6a, 0xbe, 0xf9, 0xa7, 0x04, 0x43, 0xd1, 0x8a, 0x8a, 0x20, 0xf2, 0x7b, 0x59, 0x1b, 0x78, 0xb9, 0x50, 0x9c, 0x26, 0x45, 0xab, 0x3c, 0x1c, 0xde, 0x50, 0x34, 0xfe, 0xb9, 0xdc, 0xf1]
              else
                if k < 34 then
                  [0xf5, 0xe7, 0x37, 0x18, 0x47, 0x4e, 0x4c, 0x51, 0xe1, 0xd4, 0xad, 0x25, 0xd7, 0x2e, 0x77, 0xe5, 0xf5, 0xa7, 0x7e, 0x48, 0xb5, 0x5e, 0xa5, 0xd2, 0x62, 0x7d, 0x9f, 0xb8, 0xa9, 0xe8, 0xb9, 0xe7, 0x12]
                else
                  [0x6f, 0x4d, 0x92, 0x5e, 0x1a, 0x15, 0x6c, 0x13, 0x69, 0x5e, 0x71, 0xc1, 0x56, 0x8c, 0xa3, 0x7d, 0x3a, 0x9e, 0xe5, 0xef, 0xda, 0x67, 0x38, 0x46, 0x72, 0x3d, 0xb7, 0x81, 0xa7, 0x0d, 0x62, 0x3e, 0x81, 0x33]
    else
      if k < 52 then
        if k < 43 then
          if k < 39 then
            if k < 37 then
              if k < 36 then
                [0x07, 0x5e, 0x8f, 0x51, 0xf7, 0x7f, 0xca, 0xca, 0xc2, 0x7d, 0x92, 0x1d, 0x8a, 0xa2, 0x99, 0x41, 0x69, 0x7a, 0x74, 0xee, 0x1a, 0x24, 0xd8, 0x70, 0x7d, 0xe4, 0x0f, 0x31, 0x08, 0xa2, 0x1e, 0x7e, 0x6f, 0x3a, 0x55]
              else
                [0xc8, 0xb7, 0x62, 0x10, 0xac, 0x1f, 0xf6, 0xea, 0x3c, 0x98, 0x73, 0x00, 0xa7, 0x98, 0x71, 0xf8, 0xee, 0x6b, 0x12, 0x3f, 0xda, 0x25, 0x57, 0xd2, 0x69, 0xb1, 0x78, 0x4a, 0x79, 0xc4, 0x75, 0xfb, 0x71, 0xe9, 0x1e, 0x78]
            else
              if k < 38 then
                [0x9a, 0x4b, 0x8d, 0xb4, 0x3d, 0xa5, 0x68, 0xe8, 0x2e, 0xe3, 0x60, 0xb2, 0x5c, 0x87, 0x39, 0xa2, 0x78, 0xc2, 0xd4, 0xae, 0xfc, 0xb7, 0x2a, 0x23, 0x9d, 0x6f, 0x17, 0x85, 0x64, 0x08, 0x69, 0x25, 0xc0, 0xbd, 0x9f, 0x13, 0x9c]
              else
                [0x9f, 0x22, 0x26, 0xe4, 0xe6, 0x3b, 0xf3, 0x5f, 0x31, 0xda, 0xb0, 0xa4, 0x14, 0x41, 0x2d, 0x6f, 0x27, 0x51, 0x31, 0x76, 0x71, 0xde, 0xc1, 0xfa, 0xf2, 0xa8, 0xd9, 0x29, 0xa4, 0xf7, 0xb1, 0x1e, 0xee, 0x12, 0x78, 0x99, 0x3c, 0xc1]
          else
            if k < 41 then
              if k < 40 then
                [0x51, 0xd8, 0xae, 0x2f, 0xc8, 0x96, 0x3b, 0x9c, 0x59, 0x8f, 0x59, 0xa6, 0xb7, 0xaa, 0x98, 0x15, 0xa5, 0xb1, 0x71, 0x84, 0xea, 0x05, 0x9a, 0x44, 0x7c, 0xaf, 0xc4, 0x9d, 0xf9, 0xe9, 0x53, 0x18, 0x99, 0xf1, 0x7e, 0x24, 0x74, 0x13, 0xe7]
              else
                [0x3b, 0x74, 0x4f, 0xa1, 0xfc, 0x62, 0x80, 0xcd, 0x80, 0xa1, 0xf7, 0x39, 0xa3, 0x38, 0xeb, 0x6a, 0x35, 0x1a, 0xbb, 0xae, 0xe2, 0x68, 0xaa, 0x07, 0xaf, 0x23, 0xb5, 0x72, 0x58, 0x29, 0x2f, 0xa3, 0x7d, 0x86, 0x48, 0x14, 0xe8, 0x35, 0x23, 0x0f]
            else
              if k < 42 then
                [0x84, 0xa7, 0x34, 0x8b, 0xb8, 0xdf, 0x95, 0x5c, 0xfa, 0x12, 0x53, 0x21, 0x7f, 0x6d, 0xc2, 0x07, 0xd3, 0xf2, 0x6d, 0x42, 0x56, 0xa9, 0x57, 0x60, 0xbb, 0x9f, 0x72, 0xac, 0x76, 0xd0, 0xb7, 0xc8, 0x52, 0xb3, 0x26, 0x27, 0x22, 0xf2, 0x8e, 0x93, 0x37]
              else
                [0xfa, 0x67, 0xdd, 0xe6, 0x19, 0x12, 0x89, 0xe7, 0x00, 0x03, 0x3a, 0xf2, 0xdd, 0xbf, 0x6e, 0x54, 0xe6, 0x08, 0xbc, 0x6a, 0x60, 0x93, 0x0f, 0x83, 0x8b, 0x22, 0x65, 0xdf, 0x27, 0x65, 0xd5, 0xc7, 0xed, 0xfe, 0xc9, 0x7b, 0xab, 0xa2, 0xc2, 0x75, 0x32, 0x60]
        else
          if k < 47 then
            if k < 45 then
              if k < 44 then
                [0x60, 0x43, 0x03, 0xf5, 0xd9, 0xd7, 0x21, 0x41, 0xf0, 0x6d, 0x90, 0x3f, 0x15, 0x83, 0x26, 0x65, 0x99, 0x80, 0x37, 0x1f, 0xed, 0x03, 0x5e, 0xa0, 0x14, 0x57, 0x4d, 0x38, 0xbf, 0x7b, 0xcf, 0x4b, 0x52, 0x00, 0x7a, 0x84, 0x65, 0x91, 0xd7, 0x0f, 0x79, 0xc0, 0x8a]
              else
                [0xbe, 0x07, 0x3d, 0x79, 0x47, 0xf6, 0x45, 0x37, 0xa8, 0xbc, 0x59, 0xf3, 0xbf, 0x19, 0x48, 0x7b, 0x09, 0x91, 0x0e, 0xf7, 0x01, 0xee, 0x2c, 0x4e, 0x8f, 0x3e, 0xe0, 0x7e, 0x76, 0x72, 0x44, 0xa3, 0x34, 0xc2, 0xd9, 0x93, 0xcc, 0xa9, 0x25, 0x82, 0x71, 0x66, 0x49, 0xb5]
            else
              if k < 46 then
                [0x06, 0xac, 0x48, 0xfa, 0x12, 0xab, 0xab, 0xa2, 0xe5, 0xbb, 0xef, 0x04, 0xbb, 0x0b, 0x25, 0xe4, 0x66, 0x48, 0x66, 0x16, 0x21, 0x49, 0x5f, 0x63, 0x84, 0x01, 0x0f, 0x59, 0x04, 0x70, 0x82, 0x5f, 0xd3, 0xeb, 0xe3, 0x3a, 0x23, 0x58, 0x84, 0x17, 0x2c, 0xa5, 0x36, 0xbb, 0xe1]
              else
                [0x70, 0x5e, 0x58, 0x70, 0xfd, 0xe0, 0xca, 0x73, 0xbb, 0x63, 0x59, 0x05, 0x36, 0x71, 0x81, 0x2c, 0x3a, 0x10, 0x87, 0xd8, 0xa9, 0xd3, 0x24, 0x01, 0x04, 0x60, 0x3c, 0xf1, 0x49, 0x68, 0xea, 0x08, 0xf9, 0xf5, 0x77, 0xae, 0x34, 0x19, 0x9d, 0xe0, 0x2b, 0xca, 0xdf, 0x13, 0x52, 0x0f]
          else
            if k < 49 then
              if k < 48 then
                [0x4c, 0xa4, 0xe5, 0x5c, 0x4f, 0xa8, 0xdb, 0x6e, 0x68, 0x15, 0xdc, 0x4a, 0x13, 0xc7, 0xc3, 0x64, 0x5d, 0xbf, 0x2b, 0xd5, 0x48, 0x38, 0x8a, 0xa1, 0x7d, 0xbb, 0x77, 0xfa, 0xbd, 0x89, 0xbe, 0x4c, 0x7e, 0xf7, 0x5d, 0x1e, 0x84, 0x06, 0x3a, 0xd5, 0xd0, 0xa5, 0xe0, 0x98, 0x85, 0x5b, 0x3d]
              else
                [0xe4, 0x19, 0xc4, 0x82, 0xd3, 0x92, 0x3c, 0x18, 0xfb, 0x5a, 0x27, 0x66, 0xf0, 0x3d, 0xb2, 0x3f, 0x2e, 0x7b, 0x73, 0x12, 0xdd, 0x6f, 0x87, 0xa0, 0xb6, 0xcd, 0x6b, 0xce, 0x5f, 0x96, 0x78, 0xb8, 0x5b, 0x15, 0xf7, 0x9c, 0x8c, 0xee, 0xbf, 0x0b, 0x5e, 0xe3, 0x54, 0x32, 0xa3, 0x27, 0x22, 0x6c]
            else
              if k < 50 then
                [0xac, 0x79, 0x01, 0x29, 0xc1, 0xde, 0xed, 0x40, 0x6d, 0xb5, 0x34, 0x78, 0xd4, 0xe2, 0xef, 0xf5, 0xd0, 0x14, 0xf6, 0x22, 0xe1, 0xcc, 0x86, 0x65, 0x7d, 0xce, 0x45, 0x8a, 0xfa, 0x00, 0x4d, 0x3a, 0x8f, 0xb9, 0xdc, 0xfe, 0xd2, 0xbe, 0x70, 0x58, 0x5b, 0x39, 0x5a, 0x6d, 0x05, 0x0d, 0xb5, 0x19, 0x9c]
              else
                if k < 51 then
                  [0xe8, 0x7d, 0x9d, 0xa1, 0xa4, 0x09, 0x76, 0x2e, 0xd1, 0x63, 0xcb, 0xc1, 0x23, 0x03, 0xd1, 0x6f, 0xc3, 0xf2, 0xcb, 0xe1, 0x2e, 0x0d, 0x20, 0xa0, 0x7e, 0xd1, 0x82, 0xa0, 0xf2, 0xd7, 0xf2, 0x4b, 0x4d, 0x2a, 0xbd, 0x20, 0x71, 0x41, 0x7c, 0x45, 0xe4, 0x72, 0xeb, 0xaf, 0x7c, 0xaa, 0xd7, 0xe8, 0x85, 0xcd]
                else
                  [0xd5, 0xa6, 0x8e, 0x2b, 0x0a, 0xd8, 0x8d, 0xa3, 0xac, 0xb4, 0x66, 0x46, 0x59, 0x3e, 0xde, 0x3e, 0x2a, 0xd2, 0x97, 0xa3, 0xda, 0x46, 0x4d, 0x27, 0xa6, 0xbf, 0x72, 0xca, 0xf5, 0xbc, 0xb7, 0xdd, 0x4b, 0xd4, 0x1b, 0xed, 0x7f, 0xcc, 0xeb, 0x3e, 0xbe, 0xe8, 0x12, 0x2e, 0xab, 0x0f, 0x62, 0xf7, 0x42, 0xa3, 0x00]
      else
        if k < 61 then
          if k < 56 then
            if k < 54 then
              if k < 53 then
                [0x74, 0x32, 0x56, 0xba, 0x32, 0xdc, 0xfb, 0x59, 0xc0, 0x2e, 0x56, 0x7f, 0x7c, 0x13, 0xb8, 0xe9, 0x97, 0xd7, 0x16, 0x0e, 0x3b, 0x91, 0x25, 0xf2, 0xcb, 0x86, 0xfe, 0x59, 0xbe, 0x5e, 0x3b, 0x41, 0x7c, 0x71, 0x64, 0xe9, 0xeb, 0x79, 0x16, 0x4c, 0x56, 0x61, 0x27, 0xf2, 0xc8, 0xdc, 0x65, 0x21, 0xef, 0xfe, 0x74, 0x33]
              else
                [0x7a, 0xd6, 0xe7, 0x88, 0xc7, 0x0b, 0x06, 0xcd, 0x7c, 0x48, 0xd5, 0x75, 0xbb, 0x3c, 0x93, 0xc9, 0x49, 0x4b, 0x21, 0x92, 0xab, 0xf7, 0x76, 0xd0, 0x9d, 0xb1, 0xcb, 0xeb, 0x53, 0x2d, 0xe2, 0xca, 0xe5, 0xa8, 0x07, 0x39, 0xed, 0xeb, 0xc8, 0x7c, 0x6a, 0xfe, 0xa5, 0x0e, 0x93, 0x00, 0x39, 0x2a, 0x1f, 0xb2, 0xd5, 0xad, 0x67]
            else
              if k < 55 then
                [0xb7, 0x1a, 0xc9, 0x57, 0xd2, 0xdd, 0x71, 0x15, 0x2e, 0x41, 0x2d, 0x32, 0xee, 0xb8, 0xf9, 0xe1, 0x66, 0x3a, 0xd1, 0xda, 0x6d, 0xa5, 0x1a, 0x5f, 0xb8, 0xc0, 0x34, 0xf5, 0x23, 0xfe, 0xee, 0xaf, 0xac, 0x4f, 0x7b, 0x19, 0x7a, 0x2b, 0x78, 0x6c, 0xd7, 0x50, 0x80, 0xc9, 0xeb, 0x08, 0x99, 0x3b, 0x65, 0x1f, 0xc6, 0x4c, 0x1f, 0x9c]
              else
                [0x26, 0xc5, 0x7b, 0xa7, 0x10, 0x57, 0xb2, 0xee, 0xe3, 0x61, 0x94, 0xf7, 0x1a, 0x5a, 0xe4, 0xb6, 0xec, 0xc5, 0x2f, 0xf9, 0x24, 0xd5, 0x36, 0x71, 0xb5, 0x4a, 0xb1, 0xcc, 0x9b, 0x3d, 0x2f, 0x2a, 0x00, 0x84, 0x90, 0xfb, 0xc8, 0x26, 0x26, 0x8a, 0x36, 0x2c, 0x40, 0x13, 0x16, 0xce, 0x10, 0x0a, 0xe4, 0xd3, 0xa1, 0xab, 0x2c, 0xc2, 0xd2]
          else
            if k < 58 then
              if k < 57 then
                [0x6a, 0x78, 0x6b, 0x9d, 0xa4, 0xd8, 0x70, 0x74, 0x02, 0x5b, 0xf8, 0xa3, 0x24, 0xc9, 0xca, 0xe5, 0x06, 0x90, 0xfe, 0x9b, 0x87, 0xd0, 0xaa, 0xd1, 0x0c, 0x8b, 0x7f, 0x8e, 0xb6, 0xf9, 0xb1, 0xae, 0xbe, 0x1c, 0x0a, 0x55, 0xef, 0xb8, 0x65, 0x7c, 0x98, 0xce, 0x60, 0x17, 0xa3, 0x3d, 0x1b, 0xc4, 0xf7, 0x97, 0x9a, 0xca, 0xcf, 0x14, 0x3d, 0x0a]
              else
                [0x3a, 0x8c, 0xed, 0x5d, 0x6a, 0x3d, 0xc1, 0x02, 0x57, 0x49, 0xc2, 0xd7, 0x9f, 0xa3, 0x0a, 0x9b, 0x05, 0x79, 0x99, 0x3b, 0xf8, 0x04, 0x75, 0x16, 0x3c, 0xb1, 0x90, 0x2c, 0x48, 0xe4, 0x3e, 0x01, 0x13, 0xaa, 0x71, 0x9e, 0x19, 0xaf, 0xc7, 0x8b, 0x5a, 0x01, 0xd2, 0x07, 0x77, 0x9a, 0x59, 0x9f, 0x82, 0x7a, 0x2e, 0x93, 0xbe, 0x87, 0x5e, 0x44, 0x42]
            else
              if k < 59 then
                [0x52, 0x74, 0x1a, 0xf7, 0x42, 0x1b, 0x3e, 0x6b, 0xfc, 0xb6, 0xc8, 0xb9, 0xeb, 0x37, 0xfb, 0xf2, 0xd2, 0x90, 0x9a, 0xed, 0xb0, 0x8d, 0xc0, 0xf8, 0x98, 0xf9, 0xce, 0x55, 0xfd, 0x8e, 0x41, 0xa5, 0x7d, 0x17, 0x18, 0x1e, 0x7a, 0xf0, 0xd6, 0x06, 0x81, 0xda, 0x1d, 0x91, 0x7f, 0x86, 0xce, 0xf5, 0x75, 0x1d, 0x29, 0x3f, 0x9f, 0x8e, 0xe9, 0x7d, 0x94, 0x7b]
              else
                if k < 60 then
                  [0x39, 0x73, 0xe8, 0x0b, 0xc3, 0xd9, 0x03, 0xce, 0x4d, 0x43, 0x1d, 0xa6, 0xb4, 0x6a, 0x76, 0xcb, 0x11, 0x45, 0x98, 0xd5, 0x4a, 0x2c, 0x31, 0x2b, 0x62, 0x3d, 0xfd, 0x7a, 0x0e, 0x2b, 0xd1, 0x8f, 0x09, 0x68, 0x6b, 0xab, 0xe0, 0x39, 0xfe, 0xfb, 0xe2, 0xe8, 0xdd, 0xc2, 0xf0, 0x75, 0xa1, 0x52, 0xb2, 0xf6, 0xb2, 0x21, 0x32, 0x56, 0xd7, 0xef, 0xb4, 0xb4, 0xb5]
                else
                  [0x6b, 0x8c, 0x1a, 0x0c, 0x09, 0x8d, 0xf3, 0xc5, 0xe2, 0xc5, 0xdb, 0x2d, 0xd3, 0x65, 0xdb, 0x78, 0x1c, 0xb5, 0x7f, 0x06, 0x64, 0xf7, 0x02, 0xcd, 0xc6, 0x39, 0x73, 0xdb, 0x65, 0x6d, 0xa0, 0x52, 0x25, 0x26, 0xee, 0x31, 0xa0, 0xd1, 0x79, 0x56, 0x0b, 0x7c, 0x1e, 0xb5, 0x54, 0x19, 0xc2, 0x57, 0x41, 0x66, 0xbe, 0xdc, 0x46, 0x1b, 0xd1, 0x10, 0x59, 0x07, 0x21, 0xf0]
        else
          if k < 65 then
            if k < 63 then
              if k < 62 then
                [0xa1, 0xf4, 0x69, 0x73, 0x40, 0x09, 0xdd, 0xec, 0x10, 0x91, 0x94, 0x22, 0x90, 0xba, 0x0d, 0x14, 0xfe, 0xf6, 0x26, 0x23, 0xca, 0x48, 0x04, 0xd4, 0x9f, 0xd3, 0xa5, 0x87, 0xfc, 0xfa, 0x19, 0x57, 0x1e, 0x78, 0xe2, 0xea, 0x5c, 0xc7, 0x48, 0x07, 0x9b, 0xda, 0xe7, 0x2c, 0x7d, 0xb2, 0x9c, 0xae, 0x7c, 0x2b, 0x64, 0x1f, 0x38, 0x65, 0xcc, 0x40, 0xaf, 0xe1, 0xa9, 0x92, 0x2d]
              else
                [0x41, 0xca, 0x71, 0x62, 0x47, 0xdf, 0xf8, 0x76, 0xd6, 0x5e, 0x00, 0x7a, 0x25, 0x17, 0x02, 0xe4, 0x3a, 0x79, 0x07, 0x69, 0x87, 0x4e, 0xf3, 0x76, 0x46, 0x4c, 0xdf, 0x59, 0x48, 0x32, 0x46, 0x6f, 0xc2, 0x11, 0xd4, 0x7e, 0xb5, 0x23, 0xdd, 0x75, 0xeb, 0x0b, 0xe5, 0x95, 0x93, 0x7b, 0xd5, 0x28, 0x73, 0x06, 0xc8, 0x64, 0x1a, 0xf6, 0xb6, 0xda, 0x7f, 0xd7, 0x24, 0xba, 0x6e, 0x6a]
            else
              if k < 64 then
                [0x1e, 0x47, 0x24, 0x47, 0x13, 0xc3, 0xac, 0x6e, 0x3d, 0x02, 0xa9, 0xc2, 0x5a, 0x88, 0x3b, 0xb6, 0xe7, 0x91, 0x66, 0x27, 0xaa, 0xe7, 0xd6, 0x43, 0xc4, 0xcf, 0x35, 0x70, 0xf6, 0x5a, 0x5a, 0x79, 0xb7, 0x92, 0x4a, 0x4d, 0x26, 0x59, 0x16, 0xe7, 0x37, 0x38, 0xf2, 0x70, 0xd9, 0x6e, 0x7b, 0x3e, 0xc9, 0xd9, 0x80, 0xa5, 0x3c, 0xb5, 0x25, 0xa1, 0xf6, 0x84, 0xf6, 0x12, 0x73, 0x88, 0xa8]
              else
                [0x2d, 0x33, 0xaf, 0x09, 0x07, 0x9e, 0x9f, 0x31, 0x44, 0x77, 0x5c, 0x7b, 0xb1, 0xcc, 0xbb, 0xfe, 0xc8, 0x4e, 0x8d, 0x95, 0x77, 0x1a, 0x7f, 0x35, 0xa0, 0x5d, 0xc7, 0xd4, 0x1d, 0x18, 0x91, 0x9c, 0xd0, 0x96, 0xda, 0xd1, 0x04, 0xd8, 0x5b, 0x2f, 0xb8, 0x92, 0x2f, 0x8c, 0xc3, 0xc3, 0x7d, 0xf2, 0xee, 0x3f, 0x63, 0x6c, 0x8c, 0xe6, 0xf2, 0x1f, 0xcc, 0x0b, 0xb2, 0xf3, 0xd9, 0x9c, 0xd5, 0xe7]
          else
            if k < 67 then
              if k < 66 then
                [0x89, 0x9e, 0xf7, 0xf0, 0x25, 0xee, 0xd6, 0x80, 0x63, 0xda, 0x2e, 0x8a, 0xc6, 0x80, 0x5c, 0xdb, 0x6d, 0x8b, 0xa6, 0x19, 0x42, 0x43, 0x0e, 0x3a, 0xee, 0x95, 0xb1, 0xc3, 0xdd, 0x9a, 0xab, 0x30, 0x50, 0x0c, 0x3b, 0xbe, 0xe4, 0x13, 0x37, 0xd0, 0x5c, 0x70, 0xe5, 0x25, 0x3c, 0x0a, 0x2f, 0x51, 0x00, 0xc0, 0x25, 0xab, 0xaf, 0x93, 0x80, 0x49, 0xa6, 0x3d, 0x95, 0x0c, 0x18, 0x5f, 0x46, 0x71, 0x28]
              else
                [0x05, 0x76, 0xde, 0xb4, 0x88, 0x88, 0xa2, 0x33, 0x2e, 0x75, 0x0d, 0xd7, 0x51, 0x11, 0x8b, 0xf7, 0xc5, 0xab, 0x5f, 0xad, 0x41, 0x89, 0xb2, 0x44, 0x6f, 0x5f, 0x65, 0x29, 0x48, 0xd6, 0xa9, 0xc5, 0x5f, 0x07, 0x2c, 0x9a, 0x4d, 0x6f, 0xec, 0x28, 0x79, 0x8f, 0x3f, 0x57, 0x50, 0xfd, 0xf0, 0x7e, 0xd9, 0x4d, 0x22, 0xe8, 0x6a, 0x32, 0xa8, 0x52, 0x4c, 0x92, 0x43, 0x6a, 0xab, 0x19, 0x84, 0x5d, 0x2d, 0x69]
            else
              if k < 68 then
                [0xbf, 0xac, 0x71, 0x56, 0x07, 0xa6, 0xf6, 0xb9, 0x9b, 0xfa, 0x62, 0x71, 0x59, 0x56, 0xd6, 0xe1, 0x9c, 0xbe, 0x3a, 0x21, 0x90, 0x43, 0xb3, 0xa3, 0x34, 0x9a, 0xe9, 0x97, 0x68, 0xfb, 0xa0, 0x7e, 0xaf, 0xd0, 0xe1, 0x46, 0xe3, 0x92, 0x04, 0x98, 0x8b, 0x67, 0x19, 0x6b, 0x3d, 0xcc, 0x9f, 0xfa, 0xc1, 0xe1, 0x69, 0xa0, 0x62, 0xa7, 0x02, 0x35, 0x10, 0xf2, 0x53, 0xd2, 0xc4, 0x67, 0xf8, 0x56, 0xd3, 0x29, 0xab]
              else
                if k < 69 then
                  [0xf7, 0x9f, 0xdf, 0x21, 0xe0, 0x5d, 0x4d, 0x46, 0x5a, 0xa0, 0x20, 0xfe, 0x2b, 0x96, 0x54, 0x65, 0xbe, 0xcd, 0x85, 0x34, 0x3c, 0xca, 0xa5, 0xdc, 0xcb, 0x97, 0x5d, 0x54, 0x0f, 0x54, 0xfd, 0xad, 0xa0, 0x59, 0xe3, 0x34, 0xc7, 0x61, 0x5f, 0xe7, 0x34, 0xb1, 0x29, 0x7d, 0x89, 0xf1, 0xa6, 0xe1, 0x76, 0x02, 0x36, 0x20, 0x52, 0xd7, 0xaf, 0xc6, 0x2b, 0xee, 0xeb, 0x1b, 0x65, 0xb8, 0x7f, 0x03, 0x05, 0x08, 0xa3, 0xee]
                else
                  [0x69, 0x49, 0x44, 0x01, 0x1d, 0xa8, 0x75, 0x0e, 0x58, 0xd0, 0x37, 0x2e, 0x2a, 0xd9, 0x06, 0x54, 0xb3, 0x61, 0x06, 0xf0, 0xc0, 0xe7, 0x9e, 0x40, 0x76, 0xa0, 0xcb, 0x39, 0x3d, 0x6c, 0xc7, 0x7c, 0x41, 0xbb, 0xdd, 0xa7, 0x27, 0xb6, 0x9f, 0xb4, 0xf4, 0xcb, 0xe4, 0xfe, 0x0d, 0xaf, 0x3d, 0x5a, 0xce, 0x28, 0xc7, 0x5e, 0x43, 0x39, 0x51, 0xe5, 0x2e, 0x7b, 0x59, 0x25, 0x1f, 0xca, 0x42, 0xfa, 0x23, 0xaa, 0xf3, 0x58, 0x33]
  }

  /** Number of data codewords a layout holds: the sum of its block sizes. */
  function DataCodewords(layout: BlockLayout): nat
  {
    layout.count1 * layout.size1 + layout.count2 * layout.size2
  }

  /** Number of blocks a layout holds. */
  function BlockCount(layout: BlockLayout): nat
  {
    layout.count1 + layout.count2
  }

  /** The shape every layout entry has: a non-empty first group of non-empty blocks, and a second group
      that is either absent, (0, 0), or made of blocks one codeword longer. */
  predicate WellShaped(layout: BlockLayout)
  {
    layout.size1 >= 1 && layout.count1 >= 1 &&
    ((layout.size2 == 0 && layout.count2 == 0) || (layout.size2 == layout.size1 + 1 && layout.count2 >= 1))
  }

  /** Number of modules of a version-`version` symbol left for codewords once the finder, separator,
      timing and alignment patterns and the format and version information are taken out (the
      capacities of Table 1 of ISO/IEC 18004, in closed form). Dividing by 8 gives its codeword capacity. */
  function RawDataModules(version: nat): nat
    requires 1 <= version <= 40
  {
    var all := (16 * version + 128) * version + 64;
    var alignments := version / 7 + 2;
    var afterAlignment := if version >= 2 then all - ((25 * alignments - 10) * alignments - 55) else all;
    if version >= 7 then afterAlignment - 36 else afterAlignment
  }

  /** The facts of one table cell: the EC block size is between 7 and 30 and the layout is well shaped. */
  predicate CellFactsAt(row: nat, column: nat)
    requires row < 40 && column < 4
  {
    7 <= EcBytesPerBlock(row, column) <= 30 && WellShaped(DataBytesPerBlock(row, column))
  }

  /** Data and EC codewords of row `version - 1` at level `column` fill the capacity of `version`. */
  predicate CapacityMetAt(version: nat, column: nat)
    requires 1 <= version <= 40 && column < 4
  {
    var layout := DataBytesPerBlock(version - 1, column);
    DataCodewords(layout) + EcBytesPerBlock(version - 1, column) * BlockCount(layout) == RawDataModules(version) / 8
  }

  lemma CapacityRow1()
    ensures CapacityMetAt(1, 0) && CapacityMetAt(1, 1) && CapacityMetAt(1, 2) && CapacityMetAt(1, 3)
  {
  }

  lemma CapacityRow2()
    ensures CapacityMetAt(2, 0) && CapacityMetAt(2, 1) && CapacityMetAt(2, 2) && CapacityMetAt(2, 3)
  {
  }

  lemma CapacityRow3()
    ensures CapacityMetAt(3, 0) && CapacityMetAt(3, 1) && CapacityMetAt(3, 2) && CapacityMetAt(3, 3)
  {
  }

  lemma CapacityRow4()
    ensures CapacityMetAt(4, 0) && CapacityMetAt(4, 1) && CapacityMetAt(4, 2) && CapacityMetAt(4, 3)
  {
  }

  lemma CapacityRow5()
    ensures CapacityMetAt(5, 0) && CapacityMetAt(5, 1) && CapacityMetAt(5, 2) && CapacityMetAt(5, 3)
  {
  }

  lemma CapacityRow6()
    ensures CapacityMetAt(6, 0) && CapacityMetAt(6, 1) && CapacityMetAt(6, 2) && CapacityMetAt(6, 3)
  {
  }

  lemma CapacityRow7()
    ensures CapacityMetAt(7, 0) && CapacityMetAt(7, 1) && CapacityMetAt(7, 2) && CapacityMetAt(7, 3)
  {
  }

  lemma CapacityRow8()
    ensures CapacityMetAt(8, 0) && CapacityMetAt(8, 1) && CapacityMetAt(8, 2) && CapacityMetAt(8, 3)
  {
  }

  lemma CapacityRow9()
    ensures CapacityMetAt(9, 0) && CapacityMetAt(9, 1) && CapacityMetAt(9, 2) && CapacityMetAt(9, 3)
  {
  }

  lemma CapacityRow10()
    ensures CapacityMetAt(10, 0) && CapacityMetAt(10, 1) && CapacityMetAt(10, 2) && CapacityMetAt(10, 3)
  {
  }

  lemma CapacityRow11()
    ensures CapacityMetAt(11, 0) && CapacityMetAt(11, 1) && CapacityMetAt(11, 2) && CapacityMetAt(11, 3)
  {
  }

  lemma CapacityRow12()
    ensures CapacityMetAt(12, 0) && CapacityMetAt(12, 1) && CapacityMetAt(12, 2) && CapacityMetAt(12, 3)
  {
  }

  lemma CapacityRow13()
    ensures CapacityMetAt(13, 0) && CapacityMetAt(13, 1) && CapacityMetAt(13, 2) && CapacityMetAt(13, 3)
  {
  }

  lemma CapacityRow14()
    ensures CapacityMetAt(14, 0) && CapacityMetAt(14, 1) && CapacityMetAt(14, 2) && CapacityMetAt(14, 3)
  {
  }

  lemma CapacityRow15()
    ensures CapacityMetAt(15, 0) && CapacityMetAt(15, 1) && CapacityMetAt(15, 2) && CapacityMetAt(15, 3)
  {
  }

  lemma CapacityRow16()
    ensures CapacityMetAt(16, 0) && CapacityMetAt(16, 1) && CapacityMetAt(16, 2) && CapacityMetAt(16, 3)
  {
  }

  lemma CapacityRow17()
    ensures CapacityMetAt(17, 0) && CapacityMetAt(17, 1) && CapacityMetAt(17, 2) && CapacityMetAt(17, 3)
  {
  }

  lemma CapacityRow18()
    ensures CapacityMetAt(18, 0) && CapacityMetAt(18, 1) && CapacityMetAt(18, 2) && CapacityMetAt(18, 3)
  {
  }

  lemma CapacityRow19()
    ensures CapacityMetAt(19, 0) && CapacityMetAt(19, 1) && CapacityMetAt(19, 2) && CapacityMetAt(19, 3)
  {
  }

  lemma CapacityRow20()
    ensures CapacityMetAt(20, 0) && CapacityMetAt(20, 1) && CapacityMetAt(20, 2) && CapacityMetAt(20, 3)
  {
  }

  lemma CapacityRow21()
    ensures CapacityMetAt(21, 0) && CapacityMetAt(21, 1) && CapacityMetAt(21, 2) && CapacityMetAt(21, 3)
  {
  }

  lemma CapacityRow22()
    ensures CapacityMetAt(22, 0) && CapacityMetAt(22, 1) && CapacityMetAt(22, 2) && CapacityMetAt(22, 3)
  {
  }

  lemma CapacityRow23()
    ensures CapacityMetAt(23, 0) && CapacityMetAt(23, 1) && CapacityMetAt(23, 2) && CapacityMetAt(23, 3)
  {
  }

  lemma CapacityRow24()
    ensures CapacityMetAt(24, 0) && CapacityMetAt(24, 1) && CapacityMetAt(24, 2) && CapacityMetAt(24, 3)
  {
  }

  lemma CapacityRow25()
    ensures CapacityMetAt(25, 0) && CapacityMetAt(25, 1) && CapacityMetAt(25, 2) && CapacityMetAt(25, 3)
  {
  }

  lemma CapacityRow26()
    ensures CapacityMetAt(26, 0) && CapacityMetAt(26, 1) && CapacityMetAt(26, 2) && CapacityMetAt(26, 3)
  {
  }

  lemma CapacityRow27()
    ensures CapacityMetAt(27, 0) && CapacityMetAt(27, 1) && CapacityMetAt(27, 2) && CapacityMetAt(27, 3)
  {
  }

  lemma CapacityRow28()
    ensures CapacityMetAt(28, 0) && CapacityMetAt(28, 1) && CapacityMetAt(28, 2) && CapacityMetAt(28, 3)
  {
  }

  lemma CapacityRow29()
    ensures CapacityMetAt(29, 0) && CapacityMetAt(29, 1) && CapacityMetAt(29, 2) && CapacityMetAt(29, 3)
  {
  }

  lemma CapacityRow30()
    ensures CapacityMetAt(30, 0) && CapacityMetAt(30, 1) && CapacityMetAt(30, 2) && CapacityMetAt(30, 3)
  {
  }

  lemma CapacityRow31()
    ensures CapacityMetAt(31, 0) && CapacityMetAt(31, 1) && CapacityMetAt(31, 2) && CapacityMetAt(31, 3)
  {
  }

  lemma CapacityRow32()
    ensures CapacityMetAt(32, 0) && CapacityMetAt(32, 1) && CapacityMetAt(32, 2) && CapacityMetAt(32, 3)
  {
  }

  lemma CapacityRow33()
    ensures CapacityMetAt(33, 0) && CapacityMetAt(33, 1) && CapacityMetAt(33, 2) && CapacityMetAt(33, 3)
  {
  }

  lemma CapacityRow34()
    ensures CapacityMetAt(34, 0) && CapacityMetAt(34, 1) && CapacityMetAt(34, 2) && CapacityMetAt(34, 3)
  {
  }

  lemma CapacityRow35()
    ensures CapacityMetAt(35, 0) && CapacityMetAt(35, 1) && CapacityMetAt(35, 2) && CapacityMetAt(35, 3)
  {
  }

  lemma CapacityRow36()
    ensures CapacityMetAt(36, 0) && CapacityMetAt(36, 1) && CapacityMetAt(36, 2) && CapacityMetAt(36, 3)
  {
  }

  lemma CapacityRow37()
    ensures CapacityMetAt(37, 0) && CapacityMetAt(37, 1) && CapacityMetAt(37, 2) && CapacityMetAt(37, 3)
  {
  }

  lemma CapacityRow38()
    ensures CapacityMetAt(38, 0) && CapacityMetAt(38, 1) && CapacityMetAt(38, 2) && CapacityMetAt(38, 3)
  {
  }

  lemma CapacityRow39()
    ensures CapacityMetAt(39, 0) && CapacityMetAt(39, 1) && CapacityMetAt(39, 2) && CapacityMetAt(39, 3)
  {
  }

  lemma CapacityRow40()
    ensures CapacityMetAt(40, 0) && CapacityMetAt(40, 1) && CapacityMetAt(40, 2) && CapacityMetAt(40, 3)
  {
  }

  lemma CapacityIn0(version: nat, column: nat)
    requires 1 <= version < 3 && column < 4
    ensures CapacityMetAt(version, column)
  {
    CapacityRow1();
    CapacityRow2();
    assert version == 1 || version == 2;
    assert column == 0 || column == 1 || column == 2 || column == 3;
  }

  lemma CapacityIn1(version: nat, column: nat)
    requires 3 <= version < 5 && column < 4
    ensures CapacityMetAt(version, column)
  {
    CapacityRow3();
    CapacityRow4();
    assert version == 3 || version == 4;
    assert column == 0 || column == 1 || column == 2 || column == 3;
  }

  lemma CapacityIn2(version: nat, column: nat)
    requires 5 <= version < 9 && column < 4
    ensures CapacityMetAt(version, column)
  {
    CapacityRow5();
    CapacityRow6();
    CapacityRow7();
    CapacityRow8();
    assert version == 5 || version == 6 || version == 7 || version == 8;
    assert column == 0 || column == 1 || column == 2 || column == 3;
  }

  lemma CapacityIn3(version: nat, column: nat)
    requires 9 <= version < 13 && column < 4
    ensures CapacityMetAt(version, column)
  {
    CapacityRow9();
    CapacityRow10();
    CapacityRow11();
    CapacityRow12();
    assert version == 9 || version == 10 || version == 11 || version == 12;
    assert column == 0 || column == 1 || column == 2 || column == 3;
  }

  lemma CapacityIn4(version: nat, column: nat)
    requires 13 <= version < 17 && column < 4
    ensures CapacityMetAt(version, column)
  {
    CapacityRow13();
    CapacityRow14();
    CapacityRow15();
    CapacityRow16();
    assert version == 13 || version == 14 || version == 15 || version == 16;
    assert column == 0 || column == 1 || column == 2 || column == 3;
  }

  lemma CapacityIn5(version: nat, column: nat)
    requires 17 <= version < 21 && column < 4
    ensures CapacityMetAt(version, column)
  {
    CapacityRow17();
    CapacityRow18();
    CapacityRow19();
    CapacityRow20();
    assert version == 17 || version == 18 || version == 19 || version == 20;
    assert column == 0 || column == 1 || column == 2 || column == 3;
  }

  lemma CapacityIn6(version: nat, column: nat)
    requires 21 <= version < 25 && column < 4
    ensures CapacityMetAt(version, column)
  {
    CapacityRow21();
    CapacityRow22();
    CapacityRow23();
    CapacityRow24();
    assert version == 21 || version == 22 || version == 23 || version == 24;
    assert column == 0 || column == 1 || column == 2 || column == 3;
  }

  lemma CapacityIn7(version: nat, column: nat)
    requires 25 <= version < 29 && column < 4
    ensures CapacityMetAt(version, column)
  {
    CapacityRow25();
    CapacityRow26();
    CapacityRow27();
    CapacityRow28();
    assert version == 25 || version == 26 || version == 27 || version == 28;
    assert column == 0 || column == 1 || column == 2 || column == 3;
  }

  lemma CapacityIn8(version: nat, column: nat)
    requires 29 <= version < 33 && column < 4
    ensures CapacityMetAt(version, column)
  {
    CapacityRow29();
    CapacityRow30();
    CapacityRow31();
    CapacityRow32();
    assert version == 29 || version == 30 || version == 31 || version == 32;
    assert column == 0 || column == 1 || column == 2 || column == 3;
  }

  lemma CapacityIn9(version: nat, column: nat)
    requires 33 <= version < 37 && column < 4
    ensures CapacityMetAt(version, column)
  {
    CapacityRow33();
    CapacityRow34();
    CapacityRow35();
    CapacityRow36();
    assert version == 33 || version == 34 || version == 35 || version == 36;
    assert column == 0 || column == 1 || column == 2 || column == 3;
  }

  lemma CapacityIn10(version: nat, column: nat)
    requires 37 <= version < 41 && column < 4
    ensures CapacityMetAt(version, column)
  {
    CapacityRow37();
    CapacityRow38();
    CapacityRow39();
    CapacityRow40();
    assert version == 37 || version == 38 || version == 39 || version == 40;
    assert column == 0 || column == 1 || column == 2 || column == 3;
  }

  lemma CellFactsChunk0()
    ensures forall row, column :: 0 <= row < 10 && column < 4 ==> CellFactsAt(row, column)
  {
  }

  lemma CellFactsChunk1()
    ensures forall row, column :: 10 <= row < 20 && column < 4 ==> CellFactsAt(row, column)
  {
  }

  lemma CellFactsChunk2()
    ensures forall row, column :: 20 <= row < 30 && column < 4 ==> CellFactsAt(row, column)
  {
  }

  lemma CellFactsChunk3()
    ensures forall row, column :: 30 <= row < 40 && column < 4 ==> CellFactsAt(row, column)
  {
  }

  lemma GeneratorLengthsChunk0()
    ensures forall k :: 0 <= k < 20 ==> |GeneratorPolynomial(k)| == k
  {
  }

  lemma GeneratorLengthsChunk1()
    ensures forall k :: 20 <= k < 28 ==> |GeneratorPolynomial(k)| == k
  {
  }

  lemma GeneratorLengthsChunk2()
    ensures forall k :: 28 <= k < 34 ==> |GeneratorPolynomial(k)| == k
  {
  }

  lemma GeneratorLengthsChunk3()
    ensures forall k :: 34 <= k < 39 ==> |GeneratorPolynomial(k)| == k
  {
  }

  lemma GeneratorLengthsChunk4()
    ensures forall k :: 39 <= k < 43 ==> |GeneratorPolynomial(k)| == k
  {
  }

  lemma GeneratorLengthsChunk5()
    ensures forall k :: 43 <= k < 47 ==> |GeneratorPolynomial(k)| == k
  {
  }

  lemma GeneratorLengthsChunk6()
    ensures forall k :: 47 <= k < 51 ==> |GeneratorPolynomial(k)| == k
  {
  }

  lemma GeneratorLengthsChunk7()
    ensures forall k :: 51 <= k < 54 ==> |GeneratorPolynomial(k)| == k
  {
  }

  lemma GeneratorLengthsChunk8()
    ensures forall k :: 54 <= k < 57 ==> |GeneratorPolynomial(k)| == k
  {
  }

  lemma GeneratorLengthsChunk9()
    ensures forall k :: 57 <= k < 60 ==> |GeneratorPolynomial(k)| == k
  {
  }

  lemma GeneratorLengthsChunk10()
    ensures forall k :: 60 <= k < 63 ==> |GeneratorPolynomial(k)| == k
  {
  }

  lemma GeneratorLengthsChunk11()
    ensures forall k :: 63 <= k < 66 ==> |GeneratorPolynomial(k)| == k
  {
  }

  lemma GeneratorLengthsChunk12()
    ensures forall k :: 66 <= k < 68 ==> |GeneratorPolynomial(k)| == k
  {
  }

  lemma GeneratorLengthsChunk13()
    ensures forall k :: 68 <= k < 70 ==> |GeneratorPolynomial(k)| == k
  {
  }

  /** `GENERATOR_POLYNOMIALS[k]` has exactly k coefficients. */
  lemma GeneratorPolynomialLength(k: nat)
    requires k < 70
    ensures |GeneratorPolynomial(k)| == k
  {
    if k < 20 {
      GeneratorLengthsChunk0();
    } else if k < 28 {
      GeneratorLengthsChunk1();
    } else if k < 34 {
      GeneratorLengthsChunk2();
    } else if k < 39 {
      GeneratorLengthsChunk3();
    } else if k < 43 {
      GeneratorLengthsChunk4();
    } else if k < 47 {
      GeneratorLengthsChunk5();
    } else if k < 51 {
      GeneratorLengthsChunk6();
    } else if k < 54 {
      GeneratorLengthsChunk7();
    } else if k < 57 {
      GeneratorLengthsChunk8();
    } else if k < 60 {
      GeneratorLengthsChunk9();
    } else if k < 63 {
      GeneratorLengthsChunk10();
    } else if k < 66 {
      GeneratorLengthsChunk11();
    } else if k < 68 {
      GeneratorLengthsChunk12();
    } else {
      GeneratorLengthsChunk13();
    }
  }

  lemma CellFacts(row: nat, column: nat)
    requires row < 40 && column < 4
    ensures CellFactsAt(row, column)
  {
    if row < 10 {
      CellFactsChunk0();
    } else if row < 20 {
      CellFactsChunk1();
    } else if row < 30 {
      CellFactsChunk2();
    } else {
      CellFactsChunk3();
    }
  }

  /** Every `EC_BYTES_PER_BLOCK` entry is between 7 and 30, so below the 70 generator polynomials. */
  lemma EcBytesPerBlockRange(row: nat, column: nat)
    requires row < 40 && column < 4
    ensures 7 <= EcBytesPerBlock(row, column) <= 30
  {
    CellFacts(row, column);
  }

  /** Every `DATA_BYTES_PER_BLOCK` entry has non-empty first-group blocks, and its second group is (0, 0)
      or has blocks one codeword longer than the first. */
  lemma DataBytesPerBlockShape(row: nat, column: nat)
    requires row < 40 && column < 4
    ensures WellShaped(DataBytesPerBlock(row, column))
  {
    CellFacts(row, column);
  }

  /** Read with the row of version v at index v - 1, as `DATA_BYTES_PER_BLOCK` is, the EC table makes data
      and error-correction codewords together fill each of the 160 symbol capacities exactly. */
  lemma CodewordCapacity(version: nat, column: nat)
    requires 1 <= version <= 40 && column < 4
    ensures CapacityMetAt(version, column)
  {
    if version < 3 {
      CapacityIn0(version, column);
    } else if version < 5 {
      CapacityIn1(version, column);
    } else if version < 9 {
      CapacityIn2(version, column);
    } else if version < 13 {
      CapacityIn3(version, column);
    } else if version < 17 {
      CapacityIn4(version, column);
    } else if version < 21 {
      CapacityIn5(version, column);
    } else if version < 25 {
      CapacityIn6(version, column);
    } else if version < 29 {
      CapacityIn7(version, column);
    } else if version < 33 {
      CapacityIn8(version, column);
    } else if version < 37 {
      CapacityIn9(version, column);
    } else {
      CapacityIn10(version, column);
    }
  }

  /** Read at index v, as src/ec.rs:49 reads it, the EC table overfills the version 1 symbol at level L:
      19 data codewords and 10 EC codewords instead of the 26 codewords it has. */
  lemma EcRowShiftedForVersion1()
    ensures DataBytesPerBlock(0, 0) == BlockLayout(19, 1, 0, 0)
    ensures EcBytesPerBlock(1, 0) == 10 && RawDataModules(1) / 8 == 26
    ensures DataCodewords(DataBytesPerBlock(0, 0)) + EcBytesPerBlock(1, 0) * BlockCount(DataBytesPerBlock(0, 0)) != RawDataModules(1) / 8
  {
  }
}
