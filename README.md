# QR symbol generator: Reed–Solomon blocks and module layout

This project models the two table-driven cores of a Rust QR-code generator and proves properties of
the model.

**Error correction** (`src/ec.rs`):
- `error_correction` cuts the data codewords into the blocks of the `DATA_BYTES_PER_BLOCK` layout of
  its version and level.
- `create_ec_for_block` computes each block's EC codewords by polynomial division in GF(256) through
  the `EXP_TABLE`/`LOG_TABLE` lookups.
- `interleave` merges the EC blocks column by column.
- Bytes are `bv8`, so XOR is native.
- The five tables are functions from index to entry, holding the source's values: `EXP_TABLE`, `LOG_TABLE`, `GENERATOR_POLYNOMIALS`, `EC_BYTES_PER_BLOCK` and `DATA_BYTES_PER_BLOCK`. They are written as decision trees over the index, so the verifier can read an entry without unrolling a long sequence.

**Module layout** (`src/qrcode.rs`):
- `QrCode` is a class whose `data: seq<Bit>` field is the flat `size * size` module matrix, indexed
  `x + size * y`. `Bit` is `One(functional)` or `Zero(functional)`.
- Each painter is a method that rewrites `data` through `put` in the loops the source has:
  - finder patterns, separators, alignment patterns, timing patterns;
  - the dark module;
  - the four format-information strips;
  - the two version-information blocks.
- `fill` threads data bits along the zig-zag walk, skipping functional modules.
- Every painter method and `fill` is proved to produce exactly a pure specification function of
  the old matrix: module `QrPatterns` for the painters, `QrWalk` for `fill`. The properties are
  lemmas about those functions.
- There is one exception. The two helpers `VersionBottomLeft` and `VersionTopRight` state their new
  matrix module by module. `VersionInformation`, which calls both, equals
  `QrPatterns.VersionInformation`.

Modules, one per file:
- `Gf256`, `EcTables`, `Ec` and `EcVectors` cover error correction.
- `QrGrid`, `QrTables`, `QrPatterns`, `QrWalk` and `QrCodes` cover the layout.
- `QrProperties`, `QrFunctional` and `QrFormatCorner` hold the lemmas about the layout.
- `Wrappers` holds Option and Result.

The model follows the code where the code departs from ISO/IEC 18004:2006. In particular:
- `error_correction` returns only the interleaved EC codewords.
- It reads the EC table at row `version` but the layout table at row `version - 1`.
- Version 1 draws an alignment pattern at (18, 18).
- The column format strip restarts its counter at 7.
- `fill` steps before it checks, turns by a single column and applies no mask.

Three of these departures are recorded under Findings.

## Model

| member | source | states |
|---|---|---|
| Ec.Ordinal | src/ec.rs:10-17 | the ordinal of a level is below 4 |
| Ec.OrdinalInjective | src/ec.rs:10-17 | two levels have the same ordinal exactly when they are the same level (L, M, Q, H map to 0, 1, 2, 3) |
| Ec.Padded | src/ec.rs:59-61 | the resized buffer keeps the block as its prefix and has `ec_size` zero codewords after it |
| Ec.ApplyRound | src/ec.rs:68-75 | one division round, done in place on an array, XORs `EXP[(gen[j] + LOG[lead]) % 255]` into the codewords after the lead and changes nothing else |
| Ec.CreateEcForBlock | src/ec.rs:58-79 | the loop over the padded buffer (skipping zero leads) returns exactly `ec_size` codewords: the remainder the division specification defines |
| Ec.RoundsAgreeWithCodeword | src/ec.rs:63-76 | after n rounds, each codeword of the buffer equals its closed-form value for that round |
| Ec.EcForBlockAt | src/ec.rs:78 | codeword p - n of the result is codeword p of the buffer after all n rounds (`split_off(data_len)`) |
| Ec.ZeroBlockGivesZeroEc | src/ec.rs:65-67 | an all-zero block skips every round and yields `ec_size` zero codewords |
| Ec.LeadingZeroDoesNotChangeEc | src/ec.rs:65-67 | prefixing a zero codeword to a block does not change its EC codewords, since that round is skipped |
| Ec.MaxLength | src/ec.rs:83 | `max_len` is at least every block's length and is the length of some block (0 when there are none) |
| Ec.Interleave | src/ec.rs:81-92 | on a non-empty list of blocks, the nested loops emit column 0 of every block in block order, then column 1, and so on, skipping exhausted blocks |
| Ec.AppendColumn | src/ec.rs:85-89 | the inner loop appends, in block order, column i of every block longer than i |
| Ec.InterleavedLength | src/ec.rs:81-92 | the interleaved output is as long as all blocks together |
| Ec.InterleaveSingle | src/ec.rs:119-124 | interleaving one block gives that block |
| Ec.InterleaveAllEmpty | src/ec.rs:112-117 | interleaving only empty blocks gives the empty sequence |
| Ec.InterleavedUpToUniformAt | src/ec.rs:84-90 | for blocks of equal width, output position `c * n + k` holds column c of block k |
| Ec.DeinterleaveInterleaved | src/ec.rs:81-92 | for blocks of equal width, de-interleaving the output recovers the blocks (round trip) |
| Ec.ChunksShape | src/ec.rs:32-43 | `chunks(size)` concatenates back to its input, all pieces are non-empty and at most `size` long, all but the last are full, and there are none exactly when the input is empty |
| Ec.PushChunks | src/ec.rs:32-43 | the `for_each(push)` loop appends exactly the chunks of its slice |
| Ec.SplitBlocksKeepOrder | src/ec.rs:29-44 | the blocks concatenate back to the data, or to group 1 alone when the data overflows group 1 and `block_2_size` is 0 |
| Ec.SplitBlocksExact | src/ec.rs:22-44 | for data of exactly `s1 * n1 + s2 * n2` codewords there are `n1 + n2` blocks: n1 of size s1 then n2 of size s2, in data order |
| Ec.CutBlocks | src/ec.rs:29-44 | the cutting step builds exactly the block list of the layout |
| Ec.EcBlocks | src/ec.rs:46-53 | one EC block per data block, each `ec_size` codewords long |
| Ec.EcOfEach | src/ec.rs:46-53 | the loop computes the EC block of every data block, in order |
| Ec.EncodeBlocks | src/ec.rs:25-55 | cutting, EC per block and interleaving give the specified EC codewords |
| Ec.ErrorCorrection | src/ec.rs:20-56 | `error_correction` for versions 1..39 returns exactly the interleaved EC codewords and no data codewords |
| Ec.EcCodewordsStructure | src/ec.rs:20-55 | the output has `ec_size * (n1 + n2)` codewords; de-interleaving gives, for each block k, the EC codewords of data block k under generator `ec_size` |
| Ec.ErrorCorrectionLength | src/ec.rs:20-55 | the output length is `EC_BYTES_PER_BLOCK[version][ordinal]` times the block count of row `version - 1` |
| Ec.ErrorCorrectionOverfillsVersion1 | src/ec.rs:23 | 19 data codewords at version 1, level L get 10 EC codewords: 29 in all, for a symbol with room for 26 |
| Ec.CorrectedErrorCorrection | src/ec.rs:20-56 | error correction with both tables read at row `version - 1`, for versions 1..40 |
| Ec.CorrectedErrorCorrectionFillsSymbol | src/ec.rs:20-56 | with both tables at row `version - 1`, data plus EC codewords exactly fill the symbol's codeword capacity, at every version and level |
| EcTables.GeneratorPolynomialLength | src/ec.rs:243-317 | `GENERATOR_POLYNOMIALS[k]` has exactly k coefficients |
| EcTables.EcBytesPerBlockRange | src/ec.rs:157-198 | every `EC_BYTES_PER_BLOCK` entry is between 7 and 30, so below 70 |
| EcTables.DataBytesPerBlockShape | src/ec.rs:323-535 | every `DATA_BYTES_PER_BLOCK` entry has a non-empty first group, and a second group that is (0, 0) or has blocks one codeword longer |
| EcTables.CellFacts | src/ec.rs:157-198 | each cell of both tables satisfies the two facts above |
| EcTables.CodewordCapacity | src/ec.rs:323-535 | with both tables read at row `version - 1`, the data codewords plus the EC codewords fill the capacity of that version, for every version and level |
| EcTables.EcRowShiftedForVersion1 | src/ec.rs:49 | row 1 of `EC_BYTES_PER_BLOCK` holds 10 at level L, which with the 19 data codewords of row 0 overshoots version 1's 26 codewords |
| EcVectors.CreateEcForBlockSimpleVector | src/ec.rs:131-139 | the EC codewords of [1, 2, 3] with 3 EC codewords are [92, 236, 176] |
| EcVectors.CreateEcForBlockComplexVector | src/ec.rs:141-151 | the EC codewords of the 13-codeword test block are [168, 72, 22, 82, 217, 54, 156, 0, 46, 15, 180, 122, 16] |
| EcVectors.InterleaveEqualLengthVector | src/ec.rs:98-103 | [[1,2,3],[4,5,6],[7,8,9]] interleaves to [1,4,7,2,5,8,3,6,9] |
| EcVectors.InterleaveUnequalLengthVector | src/ec.rs:105-110 | [[1,2],[3,4,5],[6]] interleaves to [1,3,6,2,4,5] |
| Gf256.ExpTableIsAlphaPower | src/ec.rs:203-218 | `EXP_TABLE[i]` is α^i in GF(256) modulo x⁸+x⁴+x³+x²+1 |
| Gf256.LogInvertsExp | src/ec.rs:222-238 | `LOG[EXP[i]] = i` for i < 255 |
| Gf256.ExpInvertsLog | src/ec.rs:203-238 | `EXP[LOG[v]] = v` for 1 <= v <= 255 |
| Gf256.TableFacts | src/ec.rs:203-238 | at each index, consecutive EXP entries differ by a factor α, and LOG and EXP undo each other |
| Gf256.Mod255 | src/ec.rs:74 | the `% 255` of a sum of two logarithms, computed without a division, is that remainder |
| QrGrid.SizeFromVersion | src/qrcode.rs:73-75 | the side is 1 modulo 4, at least 17, and `(size - 17) / 4` gives the version back |
| QrGrid.ValidSizeBounds | src/qrcode.rs:73-75 | versions 1..40 have sides 21..177 |
| QrGrid.CoordsToIndex | src/qrcode.rs:36-42 | None exactly when x or y is outside the side; otherwise an index below `size²` whose remainder and quotient by size are x and y |
| QrGrid.IndexInjective | src/qrcode.rs:36-42 | distinct in-bounds coordinates get distinct indices |
| QrGrid.Get | src/qrcode.rs:22-28 | None exactly out of bounds; in bounds, the module at `x + size * y` |
| QrGrid.Put | src/qrcode.rs:30-34 | out of bounds, a no-op; in bounds, only index `x + size * y` changes, and it becomes the new bit |
| QrGrid.AtPut | src/qrcode.rs:30-34 | after `put(px, py, b)`, module (x, y) is b at (px, py) and unchanged everywhere else |
| QrGrid.GetIsAt | src/qrcode.rs:22-28 | an in-bounds `get` returns the module at (x, y) |
| QrTables.AlignmentCoordsShape | src/qrcode.rs:231-271 | each `COORDS` row for versions 2..40 increases strictly from 6 to `size - 7` |
| QrTables.FormatBitsDecode | src/qrcode.rs:325-329 | each `FORMAT_BITS` entry is 15 bits wide and, unmasked with 0x5412, starts with the level indicator of its row and the mask |
| QrTables.VersionBitsDecode | src/qrcode.rs:379-384 | each `VERSION_BITS` entry is 18 bits wide and its top six bits are its version |
| QrPatterns.FinderPatternIsConcentric | src/qrcode.rs:82-132 | `FINDER_PATTERN` is 49 functional modules: a dark ring, a light ring and a dark 3×3 core |
| QrPatterns.AlignmentPatternIsConcentric | src/qrcode.rs:184-215 | `ALIGNMENT_PATTERN` is 25 functional modules: a dark ring, a light ring and a dark centre |
| QrPatterns.PairsOfAt | src/qrcode.rs:171-181 | `combination` yields n² pairs, and pair `j + n * i` is `(coords[i], coords[j])`: outer element first |
| QrPatterns.PairsOfMembers | src/qrcode.rs:171-181 | a pair is in the combination exactly when both its elements are coordinates |
| QrPatterns.DrawAlignmentAt | src/qrcode.rs:217-227 | with a non-functional centre, each module of the 5×5 block at (x - 2, y - 2) becomes the pattern's module, and the rest is kept |
| QrPatterns.AlignmentCentres | src/qrcode.rs:272-279 | every centre `alignment_patterns` visits is at least 2 from the top and left edges and inside the matrix, so drawing never underflows or reads out of bounds |
| QrPatterns.CentresOfPairsInRange | src/qrcode.rs:276-279 | every pair from a `COORDS` row is such a centre |
| QrPatterns.FormatIndex | src/qrcode.rs:331-337 | the table index is `mask + 8 * ordinal(level)` and keeps the mask as its remainder modulo 8 |
| QrPatterns.FormatWordEncodes | src/qrcode.rs:331-340 | for a mask below 8 the format word chosen, unmasked, encodes the level indicator and the mask |
| QrPatterns.FormatWordsDistinct | src/qrcode.rs:331-340 | two (mask, level) settings choose the same format word exactly when they are equal |
| QrPatterns.VersionWordEncodes | src/qrcode.rs:386 | `VERSION_BITS[version - 7]` is 18 bits wide and carries the version in its top six bits |
| QrPatterns.FreeOnColumnGrows | src/qrcode.rs:351-358 | the count of free modules of column 8 at or below row y never exceeds the count for the whole strip |
| QrPatterns.FormatFitsAfterTiming | src/qrcode.rs:351-358 | once timing has made (8, 6) functional, the column strip never reads past bit 14 |
| QrCodes.Blank | src/qrcode.rs:62 | the matrix of `new` is `size²` copies of `Zero(false)` |
| QrCodes.QrCode.New | src/qrcode.rs:52-71 | an error "Invalid version." exactly for version 0 or above 40; otherwise a symbol of side `17 + 4 * version`, all modules `Zero(false)` |
| QrCodes.QrCode.Init | src/qrcode.rs:61-70 | a symbol keeps its version, level and mask and starts with the blank matrix |
| QrCodes.QrCode.Get | src/qrcode.rs:22-28 | None exactly out of bounds; otherwise the module at (x, y) |
| QrCodes.QrCode.Put | src/qrcode.rs:30-34 | module (x, y) becomes b and every other module is unchanged |
| QrCodes.QrCode.FinderPatterns | src/qrcode.rs:81-151 | the three corner loops leave the matrix with each 7×7 corner square overwritten by `FINDER_PATTERN` |
| QrCodes.FinderAtCorner | src/qrcode.rs:137-150 | module (cx + dx, cy + dy) of corner k lies under `FINDER_PATTERN[dx + 7 * dy]` |
| QrCodes.QrCode.SeparatorsPatterns | src/qrcode.rs:153-169 | the six strip loops write `Zero(true)` on exactly the separator modules and nowhere else |
| QrCodes.SeparatorStrips | src/qrcode.rs:154-168 | the six rectangles the loops cover are exactly the separator strips |
| QrCodes.Combination | src/qrcode.rs:171-181 | the double loop builds every ordered pair of coordinates, outer element first |
| QrCodes.QrCode.DrawAlignmentPattern | src/qrcode.rs:183-228 | the matrix is unchanged if the centre is functional, and otherwise gets the 5×5 pattern at (x - 2, y - 2) |
| QrCodes.QrCode.AlignmentPatterns | src/qrcode.rs:230-281 | patterns are drawn at (18, 18) for version 1 and at every combination of the `COORDS` row otherwise, in order |
| QrCodes.QrCode.TimingPatterns | src/qrcode.rs:283-318 | row 6 and column 6 from 8 to `size - 9` get functional modules, dark at even coordinates, wherever no functional module was |
| QrCodes.QrCode.DarkModule | src/qrcode.rs:320-322 | module (8, 4 * version + 9) becomes `One(true)`, and nothing else changes |
| QrCodes.QrCode.FormatInformation | src/qrcode.rs:324-371 | the matrix after the four format strips, as the three strip methods below describe |
| QrCodes.QrCode.FormatRowStrip | src/qrcode.rs:342-349 | the free modules of row 8 with x = 0..8 take bits 0, 1, ... in order, and functional ones are skipped |
| QrCodes.QrCode.FormatColumnStrip | src/qrcode.rs:351-358 | the free modules of column 8 from y = 8 up to 0 take bits 7, 8, ... in order |
| QrCodes.QrCode.FormatFixedStrips | src/qrcode.rs:360-370 | bits 0..6 go to (8, size-1) up to (8, size-7) and bits 7..14 to (size-8..size-1, 8), with no functional check |
| QrCodes.QrCode.VersionInformation | src/qrcode.rs:373-412 | for version 7 or more, bit i goes to (i/3, size-11+i%3) and to (size-11+i%3, i/3), and nothing else changes |
| QrCodes.QrCode.VersionBottomLeft | src/qrcode.rs:389-399 | the 6×3 block at the bottom left holds bit `3x + (y - (size - 11))` at (x, y), and nothing else changes |
| QrCodes.QrCode.VersionTopRight | src/qrcode.rs:401-411 | the 3×6 block at the top right holds bit `3y + (x - (size - 11))` at (x, y), and nothing else changes |
| QrCodes.QrCode.AllFunctionalPatterns | src/qrcode.rs:414-424 | the painters run in source order, with the version blocks only from version 7 |
| QrCodes.Turn | src/qrcode.rs:435-475 | one turn of `fill`'s inner loop moves the walk state exactly as the walk's step function does |
| QrCodes.QrCode.Fill | src/qrcode.rs:426-485 | the matrix after `fill` is the one the walk specification gives, with one put per bit at the next non-functional module |
| QrWalk.Step | src/qrcode.rs:435-475 | a step fails exactly where `x -= 1` would underflow; otherwise it stays on the matrix and either moves to an earlier column pair or gets closer to the end of its pass |
| QrWalk.Advance | src/qrcode.rs:434-481 | the module the inner loop stops on is on the matrix and not functional |
| QrWalk.FillKeepsFunctional | src/qrcode.rs:478-483 | `fill` never changes a functional module |
| QrWalk.FillOnlyAtLandings | src/qrcode.rs:433-484 | `fill` puts exactly one bit per input bit, each on the matrix, and every module no bit lands on keeps its old value |
| QrWalk.FillPutsEachBit | src/qrcode.rs:433-484 | bit k lands on a module of the matrix, and that module holds bit k at the end unless a later bit lands on it too |
| QrWalk.FirstCandidate | src/qrcode.rs:427-455 | the walk moves before its first check, so the first module considered is (size - 2, size - 1) |
| QrWalk.UpPass | src/qrcode.rs:436-454 | going up with an even counter, 2j steps climb j rows in the same column pair |
| QrWalk.DownPass | src/qrcode.rs:456-474 | going down with an even counter, 2j steps descend j rows in the same column pair |
| QrWalk.AdvanceFollowsWalk | src/qrcode.rs:434-481 | every module the inner loop stops on is a later position of the plain walk |
| QrWalk.WalkRevisits | src/qrcode.rs:438-445 | on every symbol, steps 1 and 4·size - 3 of the walk reach the same module (size - 2, size - 1) |
| QrWalk.CorrectedWalkRank | src/qrcode.rs:426-485 | each step of the corrected walk, which turns to the next column pair, raises the rank of its module by exactly one |
| QrWalk.CorrectedStepRank | src/qrcode.rs:435-475 | one corrected step stays on the column pairs and raises the rank by one |
| QrWalk.StartRank | src/qrcode.rs:427-429 | the walk starts at the bottom-right module, the first in rank order |
| QrWalk.CorrectedWalkVisitsOnce | src/qrcode.rs:426-485 | the corrected walk never visits a module twice |
| QrProperties.FinderModules | src/qrcode.rs:137-150 | for each corner and dx, dy < 7, module (cx+dx, cy+dy) after `finder_patterns` is `FINDER_PATTERN[dx+7dy]` and functional |
| QrProperties.FinderPatternsOnlyCorners | src/qrcode.rs:137-150 | `finder_patterns` changes nothing outside the three corner squares |
| QrProperties.FinderRingIsDark | src/qrcode.rs:82-132 | the outer ring of each finder is `One(true)` |
| QrProperties.FinderLeavesFarCorner | src/qrcode.rs:137 | the bottom-right corner gets no finder, at versions 1 and 40 |
| QrProperties.SeparatorsKeepFinders | src/qrcode.rs:153-169 | separators never overlap a finder square, so finder modules survive them |
| QrProperties.SeparatorsWriteLightStrips | src/qrcode.rs:153-169 | every module `separators_patterns` changes is on a strip and becomes `Zero(true)` |
| QrProperties.DrawAlignmentEffect | src/qrcode.rs:217-227 | a functional centre leaves the matrix unchanged; otherwise the 5×5 block gets the functional pattern and everything outside it is unchanged |
| QrProperties.PairsComplete | src/qrcode.rs:171-181 | the combination has n² pairs, and (a, b) is in it exactly when a and b are coordinates |
| QrProperties.TimingEffect | src/qrcode.rs:283-318 | for 8 <= c <= size - 9, (c, 6) and (6, c) end functional; a free one becomes dark exactly when c is even, and an already functional one is unchanged |
| QrProperties.TimingOnlyOnLines | src/qrcode.rs:283-318 | timing changes nothing off row 6 and column 6 |
| QrProperties.DarkModulePlacement | src/qrcode.rs:320-322 | the dark module is `One(true)` at (8, size - 8), and every other module is unchanged |
| QrProperties.VersionBitPlacement | src/qrcode.rs:389-411 | bit i is at (i/3, size-11+i%3) and at (size-11+i%3, i/3) |
| QrProperties.VersionBlocksTransposed | src/qrcode.rs:389-411 | the two version blocks are transposes of each other |
| QrProperties.SizeExamples | src/qrcode.rs:589-655 | sides 21, 57, 97, 177 and 417 for versions 1, 10, 20, 40 and 100, and 625 modules at version 2 |
| QrProperties.GetOnBlank | src/qrcode.rs:571-581 | on a blank version-1 matrix, `get(0, 0)` is `Zero(false)` and `get(100, 100)` is None |
| QrFunctional.FinderKeepsFunctional | src/qrcode.rs:81-151 | `finder_patterns` leaves every functional module functional |
| QrFunctional.SeparatorsKeepFunctional | src/qrcode.rs:153-169 | so does `separators_patterns` |
| QrFunctional.DrawAllKeepsFunctional | src/qrcode.rs:230-281 | so does drawing any sequence of alignment patterns |
| QrFunctional.TimingKeepsFunctional | src/qrcode.rs:283-318 | so does `timing_patterns` |
| QrFunctional.DarkModuleKeepsFunctional | src/qrcode.rs:320-322 | so does `dark_module` |
| QrFunctional.FormatKeepsFunctional | src/qrcode.rs:324-371 | with functional format bits, functional modules stay functional and every module of the four strips ends functional |
| QrFunctional.VersionKeepsFunctional | src/qrcode.rs:373-412 | with functional version bits, functional modules stay functional and both version blocks end functional |
| QrFunctional.PatternsBeforeFormatReserve | src/qrcode.rs:414-421 | after the painters up to the dark module, every finder, separator, timing and dark-module position is functional |
| QrFunctional.FunctionPatternsAreFunctional | src/qrcode.rs:414-424 | after `all_functional_patterns`, every reserved module is functional (finder, separator, timing, dark module, format strips, version blocks) |
| QrFunctional.FillSparesFunctionPatterns | src/qrcode.rs:426-485 | `fill` after `all_functional_patterns` leaves every reserved module as painted |
| QrFormatCorner.CentresAwayFromCorner | src/qrcode.rs:231-279 | every alignment centre is (6, 6) or has a coordinate of at least 18, so it never reaches the format strips around the top-left finder |
| QrFormatCorner.CornerLayoutBeforeFormat | src/qrcode.rs:414-421 | on a matrix from `new`, among (0..8, 8) and (8, 0..8) only the timing modules (6, 8) and (8, 6) are functional when the format strips begin |
| QrFormatCorner.FormatCornerCopy | src/qrcode.rs:342-358 | the top-left copy: bits 0..5 at (0..5, 8), bit 6 at (7, 8), bit 7 at (8, 8), then bit 7 + g at (8, 7) and bit 13 + g - y at (8, y) for y < 6, where g is 1 when bit 7 is non-functional and 0 otherwise |
| QrFormatCorner.FunctionalBitsShiftColumn | src/qrcode.rs:351-358 | with functional bits, bit 7 lands at both (8, 8) and (8, 7), and (8, y) gets bit 13 - y for y < 6, so bit 14 is never placed in the top-left copy |
| QrFormatCorner.CorrectedFormatCornerCopy | src/qrcode.rs:351-358 | with the column counter started after the bit at (8, 8), (8, 7) gets bit 8 and (8, y) gets bit 14 - y: all 15 bits appear once |
| QrFormatCorner.FormatSecondCopyColumn | src/qrcode.rs:360-364 | (8, y) holds bit `size - 1 - y` for `size - 7 <= y < size` |
| QrFormatCorner.FormatSecondCopyRow | src/qrcode.rs:366-370 | (x, 8) holds bit `7 + x - (size - 8)` for `size - 8 <= x < size` |
| QrFormatCorner.SymbolKeepsFormat | src/qrcode.rs:414-424 | the version blocks painted afterwards never touch row 8 or column 8, so the format strips survive into the finished symbol |
| QrFormatCorner.TopLeftCopyInSymbol | src/qrcode.rs:414-424 | on a matrix from `new`, the finished symbol carries the top-left format copy laid out as in FormatCornerCopy |
| QrFormatCorner.SecondCopyColumnInSymbol | src/qrcode.rs:360-364 | the finished symbol carries bits 0..6 on column 8 from the bottom up |

## Left out

- `impl fmt::Display for QrCode` (src/qrcode.rs:488-514): terminal rendering, with no logic to verify.
- The capacity tables `NUMERIC_SIZE` … `KANJI_SIZE` (src/qrcode.rs:516-564): nothing in the modelled code reads them.
- `Bit::from` and the bit, mask, preprocessor, format and encoding modules are not part of this model.
  - The 15 format bits and the 18 version bits are parameters of the format and version methods.
  - Those methods also require the word index they would read to be inside its table.
- The `encoding` field of `QrCode` and its parameter of `new` (src/qrcode.rs:18, 56): the `Encoding` type is not part of this model, and no modelled operation reads the field.
- `src/main.rs` and the tools scripts: wiring, printing, network scraping and code generation.
- Reed–Solomon algebra the code never asserts, such as divisibility of data ∥ EC by the generator, and conformance of the whole symbol to ISO/IEC 18004.
- Integer widths:
  - `u8`/`u32`/`usize` values are unbounded naturals.
  - Versions, masks and coordinates in the model never reach a wrap-around.
  - `QrCode.New` keeps the `u8` range of its version argument.
- Ec.ErrorCorrection: requires 1 <= version <= 39 and non-empty data.
  - At version 0, `version - 1` underflows its `u8` (src/ec.rs:23) and the source panics.
  - At version 40 the source indexes `EC_BYTES_PER_BLOCK` out of bounds and panics.
  - On empty data there are no blocks, and `interleave` panics on `max().unwrap()`.
- Ec.Interleave: requires at least one block, because the source panics on `unwrap` of an empty `max`.
- QrCodes.QrCode.VersionInformation: requires version >= 7, where the source's `assert!` panics.
- QrCodes.QrCode.FormatInformation: requires the index `mask + 8 * ordinal` below 32 and the column strip to stay within the 15 bits. Outside these, the source panics on an out-of-bounds index.
- QrCodes.QrCode.FormatColumnStrip: requires at most 8 free modules in column 8 for the same reason.
- QrCodes.QrCode.DrawAlignmentPattern: requires a centre at least 2 from the top and left edges. Every centre `alignment_patterns` uses meets this (QrPatterns.AlignmentCentres).
- QrCodes.QrCode.Fill: requires that the walk has room for every bit.
  - Where `x -= 1` would underflow, the source panics. The specification returns None there.
  - Termination for any number of bits is therefore not modelled.
- The row-8 half of the second format copy is stated for the format step (FormatSecondCopyRow). Its survival into the finished symbol follows from SymbolKeepsFormat and is not stated as a separate lemma.
- `create_ec_for_block` receives its generator as a parameter. `error_correction` passes `GENERATOR_POLYNOMIALS[ec_size]`, whose length is proved. A generator shorter than `ec_size` is handled as the source's `zip` does: the round stops at the shorter one.

## Findings

| source | as written | input that shows it | evidently intended | confidence | as-written member | corrected member |
|---|---|---|---|---|---|---|
| src/ec.rs:23, src/ec.rs:49 | the layout table is read at row `version - 1` but `EC_BYTES_PER_BLOCK` at row `version` | version 1, level L, 19 data codewords: 10 EC codewords (row 1) instead of 7, 29 codewords for a 26-codeword symbol; version 40 indexes past the table | both tables read at row `version - 1`, so data plus EC fill the symbol | not executed | Ec.ErrorCorrectionOverfillsVersion1 | Ec.CorrectedErrorCorrectionFillsSymbol |
| src/qrcode.rs:438-445, src/qrcode.rs:458-465 | at the end of a column pair the walk moves one column left and keeps its counter, so the next pass runs through the right-hand column it just used | any version: size 25 reaches (23, 24) at step 1 and again at step 97, and `fill` puts a second bit there | a turn moves to the next column pair (two columns left, skipping column 6), so every module is visited once | not executed | QrWalk.WalkRevisits | QrWalk.CorrectedWalkVisitsOnce |
| src/qrcode.rs:351-358 | the column-8 strip restarts its counter at 7, and (8, 8), already painted with bit 7 by the row strip, is skipped as functional | format bits marked functional: bit 7 is placed at (8, 8) and again at (8, 7), and bit 14 never appears in the top-left copy | bit 8 at (8, 7) and bit 14 - y at (8, y) for y < 6, as section 6.9 of ISO/IEC 18004:2006 lays out | not executed | QrFormatCorner.FunctionalBitsShiftColumn | QrFormatCorner.CorrectedFormatCornerCopy |
