/**
 * The Reed-Solomon error-correction encoder of src/ec.rs: it cuts the data codewords into the
 * blocks of the version's layout, divides each zero-padded block by the generator polynomial over
 * GF(256), and interleaves the remainders column by column.
 */
module Ec {
  import opened Gf256
  import opened EcTables

  /** Error-correction level (src/ec.rs:2-7; src/qrcode.rs:6-11 declares the same four variants). */
  datatype EcLevel = H | Q | M | L

  /** `EcLevel::ordinal` (src/ec.rs:10-17): the column a level reads in the per-level tables. */
  function Ordinal(level: EcLevel): (r: nat)
    ensures r < 4
  {
    match level
    case L => 0
    case M => 1
    case Q => 2
    case H => 3
  }

  /** Distinct levels read distinct table columns. */
  lemma OrdinalInjective(a: EcLevel, b: EcLevel)
    ensures Ordinal(a) == Ordinal(b) <==> a == b
  {
  }

  // ---------------------------------------------------------------------------------------------
  // Division of one block (create_ec_for_block)
  // ---------------------------------------------------------------------------------------------

  /** The buffer create_ec_for_block divides: the block followed by `ecSize` zero codewords
      (src/ec.rs:59-61). */
  function Padded(block: seq<bv8>, ecSize: nat): (c: seq<bv8>)
    ensures |c| == |block| + ecSize
    ensures forall p | 0 <= p < |block| :: c[p] == block[p]
    ensures forall p | |block| <= p < |c| :: c[p] == 0
  {
    block + seq(ecSize, _ => 0)
  }

  /** The product of a generator coefficient `g` (an exponent of α) and a non-zero leading codeword,
      as the division loop reads it from the tables: EXP[(g + LOG[lead]) % 255] (src/ec.rs:68-74). */
  function TableProduct(g: bv8, lead: bv8): bv8
  {
    ExpTable(Mod255(g as int + LogTable(lead as int) as int))
  }

  /** The buffer `c` after the first `j` XOR steps of round `i`: codeword i + 1 + k has absorbed
      `mul(g_k, c[i])` for each k < j. */
  function Stepped(c: seq<bv8>, gen: seq<bv8>, i: nat, j: nat, mul: (bv8, bv8) -> bv8): (r: seq<bv8>)
    requires i < |c| && j <= |gen| && i + j < |c|
    ensures |r| == |c|
  {
    seq(|c|, p requires 0 <= p < |c| => if i < p <= i + j then c[p] ^ mul(gen[p - i - 1], c[i]) else c[p])
  }

  /** Round `i` of the division loop (src/ec.rs:63-76): nothing when codeword i is zero, otherwise
      one XOR step per generator coefficient, stopping at whichever of the buffer and the generator
      ends first (the `zip` of src/ec.rs:71-72). */
  function Round(c: seq<bv8>, gen: seq<bv8>, i: nat, mul: (bv8, bv8) -> bv8): (r: seq<bv8>)
    requires i < |c|
    ensures |r| == |c|
  {
    if c[i] == 0 then c
    else Stepped(c, gen, i, if |gen| < |c| - i - 1 then |gen| else |c| - i - 1, mul)
  }

  /** The buffer after rounds 0 .. n - 1. */
  function Rounds(c0: seq<bv8>, gen: seq<bv8>, n: nat, mul: (bv8, bv8) -> bv8): (r: seq<bv8>)
    requires n <= |c0|
    ensures |r| == |c0|
  {
    if n == 0 then c0 else Round(Rounds(c0, gen, n - 1, mul), gen, n - 1, mul)
  }

  /** What create_ec_for_block returns: the `ecSize` codewords that follow the block once each of
      its codewords has had its round. */
  function EcForBlock(block: seq<bv8>, ecSize: nat, gen: seq<bv8>): seq<bv8>
  {
    Rounds(Padded(block, ecSize), gen, |block|, TableProduct)[|block|..]
  }

  lemma SteppedNext(c: seq<bv8>, gen: seq<bv8>, i: nat, j: nat, mul: (bv8, bv8) -> bv8)
    requires i < |c| && j < |gen| && i + j + 1 < |c|
    ensures Stepped(c, gen, i, j + 1, mul) ==
      Stepped(c, gen, i, j, mul)[i + 1 + j := Stepped(c, gen, i, j, mul)[i + 1 + j] ^ mul(gen[j], c[i])]
  {
  }

  /** One round of the loop of src/ec.rs:63-76 on a non-zero leading codeword: the `zip` over the
      codewords after position i and the generator coefficients, XOR-ing in place. */
  method ApplyRound(codewords: array<bv8>, gen: seq<bv8>, i: nat, mul: (bv8, bv8) -> bv8)
    requires i < codewords.Length && codewords[i] != 0
    modifies codewords
    ensures codewords[..] == Round(old(codewords[..]), gen, i, mul)
  {
    ghost var before := codewords[..];
    var lead := codewords[i];
    var j := 0;
    while j < |gen| && i + 1 + j < codewords.Length
      invariant 0 <= j <= |gen| && i + 1 + j <= codewords.Length
      invariant codewords[..] == Stepped(before, gen, i, j, mul)
    {
      SteppedNext(before, gen, i, j, mul);
      codewords[i + 1 + j] := codewords[i + 1 + j] ^ mul(gen[j], lead);
      j := j + 1;
    }
  }

  /** `create_ec_for_block` (src/ec.rs:58-79): pads the block with `ecSize` zeros in an array, runs
      one round per data codeword, skipping zero leading codewords, and returns the tail. */
  method CreateEcForBlock(block: seq<bv8>, ecSize: nat, gen: seq<bv8>) returns (ec: seq<bv8>)
    ensures |ec| == ecSize
    ensures ec == EcForBlock(block, ecSize, gen)
  {
    var dataLen := |block|;
    ghost var c0 := Padded(block, ecSize);
    var codewords := new bv8[dataLen + ecSize](p requires 0 <= p < dataLen + ecSize => if p < dataLen then block[p] else 0);
    assert codewords[..] == c0;
    for i := 0 to dataLen
      invariant codewords[..] == Rounds(c0, gen, i, TableProduct)
    {
      if codewords[i] == 0 {
        continue;
      }
      ApplyRound(codewords, gen, i, TableProduct);
    }
    ec := codewords[dataLen..];
  }

  /** Codeword `p` after the first `n` rounds, one codeword at a time: the pointwise reading of
      `Rounds`, in which each round reads its leading codeword and the codeword it updates. */
  function Codeword(c0: seq<bv8>, gen: seq<bv8>, n: nat, p: nat, mul: (bv8, bv8) -> bv8): bv8
    requires n <= |c0| && p < |c0|
  {
    if n == 0 then c0[p]
    else
      var i := n - 1;
      var before := Codeword(c0, gen, i, p, mul);
      var lead := Codeword(c0, gen, i, i, mul);
      if lead == 0 || p <= i || p - i - 1 >= |gen| then before
      else before ^ mul(gen[p - i - 1], lead)
  }

  /** The whole-buffer rounds and the pointwise recurrence agree on every codeword. */
  lemma {:induction false} RoundsAgreeWithCodeword(c0: seq<bv8>, gen: seq<bv8>, n: nat, p: nat, mul: (bv8, bv8) -> bv8)
    requires n <= |c0| && p < |c0|
    ensures Rounds(c0, gen, n, mul)[p] == Codeword(c0, gen, n, p, mul)
  {
    if n > 0 {
      RoundsAgreeWithCodeword(c0, gen, n - 1, p, mul);
      RoundsAgreeWithCodeword(c0, gen, n - 1, n - 1, mul);
    }
  }

  /** EC codeword j of a block is codeword |block| + j of its padded buffer after every round. */
  lemma EcForBlockAt(block: seq<bv8>, ecSize: nat, gen: seq<bv8>, buffer: seq<bv8>, n: nat, p: nat)
    requires buffer == Padded(block, ecSize) && n == |block| && n <= p < n + ecSize
    ensures |EcForBlock(block, ecSize, gen)| == ecSize
    ensures EcForBlock(block, ecSize, gen)[p - n] == Codeword(buffer, gen, n, p, TableProduct)
  {
    var rounds := Rounds(buffer, gen, n, TableProduct);
    assert EcForBlock(block, ecSize, gen) == rounds[n..];
    RoundsAgreeWithCodeword(buffer, gen, n, p, TableProduct);
    assert rounds[n..][p - n] == rounds[p];
  }

  lemma {:induction false} ZeroBufferStaysZero(c0: seq<bv8>, gen: seq<bv8>, n: nat, p: nat, mul: (bv8, bv8) -> bv8)
    requires n <= |c0| && p < |c0|
    requires forall q | 0 <= q < |c0| :: c0[q] == 0
    ensures Codeword(c0, gen, n, p, mul) == 0
  {
    if n > 0 {
      ZeroBufferStaysZero(c0, gen, n - 1, p, mul);
      ZeroBufferStaysZero(c0, gen, n - 1, n - 1, mul);
    }
  }

  /** An all-zero block finds a zero leading codeword in every round, skips every division step,
      and so gets an all-zero EC tail. */
  lemma ZeroBlockGivesZeroEc(block: seq<bv8>, ecSize: nat, gen: seq<bv8>)
    requires forall i | 0 <= i < |block| :: block[i] == 0
    ensures EcForBlock(block, ecSize, gen) == seq(ecSize, _ => 0)
  {
    var c0 := Padded(block, ecSize);
    forall j | 0 <= j < ecSize
      ensures EcForBlock(block, ecSize, gen)[j] == 0
    {
      RoundsAgreeWithCodeword(c0, gen, |block|, |block| + j, TableProduct);
      ZeroBufferStaysZero(c0, gen, |block|, |block| + j, TableProduct);
    }
  }

  lemma {:induction false} LeadingZeroShifts(c: seq<bv8>, gen: seq<bv8>, n: nat, p: nat, mul: (bv8, bv8) -> bv8)
    requires n <= |c| && p < |c|
    ensures Codeword([0] + c, gen, n + 1, p + 1, mul) == Codeword(c, gen, n, p, mul)
  {
    if n > 0 {
      LeadingZeroShifts(c, gen, n - 1, p, mul);
      LeadingZeroShifts(c, gen, n - 1, n - 1, mul);
    } else {
      assert Codeword([0] + c, gen, 0, 0, mul) == 0;
    }
  }

  lemma RoundsSkipLeadingZero(c: seq<bv8>, gen: seq<bv8>, n: nat, mul: (bv8, bv8) -> bv8)
    requires n <= |c|
    ensures Rounds([0] + c, gen, n + 1, mul)[n + 1..] == Rounds(c, gen, n, mul)[n..]
  {
    var shifted := Rounds([0] + c, gen, n + 1, mul)[n + 1..];
    var plain := Rounds(c, gen, n, mul)[n..];
    forall j | 0 <= j < |plain|
      ensures shifted[j] == plain[j]
    {
      RoundsAgreeWithCodeword([0] + c, gen, n + 1, n + 1 + j, mul);
      RoundsAgreeWithCodeword(c, gen, n, n + j, mul);
      LeadingZeroShifts(c, gen, n, n + j, mul);
    }
  }

  /** A zero first data codeword is skipped without touching the buffer, so it does not change
      the EC codewords: the block is divided as if it started at its second codeword. */
  lemma LeadingZeroDoesNotChangeEc(block: seq<bv8>, ecSize: nat, gen: seq<bv8>)
    ensures EcForBlock([0] + block, ecSize, gen) == EcForBlock(block, ecSize, gen)
  {
    assert Padded([0] + block, ecSize) == [0] + Padded(block, ecSize);
    RoundsSkipLeadingZero(Padded(block, ecSize), gen, |block|, TableProduct);
  }

  // ---------------------------------------------------------------------------------------------
  // Interleaving (interleave)
  // ---------------------------------------------------------------------------------------------

  /** The length of the longest block; 0 when there are none. */
  function MaxLength(blocks: seq<seq<bv8>>): (m: nat)
    ensures forall k | 0 <= k < |blocks| :: |blocks[k]| <= m
    ensures |blocks| == 0 ==> m == 0
    ensures |blocks| > 0 ==> exists k | 0 <= k < |blocks| :: |blocks[k]| == m
  {
    if |blocks| == 0 then 0
    else
      var rest := MaxLength(blocks[..|blocks| - 1]);
      var last := |blocks[|blocks| - 1]|;
      if last > rest then last else rest
  }

  /** Codeword `column` of every block that has one, in block order. */
  function Column(blocks: seq<seq<bv8>>, column: nat): seq<bv8>
  {
    if |blocks| == 0 then []
    else
      var last := blocks[|blocks| - 1];
      Column(blocks[..|blocks| - 1], column) + (if column < |last| then [last[column]] else [])
  }

  /** Columns 0 .. columns - 1, one after the other. */
  function InterleavedUpTo(blocks: seq<seq<bv8>>, columns: nat): seq<bv8>
  {
    if columns == 0 then [] else InterleavedUpTo(blocks, columns - 1) + Column(blocks, columns - 1)
  }

  /** What interleave returns: every column up to the longest block's length. */
  function Interleaved(blocks: seq<seq<bv8>>): seq<bv8>
  {
    InterleavedUpTo(blocks, MaxLength(blocks))
  }

  /** `interleave` (src/ec.rs:81-92). Without blocks, the `max().unwrap()` of src/ec.rs:83 panics,
      which the precondition excludes. */
  method Interleave(blocks: seq<seq<bv8>>) returns (result: seq<bv8>)
    requires |blocks| > 0
    ensures result == Interleaved(blocks)
  {
    var maxLen := |blocks[0]|;
    for k := 1 to |blocks|
      invariant maxLen == MaxLength(blocks[..k])
    {
      assert blocks[..k + 1][..k] == blocks[..k];
      if |blocks[k]| > maxLen {
        maxLen := |blocks[k]|;
      }
    }
    assert blocks[..|blocks|] == blocks;
    result := [];
    for i := 0 to maxLen
      invariant result == InterleavedUpTo(blocks, i)
    {
      result := AppendColumn(blocks, i, result);
    }
  }

  /** The inner loop of `interleave` (src/ec.rs:85-89): codeword `column` of each block long enough, in block order. */
  method AppendColumn(blocks: seq<seq<bv8>>, column: nat, prefix: seq<bv8>) returns (result: seq<bv8>)
    ensures result == prefix + Column(blocks, column)
  {
    result := prefix;
    for k := 0 to |blocks|
      invariant result == prefix + Column(blocks[..k], column)
    {
      assert blocks[..k + 1][..k] == blocks[..k];
      if column < |blocks[k]| {
        result := result + [blocks[k][column]];
      }
    }
    assert blocks[..|blocks|] == blocks;
  }

  /** Total number of codewords in the blocks. */
  function TotalLength(blocks: seq<seq<bv8>>): nat
  {
    if |blocks| == 0 then 0 else TotalLength(blocks[..|blocks| - 1]) + |blocks[|blocks| - 1]|
  }

  /** Number of blocks longer than `column`. */
  function CountLonger(blocks: seq<seq<bv8>>, column: nat): nat
  {
    if |blocks| == 0 then 0
    else CountLonger(blocks[..|blocks| - 1], column) + (if column < |blocks[|blocks| - 1]| then 1 else 0)
  }

  /** Sum of CountLonger over the columns 0 .. columns - 1. */
  function SumCountLonger(blocks: seq<seq<bv8>>, columns: nat): nat
  {
    if columns == 0 then 0 else SumCountLonger(blocks, columns - 1) + CountLonger(blocks, columns - 1)
  }

  /** Sum over the blocks of min(|block|, columns). */
  function ClippedLength(blocks: seq<seq<bv8>>, columns: nat): nat
  {
    if |blocks| == 0 then 0
    else
      var last := |blocks[|blocks| - 1]|;
      ClippedLength(blocks[..|blocks| - 1], columns) + (if last < columns then last else columns)
  }

  lemma {:induction false} ColumnLength(blocks: seq<seq<bv8>>, column: nat)
    ensures |Column(blocks, column)| == CountLonger(blocks, column)
    decreases |blocks|
  {
    if |blocks| > 0 {
      ColumnLength(blocks[..|blocks| - 1], column);
    }
  }

  lemma {:induction false} InterleavedUpToLength(blocks: seq<seq<bv8>>, columns: nat)
    ensures |InterleavedUpTo(blocks, columns)| == SumCountLonger(blocks, columns)
  {
    if columns > 0 {
      InterleavedUpToLength(blocks, columns - 1);
      ColumnLength(blocks, columns - 1);
    }
  }

  lemma {:induction false} SumCountLongerSnoc(blocks: seq<seq<bv8>>, b: seq<bv8>, columns: nat)
    ensures SumCountLonger(blocks + [b], columns)
         == SumCountLonger(blocks, columns) + (if |b| < columns then |b| else columns)
  {
    if columns > 0 {
      SumCountLongerSnoc(blocks, b, columns - 1);
      assert (blocks + [b])[..|blocks + [b]| - 1] == blocks;
    }
  }

  lemma {:induction false} SumCountLongerIsClipped(blocks: seq<seq<bv8>>, columns: nat)
    ensures SumCountLonger(blocks, columns) == ClippedLength(blocks, columns)
    decreases |blocks|
  {
    if |blocks| == 0 {
      SumCountLongerOfNone(blocks, columns);
    } else {
      var front := blocks[..|blocks| - 1];
      SumCountLongerIsClipped(front, columns);
      assert front + [blocks[|blocks| - 1]] == blocks;
      SumCountLongerSnoc(front, blocks[|blocks| - 1], columns);
    }
  }

  lemma {:induction false} SumCountLongerOfNone(blocks: seq<seq<bv8>>, columns: nat)
    requires |blocks| == 0
    ensures SumCountLonger(blocks, columns) == 0
  {
    if columns > 0 {
      SumCountLongerOfNone(blocks, columns - 1);
    }
  }

  lemma {:induction false} ClippedLengthOfShortBlocks(blocks: seq<seq<bv8>>, columns: nat)
    requires forall k | 0 <= k < |blocks| :: |blocks[k]| <= columns
    ensures ClippedLength(blocks, columns) == TotalLength(blocks)
    decreases |blocks|
  {
    if |blocks| > 0 {
      ClippedLengthOfShortBlocks(blocks[..|blocks| - 1], columns);
    }
  }

  /** Interleaving keeps every codeword: the output is as long as all blocks together. */
  lemma InterleavedLength(blocks: seq<seq<bv8>>)
    ensures |Interleaved(blocks)| == TotalLength(blocks)
  {
    InterleavedUpToLength(blocks, MaxLength(blocks));
    SumCountLongerIsClipped(blocks, MaxLength(blocks));
    ClippedLengthOfShortBlocks(blocks, MaxLength(blocks));
  }

  lemma {:induction false} InterleavedUpToOfOne(b: seq<bv8>, columns: nat)
    requires columns <= |b|
    ensures InterleavedUpTo([b], columns) == b[..columns]
  {
    if columns > 0 {
      InterleavedUpToOfOne(b, columns - 1);
      assert [b][..0] == [];
      assert Column([b], columns - 1) == Column([], columns - 1) + [b[columns - 1]];
      assert b[..columns] == b[..columns - 1] + [b[columns - 1]];
    }
  }

  /** A single block comes out of interleaving unchanged. */
  lemma InterleaveSingle(b: seq<bv8>)
    ensures Interleaved([b]) == b
  {
    InterleavedUpToOfOne(b, |b|);
  }

  /** Blocks that are all empty interleave to nothing. */
  lemma InterleaveAllEmpty(blocks: seq<seq<bv8>>)
    requires forall k | 0 <= k < |blocks| :: |blocks[k]| == 0
    ensures Interleaved(blocks) == []
  {
  }

  /** All blocks have `width` codewords. */
  predicate Uniform(blocks: seq<seq<bv8>>, width: nat)
  {
    forall k | 0 <= k < |blocks| :: |blocks[k]| == width
  }

  lemma {:induction false} ColumnOfUniform(blocks: seq<seq<bv8>>, width: nat, column: nat)
    requires Uniform(blocks, width) && column < width
    ensures Column(blocks, column) == seq(|blocks|, k requires 0 <= k < |blocks| => blocks[k][column])
    decreases |blocks|
  {
    if |blocks| > 0 {
      ColumnOfUniform(blocks[..|blocks| - 1], width, column);
    }
  }

  /** Entry k of a column of equal-width blocks is codeword `column` of block k. */
  lemma ColumnOfUniformAt(blocks: seq<seq<bv8>>, width: nat, column: nat, k: nat)
    requires Uniform(blocks, width) && column < width && k < |blocks|
    ensures |Column(blocks, column)| == |blocks| && Column(blocks, column)[k] == blocks[k][column]
  {
    ColumnOfUniform(blocks, width, column);
  }

  lemma {:induction false} InterleavedUpToUniformLength(blocks: seq<seq<bv8>>, width: nat, columns: nat)
    requires Uniform(blocks, width) && columns <= width
    ensures |InterleavedUpTo(blocks, columns)| == columns * |blocks|
  {
    if columns > 0 {
      var n := |blocks|;
      InterleavedUpToUniformLength(blocks, width, columns - 1);
      ColumnOfUniform(blocks, width, columns - 1);
      assert |Column(blocks, columns - 1)| == n;
      assert |InterleavedUpTo(blocks, columns)| == (columns - 1) * n + n;
      MulSucc(columns - 1, n);
    }
  }

  /** With blocks of equal width, codeword c of block k lands at position c·n + k. */
  lemma {:induction false} InterleavedUpToUniformAt(blocks: seq<seq<bv8>>, width: nat, columns: nat, c: nat, k: nat)
    requires Uniform(blocks, width) && columns <= width && c < columns && k < |blocks|
    ensures |InterleavedUpTo(blocks, columns)| == columns * |blocks|
    ensures c * |blocks| + k < columns * |blocks|
    ensures InterleavedUpTo(blocks, columns)[c * |blocks| + k] == blocks[k][c]
  {
    var n := |blocks|;
    var i := c * n + k;
    var prev := InterleavedUpTo(blocks, columns - 1);
    var col := Column(blocks, columns - 1);
    InterleavedUpToUniformLength(blocks, width, columns);
    InterleavedUpToUniformLength(blocks, width, columns - 1);
    MulLess(c, columns, n, k);
    assert InterleavedUpTo(blocks, columns) == prev + col;
    if c < columns - 1 {
      MulLess(c, columns - 1, n, k);
      assert i < |prev|;
      InterleavedUpToUniformAt(blocks, width, columns - 1, c, k);
      assert (prev + col)[i] == prev[i];
    } else {
      ColumnOfUniformAt(blocks, width, columns - 1, k);
      assert i == |prev| + k;
      assert (prev + col)[|prev| + k] == col[k];
    }
  }

  /** (a + 1) · b = a · b + b. */
  lemma MulSucc(a: nat, b: nat)
    ensures (a + 1) * b == a * b + b
  {
  }

  /** A product of naturals is a natural. */
  lemma MulNonNegative(a: nat, b: nat)
    ensures a * b >= 0
  {
  }

  /** Piece k of width `size` ends within n pieces when k < n. */
  lemma {:induction false} PieceInRange(k: nat, n: nat, size: nat)
    requires k < n
    ensures k * size + size <= n * size
    decreases n
  {
    MulSucc(n - 1, size);
    if k + 1 < n {
      PieceInRange(k, n - 1, size);
    }
  }

  /** c * n + k stays below columns * n when c < columns and k < n. */
  lemma MulLess(c: nat, columns: nat, n: nat, k: nat)
    requires c < columns && k < n
    ensures c * n + k < columns * n
  {
    PieceInRange(c, columns, n);
  }

  /** Cuts an interleaved sequence back into `n` blocks of `width` codewords. */
  function Deinterleave(r: seq<bv8>, n: nat, width: nat): (blocks: seq<seq<bv8>>)
    requires |r| == width * n
    ensures |blocks| == n && Uniform(blocks, width)
  {
    seq(n, k requires 0 <= k < n =>
      seq(width, c requires 0 <= c < width => MulLess(c, width, n, k); r[c * n + k]))
  }

  /** Blocks of equal width interleave to position c·n + k for codeword c of block k, so
      deinterleaving gives them back. */
  lemma DeinterleaveInterleaved(blocks: seq<seq<bv8>>, width: nat)
    requires Uniform(blocks, width) && |blocks| > 0
    ensures |Interleaved(blocks)| == width * |blocks|
    ensures Deinterleave(Interleaved(blocks), |blocks|, width) == blocks
  {
    var m := MaxLength(blocks);
    assert m == width;
    InterleavedUpToUniformLength(blocks, width, width);
    var back := Deinterleave(Interleaved(blocks), |blocks|, width);
    forall k | 0 <= k < |blocks|
      ensures back[k] == blocks[k]
    {
      forall c | 0 <= c < width
        ensures back[k][c] == blocks[k][c]
      {
        InterleavedUpToUniformAt(blocks, width, width, c, k);
      }
    }
  }

  // ---------------------------------------------------------------------------------------------
  // Blocks of the data (the first half of error_correction)
  // ---------------------------------------------------------------------------------------------

  /** All the blocks, one after the other. */
  function Concat(blocks: seq<seq<bv8>>): seq<bv8>
  {
    if |blocks| == 0 then [] else blocks[0] + Concat(blocks[1..])
  }

  /** Rust's `chunks(size)`: consecutive pieces of `size` codewords, the last possibly shorter, and
      none for an empty slice. */
  function Chunks(s: seq<bv8>, size: nat): seq<seq<bv8>>
    requires size > 0
    decreases |s|
  {
    if |s| == 0 then []
    else if |s| <= size then [s]
    else [s[..size]] + Chunks(s[size..], size)
  }

  /** The chunks put back together give `s`; every chunk is non-empty and at most `size` long, and
      all but the last are exactly `size` long. */
  lemma {:induction false} ChunksShape(s: seq<bv8>, size: nat)
    requires size > 0
    ensures var pieces := Chunks(s, size);
      && Concat(pieces) == s
      && (forall k | 0 <= k < |pieces| :: 0 < |pieces[k]| <= size)
      && (forall k | 0 <= k < |pieces| - 1 :: |pieces[k]| == size)
      && (|pieces| == 0 <==> |s| == 0)
    decreases |s|
  {
    if |s| > size {
      var rest := Chunks(s[size..], size);
      ChunksShape(s[size..], size);
      assert Chunks(s, size) == [s[..size]] + rest;
      assert Concat([s[..size]] + rest) == s[..size] + Concat(rest);
      assert s[..size] + s[size..] == s;
    } else if |s| > 0 {
      assert Concat([s]) == s + Concat([]);
    }
  }

  /** `blocks` followed by the chunks of `s`, pushed one at a time as src/ec.rs:32-42 pushes them. */
  method PushChunks(blocks: seq<seq<bv8>>, s: seq<bv8>, size: nat) returns (result: seq<seq<bv8>>)
    requires size > 0
    ensures result == blocks + Chunks(s, size)
  {
    result := blocks;
    var rest := s;
    while |rest| > 0
      invariant result + Chunks(rest, size) == blocks + Chunks(s, size)
    {
      var n := if |rest| < size then |rest| else size;
      if |rest| > size {
        assert Chunks(rest, size) == [rest[..n]] + Chunks(rest[n..], size);
      } else {
        assert rest[..n] == rest;
        assert Chunks(rest, size) == [rest[..n]];
        assert rest[n..] == [];
      }
      result := result + [rest[..n]];
      rest := rest[n..];
    }
  }

  /** The blocks src/ec.rs:29-45 cuts from the data: when the data outgrows the first group, its
      first `count1 * size1` codewords in blocks of `size1` and the rest in blocks of `size2` (none
      when `size2` is 0); otherwise all the data in blocks of `size1`. */
  function SplitBlocks(data: seq<bv8>, layout: BlockLayout): seq<seq<bv8>>
    requires layout.size1 > 0
  {
    var group1Size := layout.count1 * layout.size1;
    if group1Size < |data| then
      Chunks(data[..group1Size], layout.size1) +
      (if layout.size2 > 0 then Chunks(data[group1Size..], layout.size2) else [])
    else Chunks(data, layout.size1)
  }

  lemma {:induction false} ConcatAppend(a: seq<seq<bv8>>, b: seq<seq<bv8>>)
    ensures Concat(a + b) == Concat(a) + Concat(b)
    decreases |a|
  {
    if |a| == 0 {
      assert a + b == b;
    } else {
      ConcatAppend(a[1..], b);
      assert (a + b)[1..] == a[1..] + b;
      assert (a + b)[0] == a[0];
      assert Concat(a + b) == a[0] + (Concat(a[1..]) + Concat(b));
    }
  }

  /** The blocks hold the data in order. With no second group (`size2` = 0), data beyond the first
      group's `count1 * size1` codewords lands in no block at all. */
  lemma SplitBlocksKeepOrder(data: seq<bv8>, layout: BlockLayout)
    requires layout.size1 > 0
    ensures var group1Size := layout.count1 * layout.size1;
      Concat(SplitBlocks(data, layout)) ==
        if layout.size2 > 0 || |data| <= group1Size then data else data[..group1Size]
  {
    var group1Size := layout.count1 * layout.size1;
    if group1Size < |data| {
      var first := Chunks(data[..group1Size], layout.size1);
      ChunksShape(data[..group1Size], layout.size1);
      if layout.size2 > 0 {
        ChunksShape(data[group1Size..], layout.size2);
        ConcatAppend(first, Chunks(data[group1Size..], layout.size2));
        assert data[..group1Size] + data[group1Size..] == data;
      } else {
        assert first + [] == first;
      }
    } else {
      ChunksShape(data, layout.size1);
    }
  }

  /** `n · size` codewords make `n` chunks of `size`. */
  lemma {:induction false} ChunksCount(s: seq<bv8>, size: nat, n: nat)
    requires size > 0 && |s| == n * size
    ensures |Chunks(s, size)| == n
    decreases n
  {
    if n > 1 {
      MulSucc(n - 1, size);
      PieceInRange(0, n - 1, size);
      ChunksCount(s[size..], size, n - 1);
    }
  }

  /** The first chunk is the first `size` codewords. */
  lemma ChunksHead(s: seq<bv8>, size: nat)
    requires 0 < size <= |s|
    ensures |Chunks(s, size)| > 0 && Chunks(s, size)[0] == s[..size]
  {
  }

  /** Past the first chunk, the chunks are those of the rest. */
  lemma ChunksTail(s: seq<bv8>, size: nat, k: nat)
    requires 0 < size < |s| && 0 < k <= |Chunks(s[size..], size)|
    ensures k < |Chunks(s, size)| && Chunks(s, size)[k] == Chunks(s[size..], size)[k - 1]
  {
    assert Chunks(s, size) == [s[..size]] + Chunks(s[size..], size);
  }

  /** Chunk k of `n · size` codewords is the k-th run of `size` codewords. */
  lemma {:induction false} ChunkAt(s: seq<bv8>, size: nat, n: nat, k: nat)
    requires size > 0 && |s| == n * size && k < n
    ensures |Chunks(s, size)| == n
    ensures k * size + size <= |s| && Chunks(s, size)[k] == s[k * size..k * size + size]
    decreases k
  {
    ChunksCount(s, size, n);
    PieceInRange(k, n, size);
    if k == 0 {
      ChunksHead(s, size);
      assert k * size == 0;
    } else {
      MulSucc(n - 1, size);
      PieceInRange(0, n - 1, size);
      ChunkAt(s[size..], size, n - 1, k - 1);
      MulSucc(k - 1, size);
      MulNonNegative(k - 1, size);
      var a := (k - 1) * size;
      ChunkShift(s, size, k, a);
      assert size + a == k * size;
    }
  }

  /** Chunk k of `s` is chunk k - 1 of what follows the first chunk, moved by `size`. */
  lemma ChunkShift(s: seq<bv8>, size: nat, k: nat, a: nat)
    requires 0 < size < |s| && 0 < k <= |Chunks(s[size..], size)| && a + size <= |s| - size
    requires Chunks(s[size..], size)[k - 1] == s[size..][a..a + size]
    ensures k < |Chunks(s, size)| && Chunks(s, size)[k] == s[size + a..size + a + size]
  {
    ChunksTail(s, size, k);
    SliceOfSuffix(s, size, a, a + size);
    assert size + (a + size) == size + a + size;
  }

  /** Block `k` of the data when it exactly fills the layout: `size1` codewords each for the first
      `count1` blocks, then `size2` codewords each. */
  function DataBlock(data: seq<bv8>, layout: BlockLayout, k: nat): seq<bv8>
    requires |data| == DataCodewords(layout) && k < BlockCount(layout)
  {
    var start := layout.count1 * layout.size1;
    if k < layout.count1 then
      PieceInRange(k, layout.count1, layout.size1);
      MulNonNegative(k, layout.size1);
      MulNonNegative(layout.count2, layout.size2);
      data[k * layout.size1..k * layout.size1 + layout.size1]
    else
      var j := k - layout.count1;
      PieceInRange(j, layout.count2, layout.size2);
      MulNonNegative(j, layout.size2);
      MulNonNegative(layout.count1, layout.size1);
      data[start + j * layout.size2..start + j * layout.size2 + layout.size2]
  }

  /** Data that exactly fills a well-shaped layout is cut into `count1` blocks of `size1` and then
      `count2` blocks of `size2`, in order. */
  lemma SplitBlocksExact(data: seq<bv8>, layout: BlockLayout)
    requires WellShaped(layout) && |data| == DataCodewords(layout)
    ensures |SplitBlocks(data, layout)| == BlockCount(layout)
    ensures forall k | 0 <= k < BlockCount(layout) :: SplitBlocks(data, layout)[k] == DataBlock(data, layout, k)
  {
    if layout.count2 == 0 {
      SplitOneGroup(data, layout);
    } else {
      SplitTwoGroups(data, layout);
    }
  }

  lemma SplitOneGroup(data: seq<bv8>, layout: BlockLayout)
    requires layout.size1 > 0 && layout.count2 == 0 && |data| == DataCodewords(layout)
    ensures |SplitBlocks(data, layout)| == BlockCount(layout)
    ensures forall k | 0 <= k < BlockCount(layout) :: SplitBlocks(data, layout)[k] == DataBlock(data, layout, k)
  {
    var blocks := Chunks(data, layout.size1);
    assert SplitBlocks(data, layout) == blocks;
    ChunksCount(data, layout.size1, layout.count1);
    forall k | 0 <= k < layout.count1
      ensures blocks[k] == DataBlock(data, layout, k)
    {
      ChunkAt(data, layout.size1, layout.count1, k);
    }
  }

  lemma SplitTwoGroups(data: seq<bv8>, layout: BlockLayout)
    requires layout.size1 > 0 && layout.size2 > 0 && layout.count2 > 0 && |data| == DataCodewords(layout)
    ensures |SplitBlocks(data, layout)| == BlockCount(layout)
    ensures forall k | 0 <= k < BlockCount(layout) :: SplitBlocks(data, layout)[k] == DataBlock(data, layout, k)
  {
    MulNonNegative(layout.count1, layout.size1);
    var group1Size := layout.count1 * layout.size1;
    PieceInRange(0, layout.count2, layout.size2);
    var first := Chunks(data[..group1Size], layout.size1);
    var second := Chunks(data[group1Size..], layout.size2);
    assert SplitBlocks(data, layout) == first + second;
    ChunksCount(data[..group1Size], layout.size1, layout.count1);
    SuffixChunksCount(data, group1Size, layout.size2, layout.count2);
    forall k | 0 <= k < BlockCount(layout)
      ensures (first + second)[k] == DataBlock(data, layout, k)
    {
      if k < layout.count1 {
        FirstGroupBlock(data, layout, k);
      } else {
        SecondGroupBlock(data, layout, k - layout.count1);
      }
    }
  }

  lemma FirstGroupBlock(data: seq<bv8>, layout: BlockLayout, k: nat)
    requires layout.size1 > 0 && |data| == DataCodewords(layout) && k < layout.count1
    ensures |Chunks(data[..layout.count1 * layout.size1], layout.size1)| == layout.count1
    ensures Chunks(data[..layout.count1 * layout.size1], layout.size1)[k] == DataBlock(data, layout, k)
  {
    MulNonNegative(layout.count1, layout.size1);
    PrefixChunkAt(data, layout.size1, layout.count1, k);
  }

  lemma SecondGroupBlock(data: seq<bv8>, layout: BlockLayout, j: nat)
    requires layout.size2 > 0 && |data| == DataCodewords(layout) && j < layout.count2
    ensures |Chunks(data[layout.count1 * layout.size1..], layout.size2)| == layout.count2
    ensures Chunks(data[layout.count1 * layout.size1..], layout.size2)[j] == DataBlock(data, layout, layout.count1 + j)
  {
    MulNonNegative(layout.count1, layout.size1);
    SuffixChunkAt(data, layout.count1 * layout.size1, layout.size2, layout.count2, j);
  }

  lemma PrefixChunkAt(data: seq<bv8>, size: nat, n: nat, k: nat)
    requires size > 0 && n * size <= |data| && k < n
    ensures k * size + size <= n * size
    ensures |Chunks(data[..n * size], size)| == n
    ensures Chunks(data[..n * size], size)[k] == data[k * size..k * size + size]
  {
    ChunkAt(data[..n * size], size, n, k);
  }

  lemma SuffixChunksCount(data: seq<bv8>, start: nat, size: nat, n: nat)
    requires size > 0 && |data| == start + n * size
    ensures |Chunks(data[start..], size)| == n
  {
    ChunksCount(data[start..], size, n);
  }

  lemma SuffixChunkAt(data: seq<bv8>, start: nat, size: nat, n: nat, j: nat)
    requires size > 0 && |data| == start + n * size && j < n
    ensures |Chunks(data[start..], size)| == n
    ensures start + j * size + size <= |data|
    ensures Chunks(data[start..], size)[j] == data[start + j * size..start + j * size + size]
  {
    PieceInRange(j, n, size);
    MulNonNegative(j, size);
    SliceOfSuffix(data, start, j * size, j * size + size);
    ChunkAt(data[start..], size, n, j);
  }

  /** A slice of a suffix is a slice of the whole sequence, shifted by where the suffix starts. */
  lemma SliceOfSuffix(s: seq<bv8>, d: nat, a: nat, b: nat)
    requires d <= |s| && a <= b <= |s| - d
    ensures s[d..][a..b] == s[d + a..d + b]
  {
  }

  // ---------------------------------------------------------------------------------------------
  // error_correction
  // ---------------------------------------------------------------------------------------------

  /** The EC codewords of every block. */
  function EcBlocks(blocks: seq<seq<bv8>>, ecSize: nat, gen: seq<bv8>): (ecs: seq<seq<bv8>>)
    ensures |ecs| == |blocks| && Uniform(ecs, ecSize)
  {
    seq(|blocks|, k requires 0 <= k < |blocks| => EcForBlock(blocks[k], ecSize, gen))
  }

  /** The interleaved EC codewords of the data cut by `layout`, with `ecSize` codewords per block. */
  function EcCodewords(data: seq<bv8>, layout: BlockLayout, ecSize: nat): seq<bv8>
    requires layout.size1 > 0 && ecSize < 70
  {
    Interleaved(EcBlocks(SplitBlocks(data, layout), ecSize, GeneratorPolynomial(ecSize)))
  }

  /** What error_correction returns for `version` (src/ec.rs:20-56): only the interleaved EC
      codewords, not the data. The layout comes from row `version - 1` (src/ec.rs:23), the EC block
      size from row `version` (src/ec.rs:49), so version 40 is out of the table's range. */
  function ErrorCorrectionOf(data: seq<bv8>, version: nat, level: EcLevel): seq<bv8>
    requires 1 <= version <= 39
  {
    DataBytesPerBlockShape(version - 1, Ordinal(level));
    EcBytesPerBlockRange(version, Ordinal(level));
    EcCodewords(data, DataBytesPerBlock(version - 1, Ordinal(level)), EcBytesPerBlock(version, Ordinal(level)))
  }

  /** The cutting of src/ec.rs:29-45: the chunks of the first group, then those of the second. */
  method CutBlocks(data: seq<bv8>, layout: BlockLayout) returns (blocks: seq<seq<bv8>>)
    requires layout.size1 > 0
    ensures blocks == SplitBlocks(data, layout)
  {
    var group1Size := layout.count1 * layout.size1;
    blocks := [];
    if group1Size < |data| {
      blocks := PushChunks(blocks, data[..group1Size], layout.size1);
      if layout.size2 > 0 {
        blocks := PushChunks(blocks, data[group1Size..], layout.size2);
      } else {
        assert blocks == blocks + [];
      }
    } else {
      blocks := PushChunks(blocks, data, layout.size1);
    }
  }

  /** The loop of src/ec.rs:48-53: one create_ec_for_block per block, pushed in block order. */
  method EcOfEach(blocks: seq<seq<bv8>>, ecSize: nat, gen: seq<bv8>) returns (ecs: seq<seq<bv8>>)
    ensures ecs == EcBlocks(blocks, ecSize, gen)
  {
    ecs := [];
    for k := 0 to |blocks|
      invariant ecs == EcBlocks(blocks[..k], ecSize, gen)
    {
      var blockEc := CreateEcForBlock(blocks[k], ecSize, gen);
      ecs := ecs + [blockEc];
    }
    assert blocks[..|blocks|] == blocks;
  }

  /** The shared body of error_correction once the layout and EC block size are known. */
  method EncodeBlocks(data: seq<bv8>, layout: BlockLayout, ecSize: nat) returns (ec: seq<bv8>)
    requires |data| > 0 && layout.size1 > 0 && layout.count1 > 0 && ecSize < 70
    ensures ec == EcCodewords(data, layout, ecSize)
  {
    var blocks := CutBlocks(data, layout);
    PieceInRange(0, layout.count1, layout.size1);
    var gen := GeneratorPolynomial(ecSize);
    var ecBlocks := EcOfEach(blocks, ecSize, gen);
    ec := Interleave(ecBlocks);
  }

  /** `error_correction` (src/ec.rs:20-56). Version 0 underflows `version - 1`, version 40 indexes
      past EC_BYTES_PER_BLOCK, and empty data leaves no block for `interleave`: all three panic in
      the source and are excluded here. */
  method ErrorCorrection(data: seq<bv8>, version: nat, level: EcLevel) returns (ec: seq<bv8>)
    requires |data| > 0 && 1 <= version <= 39
    ensures ec == ErrorCorrectionOf(data, version, level)
  {
    var ord := Ordinal(level);
    DataBytesPerBlockShape(version - 1, ord);
    EcBytesPerBlockRange(version, ord);
    var layout := DataBytesPerBlock(version - 1, ord);
    var ecSize := EcBytesPerBlock(version, ord);
    ec := EncodeBlocks(data, layout, ecSize);
  }

  /** For data that exactly fills its layout, error_correction returns `ecSize` codewords for each of
      the `count1 + count2` blocks, and deinterleaving them gives the EC codewords of block k of the
      data, for every k. */
  lemma EcCodewordsStructure(data: seq<bv8>, layout: BlockLayout, ecSize: nat)
    requires WellShaped(layout) && |data| == DataCodewords(layout) && ecSize < 70
    ensures |EcCodewords(data, layout, ecSize)| == ecSize * BlockCount(layout)
    ensures forall k | 0 <= k < BlockCount(layout) ::
      Deinterleave(EcCodewords(data, layout, ecSize), BlockCount(layout), ecSize)[k] ==
        EcForBlock(DataBlock(data, layout, k), ecSize, GeneratorPolynomial(ecSize))
  {
    SplitBlocksExact(data, layout);
    var ecs := EcBlocks(SplitBlocks(data, layout), ecSize, GeneratorPolynomial(ecSize));
    assert |ecs| > 0;
    DeinterleaveInterleaved(ecs, ecSize);
  }

  /** The layout and EC block size error_correction reads, as written, give `ecSize · (n1 + n2)`
      EC codewords with `ecSize = EC_BYTES_PER_BLOCK[version][ordinal]`. */
  lemma ErrorCorrectionLength(data: seq<bv8>, version: nat, level: EcLevel)
    requires 1 <= version <= 39
    requires |data| == DataCodewords(DataBytesPerBlock(version - 1, Ordinal(level)))
    ensures |ErrorCorrectionOf(data, version, level)| ==
      EcBytesPerBlock(version, Ordinal(level)) * BlockCount(DataBytesPerBlock(version - 1, Ordinal(level)))
  {
    DataBytesPerBlockShape(version - 1, Ordinal(level));
    EcBytesPerBlockRange(version, Ordinal(level));
    EcCodewordsStructure(data, DataBytesPerBlock(version - 1, Ordinal(level)), EcBytesPerBlock(version, Ordinal(level)));
  }

  /** Version 1 at level L, as written: 19 data codewords get 10 EC codewords from the version 2 row,
      29 in all, while the symbol holds 26. */
  lemma ErrorCorrectionOverfillsVersion1(data: seq<bv8>)
    requires |data| == 19
    ensures |data| + |ErrorCorrectionOf(data, 1, L)| == 29
    ensures RawDataModules(1) / 8 == 26
  {
    EcRowShiftedForVersion1();
    ErrorCorrectionLength(data, 1, L);
  }

  /** error_correction with the EC block size read from row `version - 1`, like the layout. */
  function CorrectedErrorCorrectionOf(data: seq<bv8>, version: nat, level: EcLevel): seq<bv8>
    requires 1 <= version <= 40
  {
    DataBytesPerBlockShape(version - 1, Ordinal(level));
    EcBytesPerBlockRange(version - 1, Ordinal(level));
    EcCodewords(data, DataBytesPerBlock(version - 1, Ordinal(level)), EcBytesPerBlock(version - 1, Ordinal(level)))
  }

  /** error_correction reading both tables at row `version - 1`; it accepts all 40 versions. */
  method CorrectedErrorCorrection(data: seq<bv8>, version: nat, level: EcLevel) returns (ec: seq<bv8>)
    requires |data| > 0 && 1 <= version <= 40
    ensures ec == CorrectedErrorCorrectionOf(data, version, level)
  {
    var ord := Ordinal(level);
    DataBytesPerBlockShape(version - 1, ord);
    EcBytesPerBlockRange(version - 1, ord);
    var layout := DataBytesPerBlock(version - 1, ord);
    var ecSize := EcBytesPerBlock(version - 1, ord);
    ec := EncodeBlocks(data, layout, ecSize);
  }

  /** With both rows at `version - 1`, data that fills its layout plus the EC codewords fill the
      symbol's codeword capacity exactly, for every version and level. */
  lemma CorrectedErrorCorrectionFillsSymbol(data: seq<bv8>, version: nat, level: EcLevel)
    requires 1 <= version <= 40
    requires |data| == DataCodewords(DataBytesPerBlock(version - 1, Ordinal(level)))
    ensures |data| + |CorrectedErrorCorrectionOf(data, version, level)| == RawDataModules(version) / 8
  {
    var layout := DataBytesPerBlock(version - 1, Ordinal(level));
    var ecSize := EcBytesPerBlock(version - 1, Ordinal(level));
    DataBytesPerBlockShape(version - 1, Ordinal(level));
    EcBytesPerBlockRange(version - 1, Ordinal(level));
    EcCodewordsStructure(data, layout, ecSize);
    CodewordCapacity(version, Ordinal(level));
  }
}
