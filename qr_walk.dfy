/**
 * The data placement of `fill` (src/qrcode.rs:426-485): a cursor (x, y, up, i) zig-zags through the
 * matrix from the bottom-right corner, and each bit goes to the next non-functional module the
 * cursor reaches. The walk is stated step by step as the source writes it, then compared with a
 * walk that turns at the end of a column pair instead of inside it.
 */
module QrWalk {
  import opened Wrappers
  import opened QrGrid

  /** The walk state of `fill`: position, direction and the left/right parity counter `i`. */
  datatype Cursor = Cursor(x: nat, y: nat, up: bool, i: nat)

  /** Where `fill` starts: the bottom-right module, going up, counter 0. */
  function Start(size: nat): Cursor
    requires size >= 1
  {
    Cursor(size - 1, size - 1, true, 0)
  }

  /** The column pair the cursor walks: x itself on even counts, the module to its right on odd ones. */
  function XRight(c: Cursor): nat
  {
    c.x + c.i % 2
  }

  /** A cursor whose column pair and row lie on a matrix of side `size`. */
  predicate InWalk(size: nat, c: Cursor)
  {
    XRight(c) < size && c.y < size
  }

  /** How many more steps the cursor can take before it reaches the end of its column pair. */
  function Remaining(size: nat, c: Cursor): nat
    requires c.y < size
  {
    (if c.up then 2 * c.y else 2 * (size - 1 - c.y)) + (if c.i % 2 == 0 then 1 else 0)
  }

  /**
   * One turn of the inner `loop` of `fill` (src/qrcode.rs:435-475), before its functional check.
   * At the top (bottom) edge the cursor flips direction, moves one column left, from 7 on to 6, and
   * keeps its counter; elsewhere it goes left on even counts and right-and-up (down) on odd ones.
   * None where `x -= 1` would take x below zero, where the source's `usize` arithmetic panics.
   */
  function Step(size: nat, c: Cursor): (r: Option<Cursor>)
    requires InWalk(size, c)
    ensures r.None? <==> c.x == 0 && (c.i % 2 == 0 || (if c.up then c.y == 0 else c.y >= size - 1))
    ensures r.Some? ==> InWalk(size, r.value)
    ensures r.Some? ==> (XRight(r.value) < XRight(c)
      || (XRight(r.value) == XRight(c) && r.value.up == c.up && Remaining(size, r.value) < Remaining(size, c)))
  {
    if c.up then
      if c.y == 0 then
        if c.x == 0 then None
        else Some(Cursor(if c.x - 1 == 7 then 6 else c.x - 1, 0, false, c.i))
      else if c.i % 2 == 0 then
        if c.x == 0 then None else Some(Cursor(c.x - 1, c.y, true, c.i + 1))
      else Some(Cursor(c.x + 1, c.y - 1, true, c.i + 1))
    else
      if c.y >= size - 1 then
        if c.x == 0 then None
        else Some(Cursor(if c.x - 1 == 7 then 6 else c.x - 1, size - 1, true, c.i))
      else if c.i % 2 == 0 then
        if c.x == 0 then None else Some(Cursor(c.x - 1, c.y, false, c.i + 1))
      else Some(Cursor(c.x + 1, c.y + 1, false, c.i + 1))
  }

  /**
   * The inner `loop` of `fill`: steps until the module under the cursor is not functional. The
   * cursor never leaves the matrix, so `get(x, y).unwrap()` never panics; None is the underflow.
   */
  function Advance(data: seq<Bit>, size: nat, c: Cursor): (r: Option<Cursor>)
    requires InWalk(size, c)
    ensures r.Some? ==> InWalk(size, r.value) && r.value.x < size && !At(data, size, r.value.x, r.value.y).functional
    decreases XRight(c), Remaining(size, c)
  {
    match Step(size, c)
    case None => None
    case Some(next) =>
      if !At(data, size, next.x, next.y).functional then Some(next) else Advance(data, size, next)
  }

  /** `fill` from cursor `c` on: each bit is put at the module the next `Advance` reaches. */
  function FillFrom(data: seq<Bit>, size: nat, c: Cursor, bits: seq<Bit>): (r: Option<seq<Bit>>)
    requires |data| == size * size && InWalk(size, c)
    ensures r.Some? ==> |r.value| == |data|
    decreases |bits|
  {
    if |bits| == 0 then Some(data)
    else match Advance(data, size, c)
      case None => None
      case Some(next) => FillFrom(Put(data, size, next.x, next.y, bits[0]), size, next, bits[1..])
  }

  /** The matrix after `fill(bits)`, or None where the source panics for want of room. */
  function Fill(data: seq<Bit>, size: nat, bits: seq<Bit>): Option<seq<Bit>>
    requires |data| == size * size && size >= 1
  {
    FillFrom(data, size, Start(size), bits)
  }

  /** `fill` never changes a module that was functional before it: it only writes where `get` said non-functional. */
  lemma {:induction false} FillKeepsFunctional(data: seq<Bit>, size: nat, c: Cursor, bits: seq<Bit>, x: nat, y: nat)
    requires |data| == size * size && InWalk(size, c) && x < size && y < size
    requires FillFrom(data, size, c, bits).Some? && At(data, size, x, y).functional
    ensures At(FillFrom(data, size, c, bits).value, size, x, y) == At(data, size, x, y)
    decreases |bits|
  {
    if |bits| > 0 {
      var next := Advance(data, size, c).value;
      var put := Put(data, size, next.x, next.y, bits[0]);
      AtPut(data, size, next.x, next.y, bits[0], x, y);
      FillKeepsFunctional(put, size, next, bits[1..], x, y);
    }
  }

  /** The modules `fill` puts the bits at, in order: the module each `Advance` stops on. */
  function Landings(data: seq<Bit>, size: nat, c: Cursor, bits: seq<Bit>): seq<(nat, nat)>
    requires |data| == size * size && InWalk(size, c)
    decreases |bits|
  {
    if |bits| == 0 then []
    else match Advance(data, size, c)
      case None => []
      case Some(next) => [(next.x, next.y)] + Landings(Put(data, size, next.x, next.y, bits[0]), size, next, bits[1..])
  }

  /** One landing per bit, each on the matrix; a module no bit lands on is left as it was. */
  lemma {:induction false} FillOnlyAtLandings(data: seq<Bit>, size: nat, c: Cursor, bits: seq<Bit>, x: nat, y: nat)
    requires |data| == size * size && InWalk(size, c) && x < size && y < size
    requires FillFrom(data, size, c, bits).Some?
    ensures |Landings(data, size, c, bits)| == |bits|
    ensures forall k | 0 <= k < |bits| :: Landings(data, size, c, bits)[k].0 < size && Landings(data, size, c, bits)[k].1 < size
    ensures (x, y) !in Landings(data, size, c, bits) ==>
      At(FillFrom(data, size, c, bits).value, size, x, y) == At(data, size, x, y)
    decreases |bits|
  {
    if |bits| > 0 {
      var next := Advance(data, size, c).value;
      var put := Put(data, size, next.x, next.y, bits[0]);
      AtPut(data, size, next.x, next.y, bits[0], x, y);
      FillOnlyAtLandings(put, size, next, bits[1..], x, y);
      assert Landings(data, size, c, bits) == [(next.x, next.y)] + Landings(put, size, next, bits[1..]);
    }
  }

  /**
   * Every bit is written: bit k lands on a module of the matrix, and that module holds bit k at
   * the end unless a later bit lands there too.
   */
  lemma {:induction false} FillPutsEachBit(data: seq<Bit>, size: nat, c: Cursor, bits: seq<Bit>, k: nat)
    requires |data| == size * size && InWalk(size, c) && k < |bits|
    requires FillFrom(data, size, c, bits).Some?
    ensures |Landings(data, size, c, bits)| == |bits|
    ensures var p := Landings(data, size, c, bits)[k];
      p.0 < size && p.1 < size
      && (p !in Landings(data, size, c, bits)[k + 1..] ==> At(FillFrom(data, size, c, bits).value, size, p.0, p.1) == bits[k])
    decreases k
  {
    var next := Advance(data, size, c).value;
    var put := Put(data, size, next.x, next.y, bits[0]);
    FillOnlyAtLandings(data, size, c, bits, next.x, next.y);
    FillOnlyAtLandings(put, size, next, bits[1..], next.x, next.y);
    var rest := Landings(put, size, next, bits[1..]);
    assert Landings(data, size, c, bits) == [(next.x, next.y)] + rest;
    if k == 0 {
      assert Landings(data, size, c, bits)[1..] == rest;
      AtPut(data, size, next.x, next.y, bits[0], next.x, next.y);
    } else {
      FillPutsEachBit(put, size, next, bits[1..], k - 1);
      assert Landings(data, size, c, bits)[k + 1..] == rest[k..];
      assert bits[1..][k - 1] == bits[k];
    }
  }

  // ---------------------------------------------------------------------------------------------
  // The walk as written, step by step

  /** The cursor after n turns of the inner loop from `c`, None once x would underflow. */
  function WalkFrom(size: nat, c: Cursor, n: nat): (r: Option<Cursor>)
    requires InWalk(size, c)
    ensures r.Some? ==> InWalk(size, r.value)
    decreases n
  {
    if n == 0 then Some(c)
    else match Step(size, c)
      case None => None
      case Some(next) => WalkFrom(size, next, n - 1)
  }

  /** The cursor after n turns of the inner loop from the start. */
  function Walk(size: nat, n: nat): Option<Cursor>
    requires size >= 1
  {
    WalkFrom(size, Start(size), n)
  }

  /** Walking a + b steps is walking a steps, then b more. */
  lemma {:induction false} WalkFromSplit(size: nat, c: Cursor, a: nat, b: nat)
    requires InWalk(size, c)
    ensures WalkFrom(size, c, a + b) == match WalkFrom(size, c, a)
      case None => None
      case Some(mid) => WalkFrom(size, mid, b)
    decreases a
  {
    if a > 0 {
      match Step(size, c)
      case None =>
      case Some(next) =>
        WalkFromSplit(size, next, a - 1, b);
        assert a + b - 1 == (a - 1) + b;
    }
  }

  /** `fill` moves before it looks: its first candidate is (size - 2, size - 1), not the corner. */
  lemma FirstCandidate(data: seq<Bit>, size: nat)
    requires size >= 21 && |data| == size * size
    ensures Walk(size, 1) == Some(Cursor(size - 2, size - 1, true, 1))
    ensures !At(data, size, size - 2, size - 1).functional ==>
      Advance(data, size, Start(size)) == Some(Cursor(size - 2, size - 1, true, 1))
  {
  }

  /** Away from the bottom edge a downward step alternates left, then right-and-down. */
  lemma DownStep(size: nat, c: Cursor)
    requires InWalk(size, c) && !c.up && c.y < size - 1 && (c.i % 2 == 0 ==> c.x >= 1)
    ensures Step(size, c) == Some(if c.i % 2 == 0 then Cursor(c.x - 1, c.y, false, c.i + 1)
                                  else Cursor(c.x + 1, c.y + 1, false, c.i + 1))
  {
  }

  /** Away from the top edge an upward step alternates left, then right-and-up. */
  lemma UpStep(size: nat, c: Cursor)
    requires InWalk(size, c) && c.up && c.y > 0 && (c.i % 2 == 0 ==> c.x >= 1)
    ensures Step(size, c) == Some(if c.i % 2 == 0 then Cursor(c.x - 1, c.y, true, c.i + 1)
                                  else Cursor(c.x + 1, c.y - 1, true, c.i + 1))
  {
  }

  /** Going up a column pair with right column x >= 1: after 2 * j steps the cursor is j rows higher, on the right. */
  lemma {:induction false} UpPass(size: nat, c: Cursor, j: nat)
    requires InWalk(size, c) && c.up && c.i % 2 == 0 && c.x >= 1 && j <= c.y
    ensures WalkFrom(size, c, 2 * j) == Some(Cursor(c.x, c.y - j, true, c.i + 2 * j))
    decreases j
  {
    if j > 0 {
      UpStep(size, c);
      var left := Cursor(c.x - 1, c.y, true, c.i + 1);
      UpStep(size, left);
      var next := Cursor(c.x, c.y - 1, true, c.i + 2);
      assert WalkFrom(size, c, 2) == Some(next);
      UpPass(size, next, j - 1);
      WalkFromSplit(size, c, 2, 2 * (j - 1));
    }
  }

  /** Going down a column pair with right column x >= 1: after 2 * j steps the cursor is j rows lower, on the right. */
  lemma {:induction false} DownPass(size: nat, c: Cursor, j: nat)
    requires InWalk(size, c) && !c.up && c.i % 2 == 0 && c.x >= 1 && c.y + j <= size - 1
    ensures WalkFrom(size, c, 2 * j) == Some(Cursor(c.x, c.y + j, false, c.i + 2 * j))
    decreases j
  {
    if j > 0 {
      DownStep(size, c);
      var left := Cursor(c.x - 1, c.y, false, c.i + 1);
      DownStep(size, left);
      var next := Cursor(c.x, c.y + 1, false, c.i + 2);
      assert WalkFrom(size, c, 2) == Some(next);
      DownPass(size, next, j - 1);
      WalkFromSplit(size, c, 2, 2 * (j - 1));
    }
  }

  /** Each module `fill` picks is a later cursor of the walk: `fill` places its bits along `Walk`. */
  lemma {:induction false} AdvanceFollowsWalk(data: seq<Bit>, size: nat, n: nat, c: Cursor)
    requires size >= 1 && Walk(size, n) == Some(c) && Advance(data, size, c).Some?
    ensures exists m :: m > n && Walk(size, m) == Advance(data, size, c)
    decreases XRight(c), Remaining(size, c)
  {
    var next := Step(size, c).value;
    WalkFromSplit(size, Start(size), n, 1);
    assert WalkFrom(size, c, 1) == Some(next);
    if At(data, size, next.x, next.y).functional {
      AdvanceFollowsWalk(data, size, n + 1, next);
    } else {
      assert Walk(size, n + 1) == Advance(data, size, c);
    }
  }

  /**
   * The turnaround moves one column instead of two, so the second pass walks column size - 2 again:
   * step 4 * size - 3 is back on (size - 2, size - 1), the module of step 1.
   */
  lemma WalkRevisits(size: nat)
    requires size >= 21
    ensures Walk(size, 1).Some? && Walk(size, 4 * size - 3).Some?
    ensures Walk(size, 1).value.x == Walk(size, 4 * size - 3).value.x == size - 2
    ensures Walk(size, 1).value.y == Walk(size, 4 * size - 3).value.y == size - 1
  {
    var start := Start(size);
    UpPass(size, start, size - 1);
    var top := Cursor(size - 1, 0, true, 2 * size - 2);
    var turned := Cursor(size - 2, 0, false, 2 * size - 2);
    assert WalkFrom(size, top, 1) == Some(turned);
    DownPass(size, turned, size - 1);
    WalkFromSplit(size, start, 2 * size - 2, 1);
    WalkFromSplit(size, start, 2 * size - 1, 2 * size - 2);
    assert 2 * size - 1 + 2 * (size - 1) == 4 * size - 3;
  }

  // ---------------------------------------------------------------------------------------------
  // The walk as evidently intended: turn only after the left module of the edge row, two columns on

  /**
   * One step of the zig-zag of section 6.7.3 of ISO/IEC 18004:2006: left on even counts; on odd counts
   * right-and-up (down), or, on the edge row, on to the next column pair in the other direction,
   * jumping over the timing column 6.
   */
  function CorrectedStep(size: nat, c: Cursor): (r: Option<Cursor>)
    requires InWalk(size, c)
    ensures r.Some? ==> InWalk(size, r.value)
  {
    if c.i % 2 == 0 then
      if c.x == 0 then None else Some(Cursor(c.x - 1, c.y, c.up, c.i + 1))
    else if c.up then
      if c.y == 0 then
        if c.x == 0 then None else Some(Cursor(if c.x - 1 == 6 then 5 else c.x - 1, 0, false, c.i + 1))
      else Some(Cursor(c.x + 1, c.y - 1, true, c.i + 1))
    else
      if c.y >= size - 1 then
        if c.x == 0 then None else Some(Cursor(if c.x - 1 == 6 then 5 else c.x - 1, size - 1, true, c.i + 1))
      else Some(Cursor(c.x + 1, c.y + 1, false, c.i + 1))
  }

  /** The cursor after n corrected steps from `c`. */
  function CorrectedWalkFrom(size: nat, c: Cursor, n: nat): (r: Option<Cursor>)
    requires InWalk(size, c)
    ensures r.Some? ==> InWalk(size, r.value)
    decreases n
  {
    if n == 0 then Some(c)
    else match CorrectedStep(size, c)
      case None => None
      case Some(next) => CorrectedWalkFrom(size, next, n - 1)
  }

  /** The right column of the pair holding column x: pairs (size - 1, size - 2), ..., (8, 7), then (5, 4), (3, 2), (1, 0). */
  function PairRight(x: nat): nat
  {
    if x >= 7 then (if x % 2 == 0 then x else x + 1) else (if x % 2 == 1 then x else x + 1)
  }

  /** The pair with right column r is the walk's pass number `PairIndex(size, r)`, counted from 0. */
  function PairIndex(size: nat, r: nat): nat
    requires size >= 9 && r < size
  {
    if r >= 8 then (size - 1 - r) / 2 else (size - 2 - r) / 2
  }

  /** A cursor of the corrected walk: off the timing column, going up exactly on even passes, on the right exactly on even counts. */
  predicate OnPairs(size: nat, c: Cursor)
  {
    size >= 9 && c.x < size && c.y < size && c.x != 6 && PairRight(c.x) < size
    && (c.up <==> PairIndex(size, PairRight(c.x)) % 2 == 0)
    && (c.i % 2 == 0 <==> c.x == PairRight(c.x))
  }

  /** The step at which the corrected walk reaches (x, y): 2 * size per earlier pass, 2 per earlier row of this pass. */
  function Rank(size: nat, x: nat, y: nat): nat
    requires size >= 9 && x < size && y < size && PairRight(x) < size
  {
    var p := PairIndex(size, PairRight(x));
    2 * size * p + 2 * (if p % 2 == 0 then size - 1 - y else y) + (if x == PairRight(x) then 0 else 1)
  }

  lemma PassStart(size: nat, p: nat)
    ensures 2 * size * (p + 1) == 2 * size * p + 2 * size
  {
  }

  /** A step to the left column of the pair: same row, next rank. */
  lemma LeftStepRank(size: nat, c: Cursor)
    requires size >= 21 && size % 2 == 1 && OnPairs(size, c) && CorrectedStep(size, c).Some? && c.i % 2 == 0
    ensures OnPairs(size, CorrectedStep(size, c).value)
    ensures var next := CorrectedStep(size, c).value;
      Rank(size, next.x, next.y) == Rank(size, c.x, c.y) + 1
  {
    var next := CorrectedStep(size, c).value;
    assert next == Cursor(c.x - 1, c.y, c.up, c.i + 1);
    assert PairRight(next.x) == c.x;
  }

  /** A step back to the right column, one row on: the next rank within the same pass. */
  lemma VerticalStepRank(size: nat, c: Cursor)
    requires size >= 21 && size % 2 == 1 && OnPairs(size, c) && CorrectedStep(size, c).Some? && c.i % 2 == 1
    requires if c.up then c.y > 0 else c.y < size - 1
    ensures OnPairs(size, CorrectedStep(size, c).value)
    ensures var next := CorrectedStep(size, c).value;
      Rank(size, next.x, next.y) == Rank(size, c.x, c.y) + 1
  {
    var next := CorrectedStep(size, c).value;
    assert next == Cursor(c.x + 1, if c.up then c.y - 1 else c.y + 1, c.up, c.i + 1);
    RightNeighbour(c.x);
    ParityStep(c.i);
    RankInPass(size, c.x, c.y, c.up);
    RankInPass(size, next.x, next.y, c.up);
  }

  /** The left column of a pair sits just left of its right column. */
  lemma RightNeighbour(x: nat)
    requires x != 6 && x != PairRight(x)
    ensures PairRight(x) == x + 1 && PairRight(x + 1) == x + 1
  {
  }

  /** Within one pass, the rank is the pass's base plus twice the distance travelled along it. */
  lemma RankInPass(size: nat, x: nat, y: nat, up: bool)
    requires size >= 9 && x < size && y < size && PairRight(x) < size
    requires up <==> PairIndex(size, PairRight(x)) % 2 == 0
    ensures Rank(size, x, y) == 2 * size * PairIndex(size, PairRight(x))
      + 2 * (if up then size - 1 - y else y) + (if x == PairRight(x) then 0 else 1)
  {
  }

  /** Leaving the left column x of a pair (stepping over the timing column 6) reaches the right column of the next pair. */
  lemma NextPass(size: nat, x: nat)
    requires size >= 21 && size % 2 == 1 && 1 <= x < size && x != 6 && x != PairRight(x) && PairRight(x) < size
    ensures var x' := if x - 1 == 6 then 5 else x - 1;
      PairRight(x') == x' && PairIndex(size, x') == PairIndex(size, PairRight(x)) + 1
  {
  }

  /** Consecutive passes alternate direction. */
  lemma ParityStep(p: nat)
    ensures (p + 1) % 2 == 0 <==> p % 2 != 0
  {
  }

  /** A turnaround at the top or bottom edge: the first rank of the next pass. */
  lemma TurnRank(size: nat, c: Cursor)
    requires size >= 21 && size % 2 == 1 && OnPairs(size, c) && CorrectedStep(size, c).Some? && c.i % 2 == 1
    requires if c.up then c.y == 0 else c.y >= size - 1
    ensures OnPairs(size, CorrectedStep(size, c).value)
    ensures var next := CorrectedStep(size, c).value;
      Rank(size, next.x, next.y) == Rank(size, c.x, c.y) + 1
  {
    var p := PairIndex(size, PairRight(c.x));
    var next := CorrectedStep(size, c).value;
    var x' := if c.x - 1 == 6 then 5 else c.x - 1;
    assert next == Cursor(x', if c.up then 0 else size - 1, !c.up, c.i + 1);
    NextPass(size, c.x);
    ParityStep(p);
    ParityStep(c.i);
    assert PairIndex(size, PairRight(x')) == p + 1;
    assert OnPairs(size, next);
    RankInPass(size, c.x, c.y, c.up);
    RankInPass(size, next.x, next.y, next.up);
    PassStart(size, p);
  }

  /** Each corrected step keeps the cursor on the pairs and moves it to the next rank. */
  lemma CorrectedStepRank(size: nat, c: Cursor)
    requires size >= 21 && size % 2 == 1 && OnPairs(size, c) && CorrectedStep(size, c).Some?
    ensures OnPairs(size, CorrectedStep(size, c).value)
    ensures var next := CorrectedStep(size, c).value;
      Rank(size, next.x, next.y) == Rank(size, c.x, c.y) + 1
  {
    if c.i % 2 == 0 {
      LeftStepRank(size, c);
    } else if if c.up then c.y == 0 else c.y >= size - 1 {
      TurnRank(size, c);
    } else {
      VerticalStepRank(size, c);
    }
  }

  /** After n corrected steps from a cursor on the pairs, the rank has grown by exactly n. */
  lemma {:induction false} CorrectedWalkRank(size: nat, c: Cursor, n: nat)
    requires size >= 21 && size % 2 == 1 && OnPairs(size, c)
    requires CorrectedWalkFrom(size, c, n).Some?
    ensures OnPairs(size, CorrectedWalkFrom(size, c, n).value)
    ensures var d := CorrectedWalkFrom(size, c, n).value;
      Rank(size, d.x, d.y) == Rank(size, c.x, c.y) + n
    decreases n
  {
    if n > 0 {
      CorrectedStepRank(size, c);
      CorrectedWalkRank(size, CorrectedStep(size, c).value, n - 1);
    }
  }

  /** The walk starts on pass 0 at rank 0. */
  lemma StartRank(size: nat)
    requires size >= 21 && size % 2 == 1
    ensures OnPairs(size, Start(size)) && Rank(size, size - 1, size - 1) == 0
  {
    assert PairRight(size - 1) == size - 1;
    assert PairIndex(size, size - 1) == 0;
  }

  /**
   * The corrected walk visits no module twice: two steps from the start that reach the same module
   * are the same step. Against `WalkRevisits`, this is what `fill` evidently means to do.
   */
  lemma CorrectedWalkVisitsOnce(size: nat, n: nat, m: nat)
    requires size >= 21 && size % 2 == 1
    requires CorrectedWalkFrom(size, Start(size), n).Some? && CorrectedWalkFrom(size, Start(size), m).Some?
    requires CorrectedWalkFrom(size, Start(size), n).value.x == CorrectedWalkFrom(size, Start(size), m).value.x
    requires CorrectedWalkFrom(size, Start(size), n).value.y == CorrectedWalkFrom(size, Start(size), m).value.y
    ensures n == m
  {
    StartRank(size);
    CorrectedWalkRank(size, Start(size), n);
    CorrectedWalkRank(size, Start(size), m);
  }
}
