/**
 * The module matrix of src/qrcode.rs: a flat sequence of `size * size` modules, where module
 * (x, y) lives at index `x + size * y`, read by `get` and written by `put`.
 */
module QrGrid {
  import opened Wrappers

  /** An unsigned byte (`u8`), the type of the version and of the mask pattern. */
  type U8 = n: nat | n < 256

  /**
   * One module of the matrix: its colour (One is dark) and whether a function pattern owns it.
   * `Bit` is declared in src/bit.rs, which is not part of this model; `functional` is the flag
   * that `Bit::is_functional` reads.
   */
  datatype Bit = One(functional: bool) | Zero(functional: bool)

  /** `size_from_version` (src/qrcode.rs:73-75): the side of the symbol, in modules. */
  function SizeFromVersion(version: nat): (size: nat)
    ensures size % 4 == 1 && size >= 17
    ensures (size - 17) / 4 == version
  {
    17 + 4 * version
  }

  /** Sizes of the real versions 1..40 (every version the constructor accepts). */
  predicate ValidSize(size: nat)
  {
    exists version: nat :: 1 <= version <= 40 && size == SizeFromVersion(version)
  }

  lemma ValidSizeBounds(version: nat)
    requires 1 <= version <= 40
    ensures ValidSize(SizeFromVersion(version))
    ensures 21 <= SizeFromVersion(version) <= 177
  {
  }

  // ---------------------------------------------------------------------------------------------
  // Index arithmetic

  /** `(y + 1) * size` is one row past `y * size`. */
  lemma RowStep(y: nat, size: nat)
    ensures size * (y + 1) == size * y + size
  {
  }

  /** Row `y < size` ends inside the `size * size` matrix. */
  lemma RowInside(y: nat, size: nat)
    requires y < size
    ensures size * y + size <= size * size
    decreases size - y
  {
    if y + 1 < size {
      RowInside(y + 1, size);
      RowStep(y, size);
      RowStep(y + 1, size);
    } else {
      RowStep(y, size);
    }
  }

  lemma MulDistributes(b: int, u: int, v: int)
    ensures b * (u - v) == b * u - b * v
  {
  }

  lemma MulNonnegative(b: int, d: int)
    requires b >= 0 && d >= 0
    ensures b * d >= 0
  {
  }

  /** Equal values `b * q + r` with remainders below `b` have equal quotients. */
  lemma QuotientUnique(b: int, q1: int, r1: int, q2: int, r2: int)
    requires b > 0 && 0 <= r1 < b && 0 <= r2 < b
    requires b * q1 + r1 == b * q2 + r2
    ensures q1 == q2
  {
    if q1 < q2 {
      MulDistributes(b, q2, q1 + 1);
      MulDistributes(b, q1 + 1, q1);
      MulNonnegative(b, q2 - (q1 + 1));
    } else if q2 < q1 {
      MulDistributes(b, q1, q2 + 1);
      MulDistributes(b, q2 + 1, q2);
      MulNonnegative(b, q1 - (q2 + 1));
    }
  }

  /** Euclidean division has one quotient and one remainder. */
  lemma DivModUnique(a: int, b: int, q: int, r: int)
    requires b > 0 && 0 <= r < b && a == b * q + r
    ensures a / b == q && a % b == r
  {
    var q', r' := a / b, a % b;
    assert a == b * q' + r';
    QuotientUnique(b, q, r, q', r');
  }

  /** The flat index of (x, y), and its quotient and remainder by the side. */
  lemma IndexParts(x: nat, y: nat, size: nat)
    requires x < size && y < size
    ensures x + size * y < size * size
    ensures (x + size * y) / size == y && (x + size * y) % size == x
  {
    RowInside(y, size);
    DivModUnique(x + size * y, size, y, x);
  }

  /** Every flat index below `size * size` is the index of the module (i % size, i / size). */
  lemma IndexOfParts(i: nat, size: nat)
    requires i < size * size
    ensures size > 0
    ensures i % size < size && i / size < size
    ensures i == i % size + size * (i / size)
  {
    var q, r := i / size, i % size;
    assert i == size * q + r;
    if q >= size {
      MonotoneRows(size, q, size);
    }
  }

  lemma MonotoneRows(size: nat, a: nat, b: nat)
    requires b <= a
    ensures size * b <= size * a
    decreases a - b
  {
    if b < a {
      MonotoneRows(size, a, b + 1);
      RowStep(b, size);
    }
  }

  /** Two in-bounds coordinate pairs share a flat index only if they are the same module. */
  lemma IndexInjective(x1: nat, y1: nat, x2: nat, y2: nat, size: nat)
    requires x1 < size && y1 < size && x2 < size && y2 < size
    requires x1 + size * y1 == x2 + size * y2
    ensures x1 == x2 && y1 == y2
  {
    IndexParts(x1, y1, size);
    IndexParts(x2, y2, size);
  }

  // ---------------------------------------------------------------------------------------------
  // coords_to_index, get, put

  /**
   * `coords_to_index` (src/qrcode.rs:36-42): None exactly off the matrix; otherwise an index
   * below `size * size` from which (x, y) is recovered by remainder and quotient.
   */
  function CoordsToIndex(x: nat, y: nat, size: nat): (r: Option<nat>)
    ensures r.None? <==> !(x < size && y < size)
    ensures r.Some? ==> r.value < size * size && r.value % size == x && r.value / size == y
  {
    if !(x < size && y < size) then
      None
    else
      IndexParts(x, y, size);
      Some(x + size * y)
  }

  /** `get` (src/qrcode.rs:22-28): the module at (x, y), None off the matrix or past the data. */
  function Get(data: seq<Bit>, size: nat, x: nat, y: nat): (r: Option<Bit>)
    ensures |data| == size * size ==> (r.Some? <==> x < size && y < size)
    ensures r.Some? ==> x < size && y < size && x + size * y < |data| && r.value == data[x + size * y]
  {
    match CoordsToIndex(x, y, size)
    case None => None
    case Some(index) => if index < |data| then Some(data[index]) else None
  }

  /**
   * `put` (src/qrcode.rs:30-34): off the matrix it changes nothing; on it, it replaces the one
   * module at `x + size * y` and keeps every other index.
   */
  function Put(data: seq<Bit>, size: nat, x: nat, y: nat, b: Bit): (r: seq<Bit>)
    requires |data| == size * size
    ensures |r| == |data|
    ensures !(x < size && y < size) ==> r == data
    ensures x < size && y < size ==>
      var index := CoordsToIndex(x, y, size).value;
      r[index] == b && forall i | 0 <= i < |data| && i != index :: r[i] == data[i]
  {
    var index := CoordsToIndex(x, y, size);
    if index.None? then
      data
    else
      data[index.value := b]
  }

  // ---------------------------------------------------------------------------------------------
  // Reading the matrix by coordinates

  /** The module at (x, y) of a well-formed matrix (`get(x, y).unwrap()`); Zero(false) elsewhere. */
  function At(data: seq<Bit>, size: nat, x: nat, y: nat): Bit
  {
    if x < size && y < size && x + size * y < |data| then data[x + size * y] else Zero(false)
  }

  /** `get` on the matrix agrees with `At` wherever it returns a module. */
  lemma GetIsAt(data: seq<Bit>, size: nat, x: nat, y: nat)
    requires |data| == size * size && x < size && y < size
    ensures Get(data, size, x, y) == Some(At(data, size, x, y))
  {
    IndexParts(x, y, size);
  }

  /** After a `put`, (x, y) holds the new bit if it is the written module, and its old bit if not. */
  lemma AtPut(data: seq<Bit>, size: nat, px: nat, py: nat, b: Bit, x: nat, y: nat)
    requires |data| == size * size && x < size && y < size
    ensures At(Put(data, size, px, py, b), size, x, y)
         == if x == px && y == py then b else At(data, size, x, y)
  {
    IndexParts(x, y, size);
    if px < size && py < size {
      IndexParts(px, py, size);
      if x + size * y == px + size * py {
        IndexInjective(x, y, px, py, size);
      }
    }
  }

  /** The matrix of side `size` whose module (x, y) is `f(x, y)`. */
  function Tabulate(size: nat, f: (nat, nat) -> Bit): (g: seq<Bit>)
    ensures |g| == size * size
  {
    if size == 0 then [] else seq(size * size, (i: nat) => f(i % size, i / size))
  }

  lemma TabulateAt(size: nat, f: (nat, nat) -> Bit, x: nat, y: nat)
    requires x < size && y < size
    ensures At(Tabulate(size, f), size, x, y) == f(x, y)
  {
    IndexParts(x, y, size);
  }

  /** Two matrices of side `size` that agree on every module are equal. */
  lemma Extensionality(a: seq<Bit>, b: seq<Bit>, size: nat)
    requires |a| == size * size && |b| == size * size
    requires forall x: nat, y: nat | x < size && y < size :: At(a, size, x, y) == At(b, size, x, y)
    ensures a == b
  {
    forall i | 0 <= i < |a|
      ensures a[i] == b[i]
    {
      IndexOfParts(i, size);
      var x, y := i % size, i / size;
      assert At(a, size, x, y) == At(b, size, x, y);
    }
  }

  /** A matrix equals the tabulation of any function that describes each of its modules. */
  lemma TabulateUnique(a: seq<Bit>, size: nat, f: (nat, nat) -> Bit)
    requires |a| == size * size
    requires forall x: nat, y: nat | x < size && y < size :: At(a, size, x, y) == f(x, y)
    ensures a == Tabulate(size, f)
  {
    forall x: nat, y: nat | x < size && y < size
      ensures At(a, size, x, y) == At(Tabulate(size, f), size, x, y)
    {
      TabulateAt(size, f, x, y);
    }
    Extensionality(a, Tabulate(size, f), size);
  }

  /** The rectangle of width `w` and height `h` with top-left corner (cx, cy). */
  predicate InRect(cx: nat, cy: nat, w: nat, h: nat, x: nat, y: nat)
  {
    cx <= x < cx + w && cy <= y < cy + h
  }
}
