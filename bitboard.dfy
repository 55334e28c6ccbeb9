/**
 * Bitboards: a set of board squares as one 64-bit word.
 *
 * Square k (0 <= k < 64) is bit k; it lies on row k / 8 and column k % 8.
 * The eight-way transforms below are the flip, mirror and rotate bit tricks
 * of the engine; each one moves every square to a closed-form target square.
 *
 * Proof technique: a per-square fact about a transform is stated twice, once
 * on a bit-vector square index `Sq6(r, c)` (row and column as `bv3`, which the
 * solver settles by bit-blasting) and once on the integer index `8 * r + c`
 * that the rest of the model uses; `Index6` and `HasRowColumn` bridge the two.
 */
module Bitboards {

  type Bitboard = bv64

  /** The two sides; the engine indexes its per-colour arrays with them. */
  datatype Color = Black | White
  {
    function Other(): (o: Color)
      ensures o != this
    {
      if this == Black then White else Black
    }
  }

  predicate IsSquare(k: int) { 0 <= k < 64 }

  /** x as a 3-bit row or column number (an if-chain, so no conversion is involved). */
  function Bv3(x: int): bv3
    requires 0 <= x < 8
  {
    if x == 0 then 0 else if x == 1 then 1 else if x == 2 then 2 else if x == 3 then 3
    else if x == 4 then 4 else if x == 5 then 5 else if x == 6 then 6 else 7
  }

  /** The bit position of row r, column c. */
  function Sq6(r: bv3, c: bv3): bv6 { ((r as bv6) << 3) | (c as bv6) }

  /** Square k as a bit position. */
  function Index6(k: int): bv6
    requires IsSquare(k)
  {
    Sq6(Bv3(k / 8), Bv3(k % 8))
  }

  /** The word with only square k set (the engine's `1ULL << k`). */
  function SquareBit(k: int): Bitboard
    requires IsSquare(k)
  {
    (1 as Bitboard) << Index6(k)
  }

  predicate Has6(b: Bitboard, x: bv6) { b & ((1 as Bitboard) << x) != 0 }

  /** Square k is a member of the set b. */
  predicate Has(b: Bitboard, k: int)
    requires IsSquare(k)
  {
    Has6(b, Index6(k))
  }

  /** Membership is the engine's mask test `b & (1ULL << k)`. */
  lemma HasMask(b: Bitboard, k: int)
    requires IsSquare(k)
    ensures Has(b, k) == (b & SquareBit(k) != 0)
  {
    HasMaskInto(b, k);
    HasMaskFrom(b, k);
  }

  lemma HasMaskInto(b: Bitboard, k: int)
    requires IsSquare(k)
    ensures Has(b, k) ==> b & SquareBit(k) != 0
  {}

  lemma HasMaskFrom(b: Bitboard, k: int)
    requires IsSquare(k)
    ensures b & SquareBit(k) != 0 ==> Has(b, k)
  {}

  /** The squares of b as a mathematical set. */
  ghost function Squares(b: Bitboard): set<int>
  {
    set k | 0 <= k < 64 && Has(b, k)
  }

  lemma Sq6Value(r: bv3, c: bv3)
    ensures Sq6(r, c) as int == 8 * (r as int) + c as int
  {}

  lemma Bv3Value(x: int)
    requires 0 <= x < 8
    ensures Bv3(x) as int == x
  {}

  /** Distinct squares have distinct bit positions. */
  lemma Index6Value(k: int)
    requires IsSquare(k)
    ensures Index6(k) as int == k
  {
    Sq6Value(Bv3(k / 8), Bv3(k % 8));
    Bv3Value(k / 8);
    Bv3Value(k % 8);
  }

  /** The same bridge, for a square given by its row and column. */
  lemma HasRowColumn(b: Bitboard, r: int, c: int)
    requires 0 <= r < 8 && 0 <= c < 8
    ensures IsSquare(8 * r + c) && Has(b, 8 * r + c) == Has6(b, Sq6(Bv3(r), Bv3(c)))
  {
    assert (8 * r + c) / 8 == r && (8 * r + c) % 8 == c;
  }

  // Modular row arithmetic on 3-bit numbers.

  lemma Complement3(r: int)
    requires 0 <= r < 8
    ensures Bv3(7 - r) == 7 - Bv3(r)
  {}

  lemma Difference3(r: int, c: int)
    requires 0 <= r < 8 && 0 <= c < 8
    ensures Bv3((r - c) % 8) == Bv3(r) - Bv3(c)
  {
    if r >= c { assert (r - c) % 8 == r - c; } else { assert (r - c) % 8 == r - c + 8; }
  }

  lemma Sum3(r: int, c: int)
    requires 0 <= r < 8 && 0 <= c < 8
    ensures Bv3((r + c) % 8) == Bv3(r) + Bv3(c)
  {
    if r + c < 8 { assert (r + c) % 8 == r + c; } else { assert (r + c) % 8 == r + c - 8; }
  }

  lemma DifferenceMinusOne3(r: int, c: int)
    requires 0 <= r < 8 && 0 <= c < 8
    ensures Bv3((r - c - 1) % 8) == Bv3(r) - Bv3(c) - 1
  {
    if r - c - 1 >= 0 {
      assert (r - c - 1) % 8 == r - c - 1;
    } else {
      assert (r - c - 1) % 8 == r - c - 1 + 8;
    }
  }

  lemma SumPlusOne3(r: int, c: int)
    requires 0 <= r < 8 && 0 <= c < 8
    ensures Bv3((r + c + 1) % 8) == Bv3(r) + Bv3(c) + 1
  {
    if r + c + 1 < 8 {
      assert (r + c + 1) % 8 == r + c + 1;
    } else {
      assert (r + c + 1) % 8 == r + c + 1 - 8;
    }
  }

  // ---------------------------------------------------------------------
  // Set operations, square by square

  // Each equivalence is proved one direction at a time: the solver settles
  // an implication between bit tests far more cheaply than the equality.

  lemma And6Into(a: Bitboard, b: Bitboard, x: bv6) ensures Has6(a & b, x) ==> Has6(a, x) && Has6(b, x) {}
  lemma And6From(a: Bitboard, b: Bitboard, x: bv6) ensures Has6(a, x) && Has6(b, x) ==> Has6(a & b, x) {}
  lemma And6(a: Bitboard, b: Bitboard, x: bv6) ensures Has6(a & b, x) == (Has6(a, x) && Has6(b, x))
  {
    And6Into(a, b, x);
    And6From(a, b, x);
  }

  lemma Or6Into(a: Bitboard, b: Bitboard, x: bv6) ensures Has6(a | b, x) ==> Has6(a, x) || Has6(b, x) {}
  lemma Or6From(a: Bitboard, b: Bitboard, x: bv6) ensures Has6(a, x) || Has6(b, x) ==> Has6(a | b, x) {}
  lemma Or6(a: Bitboard, b: Bitboard, x: bv6) ensures Has6(a | b, x) == (Has6(a, x) || Has6(b, x))
  {
    Or6Into(a, b, x);
    Or6From(a, b, x);
  }

  lemma Xor6Into(a: Bitboard, b: Bitboard, x: bv6) ensures Has6(a ^ b, x) ==> Has6(a, x) != Has6(b, x) {}
  lemma Xor6From(a: Bitboard, b: Bitboard, x: bv6) ensures Has6(a, x) != Has6(b, x) ==> Has6(a ^ b, x) {}
  lemma Xor6(a: Bitboard, b: Bitboard, x: bv6) ensures Has6(a ^ b, x) == (Has6(a, x) != Has6(b, x))
  {
    Xor6Into(a, b, x);
    Xor6From(a, b, x);
  }

  lemma Not6(a: Bitboard, x: bv6) ensures Has6(!a, x) == !Has6(a, x) {}
  lemma Single6(x: bv6, y: bv6) ensures Has6((1 as Bitboard) << x, y) == (x == y) {}

  lemma HasAnd(a: Bitboard, b: Bitboard, k: int)
    requires IsSquare(k)
    ensures Has(a & b, k) == (Has(a, k) && Has(b, k))
  {
    And6(a, b, Index6(k));
  }

  lemma HasOr(a: Bitboard, b: Bitboard, k: int)
    requires IsSquare(k)
    ensures Has(a | b, k) == (Has(a, k) || Has(b, k))
  {
    Or6(a, b, Index6(k));
  }

  lemma HasXor(a: Bitboard, b: Bitboard, k: int)
    requires IsSquare(k)
    ensures Has(a ^ b, k) == (Has(a, k) != Has(b, k))
  {
    Xor6Into(a, b, Index6(k));
    Xor6From(a, b, Index6(k));
  }

  lemma HasNot(a: Bitboard, k: int)
    requires IsSquare(k)
    ensures Has(!a, k) == !Has(a, k)
  {
    Not6(a, Index6(k));
  }

  /** SquareBit(k) is the singleton {k}. */
  lemma HasSquareBit(k: int, j: int)
    requires IsSquare(k) && IsSquare(j)
    ensures Has(SquareBit(k), j) == (j == k)
  {
    Single6(Index6(k), Index6(j));
    Index6Value(k);
    Index6Value(j);
  }

  lemma Or4Into(a: Bitboard, b: Bitboard, e: Bitboard, f: Bitboard, x: bv6)
    ensures Has6(a | b | e | f, x) ==> Has6(a, x) || Has6(b, x) || Has6(e, x) || Has6(f, x)
  {}

  lemma Or4From(a: Bitboard, b: Bitboard, e: Bitboard, f: Bitboard, x: bv6)
    ensures Has6(a, x) || Has6(b, x) || Has6(e, x) || Has6(f, x) ==> Has6(a | b | e | f, x)
  {}

  /** A square of the union of four sets is a square of one of them. */
  lemma HasOr4(a: Bitboard, b: Bitboard, e: Bitboard, f: Bitboard, p: int)
    requires IsSquare(p)
    ensures Has(a | b | e | f, p) == (Has(a, p) || Has(b, p) || Has(e, p) || Has(f, p))
  {
    Or4Into(a, b, e, f, Index6(p));
    Or4From(a, b, e, f, Index6(p));
  }

  lemma HasZero(k: int)
    requires IsSquare(k)
    ensures !Has(0, k)
  {}

  // ---------------------------------------------------------------------
  // Mirrors (bit tricks as in the engine, step by step)

  function FlipHorizontal(b: Bitboard): Bitboard
  {
    var b1 := ((b & 0xf0f0f0f0f0f0f0f0) >> 4) | ((b & 0x0f0f0f0f0f0f0f0f) << 4);
    var b2 := ((b1 & 0xcccccccccccccccc) >> 2) | ((b1 & 0x3333333333333333) << 2);
    ((b2 & 0xaaaaaaaaaaaaaaaa) >> 1) | ((b2 & 0x5555555555555555) << 1)
  }

  function FlipVertical(b: Bitboard): Bitboard
  {
    var b1 := ((b >> 8) & 0x00ff00ff00ff00ff) | ((b & 0x00ff00ff00ff00ff) << 8);
    var b2 := ((b1 >> 16) & 0x0000ffff0000ffff) | ((b1 & 0x0000ffff0000ffff) << 16);
    (b2 >> 32) | (b2 << 32)
  }

  function FlipDiag(b: Bitboard): Bitboard
  {
    var t1 := 0x0f0f0f0f00000000 & (b ^ (b << 28));
    var b1 := b ^ (t1 ^ (t1 >> 28));
    var t2 := 0x3333000033330000 & (b1 ^ (b1 << 14));
    var b2 := b1 ^ (t2 ^ (t2 >> 14));
    var t3 := 0x5500550055005500 & (b2 ^ (b2 << 7));
    b2 ^ (t3 ^ (t3 >> 7))
  }

  function FlipAntiDiag(b: Bitboard): Bitboard
  {
    var t1 := b ^ (b << 36);
    var b1 := b ^ (0xf0f0f0f00f0f0f0f & (t1 ^ (b >> 36)));
    var t2 := 0xcccc0000cccc0000 & (b1 ^ (b1 << 18));
    var b2 := b1 ^ (t2 ^ (t2 >> 18));
    var t3 := 0xaa00aa00aa00aa00 & (b2 ^ (b2 << 9));
    b2 ^ (t3 ^ (t3 >> 9))
  }

  function Rotate90Cw(b: Bitboard): Bitboard { FlipDiag(FlipHorizontal(b)) }

  function Rotate90Ccw(b: Bitboard): Bitboard { FlipAntiDiag(FlipHorizontal(b)) }

  /** Rotation right; the engine only calls it with c in {8, 16, 32}. */
  function Rotr(n: Bitboard, c: bv8): Bitboard
    requires 0 < c < 64
  {
    (n >> c) | (n << (64 - c))
  }

  function PseudoRotate45Cw(b: Bitboard): Bitboard
  {
    var b1 := b ^ (0xAAAAAAAAAAAAAAAA & (b ^ Rotr(b, 8)));
    var b2 := b1 ^ (0xCCCCCCCCCCCCCCCC & (b1 ^ Rotr(b1, 16)));
    b2 ^ (0xF0F0F0F0F0F0F0F0 & (b2 ^ Rotr(b2, 32)))
  }

  function PseudoRotate45Ccw(b: Bitboard): Bitboard
  {
    var b1 := b ^ (0x5555555555555555 & (b ^ Rotr(b, 8)));
    var b2 := b1 ^ (0x3333333333333333 & (b1 ^ Rotr(b1, 16)));
    b2 ^ (0x0f0f0f0f0f0f0f0f & (b2 ^ Rotr(b2, 32)))
  }

  function PseudoRotate45CwInverse(b: Bitboard): Bitboard { Rotr(PseudoRotate45Ccw(b), 8) }

  function PseudoRotate45CcwInverse(b: Bitboard): Bitboard { Rotr(PseudoRotate45Cw(b), 8) }

  // ---------------------------------------------------------------------
  // Where each transform sends square 8r + c

  function FlipHorizontalSquare(k: int): int { 8 * (k / 8) + (7 - k % 8) }
  function FlipVerticalSquare(k: int): int { 8 * (7 - k / 8) + k % 8 }
  function FlipDiagSquare(k: int): int { 8 * (k % 8) + k / 8 }
  function FlipAntiDiagSquare(k: int): int { 8 * (7 - k % 8) + (7 - k / 8) }
  function Rotate90CwSquare(k: int): int { 8 * (7 - k % 8) + k / 8 }
  function Rotate90CcwSquare(k: int): int { 8 * (k % 8) + (7 - k / 8) }
  function PseudoRotate45CwSquare(k: int): int { 8 * ((k / 8 - k % 8) % 8) + k % 8 }
  function PseudoRotate45CcwSquare(k: int): int { 8 * ((k / 8 + k % 8 + 1) % 8) + k % 8 }
  function PseudoRotate45CwInverseSquare(k: int): int { 8 * ((k / 8 + k % 8) % 8) + k % 8 }
  function PseudoRotate45CcwInverseSquare(k: int): int { 8 * ((k / 8 - k % 8 - 1) % 8) + k % 8 }

  lemma RowColumnOf(r: int, c: int)
    requires 0 <= r < 8 && 0 <= c < 8
    ensures IsSquare(8 * r + c) && (8 * r + c) / 8 == r && (8 * r + c) % 8 == c
  {}

  // Each transform's law on bit-vector rows and columns, for all squares at once
  // (settled by bit-blasting), and its transport to integer squares (which
  // never looks inside the transform).

  lemma FlipHorizontalLaw6(b: Bitboard)
    ensures forall r: bv3, c: bv3 :: Has6(FlipHorizontal(b), Sq6(r, 7 - c)) == Has6(b, Sq6(r, c))
  {}

  lemma FlipHorizontalTransport(tb: Bitboard, b: Bitboard, k: int)
    requires IsSquare(k)
    requires forall r: bv3, c: bv3 :: Has6(tb, Sq6(r, 7 - c)) == Has6(b, Sq6(r, c))
    ensures IsSquare(FlipHorizontalSquare(k)) && Has(tb, FlipHorizontalSquare(k)) == Has(b, k)
  {
    var r, c := k / 8, k % 8;
    assert FlipHorizontalSquare(k) / 8 == r && FlipHorizontalSquare(k) % 8 == 7 - c;
    Complement3(c);
    assert Has6(tb, Sq6(Bv3(r), 7 - Bv3(c))) == Has6(b, Sq6(Bv3(r), Bv3(c)));
  }

  /** FlipHorizontal moves square k to FlipHorizontalSquare(k). */
  lemma FlipHorizontalAt(b: Bitboard, k: int)
    requires IsSquare(k)
    ensures IsSquare(FlipHorizontalSquare(k))
    ensures Has(FlipHorizontal(b), FlipHorizontalSquare(k)) == Has(b, k)
  {
    FlipHorizontalLaw6(b);
    FlipHorizontalTransport(FlipHorizontal(b), b, k);
  }

  lemma FlipVerticalLaw6(b: Bitboard)
    ensures forall r: bv3, c: bv3 :: Has6(FlipVertical(b), Sq6(7 - r, c)) == Has6(b, Sq6(r, c))
  {}

  lemma FlipVerticalTransport(tb: Bitboard, b: Bitboard, k: int)
    requires IsSquare(k)
    requires forall r: bv3, c: bv3 :: Has6(tb, Sq6(7 - r, c)) == Has6(b, Sq6(r, c))
    ensures IsSquare(FlipVerticalSquare(k)) && Has(tb, FlipVerticalSquare(k)) == Has(b, k)
  {
    var r, c := k / 8, k % 8;
    assert FlipVerticalSquare(k) / 8 == 7 - r && FlipVerticalSquare(k) % 8 == c;
    Complement3(r);
    assert Has6(tb, Sq6(7 - Bv3(r), Bv3(c))) == Has6(b, Sq6(Bv3(r), Bv3(c)));
  }

  /** FlipVertical moves square k to FlipVerticalSquare(k). */
  lemma FlipVerticalAt(b: Bitboard, k: int)
    requires IsSquare(k)
    ensures IsSquare(FlipVerticalSquare(k))
    ensures Has(FlipVertical(b), FlipVerticalSquare(k)) == Has(b, k)
  {
    FlipVerticalLaw6(b);
    FlipVerticalTransport(FlipVertical(b), b, k);
  }

  lemma FlipDiagLaw6(b: Bitboard)
    ensures forall r: bv3, c: bv3 :: Has6(FlipDiag(b), Sq6(c, r)) == Has6(b, Sq6(r, c))
  {}

  lemma FlipDiagTransport(tb: Bitboard, b: Bitboard, k: int)
    requires IsSquare(k)
    requires forall r: bv3, c: bv3 :: Has6(tb, Sq6(c, r)) == Has6(b, Sq6(r, c))
    ensures IsSquare(FlipDiagSquare(k)) && Has(tb, FlipDiagSquare(k)) == Has(b, k)
  {
    var r, c := k / 8, k % 8;
    assert FlipDiagSquare(k) / 8 == c && FlipDiagSquare(k) % 8 == r;
    assert Has6(tb, Sq6(Bv3(c), Bv3(r))) == Has6(b, Sq6(Bv3(r), Bv3(c)));
  }

  /** FlipDiag moves square k to FlipDiagSquare(k). */
  lemma FlipDiagAt(b: Bitboard, k: int)
    requires IsSquare(k)
    ensures IsSquare(FlipDiagSquare(k))
    ensures Has(FlipDiag(b), FlipDiagSquare(k)) == Has(b, k)
  {
    FlipDiagLaw6(b);
    FlipDiagTransport(FlipDiag(b), b, k);
  }

  lemma FlipAntiDiagLaw6(b: Bitboard)
    ensures forall r: bv3, c: bv3 :: Has6(FlipAntiDiag(b), Sq6(7 - c, 7 - r)) == Has6(b, Sq6(r, c))
  {}

  lemma FlipAntiDiagTransport(tb: Bitboard, b: Bitboard, k: int)
    requires IsSquare(k)
    requires forall r: bv3, c: bv3 :: Has6(tb, Sq6(7 - c, 7 - r)) == Has6(b, Sq6(r, c))
    ensures IsSquare(FlipAntiDiagSquare(k)) && Has(tb, FlipAntiDiagSquare(k)) == Has(b, k)
  {
    var r, c := k / 8, k % 8;
    assert FlipAntiDiagSquare(k) / 8 == 7 - c && FlipAntiDiagSquare(k) % 8 == 7 - r;
    Complement3(r);
    Complement3(c);
    assert Has6(tb, Sq6(7 - Bv3(c), 7 - Bv3(r))) == Has6(b, Sq6(Bv3(r), Bv3(c)));
  }

  /** FlipAntiDiag moves square k to FlipAntiDiagSquare(k). */
  lemma FlipAntiDiagAt(b: Bitboard, k: int)
    requires IsSquare(k)
    ensures IsSquare(FlipAntiDiagSquare(k))
    ensures Has(FlipAntiDiag(b), FlipAntiDiagSquare(k)) == Has(b, k)
  {
    FlipAntiDiagLaw6(b);
    FlipAntiDiagTransport(FlipAntiDiag(b), b, k);
  }

  lemma PseudoRotate45CwLaw6(b: Bitboard)
    ensures forall r: bv3, c: bv3 :: Has6(PseudoRotate45Cw(b), Sq6(r - c, c)) == Has6(b, Sq6(r, c))
  {}

  lemma PseudoRotate45CwTransport(tb: Bitboard, b: Bitboard, k: int)
    requires IsSquare(k)
    requires forall r: bv3, c: bv3 :: Has6(tb, Sq6(r - c, c)) == Has6(b, Sq6(r, c))
    ensures IsSquare(PseudoRotate45CwSquare(k)) && Has(tb, PseudoRotate45CwSquare(k)) == Has(b, k)
  {
    var r, c := k / 8, k % 8;
    assert PseudoRotate45CwSquare(k) / 8 == (r - c) % 8 && PseudoRotate45CwSquare(k) % 8 == c;
    Difference3(r, c);
    assert Has6(tb, Sq6(Bv3(r) - Bv3(c), Bv3(c))) == Has6(b, Sq6(Bv3(r), Bv3(c)));
  }

  /** PseudoRotate45Cw moves square k to PseudoRotate45CwSquare(k). */
  lemma PseudoRotate45CwAt(b: Bitboard, k: int)
    requires IsSquare(k)
    ensures IsSquare(PseudoRotate45CwSquare(k))
    ensures Has(PseudoRotate45Cw(b), PseudoRotate45CwSquare(k)) == Has(b, k)
  {
    PseudoRotate45CwLaw6(b);
    PseudoRotate45CwTransport(PseudoRotate45Cw(b), b, k);
  }

  lemma PseudoRotate45CcwLaw6(b: Bitboard)
    ensures forall r: bv3, c: bv3 :: Has6(PseudoRotate45Ccw(b), Sq6(r + c + 1, c)) == Has6(b, Sq6(r, c))
  {}

  lemma PseudoRotate45CcwTransport(tb: Bitboard, b: Bitboard, k: int)
    requires IsSquare(k)
    requires forall r: bv3, c: bv3 :: Has6(tb, Sq6(r + c + 1, c)) == Has6(b, Sq6(r, c))
    ensures IsSquare(PseudoRotate45CcwSquare(k)) && Has(tb, PseudoRotate45CcwSquare(k)) == Has(b, k)
  {
    var r, c := k / 8, k % 8;
    assert PseudoRotate45CcwSquare(k) / 8 == (r + c + 1) % 8 && PseudoRotate45CcwSquare(k) % 8 == c;
    SumPlusOne3(r, c);
    assert Has6(tb, Sq6(Bv3(r) + Bv3(c) + 1, Bv3(c))) == Has6(b, Sq6(Bv3(r), Bv3(c)));
  }

  /** PseudoRotate45Ccw moves square k to PseudoRotate45CcwSquare(k). */
  lemma PseudoRotate45CcwAt(b: Bitboard, k: int)
    requires IsSquare(k)
    ensures IsSquare(PseudoRotate45CcwSquare(k))
    ensures Has(PseudoRotate45Ccw(b), PseudoRotate45CcwSquare(k)) == Has(b, k)
  {
    PseudoRotate45CcwLaw6(b);
    PseudoRotate45CcwTransport(PseudoRotate45Ccw(b), b, k);
  }

  lemma Rotate90CwLaw6(b: Bitboard)
    ensures forall r: bv3, c: bv3 :: Has6(Rotate90Cw(b), Sq6(7 - c, r)) == Has6(b, Sq6(r, c))
  {}

  lemma Rotate90CwTransport(tb: Bitboard, b: Bitboard, k: int)
    requires IsSquare(k)
    requires forall r: bv3, c: bv3 :: Has6(tb, Sq6(7 - c, r)) == Has6(b, Sq6(r, c))
    ensures IsSquare(Rotate90CwSquare(k)) && Has(tb, Rotate90CwSquare(k)) == Has(b, k)
  {
    var r, c := k / 8, k % 8;
    assert Rotate90CwSquare(k) / 8 == 7 - c && Rotate90CwSquare(k) % 8 == r;
    Complement3(c);
    assert Has6(tb, Sq6(7 - Bv3(c), Bv3(r))) == Has6(b, Sq6(Bv3(r), Bv3(c)));
  }

  /** Rotate90Cw moves square k to Rotate90CwSquare(k). */
  lemma Rotate90CwAt(b: Bitboard, k: int)
    requires IsSquare(k)
    ensures IsSquare(Rotate90CwSquare(k))
    ensures Has(Rotate90Cw(b), Rotate90CwSquare(k)) == Has(b, k)
  {
    Rotate90CwLaw6(b);
    Rotate90CwTransport(Rotate90Cw(b), b, k);
  }

  lemma Rotate90CcwLaw6(b: Bitboard)
    ensures forall r: bv3, c: bv3 :: Has6(Rotate90Ccw(b), Sq6(c, 7 - r)) == Has6(b, Sq6(r, c))
  {}

  lemma Rotate90CcwTransport(tb: Bitboard, b: Bitboard, k: int)
    requires IsSquare(k)
    requires forall r: bv3, c: bv3 :: Has6(tb, Sq6(c, 7 - r)) == Has6(b, Sq6(r, c))
    ensures IsSquare(Rotate90CcwSquare(k)) && Has(tb, Rotate90CcwSquare(k)) == Has(b, k)
  {
    var r, c := k / 8, k % 8;
    assert Rotate90CcwSquare(k) / 8 == c && Rotate90CcwSquare(k) % 8 == 7 - r;
    Complement3(r);
    assert Has6(tb, Sq6(Bv3(c), 7 - Bv3(r))) == Has6(b, Sq6(Bv3(r), Bv3(c)));
  }

  /** Rotate90Ccw moves square k to Rotate90CcwSquare(k). */
  lemma Rotate90CcwAt(b: Bitboard, k: int)
    requires IsSquare(k)
    ensures IsSquare(Rotate90CcwSquare(k))
    ensures Has(Rotate90Ccw(b), Rotate90CcwSquare(k)) == Has(b, k)
  {
    Rotate90CcwLaw6(b);
    Rotate90CcwTransport(Rotate90Ccw(b), b, k);
  }

  lemma PseudoRotate45CwInverseLaw6(b: Bitboard)
    ensures forall r: bv3, c: bv3 :: Has6(PseudoRotate45CwInverse(b), Sq6(r + c, c)) == Has6(b, Sq6(r, c))
  {}

  lemma PseudoRotate45CwInverseTransport(tb: Bitboard, b: Bitboard, k: int)
    requires IsSquare(k)
    requires forall r: bv3, c: bv3 :: Has6(tb, Sq6(r + c, c)) == Has6(b, Sq6(r, c))
    ensures IsSquare(PseudoRotate45CwInverseSquare(k)) && Has(tb, PseudoRotate45CwInverseSquare(k)) == Has(b, k)
  {
    var r, c := k / 8, k % 8;
    assert PseudoRotate45CwInverseSquare(k) / 8 == (r + c) % 8 && PseudoRotate45CwInverseSquare(k) % 8 == c;
    Sum3(r, c);
    assert Has6(tb, Sq6(Bv3(r) + Bv3(c), Bv3(c))) == Has6(b, Sq6(Bv3(r), Bv3(c)));
  }

  /** PseudoRotate45CwInverse moves square k to PseudoRotate45CwInverseSquare(k). */
  lemma PseudoRotate45CwInverseAt(b: Bitboard, k: int)
    requires IsSquare(k)
    ensures IsSquare(PseudoRotate45CwInverseSquare(k))
    ensures Has(PseudoRotate45CwInverse(b), PseudoRotate45CwInverseSquare(k)) == Has(b, k)
  {
    PseudoRotate45CwInverseLaw6(b);
    PseudoRotate45CwInverseTransport(PseudoRotate45CwInverse(b), b, k);
  }

  lemma PseudoRotate45CcwInverseLaw6(b: Bitboard)
    ensures forall r: bv3, c: bv3 :: Has6(PseudoRotate45CcwInverse(b), Sq6(r - c - 1, c)) == Has6(b, Sq6(r, c))
  {}

  lemma PseudoRotate45CcwInverseTransport(tb: Bitboard, b: Bitboard, k: int)
    requires IsSquare(k)
    requires forall r: bv3, c: bv3 :: Has6(tb, Sq6(r - c - 1, c)) == Has6(b, Sq6(r, c))
    ensures IsSquare(PseudoRotate45CcwInverseSquare(k)) && Has(tb, PseudoRotate45CcwInverseSquare(k)) == Has(b, k)
  {
    var r, c := k / 8, k % 8;
    assert PseudoRotate45CcwInverseSquare(k) / 8 == (r - c - 1) % 8 && PseudoRotate45CcwInverseSquare(k) % 8 == c;
    DifferenceMinusOne3(r, c);
    assert Has6(tb, Sq6(Bv3(r) - Bv3(c) - 1, Bv3(c))) == Has6(b, Sq6(Bv3(r), Bv3(c)));
  }

  /** PseudoRotate45CcwInverse moves square k to PseudoRotate45CcwInverseSquare(k). */
  lemma PseudoRotate45CcwInverseAt(b: Bitboard, k: int)
    requires IsSquare(k)
    ensures IsSquare(PseudoRotate45CcwInverseSquare(k))
    ensures Has(PseudoRotate45CcwInverse(b), PseudoRotate45CcwInverseSquare(k)) == Has(b, k)
  {
    PseudoRotate45CcwInverseLaw6(b);
    PseudoRotate45CcwInverseTransport(PseudoRotate45CcwInverse(b), b, k);
  }

  // ---------------------------------------------------------------------
  // Rotation by whole rows: bit x of Rotr(n, c) is bit x + c (mod 64) of n,
  // for the three amounts the engine uses.

  lemma Rotr8Law6(n: Bitboard) ensures forall x: bv6 :: Has6(Rotr(n, 8), x) == Has6(n, x + 8) {}
  lemma Rotr16Law6(n: Bitboard) ensures forall x: bv6 :: Has6(Rotr(n, 16), x) == Has6(n, x + 16) {}
  lemma Rotr32Law6(n: Bitboard) ensures forall x: bv6 :: Has6(Rotr(n, 32), x) == Has6(n, x + 32) {}

  // ---------------------------------------------------------------------
  // Whole-board inverses

  lemma FlipHorizontalInvolution(b: Bitboard) ensures FlipHorizontal(FlipHorizontal(b)) == b {}
  lemma FlipVerticalInvolution(b: Bitboard) ensures FlipVertical(FlipVertical(b)) == b {}
  lemma FlipDiagInvolution(b: Bitboard) ensures FlipDiag(FlipDiag(b)) == b {}
  lemma FlipAntiDiagInvolution(b: Bitboard) ensures FlipAntiDiag(FlipAntiDiag(b)) == b {}
  lemma Rotate90CcwAfterCw(b: Bitboard) ensures Rotate90Ccw(Rotate90Cw(b)) == b {}
  lemma Rotate90CwAfterCcw(b: Bitboard) ensures Rotate90Cw(Rotate90Ccw(b)) == b {}
  lemma PseudoRotate45CwRoundTrip(b: Bitboard) ensures PseudoRotate45CwInverse(PseudoRotate45Cw(b)) == b {}
  lemma PseudoRotate45CcwRoundTrip(b: Bitboard) ensures PseudoRotate45CcwInverse(PseudoRotate45Ccw(b)) == b {}

  // ---------------------------------------------------------------------
  // The square maps are bijections on 0..63, with these inverses.

  lemma FlipHorizontalSquareInvolution(k: int)
    requires IsSquare(k)
    ensures IsSquare(FlipHorizontalSquare(k)) && FlipHorizontalSquare(FlipHorizontalSquare(k)) == k
  {
    RowColumnOf(k / 8, 7 - k % 8);
  }

  lemma FlipVerticalSquareInvolution(k: int)
    requires IsSquare(k)
    ensures IsSquare(FlipVerticalSquare(k)) && FlipVerticalSquare(FlipVerticalSquare(k)) == k
  {
    RowColumnOf(7 - k / 8, k % 8);
  }

  lemma FlipDiagSquareInvolution(k: int)
    requires IsSquare(k)
    ensures IsSquare(FlipDiagSquare(k)) && FlipDiagSquare(FlipDiagSquare(k)) == k
  {
    RowColumnOf(k % 8, k / 8);
  }

  lemma FlipAntiDiagSquareInvolution(k: int)
    requires IsSquare(k)
    ensures IsSquare(FlipAntiDiagSquare(k)) && FlipAntiDiagSquare(FlipAntiDiagSquare(k)) == k
  {
    RowColumnOf(7 - k % 8, 7 - k / 8);
  }

  lemma Rotate90SquareInverse(k: int)
    requires IsSquare(k)
    ensures IsSquare(Rotate90CwSquare(k)) && Rotate90CcwSquare(Rotate90CwSquare(k)) == k
    ensures IsSquare(Rotate90CcwSquare(k)) && Rotate90CwSquare(Rotate90CcwSquare(k)) == k
  {
    RowColumnOf(7 - k % 8, k / 8);
    RowColumnOf(k % 8, 7 - k / 8);
  }

  /** Adding and then subtracting d modulo 8 gives the row back. */
  lemma RowShift(r: int, d: int)
    requires 0 <= r < 8 && -8 <= d <= 8
    ensures 0 <= (r + d) % 8 < 8 && ((r + d) % 8 - d) % 8 == r
  {
    if r + d < 0 {
      assert (r + d) % 8 == r + d + 8;
    } else if r + d < 8 {
      assert (r + d) % 8 == r + d;
    } else {
      assert (r + d) % 8 == r + d - 8;
    }
  }

  lemma PseudoRotate45CwSquareInverse(k: int)
    requires IsSquare(k)
    ensures IsSquare(PseudoRotate45CwSquare(k)) && PseudoRotate45CwInverseSquare(PseudoRotate45CwSquare(k)) == k
  {
    var r, c := k / 8, k % 8;
    RowShift(r, -c);
    RowColumnOf((r - c) % 8, c);
  }

  lemma PseudoRotate45CwInverseSquareInverse(k: int)
    requires IsSquare(k)
    ensures IsSquare(PseudoRotate45CwInverseSquare(k)) && PseudoRotate45CwSquare(PseudoRotate45CwInverseSquare(k)) == k
  {
    var r, c := k / 8, k % 8;
    RowShift(r, c);
    RowColumnOf((r + c) % 8, c);
  }

  lemma PseudoRotate45CcwSquareInverse(k: int)
    requires IsSquare(k)
    ensures IsSquare(PseudoRotate45CcwSquare(k)) && PseudoRotate45CcwInverseSquare(PseudoRotate45CcwSquare(k)) == k
  {
    var r, c := k / 8, k % 8;
    RowShift(r, c + 1);
    RowColumnOf((r + c + 1) % 8, c);
  }

  lemma PseudoRotate45CcwInverseSquareInverse(k: int)
    requires IsSquare(k)
    ensures IsSquare(PseudoRotate45CcwInverseSquare(k)) && PseudoRotate45CcwSquare(PseudoRotate45CcwInverseSquare(k)) == k
  {
    var r, c := k / 8, k % 8;
    RowShift(r, -c - 1);
    RowColumnOf((r - c - 1) % 8, c);
  }
}
