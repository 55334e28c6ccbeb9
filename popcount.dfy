/** Population counts of bitboards and their invariance under the board transforms. */
module Popcounts {
  import opened Bitboards
  import SetSizes

  // ---------------------------------------------------------------------
  // Population count

  /** Each 2-bit field holds the number of set bits of that field of i. */
  function PairSums(i: Bitboard): Bitboard { i - ((i >> 1) & 0x5555555555555555) }

  /** Each 4-bit field holds the sum of its two 2-bit fields. */
  function NibbleSums(i: Bitboard): Bitboard { (i & 0x3333333333333333) + ((i >> 2) & 0x3333333333333333) }

  /** Each byte holds the sum of its two nibbles. */
  function ByteSums(i: Bitboard): Bitboard { (i + (i >> 4)) & 0x0F0F0F0F0F0F0F0F }

  /** The three SWAR steps: byte j holds the number of set bits of byte j of i. */
  function Lanes(i: Bitboard): Bitboard { ByteSums(NibbleSums(PairSums(i))) }

  /** The multiply by 0x0101010101010101 adds all bytes into the top byte; the shift brings it down. */
  function TopByteSum(i: Bitboard): Bitboard { (Lanes(i) * 0x0101010101010101) >> 56 }

  /** The engine's popcount: SWAR steps, one multiply, one shift. */
  function Popcount(i: Bitboard): int { TopByteSum(i) as int }

  /** Byte j (row j of the board) of b. */
  function Byte(b: Bitboard, j: bv3): bv8 { ((b >> ((j as Bitboard) << 3)) & 0xff) as bv8 }

  predicate On(x: bv8, i: bv3) { x & ((1 as bv8) << i) != 0 }

  function Bit(x: bv8, i: bv3): int { if On(x, i) then 1 else 0 }

  /** The number of set bits of a byte, bit by bit. */
  function Count8(x: bv8): int
  {
    Bit(x, 0) + Bit(x, 1) + Bit(x, 2) + Bit(x, 3) + Bit(x, 4) + Bit(x, 5) + Bit(x, 6) + Bit(x, 7)
  }

  /** The SWAR steps of Popcount, applied to one byte. */
  function Swar8(i0: bv8): bv8
  {
    var i1 := i0 - ((i0 >> 1) & 0x55);
    var i2 := (i1 & 0x33) + ((i1 >> 2) & 0x33);
    (i2 + (i2 >> 4)) & 0x0F
  }

  lemma SwarCount(x: bv8)
    ensures Swar8(x) <= 8 && Swar8(x) as int == Count8(x)
  {}

  // The SWAR steps never carry across a byte: byte j of Lanes(b) is Swar8 of byte j of b.
  lemma Lane0(b: Bitboard) ensures Byte(Lanes(b), 0) == Swar8(Byte(b, 0)) {}
  lemma Lane1(b: Bitboard) ensures Byte(Lanes(b), 1) == Swar8(Byte(b, 1)) {}
  lemma Lane2(b: Bitboard) ensures Byte(Lanes(b), 2) == Swar8(Byte(b, 2)) {}
  lemma Lane3(b: Bitboard) ensures Byte(Lanes(b), 3) == Swar8(Byte(b, 3)) {}
  lemma Lane4(b: Bitboard) ensures Byte(Lanes(b), 4) == Swar8(Byte(b, 4)) {}
  lemma Lane5(b: Bitboard) ensures Byte(Lanes(b), 5) == Swar8(Byte(b, 5)) {}
  lemma Lane6(b: Bitboard) ensures Byte(Lanes(b), 6) == Swar8(Byte(b, 6)) {}
  lemma Lane7(b: Bitboard) ensures Byte(Lanes(b), 7) == Swar8(Byte(b, 7)) {}


  // The multiply adds the eight bytes into the top byte. No byte of ByteSums(x)
  // exceeds 15, so no carry reaches the top byte from below.

  /** No carry reaches the top byte: it is the sum of the eight bytes of the masked word. */
  lemma FoldLanes(x: Bitboard)
    ensures var y := x & 0x0F0F0F0F0F0F0F0F;
      (y * 0x0101010101010101) >> 56 ==
      ((y >> 56) & 0xff) + ((y >> 48) & 0xff) + ((y >> 40) & 0xff) + ((y >> 32) & 0xff) +
      ((y >> 24) & 0xff) + ((y >> 16) & 0xff) + ((y >> 8) & 0xff) + (y & 0xff)
  {}

  /** Each byte of the masked word is below 16, so the 64-bit sum of the bytes is their 8-bit sum. */
  lemma NarrowLanes(x: Bitboard)
    ensures var y := x & 0x0F0F0F0F0F0F0F0F;
      ((y >> 56) & 0xff) + ((y >> 48) & 0xff) + ((y >> 40) & 0xff) + ((y >> 32) & 0xff) +
      ((y >> 24) & 0xff) + ((y >> 16) & 0xff) + ((y >> 8) & 0xff) + (y & 0xff) ==
      ((((((y >> 56) & 0xff) as bv8) + (((y >> 48) & 0xff) as bv8)) + ((((y >> 40) & 0xff) as bv8) + (((y >> 32) & 0xff) as bv8))) +
       (((((y >> 24) & 0xff) as bv8) + (((y >> 16) & 0xff) as bv8)) + ((((y >> 8) & 0xff) as bv8) + ((y & 0xff) as bv8)))) as Bitboard
  {}

  lemma BytesOf(x: Bitboard)
    requires x & 0x0F0F0F0F0F0F0F0F == x
    ensures var y := x & 0x0F0F0F0F0F0F0F0F;
      Byte(x, 7) == ((y >> 56) & 0xff) as bv8 && Byte(x, 6) == ((y >> 48) & 0xff) as bv8 &&
      Byte(x, 5) == ((y >> 40) & 0xff) as bv8 && Byte(x, 4) == ((y >> 32) & 0xff) as bv8 &&
      Byte(x, 3) == ((y >> 24) & 0xff) as bv8 && Byte(x, 2) == ((y >> 16) & 0xff) as bv8 &&
      Byte(x, 1) == ((y >> 8) & 0xff) as bv8 && Byte(x, 0) == (y & 0xff) as bv8
  {}

  lemma LaneSumBytes(x: Bitboard)
    requires x & 0x0F0F0F0F0F0F0F0F == x
    ensures var y := x & 0x0F0F0F0F0F0F0F0F;
      ((y >> 56) & 0xff) + ((y >> 48) & 0xff) + ((y >> 40) & 0xff) + ((y >> 32) & 0xff) +
      ((y >> 24) & 0xff) + ((y >> 16) & 0xff) + ((y >> 8) & 0xff) + (y & 0xff) ==
      Sum8(Byte(x, 7), Byte(x, 6), Byte(x, 5), Byte(x, 4), Byte(x, 3), Byte(x, 2), Byte(x, 1), Byte(x, 0)) as Bitboard
  {
    NarrowLanes(x);
    BytesOf(x);
  }

  lemma LanesMasked(b: Bitboard)
    ensures Lanes(b) & 0x0F0F0F0F0F0F0F0F == Lanes(b)
  {}

  lemma MaskIdempotent(y: Bitboard)
    requires y & 0x0F0F0F0F0F0F0F0F == y
    ensures (y * 0x0101010101010101) >> 56 == ((y & 0x0F0F0F0F0F0F0F0F) * 0x0101010101010101) >> 56
  {}

  /** FoldLanes for a word whose bytes are already below 16. */
  lemma FoldSmallLanes(y: Bitboard)
    requires y & 0x0F0F0F0F0F0F0F0F == y
    ensures var z := y & 0x0F0F0F0F0F0F0F0F;
      (y * 0x0101010101010101) >> 56 ==
      ((z >> 56) & 0xff) + ((z >> 48) & 0xff) + ((z >> 40) & 0xff) + ((z >> 32) & 0xff) +
      ((z >> 24) & 0xff) + ((z >> 16) & 0xff) + ((z >> 8) & 0xff) + (z & 0xff)
  {
    MaskIdempotent(y);
    FoldLanes(y);
  }

  lemma TopByteSumIs(b: Bitboard)
    ensures TopByteSum(b) == (Lanes(b) * 0x0101010101010101) >> 56
  {}

  /** The multiply-and-shift result is the 64-bit sum of the bytes of Lanes(b). */
  lemma TopByteSumLanes(b: Bitboard)
    ensures var z := Lanes(b) & 0x0F0F0F0F0F0F0F0F;
      TopByteSum(b) ==
      ((z >> 56) & 0xff) + ((z >> 48) & 0xff) + ((z >> 40) & 0xff) + ((z >> 32) & 0xff) +
      ((z >> 24) & 0xff) + ((z >> 16) & 0xff) + ((z >> 8) & 0xff) + (z & 0xff)
  {
    TopByteSumIs(b);
    LanesMasked(b);
    FoldSmallLanes(Lanes(b));
  }

  /** The multiply-and-shift result is the 8-bit sum of the bytes of Lanes(b). */
  lemma TopByteSumBytes(b: Bitboard)
    ensures var x := Lanes(b);
      TopByteSum(b) == Sum8(Byte(x, 7), Byte(x, 6), Byte(x, 5), Byte(x, 4), Byte(x, 3), Byte(x, 2), Byte(x, 1), Byte(x, 0)) as Bitboard
  {
    TopByteSumLanes(b);
    LanesMasked(b);
    LaneSumBytes(Lanes(b));
  }

  // Small 8-bit sums, read as integers. ToNat counts down to zero, so it is an
  // integer value that the solver does not have to bit-blast.

  function ToNat(x: bv8): nat
    decreases x as int
  {
    if x == 0 then 0 else 1 + ToNat(x - 1)
  }

  lemma Predecessor(x: bv8)
    requires x != 0
    ensures (x - 1) as int == x as int - 1
  {}

  lemma {:induction false} ToNatValue(x: bv8)
    ensures ToNat(x) == x as int
    decreases x as int
  {
    if x != 0 {
      Predecessor(x);
      ToNatValue(x - 1);
    }
  }

  /** The 8-bit sum of eight bytes. */
  function Sum8(s7: bv8, s6: bv8, s5: bv8, s4: bv8, s3: bv8, s2: bv8, s1: bv8, s0: bv8): bv8
  {
    s7 + s6 + s5 + s4 + s3 + s2 + s1 + s0
  }

  lemma Sum8Predecessor(s7: bv8, s6: bv8, s5: bv8, s4: bv8, s3: bv8, s2: bv8, s1: bv8, s0: bv8)
    ensures Sum8(s7, s6, s5, s4, s3, s2, s1, s0) - 1 == Sum8(s7, s6, s5, s4, s3, s2, s1, s0 - 1)
  {}

  lemma Sum8NonZero(s7: bv8, s6: bv8, s5: bv8, s4: bv8, s3: bv8, s2: bv8, s1: bv8, s0: bv8)
    requires s0 <= 8 && s1 <= 8 && s2 <= 8 && s3 <= 8 && s4 <= 8 && s5 <= 8 && s6 <= 8 && s7 <= 8 && s0 != 0
    ensures Sum8(s7, s6, s5, s4, s3, s2, s1, s0) != 0
  {}

  lemma Sum8Rotate(s7: bv8, s6: bv8, s5: bv8, s4: bv8, s3: bv8, s2: bv8, s1: bv8)
    ensures Sum8(s7, s6, s5, s4, s3, s2, s1, 0) == Sum8(0, s7, s6, s5, s4, s3, s2, s1)
  {}

  /** Counting the last summand down to zero moves it out of the sum. */
  lemma {:induction false} Sum8PeelLast(s7: bv8, s6: bv8, s5: bv8, s4: bv8, s3: bv8, s2: bv8, s1: bv8, s0: bv8)
    requires s0 <= 8 && s1 <= 8 && s2 <= 8 && s3 <= 8 && s4 <= 8 && s5 <= 8 && s6 <= 8 && s7 <= 8
    ensures ToNat(Sum8(s7, s6, s5, s4, s3, s2, s1, s0)) == ToNat(Sum8(s7, s6, s5, s4, s3, s2, s1, 0)) + ToNat(s0)
    decreases s0 as int
  {
    if s0 != 0 {
      Predecessor(s0);
      Sum8NonZero(s7, s6, s5, s4, s3, s2, s1, s0);
      Sum8Predecessor(s7, s6, s5, s4, s3, s2, s1, s0);
      Sum8PeelLast(s7, s6, s5, s4, s3, s2, s1, s0 - 1);
    }
  }

  /** Eight counts of at most 8 add up in 8 bits without wrapping around. */
  lemma Sum8Value(s7: bv8, s6: bv8, s5: bv8, s4: bv8, s3: bv8, s2: bv8, s1: bv8, s0: bv8)
    requires s0 <= 8 && s1 <= 8 && s2 <= 8 && s3 <= 8 && s4 <= 8 && s5 <= 8 && s6 <= 8 && s7 <= 8
    ensures ToNat(Sum8(s7, s6, s5, s4, s3, s2, s1, s0)) ==
      ToNat(s7) + ToNat(s6) + ToNat(s5) + ToNat(s4) + ToNat(s3) + ToNat(s2) + ToNat(s1) + ToNat(s0)
  {
    Sum8PeelLast(s7, s6, s5, s4, s3, s2, s1, s0);
    Sum8Rotate(s7, s6, s5, s4, s3, s2, s1);
    Sum8PeelLast(0, s7, s6, s5, s4, s3, s2, s1);
    Sum8Rotate(0, s7, s6, s5, s4, s3, s2);
    Sum8PeelLast(0, 0, s7, s6, s5, s4, s3, s2);
    Sum8Rotate(0, 0, s7, s6, s5, s4, s3);
    Sum8PeelLast(0, 0, 0, s7, s6, s5, s4, s3);
    Sum8Rotate(0, 0, 0, s7, s6, s5, s4);
    Sum8PeelLast(0, 0, 0, 0, s7, s6, s5, s4);
    Sum8Rotate(0, 0, 0, 0, s7, s6, s5);
    Sum8PeelLast(0, 0, 0, 0, 0, s7, s6, s5);
    Sum8Rotate(0, 0, 0, 0, 0, s7, s6);
    Sum8PeelLast(0, 0, 0, 0, 0, 0, s7, s6);
    Sum8Rotate(0, 0, 0, 0, 0, 0, s7);
    Sum8PeelLast(0, 0, 0, 0, 0, 0, 0, s7);
  }

  lemma Widen(x: bv8)
    ensures (x as Bitboard) as int == x as int
  {}

  lemma SwarValue(x: bv8)
    ensures Swar8(x) <= 8 && ToNat(Swar8(x)) == Count8(x)
  {
    SwarCount(x);
    ToNatValue(Swar8(x));
  }

  /** The number of set bits of each row, added up. */
  function RowCounts(b: Bitboard): int
  {
    Count8(Byte(b, 0)) + Count8(Byte(b, 1)) + Count8(Byte(b, 2)) + Count8(Byte(b, 3)) +
    Count8(Byte(b, 4)) + Count8(Byte(b, 5)) + Count8(Byte(b, 6)) + Count8(Byte(b, 7))
  }

  /** Popcount reads the 8-bit sum of the bytes of Lanes(b) as an integer. */
  lemma PopcountSum8(b: Bitboard)
    ensures Popcount(b) == ToNat(Sum8(Byte(Lanes(b), 7), Byte(Lanes(b), 6), Byte(Lanes(b), 5), Byte(Lanes(b), 4), Byte(Lanes(b), 3), Byte(Lanes(b), 2), Byte(Lanes(b), 1), Byte(Lanes(b), 0)))
  {
    TopByteSumBytes(b);
    PopcountOfTop(b, Sum8(Byte(Lanes(b), 7), Byte(Lanes(b), 6), Byte(Lanes(b), 5), Byte(Lanes(b), 4), Byte(Lanes(b), 3), Byte(Lanes(b), 2), Byte(Lanes(b), 1), Byte(Lanes(b), 0)));
  }

  lemma PopcountOfTop(b: Bitboard, t: bv8)
    requires TopByteSum(b) == t as Bitboard
    ensures Popcount(b) == ToNat(t)
  {
    WideValue(TopByteSum(b), t);
  }

  lemma WideValue(w: Bitboard, t: bv8)
    requires w == t as Bitboard
    ensures w as int == ToNat(t)
  {
    Widen(t);
    ToNatValue(t);
  }

  /** Each byte of Lanes(b) is at most 8 and counts the squares of that row. */
  lemma LaneValues(b: Bitboard)
    ensures var x := Lanes(b);
      Byte(x, 0) <= 8 && ToNat(Byte(x, 0)) == Count8(Byte(b, 0)) &&
      Byte(x, 1) <= 8 && ToNat(Byte(x, 1)) == Count8(Byte(b, 1)) &&
      Byte(x, 2) <= 8 && ToNat(Byte(x, 2)) == Count8(Byte(b, 2)) &&
      Byte(x, 3) <= 8 && ToNat(Byte(x, 3)) == Count8(Byte(b, 3)) &&
      Byte(x, 4) <= 8 && ToNat(Byte(x, 4)) == Count8(Byte(b, 4)) &&
      Byte(x, 5) <= 8 && ToNat(Byte(x, 5)) == Count8(Byte(b, 5)) &&
      Byte(x, 6) <= 8 && ToNat(Byte(x, 6)) == Count8(Byte(b, 6)) &&
      Byte(x, 7) <= 8 && ToNat(Byte(x, 7)) == Count8(Byte(b, 7))
  {
    Lane0(b); Lane1(b); Lane2(b); Lane3(b); Lane4(b); Lane5(b); Lane6(b); Lane7(b);
    SwarValue(Byte(b, 0)); SwarValue(Byte(b, 1)); SwarValue(Byte(b, 2)); SwarValue(Byte(b, 3));
    SwarValue(Byte(b, 4)); SwarValue(Byte(b, 5)); SwarValue(Byte(b, 6)); SwarValue(Byte(b, 7));
  }

  lemma PopcountRows(b: Bitboard)
    ensures Popcount(b) == RowCounts(b)
  {
    var x := Lanes(b);
    PopcountSum8(b);
    LaneValues(b);
    Sum8Value(Byte(x, 7), Byte(x, 6), Byte(x, 5), Byte(x, 4), Byte(x, 3), Byte(x, 2), Byte(x, 1), Byte(x, 0));
  }

  // Counting the squares of a board row by row.

  lemma ByteBit6(b: Bitboard, j: bv3, i: bv3)
    ensures Has6(b, Sq6(j, i)) == On(Byte(b, j), i)
  {}

  /** Square 8j + i is bit i of byte j. */
  lemma ByteBit(b: Bitboard, j: int, i: int)
    requires 0 <= j < 8 && 0 <= i < 8
    ensures IsSquare(8 * j + i) && Has(b, 8 * j + i) == On(Byte(b, Bv3(j)), Bv3(i))
  {
    HasRowColumn(b, j, i);
    ByteBit6(b, Bv3(j), Bv3(i));
  }

  /** The set bits among the first n bits of x. */
  function CountFirst(x: bv8, n: int): int
    requires 0 <= n <= 8
  {
    if n == 0 then 0 else CountFirst(x, n - 1) + Bit(x, Bv3(n - 1))
  }

  lemma CountFirstAll(x: bv8)
    ensures CountFirst(x, 8) == Count8(x)
  {
    assert CountFirst(x, 1) == Bit(x, 0);
    assert CountFirst(x, 2) == CountFirst(x, 1) + Bit(x, 1);
    assert CountFirst(x, 3) == CountFirst(x, 2) + Bit(x, 2);
    assert CountFirst(x, 4) == CountFirst(x, 3) + Bit(x, 3);
    assert CountFirst(x, 5) == CountFirst(x, 4) + Bit(x, 4);
    assert CountFirst(x, 6) == CountFirst(x, 5) + Bit(x, 5);
    assert CountFirst(x, 7) == CountFirst(x, 6) + Bit(x, 6);
  }

  /** The squares of b among the first n columns of row j. */
  ghost function RowPrefix(b: Bitboard, j: int, n: int): set<int>
  {
    set k | 8 * j <= k < 8 * j + n && IsSquare(k) && Has(b, k)
  }

  lemma RowPrefixStep(b: Bitboard, j: int, n: int)
    requires 0 <= j < 8 && 0 <= n < 8
    ensures RowPrefix(b, j, n + 1) == RowPrefix(b, j, n) + (if On(Byte(b, Bv3(j)), Bv3(n)) then {8 * j + n} else {})
    ensures 8 * j + n !in RowPrefix(b, j, n)
  {
    ByteBit(b, j, n);
  }

  lemma {:induction false} RowPrefixSize(b: Bitboard, j: int, n: int)
    requires 0 <= j < 8 && 0 <= n <= 8
    ensures |RowPrefix(b, j, n)| == CountFirst(Byte(b, Bv3(j)), n)
  {
    if n > 0 {
      RowPrefixSize(b, j, n - 1);
      RowPrefixStep(b, j, n - 1);
    }
  }

  /** The squares of b below square n. */
  ghost function SquaresBelow(b: Bitboard, n: int): set<int>
  {
    set k | 0 <= k < n && IsSquare(k) && Has(b, k)
  }

  lemma SquaresBelowRow(b: Bitboard, j: int)
    requires 0 <= j < 8
    ensures SquaresBelow(b, 8 * j + 8) == SquaresBelow(b, 8 * j) + RowPrefix(b, j, 8)
    ensures SquaresBelow(b, 8 * j) !! RowPrefix(b, j, 8)
  {}

  lemma DisjointUnionSize<T>(a: set<T>, b: set<T>)
    requires a !! b
    ensures |a + b| == |a| + |b|
  {}

  /** The set bits of the first j rows. */
  function CountRowsBelow(b: Bitboard, j: int): int
    requires 0 <= j <= 8
  {
    if j == 0 then 0 else CountRowsBelow(b, j - 1) + CountFirst(Byte(b, Bv3(j - 1)), 8)
  }

  lemma {:induction false} SquaresBelowSize(b: Bitboard, j: int)
    requires 0 <= j <= 8
    ensures |SquaresBelow(b, 8 * j)| == CountRowsBelow(b, j)
  {
    if j > 0 {
      var below, row := SquaresBelow(b, 8 * (j - 1)), RowPrefix(b, j - 1, 8);
      SquaresBelowSize(b, j - 1);
      SquaresBelowRow(b, j - 1);
      DisjointUnionSize(below, row);
      RowPrefixSize(b, j - 1, 8);
      assert 8 * j == 8 * (j - 1) + 8;
      assert SquaresBelow(b, 8 * j) == below + row;
      assert |SquaresBelow(b, 8 * j)| == |below| + |row|;
    }
  }

  lemma CountRowsLow(b: Bitboard)
    ensures CountRowsBelow(b, 4) == Count8(Byte(b, 0)) + Count8(Byte(b, 1)) + Count8(Byte(b, 2)) + Count8(Byte(b, 3))
  {
    CountFirstAll(Byte(b, 0)); CountFirstAll(Byte(b, 1)); CountFirstAll(Byte(b, 2)); CountFirstAll(Byte(b, 3));
    assert CountRowsBelow(b, 1) == CountFirst(Byte(b, 0), 8);
    assert CountRowsBelow(b, 2) == CountRowsBelow(b, 1) + CountFirst(Byte(b, 1), 8);
    assert CountRowsBelow(b, 3) == CountRowsBelow(b, 2) + CountFirst(Byte(b, 2), 8);
  }

  lemma CountRowsAll(b: Bitboard)
    ensures CountRowsBelow(b, 8) == RowCounts(b)
  {
    CountRowsLow(b);
    CountFirstAll(Byte(b, 4)); CountFirstAll(Byte(b, 5)); CountFirstAll(Byte(b, 6)); CountFirstAll(Byte(b, 7));
    assert CountRowsBelow(b, 5) == CountRowsBelow(b, 4) + CountFirst(Byte(b, 4), 8);
    assert CountRowsBelow(b, 6) == CountRowsBelow(b, 5) + CountFirst(Byte(b, 5), 8);
    assert CountRowsBelow(b, 7) == CountRowsBelow(b, 6) + CountFirst(Byte(b, 6), 8);
  }

  lemma SquaresAllBelow(b: Bitboard)
    ensures Squares(b) == SquaresBelow(b, 64)
  {}

  lemma SquaresRowCounts(b: Bitboard)
    ensures |Squares(b)| == RowCounts(b)
  {
    SquaresBelowSize(b, 8);
    SquaresAllBelow(b);
    CountRowsAll(b);
  }

  lemma Count8Bound(x: bv8)
    ensures 0 <= Count8(x) <= 8
  {}

  lemma RowCountsBound(b: Bitboard)
    ensures 0 <= RowCounts(b) <= 64
  {
    Count8Bound(Byte(b, 0)); Count8Bound(Byte(b, 1)); Count8Bound(Byte(b, 2)); Count8Bound(Byte(b, 3));
    Count8Bound(Byte(b, 4)); Count8Bound(Byte(b, 5)); Count8Bound(Byte(b, 6)); Count8Bound(Byte(b, 7));
  }

  /** popcount(b) is the number of squares of b, so it lies in 0..64. */
  lemma PopcountIsSize(b: Bitboard)
    ensures Popcount(b) == |Squares(b)|
    ensures 0 <= Popcount(b) <= 64
  {
    PopcountRows(b);
    SquaresRowCounts(b);
    RowCountsBound(b);
  }

  // ---------------------------------------------------------------------
  // Every transform is a permutation of the squares, so it keeps the count.

  /** f and g are mutually inverse maps of the squares 0..63 onto themselves. */
  ghost predicate SquareBijection(f: int -> int, g: int -> int)
  {
    forall k :: IsSquare(k) ==> IsSquare(f(k)) && IsSquare(g(k)) && g(f(k)) == k && f(g(k)) == k
  }

  /** tb holds square f(k) exactly when b holds square k. */
  ghost predicate MovedBy(tb: Bitboard, b: Bitboard, f: int -> int)
  {
    forall k :: IsSquare(k) ==> (f(k) in Squares(tb) <==> k in Squares(b))
  }

  lemma SquaresAreSquares(b: Bitboard)
    ensures forall k :: k in Squares(b) ==> IsSquare(k)
  {}

  /** T is the image of S under a bijection f of the squares with inverse g. */
  lemma SetImage(s: set<int>, t: set<int>, f: int -> int, g: int -> int)
    requires SquareBijection(f, g)
    requires forall k :: k in s ==> IsSquare(k)
    requires forall k :: k in t ==> IsSquare(k)
    requires forall k :: IsSquare(k) ==> (f(k) in t <==> k in s)
    ensures t == set k | k in s :: f(k)
  {
    forall j | j in t ensures j in set k | k in s :: f(k) {
      assert IsSquare(g(j)) && f(g(j)) == j;
    }
  }

  lemma MovedSquares(tb: Bitboard, b: Bitboard, f: int -> int, g: int -> int)
    requires SquareBijection(f, g) && MovedBy(tb, b, f)
    ensures Squares(tb) == set k | k in Squares(b) :: f(k)
  {
    SquaresAreSquares(b);
    SquaresAreSquares(tb);
    SetImage(Squares(b), Squares(tb), f, g);
  }

  lemma SquaresImageSize(b: Bitboard, f: int -> int, g: int -> int)
    requires SquareBijection(f, g)
    ensures |set k | k in Squares(b) :: f(k)| == |Squares(b)|
  {
    SetSizes.InjectiveImageSize(Squares(b), f, 64);
    assert SetSizes.Below(Squares(b), 64) == Squares(b);
    assert SetSizes.ImageBelow(Squares(b), f, 64) == set k | k in Squares(b) :: f(k);
  }

  /** A board whose squares are those of b moved by a bijection has b's count. */
  lemma PermutedCount(tb: Bitboard, b: Bitboard, f: int -> int, g: int -> int)
    requires SquareBijection(f, g) && MovedBy(tb, b, f)
    ensures Popcount(tb) == Popcount(b)
  {
    PopcountIsSize(tb);
    PopcountIsSize(b);
    MovedSquares(tb, b, f, g);
    SquaresImageSize(b, f, g);
  }

  lemma FlipHorizontalSquareBijection()
    ensures SquareBijection(FlipHorizontalSquare, FlipHorizontalSquare)
  {
    forall k | IsSquare(k)
      ensures IsSquare(FlipHorizontalSquare(k)) && IsSquare(FlipHorizontalSquare(k)) && FlipHorizontalSquare(FlipHorizontalSquare(k)) == k && FlipHorizontalSquare(FlipHorizontalSquare(k)) == k
    {
      FlipHorizontalSquareInvolution(k);
    }
  }

  lemma FlipHorizontalMoves(b: Bitboard)
    ensures MovedBy(FlipHorizontal(b), b, FlipHorizontalSquare)
  {
    forall k | IsSquare(k) ensures FlipHorizontalSquare(k) in Squares(FlipHorizontal(b)) <==> k in Squares(b) {
      FlipHorizontalAt(b, k);
    }
  }

  /** FlipHorizontal keeps the number of squares. */
  lemma FlipHorizontalCount(b: Bitboard)
    ensures Popcount(FlipHorizontal(b)) == Popcount(b)
  {
    FlipHorizontalMoves(b);
    FlipHorizontalSquareBijection();
    PermutedCount(FlipHorizontal(b), b, FlipHorizontalSquare, FlipHorizontalSquare);
  }

  lemma FlipVerticalSquareBijection()
    ensures SquareBijection(FlipVerticalSquare, FlipVerticalSquare)
  {
    forall k | IsSquare(k)
      ensures IsSquare(FlipVerticalSquare(k)) && IsSquare(FlipVerticalSquare(k)) && FlipVerticalSquare(FlipVerticalSquare(k)) == k && FlipVerticalSquare(FlipVerticalSquare(k)) == k
    {
      FlipVerticalSquareInvolution(k);
    }
  }

  lemma FlipVerticalMoves(b: Bitboard)
    ensures MovedBy(FlipVertical(b), b, FlipVerticalSquare)
  {
    forall k | IsSquare(k) ensures FlipVerticalSquare(k) in Squares(FlipVertical(b)) <==> k in Squares(b) {
      FlipVerticalAt(b, k);
    }
  }

  /** FlipVertical keeps the number of squares. */
  lemma FlipVerticalCount(b: Bitboard)
    ensures Popcount(FlipVertical(b)) == Popcount(b)
  {
    FlipVerticalMoves(b);
    FlipVerticalSquareBijection();
    PermutedCount(FlipVertical(b), b, FlipVerticalSquare, FlipVerticalSquare);
  }

  lemma FlipDiagSquareBijection()
    ensures SquareBijection(FlipDiagSquare, FlipDiagSquare)
  {
    forall k | IsSquare(k)
      ensures IsSquare(FlipDiagSquare(k)) && IsSquare(FlipDiagSquare(k)) && FlipDiagSquare(FlipDiagSquare(k)) == k && FlipDiagSquare(FlipDiagSquare(k)) == k
    {
      FlipDiagSquareInvolution(k);
    }
  }

  lemma FlipDiagMoves(b: Bitboard)
    ensures MovedBy(FlipDiag(b), b, FlipDiagSquare)
  {
    forall k | IsSquare(k) ensures FlipDiagSquare(k) in Squares(FlipDiag(b)) <==> k in Squares(b) {
      FlipDiagAt(b, k);
    }
  }

  /** FlipDiag keeps the number of squares. */
  lemma FlipDiagCount(b: Bitboard)
    ensures Popcount(FlipDiag(b)) == Popcount(b)
  {
    FlipDiagMoves(b);
    FlipDiagSquareBijection();
    PermutedCount(FlipDiag(b), b, FlipDiagSquare, FlipDiagSquare);
  }

  lemma FlipAntiDiagSquareBijection()
    ensures SquareBijection(FlipAntiDiagSquare, FlipAntiDiagSquare)
  {
    forall k | IsSquare(k)
      ensures IsSquare(FlipAntiDiagSquare(k)) && IsSquare(FlipAntiDiagSquare(k)) && FlipAntiDiagSquare(FlipAntiDiagSquare(k)) == k && FlipAntiDiagSquare(FlipAntiDiagSquare(k)) == k
    {
      FlipAntiDiagSquareInvolution(k);
    }
  }

  lemma FlipAntiDiagMoves(b: Bitboard)
    ensures MovedBy(FlipAntiDiag(b), b, FlipAntiDiagSquare)
  {
    forall k | IsSquare(k) ensures FlipAntiDiagSquare(k) in Squares(FlipAntiDiag(b)) <==> k in Squares(b) {
      FlipAntiDiagAt(b, k);
    }
  }

  /** FlipAntiDiag keeps the number of squares. */
  lemma FlipAntiDiagCount(b: Bitboard)
    ensures Popcount(FlipAntiDiag(b)) == Popcount(b)
  {
    FlipAntiDiagMoves(b);
    FlipAntiDiagSquareBijection();
    PermutedCount(FlipAntiDiag(b), b, FlipAntiDiagSquare, FlipAntiDiagSquare);
  }

  lemma Rotate90CwSquareBijection()
    ensures SquareBijection(Rotate90CwSquare, Rotate90CcwSquare)
  {
    forall k | IsSquare(k)
      ensures IsSquare(Rotate90CwSquare(k)) && IsSquare(Rotate90CcwSquare(k)) && Rotate90CcwSquare(Rotate90CwSquare(k)) == k && Rotate90CwSquare(Rotate90CcwSquare(k)) == k
    {
      Rotate90SquareInverse(k);
    }
  }

  lemma Rotate90CwMoves(b: Bitboard)
    ensures MovedBy(Rotate90Cw(b), b, Rotate90CwSquare)
  {
    forall k | IsSquare(k) ensures Rotate90CwSquare(k) in Squares(Rotate90Cw(b)) <==> k in Squares(b) {
      Rotate90CwAt(b, k);
    }
  }

  /** Rotate90Cw keeps the number of squares. */
  lemma Rotate90CwCount(b: Bitboard)
    ensures Popcount(Rotate90Cw(b)) == Popcount(b)
  {
    Rotate90CwMoves(b);
    Rotate90CwSquareBijection();
    PermutedCount(Rotate90Cw(b), b, Rotate90CwSquare, Rotate90CcwSquare);
  }

  lemma Rotate90CcwSquareBijection()
    ensures SquareBijection(Rotate90CcwSquare, Rotate90CwSquare)
  {
    forall k | IsSquare(k)
      ensures IsSquare(Rotate90CcwSquare(k)) && IsSquare(Rotate90CwSquare(k)) && Rotate90CwSquare(Rotate90CcwSquare(k)) == k && Rotate90CcwSquare(Rotate90CwSquare(k)) == k
    {
      Rotate90SquareInverse(k);
    }
  }

  lemma Rotate90CcwMoves(b: Bitboard)
    ensures MovedBy(Rotate90Ccw(b), b, Rotate90CcwSquare)
  {
    forall k | IsSquare(k) ensures Rotate90CcwSquare(k) in Squares(Rotate90Ccw(b)) <==> k in Squares(b) {
      Rotate90CcwAt(b, k);
    }
  }

  /** Rotate90Ccw keeps the number of squares. */
  lemma Rotate90CcwCount(b: Bitboard)
    ensures Popcount(Rotate90Ccw(b)) == Popcount(b)
  {
    Rotate90CcwMoves(b);
    Rotate90CcwSquareBijection();
    PermutedCount(Rotate90Ccw(b), b, Rotate90CcwSquare, Rotate90CwSquare);
  }

  lemma PseudoRotate45CwSquareBijection()
    ensures SquareBijection(PseudoRotate45CwSquare, PseudoRotate45CwInverseSquare)
  {
    forall k | IsSquare(k)
      ensures IsSquare(PseudoRotate45CwSquare(k)) && IsSquare(PseudoRotate45CwInverseSquare(k)) && PseudoRotate45CwInverseSquare(PseudoRotate45CwSquare(k)) == k && PseudoRotate45CwSquare(PseudoRotate45CwInverseSquare(k)) == k
    {
      PseudoRotate45CwSquareInverse(k);
      PseudoRotate45CwInverseSquareInverse(k);
    }
  }

  lemma PseudoRotate45CwMoves(b: Bitboard)
    ensures MovedBy(PseudoRotate45Cw(b), b, PseudoRotate45CwSquare)
  {
    forall k | IsSquare(k) ensures PseudoRotate45CwSquare(k) in Squares(PseudoRotate45Cw(b)) <==> k in Squares(b) {
      PseudoRotate45CwAt(b, k);
    }
  }

  /** PseudoRotate45Cw keeps the number of squares. */
  lemma PseudoRotate45CwCount(b: Bitboard)
    ensures Popcount(PseudoRotate45Cw(b)) == Popcount(b)
  {
    PseudoRotate45CwMoves(b);
    PseudoRotate45CwSquareBijection();
    PermutedCount(PseudoRotate45Cw(b), b, PseudoRotate45CwSquare, PseudoRotate45CwInverseSquare);
  }

  lemma PseudoRotate45CcwSquareBijection()
    ensures SquareBijection(PseudoRotate45CcwSquare, PseudoRotate45CcwInverseSquare)
  {
    forall k | IsSquare(k)
      ensures IsSquare(PseudoRotate45CcwSquare(k)) && IsSquare(PseudoRotate45CcwInverseSquare(k)) && PseudoRotate45CcwInverseSquare(PseudoRotate45CcwSquare(k)) == k && PseudoRotate45CcwSquare(PseudoRotate45CcwInverseSquare(k)) == k
    {
      PseudoRotate45CcwSquareInverse(k);
      PseudoRotate45CcwInverseSquareInverse(k);
    }
  }

  lemma PseudoRotate45CcwMoves(b: Bitboard)
    ensures MovedBy(PseudoRotate45Ccw(b), b, PseudoRotate45CcwSquare)
  {
    forall k | IsSquare(k) ensures PseudoRotate45CcwSquare(k) in Squares(PseudoRotate45Ccw(b)) <==> k in Squares(b) {
      PseudoRotate45CcwAt(b, k);
    }
  }

  /** PseudoRotate45Ccw keeps the number of squares. */
  lemma PseudoRotate45CcwCount(b: Bitboard)
    ensures Popcount(PseudoRotate45Ccw(b)) == Popcount(b)
  {
    PseudoRotate45CcwMoves(b);
    PseudoRotate45CcwSquareBijection();
    PermutedCount(PseudoRotate45Ccw(b), b, PseudoRotate45CcwSquare, PseudoRotate45CcwInverseSquare);
  }

  lemma PseudoRotate45CwInverseSquareBijection()
    ensures SquareBijection(PseudoRotate45CwInverseSquare, PseudoRotate45CwSquare)
  {
    forall k | IsSquare(k)
      ensures IsSquare(PseudoRotate45CwInverseSquare(k)) && IsSquare(PseudoRotate45CwSquare(k)) && PseudoRotate45CwSquare(PseudoRotate45CwInverseSquare(k)) == k && PseudoRotate45CwInverseSquare(PseudoRotate45CwSquare(k)) == k
    {
      PseudoRotate45CwSquareInverse(k);
      PseudoRotate45CwInverseSquareInverse(k);
    }
  }

  lemma PseudoRotate45CwInverseMoves(b: Bitboard)
    ensures MovedBy(PseudoRotate45CwInverse(b), b, PseudoRotate45CwInverseSquare)
  {
    forall k | IsSquare(k) ensures PseudoRotate45CwInverseSquare(k) in Squares(PseudoRotate45CwInverse(b)) <==> k in Squares(b) {
      PseudoRotate45CwInverseAt(b, k);
    }
  }

  /** PseudoRotate45CwInverse keeps the number of squares. */
  lemma PseudoRotate45CwInverseCount(b: Bitboard)
    ensures Popcount(PseudoRotate45CwInverse(b)) == Popcount(b)
  {
    PseudoRotate45CwInverseMoves(b);
    PseudoRotate45CwInverseSquareBijection();
    PermutedCount(PseudoRotate45CwInverse(b), b, PseudoRotate45CwInverseSquare, PseudoRotate45CwSquare);
  }

  lemma PseudoRotate45CcwInverseSquareBijection()
    ensures SquareBijection(PseudoRotate45CcwInverseSquare, PseudoRotate45CcwSquare)
  {
    forall k | IsSquare(k)
      ensures IsSquare(PseudoRotate45CcwInverseSquare(k)) && IsSquare(PseudoRotate45CcwSquare(k)) && PseudoRotate45CcwSquare(PseudoRotate45CcwInverseSquare(k)) == k && PseudoRotate45CcwInverseSquare(PseudoRotate45CcwSquare(k)) == k
    {
      PseudoRotate45CcwSquareInverse(k);
      PseudoRotate45CcwInverseSquareInverse(k);
    }
  }

  lemma PseudoRotate45CcwInverseMoves(b: Bitboard)
    ensures MovedBy(PseudoRotate45CcwInverse(b), b, PseudoRotate45CcwInverseSquare)
  {
    forall k | IsSquare(k) ensures PseudoRotate45CcwInverseSquare(k) in Squares(PseudoRotate45CcwInverse(b)) <==> k in Squares(b) {
      PseudoRotate45CcwInverseAt(b, k);
    }
  }

  /** PseudoRotate45CcwInverse keeps the number of squares. */
  lemma PseudoRotate45CcwInverseCount(b: Bitboard)
    ensures Popcount(PseudoRotate45CcwInverse(b)) == Popcount(b)
  {
    PseudoRotate45CcwInverseMoves(b);
    PseudoRotate45CcwInverseSquareBijection();
    PermutedCount(PseudoRotate45CcwInverse(b), b, PseudoRotate45CcwInverseSquare, PseudoRotate45CcwSquare);
  }
}
