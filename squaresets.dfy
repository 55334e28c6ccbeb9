/**
 * A board is determined by the squares it holds. The engine compares whole
 * words (`~(black | white) == 0`, `black == 0`); these lemmas turn such word
 * facts into facts about squares and back.
 */
module SquareSets {
  import opened Bitboards
  import opened Popcounts

  /** A byte is determined by its eight bits. */
  lemma BitsOfByte(x: bv8, y: bv8)
    requires On(x, 0) == On(y, 0) && On(x, 1) == On(y, 1) && On(x, 2) == On(y, 2) && On(x, 3) == On(y, 3)
    requires On(x, 4) == On(y, 4) && On(x, 5) == On(y, 5) && On(x, 6) == On(y, 6) && On(x, 7) == On(y, 7)
    ensures x == y
  {}

  /** A word is determined by its eight bytes. */
  lemma BytesOfWord(a: Bitboard, b: Bitboard)
    requires Byte(a, 0) == Byte(b, 0) && Byte(a, 1) == Byte(b, 1) && Byte(a, 2) == Byte(b, 2) && Byte(a, 3) == Byte(b, 3)
    requires Byte(a, 4) == Byte(b, 4) && Byte(a, 5) == Byte(b, 5) && Byte(a, 6) == Byte(b, 6) && Byte(a, 7) == Byte(b, 7)
    ensures a == b
  {}

  /** Two boards with the same squares on row j have the same byte j. */
  lemma SameRow(a: Bitboard, b: Bitboard, j: int)
    requires 0 <= j < 8
    requires forall k | IsSquare(k) :: Has(a, k) == Has(b, k)
    ensures Byte(a, Bv3(j)) == Byte(b, Bv3(j))
  {
    forall i | 0 <= i < 8
      ensures On(Byte(a, Bv3(j)), Bv3(i)) == On(Byte(b, Bv3(j)), Bv3(i))
    {
      ByteBit(a, j, i);
      ByteBit(b, j, i);
    }
    var x, y := Byte(a, Bv3(j)), Byte(b, Bv3(j));
    assert On(x, Bv3(0)) == On(y, Bv3(0)) && On(x, Bv3(1)) == On(y, Bv3(1));
    assert On(x, Bv3(2)) == On(y, Bv3(2)) && On(x, Bv3(3)) == On(y, Bv3(3));
    assert On(x, Bv3(4)) == On(y, Bv3(4)) && On(x, Bv3(5)) == On(y, Bv3(5));
    assert On(x, Bv3(6)) == On(y, Bv3(6)) && On(x, Bv3(7)) == On(y, Bv3(7));
    BitsOfByte(x, y);
  }

  /** Two boards holding the same squares are the same word. */
  lemma Extensional(a: Bitboard, b: Bitboard)
    requires forall k | IsSquare(k) :: Has(a, k) == Has(b, k)
    ensures a == b
  {
    SameRow(a, b, 0); SameRow(a, b, 1); SameRow(a, b, 2); SameRow(a, b, 3);
    SameRow(a, b, 4); SameRow(a, b, 5); SameRow(a, b, 6); SameRow(a, b, 7);
    assert Bv3(0) == 0 && Bv3(1) == 1 && Bv3(2) == 2 && Bv3(3) == 3;
    assert Bv3(4) == 4 && Bv3(5) == 5 && Bv3(6) == 6 && Bv3(7) == 7;
    BytesOfWord(a, b);
  }

  /** Boards are equal exactly when their square sets are. */
  lemma SquaresDetermine(a: Bitboard, b: Bitboard)
    ensures (Squares(a) == Squares(b)) == (a == b)
  {
    if Squares(a) == Squares(b) {
      forall k | IsSquare(k) ensures Has(a, k) == Has(b, k) {
        assert Has(a, k) <==> k in Squares(a);
      }
      Extensional(a, b);
    }
  }

  /** The zero word is the board without pieces (`black == 0`). */
  lemma EmptyBoard(b: Bitboard)
    ensures (b == 0) == (Squares(b) == {})
  {
    if b == 0 {
      forall k | k in Squares(b) ensures false { HasZero(k); }
    } else if Squares(b) == {} {
      forall k | IsSquare(k) ensures Has(b, k) == Has(0, k) {
        HasZero(k);
        assert k !in Squares(b);
      }
      Extensional(b, 0);
    }
  }

  /** Every bit of b is set exactly when its complement is zero (`~(black | white) == 0`). */
  lemma FullBoard(b: Bitboard)
    ensures (!b == 0) == (forall k | IsSquare(k) :: Has(b, k))
  {
    var ones: Bitboard := 0xFFFF_FFFF_FFFF_FFFF;
    forall k | IsSquare(k) ensures Has(ones, k) { }
    if forall k | IsSquare(k) :: Has(b, k) {
      Extensional(b, ones);
    }
  }

  /** Two boards share no bit exactly when they share no square. */
  lemma DisjointBoards(a: Bitboard, b: Bitboard)
    ensures (a & b == 0) == (Squares(a) !! Squares(b))
  {
    forall k | IsSquare(k) ensures Has(a & b, k) == (k in Squares(a) && k in Squares(b)) {
      HasAnd(a, b, k);
    }
    if Squares(a) !! Squares(b) {
      forall k | IsSquare(k) ensures Has(a & b, k) == Has(0, k) {
        HasZero(k);
      }
      Extensional(a & b, 0);
    } else {
      var k :| k in Squares(a) && k in Squares(b);
      if a & b == 0 {
        HasZero(k);
      }
    }
  }
}
