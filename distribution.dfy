/**
 * The board transforms commute with the set operations: transforming a
 * union, intersection or symmetric difference of two boards gives the union,
 * intersection or symmetric difference of the transformed boards. The engine
 * ORs move masks computed in different orientations and relies on this.
 *
 * Each is derived from the transform being a permutation of the squares
 * (`Popcounts.MovedBy` with a `SquareBijection`), one square at a time.
 */
module Distribution {
  import opened Bitboards
  import opened Popcounts
  import opened SquareSets

  /** The squares of a | b are those of a and those of b. */
  lemma SquaresOr(a: Bitboard, b: Bitboard)
    ensures Squares(a | b) == Squares(a) + Squares(b)
  {
    forall k | IsSquare(k) ensures Has(a | b, k) == (Has(a, k) || Has(b, k)) {
      HasOr(a, b, k);
    }
  }

  /** The squares of a & b are those in both a and b. */
  lemma SquaresAnd(a: Bitboard, b: Bitboard)
    ensures Squares(a & b) == Squares(a) * Squares(b)
  {
    forall k | IsSquare(k) ensures Has(a & b, k) == (Has(a, k) && Has(b, k)) {
      HasAnd(a, b, k);
    }
  }

  /** The squares of a ^ b are those in exactly one of a and b. */
  lemma SquaresXor(a: Bitboard, b: Bitboard)
    ensures Squares(a ^ b) == (Squares(a) - Squares(b)) + (Squares(b) - Squares(a))
  {
    forall k | IsSquare(k) ensures Has(a ^ b, k) == (Has(a, k) != Has(b, k)) {
      HasXor(a, b, k);
    }
  }

  /** Sets of squares moved by a bijection f: sm holds f(k) exactly when s holds k. */
  ghost predicate MovedSet(sm: set<int>, s: set<int>, f: int -> int)
  {
    (forall k :: k in sm ==> IsSquare(k)) &&
    (forall k :: IsSquare(k) ==> (f(k) in sm <==> k in s))
  }

  /** Moving a union of square sets moves each part. */
  lemma MovedUnion(ta: set<int>, tb: set<int>, t: set<int>, a: set<int>, b: set<int>, f: int -> int, g: int -> int)
    requires SquareBijection(f, g) && MovedSet(ta, a, f) && MovedSet(tb, b, f) && MovedSet(t, a + b, f)
    ensures t == ta + tb
  {
    forall j | j in ta + tb ensures j in t {
      assert IsSquare(g(j)) && f(g(j)) == j;
    }
    forall j | j in t ensures j in ta + tb {
      assert IsSquare(g(j)) && f(g(j)) == j;
    }
  }

  /** Moving an intersection of square sets moves each part. */
  lemma MovedIntersection(ta: set<int>, tb: set<int>, t: set<int>, a: set<int>, b: set<int>, f: int -> int, g: int -> int)
    requires SquareBijection(f, g) && MovedSet(ta, a, f) && MovedSet(tb, b, f) && MovedSet(t, a * b, f)
    ensures t == ta * tb
  {
    forall j | j in ta * tb ensures j in t {
      assert IsSquare(g(j)) && f(g(j)) == j;
    }
    forall j | j in t ensures j in ta * tb {
      assert IsSquare(g(j)) && f(g(j)) == j;
    }
  }

  /** Moving a symmetric difference of square sets moves each part. */
  lemma MovedDifference(ta: set<int>, tb: set<int>, t: set<int>, a: set<int>, b: set<int>, f: int -> int, g: int -> int)
    requires SquareBijection(f, g) && MovedSet(ta, a, f) && MovedSet(tb, b, f)
    requires MovedSet(t, (a - b) + (b - a), f)
    ensures t == (ta - tb) + (tb - ta)
  {
    DifferenceInto(ta, tb, t, a, b, f, g);
    DifferenceFrom(ta, tb, t, a, b, f, g);
  }

  lemma DifferenceInto(ta: set<int>, tb: set<int>, t: set<int>, a: set<int>, b: set<int>, f: int -> int, g: int -> int)
    requires SquareBijection(f, g) && MovedSet(ta, a, f) && MovedSet(tb, b, f)
    requires MovedSet(t, (a - b) + (b - a), f)
    ensures (ta - tb) + (tb - ta) <= t
  {
    forall j | j in (ta - tb) + (tb - ta) ensures j in t {
      assert IsSquare(g(j)) && f(g(j)) == j;
    }
  }

  lemma DifferenceFrom(ta: set<int>, tb: set<int>, t: set<int>, a: set<int>, b: set<int>, f: int -> int, g: int -> int)
    requires SquareBijection(f, g) && MovedSet(ta, a, f) && MovedSet(tb, b, f)
    requires MovedSet(t, (a - b) + (b - a), f)
    ensures t <= (ta - tb) + (tb - ta)
  {
    forall j | j in t ensures j in (ta - tb) + (tb - ta) {
      assert IsSquare(g(j)) && f(g(j)) == j;
    }
  }

  /** A board moved by a bijection has its squares moved by it. */
  lemma MovedSquareSet(tb: Bitboard, b: Bitboard, f: int -> int)
    requires MovedBy(tb, b, f)
    ensures MovedSet(Squares(tb), Squares(b), f)
  {
    SquaresAreSquares(tb);
  }

  /** A board moved by a bijection from a | b is the union of the moved a and b. */
  lemma MovedOr(ta: Bitboard, tb: Bitboard, t: Bitboard, a: Bitboard, b: Bitboard, f: int -> int, g: int -> int)
    requires SquareBijection(f, g) && MovedBy(ta, a, f) && MovedBy(tb, b, f) && MovedBy(t, a | b, f)
    ensures t == ta | tb
  {
    MovedSquareSet(ta, a, f);
    MovedSquareSet(tb, b, f);
    MovedSquareSet(t, a | b, f);
    SquaresOr(a, b);
    SquaresOr(ta, tb);
    MovedUnion(Squares(ta), Squares(tb), Squares(t), Squares(a), Squares(b), f, g);
    SquaresDetermine(t, ta | tb);
  }

  /** A board moved by a bijection from a & b is the intersection of the moved a and b. */
  lemma MovedAnd(ta: Bitboard, tb: Bitboard, t: Bitboard, a: Bitboard, b: Bitboard, f: int -> int, g: int -> int)
    requires SquareBijection(f, g) && MovedBy(ta, a, f) && MovedBy(tb, b, f) && MovedBy(t, a & b, f)
    ensures t == ta & tb
  {
    MovedSquareSet(ta, a, f);
    MovedSquareSet(tb, b, f);
    MovedSquareSet(t, a & b, f);
    SquaresAnd(a, b);
    SquaresAnd(ta, tb);
    MovedIntersection(Squares(ta), Squares(tb), Squares(t), Squares(a), Squares(b), f, g);
    SquaresDetermine(t, ta & tb);
  }

  /** A board moved by a bijection from a ^ b is the symmetric difference of the moved a and b. */
  lemma MovedXor(ta: Bitboard, tb: Bitboard, t: Bitboard, a: Bitboard, b: Bitboard, f: int -> int, g: int -> int)
    requires SquareBijection(f, g) && MovedBy(ta, a, f) && MovedBy(tb, b, f) && MovedBy(t, a ^ b, f)
    ensures t == ta ^ tb
  {
    MovedSquareSet(ta, a, f);
    MovedSquareSet(tb, b, f);
    MovedSquareSet(t, a ^ b, f);
    SquaresXor(a, b);
    SquaresXor(ta, tb);
    MovedDifference(Squares(ta), Squares(tb), Squares(t), Squares(a), Squares(b), f, g);
    SquaresDetermine(t, ta ^ tb);
  }

  lemma FlipHorizontalOr(a: Bitboard, b: Bitboard)
    ensures FlipHorizontal(a | b) == FlipHorizontal(a) | FlipHorizontal(b)
  {
    FlipHorizontalSquareBijection();
    FlipHorizontalMoves(a);
    FlipHorizontalMoves(b);
    FlipHorizontalMoves(a | b);
    MovedOr(FlipHorizontal(a), FlipHorizontal(b), FlipHorizontal(a | b), a, b, FlipHorizontalSquare, FlipHorizontalSquare);
  }

  lemma FlipHorizontalAnd(a: Bitboard, b: Bitboard)
    ensures FlipHorizontal(a & b) == FlipHorizontal(a) & FlipHorizontal(b)
  {
    FlipHorizontalSquareBijection();
    FlipHorizontalMoves(a);
    FlipHorizontalMoves(b);
    FlipHorizontalMoves(a & b);
    MovedAnd(FlipHorizontal(a), FlipHorizontal(b), FlipHorizontal(a & b), a, b, FlipHorizontalSquare, FlipHorizontalSquare);
  }

  lemma FlipHorizontalXor(a: Bitboard, b: Bitboard)
    ensures FlipHorizontal(a ^ b) == FlipHorizontal(a) ^ FlipHorizontal(b)
  {
    FlipHorizontalSquareBijection();
    FlipHorizontalMoves(a);
    FlipHorizontalMoves(b);
    FlipHorizontalMoves(a ^ b);
    MovedXor(FlipHorizontal(a), FlipHorizontal(b), FlipHorizontal(a ^ b), a, b, FlipHorizontalSquare, FlipHorizontalSquare);
  }

  lemma FlipVerticalOr(a: Bitboard, b: Bitboard)
    ensures FlipVertical(a | b) == FlipVertical(a) | FlipVertical(b)
  {
    FlipVerticalSquareBijection();
    FlipVerticalMoves(a);
    FlipVerticalMoves(b);
    FlipVerticalMoves(a | b);
    MovedOr(FlipVertical(a), FlipVertical(b), FlipVertical(a | b), a, b, FlipVerticalSquare, FlipVerticalSquare);
  }

  lemma FlipVerticalAnd(a: Bitboard, b: Bitboard)
    ensures FlipVertical(a & b) == FlipVertical(a) & FlipVertical(b)
  {
    FlipVerticalSquareBijection();
    FlipVerticalMoves(a);
    FlipVerticalMoves(b);
    FlipVerticalMoves(a & b);
    MovedAnd(FlipVertical(a), FlipVertical(b), FlipVertical(a & b), a, b, FlipVerticalSquare, FlipVerticalSquare);
  }

  lemma FlipVerticalXor(a: Bitboard, b: Bitboard)
    ensures FlipVertical(a ^ b) == FlipVertical(a) ^ FlipVertical(b)
  {
    FlipVerticalSquareBijection();
    FlipVerticalMoves(a);
    FlipVerticalMoves(b);
    FlipVerticalMoves(a ^ b);
    MovedXor(FlipVertical(a), FlipVertical(b), FlipVertical(a ^ b), a, b, FlipVerticalSquare, FlipVerticalSquare);
  }

  lemma FlipDiagOr(a: Bitboard, b: Bitboard)
    ensures FlipDiag(a | b) == FlipDiag(a) | FlipDiag(b)
  {
    FlipDiagSquareBijection();
    FlipDiagMoves(a);
    FlipDiagMoves(b);
    FlipDiagMoves(a | b);
    MovedOr(FlipDiag(a), FlipDiag(b), FlipDiag(a | b), a, b, FlipDiagSquare, FlipDiagSquare);
  }

  lemma FlipDiagAnd(a: Bitboard, b: Bitboard)
    ensures FlipDiag(a & b) == FlipDiag(a) & FlipDiag(b)
  {
    FlipDiagSquareBijection();
    FlipDiagMoves(a);
    FlipDiagMoves(b);
    FlipDiagMoves(a & b);
    MovedAnd(FlipDiag(a), FlipDiag(b), FlipDiag(a & b), a, b, FlipDiagSquare, FlipDiagSquare);
  }

  lemma FlipDiagXor(a: Bitboard, b: Bitboard)
    ensures FlipDiag(a ^ b) == FlipDiag(a) ^ FlipDiag(b)
  {
    FlipDiagSquareBijection();
    FlipDiagMoves(a);
    FlipDiagMoves(b);
    FlipDiagMoves(a ^ b);
    MovedXor(FlipDiag(a), FlipDiag(b), FlipDiag(a ^ b), a, b, FlipDiagSquare, FlipDiagSquare);
  }

  lemma FlipAntiDiagOr(a: Bitboard, b: Bitboard)
    ensures FlipAntiDiag(a | b) == FlipAntiDiag(a) | FlipAntiDiag(b)
  {
    FlipAntiDiagSquareBijection();
    FlipAntiDiagMoves(a);
    FlipAntiDiagMoves(b);
    FlipAntiDiagMoves(a | b);
    MovedOr(FlipAntiDiag(a), FlipAntiDiag(b), FlipAntiDiag(a | b), a, b, FlipAntiDiagSquare, FlipAntiDiagSquare);
  }

  lemma FlipAntiDiagAnd(a: Bitboard, b: Bitboard)
    ensures FlipAntiDiag(a & b) == FlipAntiDiag(a) & FlipAntiDiag(b)
  {
    FlipAntiDiagSquareBijection();
    FlipAntiDiagMoves(a);
    FlipAntiDiagMoves(b);
    FlipAntiDiagMoves(a & b);
    MovedAnd(FlipAntiDiag(a), FlipAntiDiag(b), FlipAntiDiag(a & b), a, b, FlipAntiDiagSquare, FlipAntiDiagSquare);
  }

  lemma FlipAntiDiagXor(a: Bitboard, b: Bitboard)
    ensures FlipAntiDiag(a ^ b) == FlipAntiDiag(a) ^ FlipAntiDiag(b)
  {
    FlipAntiDiagSquareBijection();
    FlipAntiDiagMoves(a);
    FlipAntiDiagMoves(b);
    FlipAntiDiagMoves(a ^ b);
    MovedXor(FlipAntiDiag(a), FlipAntiDiag(b), FlipAntiDiag(a ^ b), a, b, FlipAntiDiagSquare, FlipAntiDiagSquare);
  }

  lemma Rotate90CwOr(a: Bitboard, b: Bitboard)
    ensures Rotate90Cw(a | b) == Rotate90Cw(a) | Rotate90Cw(b)
  {
    Rotate90CwSquareBijection();
    Rotate90CwMoves(a);
    Rotate90CwMoves(b);
    Rotate90CwMoves(a | b);
    MovedOr(Rotate90Cw(a), Rotate90Cw(b), Rotate90Cw(a | b), a, b, Rotate90CwSquare, Rotate90CcwSquare);
  }

  lemma Rotate90CwAnd(a: Bitboard, b: Bitboard)
    ensures Rotate90Cw(a & b) == Rotate90Cw(a) & Rotate90Cw(b)
  {
    Rotate90CwSquareBijection();
    Rotate90CwMoves(a);
    Rotate90CwMoves(b);
    Rotate90CwMoves(a & b);
    MovedAnd(Rotate90Cw(a), Rotate90Cw(b), Rotate90Cw(a & b), a, b, Rotate90CwSquare, Rotate90CcwSquare);
  }

  lemma Rotate90CwXor(a: Bitboard, b: Bitboard)
    ensures Rotate90Cw(a ^ b) == Rotate90Cw(a) ^ Rotate90Cw(b)
  {
    Rotate90CwSquareBijection();
    Rotate90CwMoves(a);
    Rotate90CwMoves(b);
    Rotate90CwMoves(a ^ b);
    MovedXor(Rotate90Cw(a), Rotate90Cw(b), Rotate90Cw(a ^ b), a, b, Rotate90CwSquare, Rotate90CcwSquare);
  }

  lemma Rotate90CcwOr(a: Bitboard, b: Bitboard)
    ensures Rotate90Ccw(a | b) == Rotate90Ccw(a) | Rotate90Ccw(b)
  {
    Rotate90CcwSquareBijection();
    Rotate90CcwMoves(a);
    Rotate90CcwMoves(b);
    Rotate90CcwMoves(a | b);
    MovedOr(Rotate90Ccw(a), Rotate90Ccw(b), Rotate90Ccw(a | b), a, b, Rotate90CcwSquare, Rotate90CwSquare);
  }

  lemma Rotate90CcwAnd(a: Bitboard, b: Bitboard)
    ensures Rotate90Ccw(a & b) == Rotate90Ccw(a) & Rotate90Ccw(b)
  {
    Rotate90CcwSquareBijection();
    Rotate90CcwMoves(a);
    Rotate90CcwMoves(b);
    Rotate90CcwMoves(a & b);
    MovedAnd(Rotate90Ccw(a), Rotate90Ccw(b), Rotate90Ccw(a & b), a, b, Rotate90CcwSquare, Rotate90CwSquare);
  }

  lemma Rotate90CcwXor(a: Bitboard, b: Bitboard)
    ensures Rotate90Ccw(a ^ b) == Rotate90Ccw(a) ^ Rotate90Ccw(b)
  {
    Rotate90CcwSquareBijection();
    Rotate90CcwMoves(a);
    Rotate90CcwMoves(b);
    Rotate90CcwMoves(a ^ b);
    MovedXor(Rotate90Ccw(a), Rotate90Ccw(b), Rotate90Ccw(a ^ b), a, b, Rotate90CcwSquare, Rotate90CwSquare);
  }

  lemma PseudoRotate45CwOr(a: Bitboard, b: Bitboard)
    ensures PseudoRotate45Cw(a | b) == PseudoRotate45Cw(a) | PseudoRotate45Cw(b)
  {
    PseudoRotate45CwSquareBijection();
    PseudoRotate45CwMoves(a);
    PseudoRotate45CwMoves(b);
    PseudoRotate45CwMoves(a | b);
    MovedOr(PseudoRotate45Cw(a), PseudoRotate45Cw(b), PseudoRotate45Cw(a | b), a, b, PseudoRotate45CwSquare, PseudoRotate45CwInverseSquare);
  }

  lemma PseudoRotate45CwAnd(a: Bitboard, b: Bitboard)
    ensures PseudoRotate45Cw(a & b) == PseudoRotate45Cw(a) & PseudoRotate45Cw(b)
  {
    PseudoRotate45CwSquareBijection();
    PseudoRotate45CwMoves(a);
    PseudoRotate45CwMoves(b);
    PseudoRotate45CwMoves(a & b);
    MovedAnd(PseudoRotate45Cw(a), PseudoRotate45Cw(b), PseudoRotate45Cw(a & b), a, b, PseudoRotate45CwSquare, PseudoRotate45CwInverseSquare);
  }

  lemma PseudoRotate45CwXor(a: Bitboard, b: Bitboard)
    ensures PseudoRotate45Cw(a ^ b) == PseudoRotate45Cw(a) ^ PseudoRotate45Cw(b)
  {
    PseudoRotate45CwSquareBijection();
    PseudoRotate45CwMoves(a);
    PseudoRotate45CwMoves(b);
    PseudoRotate45CwMoves(a ^ b);
    MovedXor(PseudoRotate45Cw(a), PseudoRotate45Cw(b), PseudoRotate45Cw(a ^ b), a, b, PseudoRotate45CwSquare, PseudoRotate45CwInverseSquare);
  }

  lemma PseudoRotate45CcwOr(a: Bitboard, b: Bitboard)
    ensures PseudoRotate45Ccw(a | b) == PseudoRotate45Ccw(a) | PseudoRotate45Ccw(b)
  {
    PseudoRotate45CcwSquareBijection();
    PseudoRotate45CcwMoves(a);
    PseudoRotate45CcwMoves(b);
    PseudoRotate45CcwMoves(a | b);
    MovedOr(PseudoRotate45Ccw(a), PseudoRotate45Ccw(b), PseudoRotate45Ccw(a | b), a, b, PseudoRotate45CcwSquare, PseudoRotate45CcwInverseSquare);
  }

  lemma PseudoRotate45CcwAnd(a: Bitboard, b: Bitboard)
    ensures PseudoRotate45Ccw(a & b) == PseudoRotate45Ccw(a) & PseudoRotate45Ccw(b)
  {
    PseudoRotate45CcwSquareBijection();
    PseudoRotate45CcwMoves(a);
    PseudoRotate45CcwMoves(b);
    PseudoRotate45CcwMoves(a & b);
    MovedAnd(PseudoRotate45Ccw(a), PseudoRotate45Ccw(b), PseudoRotate45Ccw(a & b), a, b, PseudoRotate45CcwSquare, PseudoRotate45CcwInverseSquare);
  }

  lemma PseudoRotate45CcwXor(a: Bitboard, b: Bitboard)
    ensures PseudoRotate45Ccw(a ^ b) == PseudoRotate45Ccw(a) ^ PseudoRotate45Ccw(b)
  {
    PseudoRotate45CcwSquareBijection();
    PseudoRotate45CcwMoves(a);
    PseudoRotate45CcwMoves(b);
    PseudoRotate45CcwMoves(a ^ b);
    MovedXor(PseudoRotate45Ccw(a), PseudoRotate45Ccw(b), PseudoRotate45Ccw(a ^ b), a, b, PseudoRotate45CcwSquare, PseudoRotate45CcwInverseSquare);
  }

  lemma PseudoRotate45CwInverseOr(a: Bitboard, b: Bitboard)
    ensures PseudoRotate45CwInverse(a | b) == PseudoRotate45CwInverse(a) | PseudoRotate45CwInverse(b)
  {
    PseudoRotate45CwInverseSquareBijection();
    PseudoRotate45CwInverseMoves(a);
    PseudoRotate45CwInverseMoves(b);
    PseudoRotate45CwInverseMoves(a | b);
    MovedOr(PseudoRotate45CwInverse(a), PseudoRotate45CwInverse(b), PseudoRotate45CwInverse(a | b), a, b, PseudoRotate45CwInverseSquare, PseudoRotate45CwSquare);
  }

  lemma PseudoRotate45CwInverseAnd(a: Bitboard, b: Bitboard)
    ensures PseudoRotate45CwInverse(a & b) == PseudoRotate45CwInverse(a) & PseudoRotate45CwInverse(b)
  {
    PseudoRotate45CwInverseSquareBijection();
    PseudoRotate45CwInverseMoves(a);
    PseudoRotate45CwInverseMoves(b);
    PseudoRotate45CwInverseMoves(a & b);
    MovedAnd(PseudoRotate45CwInverse(a), PseudoRotate45CwInverse(b), PseudoRotate45CwInverse(a & b), a, b, PseudoRotate45CwInverseSquare, PseudoRotate45CwSquare);
  }

  lemma PseudoRotate45CwInverseXor(a: Bitboard, b: Bitboard)
    ensures PseudoRotate45CwInverse(a ^ b) == PseudoRotate45CwInverse(a) ^ PseudoRotate45CwInverse(b)
  {
    PseudoRotate45CwInverseSquareBijection();
    PseudoRotate45CwInverseMoves(a);
    PseudoRotate45CwInverseMoves(b);
    PseudoRotate45CwInverseMoves(a ^ b);
    MovedXor(PseudoRotate45CwInverse(a), PseudoRotate45CwInverse(b), PseudoRotate45CwInverse(a ^ b), a, b, PseudoRotate45CwInverseSquare, PseudoRotate45CwSquare);
  }

  lemma PseudoRotate45CcwInverseOr(a: Bitboard, b: Bitboard)
    ensures PseudoRotate45CcwInverse(a | b) == PseudoRotate45CcwInverse(a) | PseudoRotate45CcwInverse(b)
  {
    PseudoRotate45CcwInverseSquareBijection();
    PseudoRotate45CcwInverseMoves(a);
    PseudoRotate45CcwInverseMoves(b);
    PseudoRotate45CcwInverseMoves(a | b);
    MovedOr(PseudoRotate45CcwInverse(a), PseudoRotate45CcwInverse(b), PseudoRotate45CcwInverse(a | b), a, b, PseudoRotate45CcwInverseSquare, PseudoRotate45CcwSquare);
  }

  lemma PseudoRotate45CcwInverseAnd(a: Bitboard, b: Bitboard)
    ensures PseudoRotate45CcwInverse(a & b) == PseudoRotate45CcwInverse(a) & PseudoRotate45CcwInverse(b)
  {
    PseudoRotate45CcwInverseSquareBijection();
    PseudoRotate45CcwInverseMoves(a);
    PseudoRotate45CcwInverseMoves(b);
    PseudoRotate45CcwInverseMoves(a & b);
    MovedAnd(PseudoRotate45CcwInverse(a), PseudoRotate45CcwInverse(b), PseudoRotate45CcwInverse(a & b), a, b, PseudoRotate45CcwInverseSquare, PseudoRotate45CcwSquare);
  }

  lemma PseudoRotate45CcwInverseXor(a: Bitboard, b: Bitboard)
    ensures PseudoRotate45CcwInverse(a ^ b) == PseudoRotate45CcwInverse(a) ^ PseudoRotate45CcwInverse(b)
  {
    PseudoRotate45CcwInverseSquareBijection();
    PseudoRotate45CcwInverseMoves(a);
    PseudoRotate45CcwInverseMoves(b);
    PseudoRotate45CcwInverseMoves(a ^ b);
    MovedXor(PseudoRotate45CcwInverse(a), PseudoRotate45CcwInverse(b), PseudoRotate45CcwInverse(a ^ b), a, b, PseudoRotate45CcwInverseSquare, PseudoRotate45CcwSquare);
  }
}
