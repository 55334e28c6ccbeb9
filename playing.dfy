/**
 * What a move does to the two sides' boards: make_move places the piece,
 * turns over every captured piece and touches nothing else.
 */
module Playing {
  import opened Bitboards
  import opened Views
  import opened Popcounts
  import opened SquareSets

  /**
   * self2 and enemy2 are the boards after self plays m against enemy: m and every
   * piece turned over join self, the turned pieces leave enemy, no other square changes.
   */
  ghost predicate Played(self: Bitboard, enemy: Bitboard, m: int, self2: Bitboard, enemy2: Bitboard)
  {
    forall p | IsSquare(p) ::
      && Has(self2, p) == (p == m || Has(self, p) || Turns(self, enemy, m, p))
      && Has(enemy2, p) == (Has(enemy, p) && !Turns(self, enemy, m, p))
  }

  /** all holds exactly the pieces a move at m turns over (make_move's all_captures). */
  ghost predicate CapturedAll(all: Bitboard, self: Bitboard, enemy: Bitboard, m: int)
  {
    forall p | IsSquare(p) :: Has(all, p) == Turns(self, enemy, m, p)
  }

  /** The squares whose pieces a move at m turns over. */
  ghost function Turned(self: Bitboard, enemy: Bitboard, m: int): set<int>
  {
    set p | 0 <= p < 64 && Turns(self, enemy, m, p)
  }

  /** Only enemy pieces are turned over, and never on the square played. */
  lemma TurnedIsEnemy(self: Bitboard, enemy: Bitboard, m: int, p: int)
    requires IsSquare(p) && Turns(self, enemy, m, p)
    ensures Has(enemy, p) && p != m
  {
    var v :| TurnsAlong(self, enemy, m, v, p);
    var d, n, t :| Encloses(self, enemy, m, v, d, n) && 1 <= t <= n && p == RaySquare(m, v, d, t);
    assert Has(enemy, RaySquare(m, v, d, t));
  }

  /** A legal move turns over at least the first enemy piece of an enclosed run. */
  lemma LegalTurnsSome(self: Bitboard, enemy: Bitboard, m: int)
    requires Legal(self, enemy, m)
    ensures Turned(self, enemy, m) != {}
  {
    var v, d, n :| Encloses(self, enemy, m, v, d, n);
    var p := RaySquare(m, v, d, 1);
    assert TurnsAlong(self, enemy, m, v, p);
    assert p in Turned(self, enemy, m);
  }

  /** A move onto an empty square keeps the two sides apart. */
  lemma PlayedDisjoint(self: Bitboard, enemy: Bitboard, m: int, self2: Bitboard, enemy2: Bitboard)
    requires self & enemy == 0 && Vacant(self, enemy, m) && Played(self, enemy, m, self2, enemy2)
    ensures self2 & enemy2 == 0
  {
    forall k | IsSquare(k) ensures Has(self2 & enemy2, k) == Has(0, k) {
      HasAnd(self2, enemy2, k);
      HasAnd(self, enemy, k);
      HasZero(k);
      if Turns(self, enemy, m, k) {
        TurnedIsEnemy(self, enemy, m, k);
      }
    }
    Extensional(self2 & enemy2, 0);
  }

  /** The mover's squares after the move: the old ones, the square played and the turned pieces. */
  lemma PlayedSelf(self: Bitboard, enemy: Bitboard, m: int, self2: Bitboard, enemy2: Bitboard)
    requires IsSquare(m) && Played(self, enemy, m, self2, enemy2)
    ensures Squares(self2) == Squares(self) + {m} + Turned(self, enemy, m)
  {}

  /** The opponent's squares before the move: the ones left afterwards and the turned pieces. */
  lemma PlayedEnemy(self: Bitboard, enemy: Bitboard, m: int, self2: Bitboard, enemy2: Bitboard)
    requires Played(self, enemy, m, self2, enemy2)
    ensures Squares(enemy) == Squares(enemy2) + Turned(self, enemy, m)
    ensures Squares(enemy2) !! Turned(self, enemy, m)
  {
    forall p | p in Turned(self, enemy, m) ensures p in Squares(enemy) {
      TurnedIsEnemy(self, enemy, m, p);
    }
  }

  /** The turned pieces, the square played and the mover's old squares are three disjoint sets. */
  lemma TurnedApart(self: Bitboard, enemy: Bitboard, m: int)
    requires self & enemy == 0 && Vacant(self, enemy, m)
    ensures m !in Squares(self) && m !in Turned(self, enemy, m) && Squares(self) !! Turned(self, enemy, m)
  {
    forall p | p in Turned(self, enemy, m) ensures p != m && p !in Squares(self) {
      TurnedIsEnemy(self, enemy, m, p);
      HasAnd(self, enemy, p);
      HasZero(p);
    }
  }

  /** Sizes of the two unions above. */
  lemma UnionSizes(own: set<int>, own2: set<int>, opp: set<int>, opp2: set<int>, m: int, turned: set<int>)
    requires own2 == own + {m} + turned && opp == opp2 + turned
    requires m !in own && m !in turned && own !! turned && opp2 !! turned
    ensures |own2| == |own| + 1 + |turned| && |opp2| == |opp| - |turned|
  {
    DisjointUnionSize(own, {m});
    DisjointUnionSize(own + {m}, turned);
    DisjointUnionSize(opp2, turned);
  }

  /**
   * The mover gains the square played and the turned pieces, the opponent loses
   * the turned pieces, so the number of pieces on the board rises by exactly one.
   */
  lemma PlayedCounts(self: Bitboard, enemy: Bitboard, m: int, self2: Bitboard, enemy2: Bitboard)
    requires self & enemy == 0 && Vacant(self, enemy, m) && Played(self, enemy, m, self2, enemy2)
    ensures Popcount(self2) == Popcount(self) + 1 + |Turned(self, enemy, m)|
    ensures Popcount(enemy2) == Popcount(enemy) - |Turned(self, enemy, m)|
    ensures Popcount(self2) + Popcount(enemy2) == Popcount(self) + Popcount(enemy) + 1
  {
    PlayedSelf(self, enemy, m, self2, enemy2);
    PlayedEnemy(self, enemy, m, self2, enemy2);
    TurnedApart(self, enemy, m);
    UnionSizes(Squares(self), Squares(self2), Squares(enemy), Squares(enemy2), m, Turned(self, enemy, m));
    PopcountIsSize(self);
    PopcountIsSize(enemy);
    PopcountIsSize(self2);
    PopcountIsSize(enemy2);
  }

  /** `self | bit` with bit the single square m: m joins self. */
  lemma SetSquare(self: Bitboard, bit: Bitboard, m: int)
    requires forall p | IsSquare(p) :: Has(bit, p) == (p == m)
    ensures forall p | IsSquare(p) :: Has(self | bit, p) == (p == m || Has(self, p))
  {
    forall p | IsSquare(p) ensures Has(self | bit, p) == (p == m || Has(self, p)) {
      HasOr(self, bit, p);
    }
  }

  /** One square of the flip `^ all`, with `turned` saying whether its piece is captured. */
  lemma FlipSquare(x: Bitboard, all: Bitboard, p: int, turned: bool)
    requires IsSquare(p) && Has(all, p) == turned
    ensures Has(x ^ all, p) == (Has(x, p) != turned)
  {
    HasXor(x, all, p);
  }

  /**
   * make_move's word operations: with own the mover's board after the new piece
   * is set and `all` the union of the captures, flipping `all` in both boards
   * plays the move.
   */
  lemma FlipCaptures(self: Bitboard, enemy: Bitboard, m: int, own: Bitboard, all: Bitboard)
    requires self & enemy == 0 && Vacant(self, enemy, m)
    requires forall p | IsSquare(p) :: Has(own, p) == (p == m || Has(self, p))
    requires CapturedAll(all, self, enemy, m)
    ensures Played(self, enemy, m, own ^ all, enemy ^ all)
  {
    forall p | IsSquare(p)
      ensures Has(own ^ all, p) == (p == m || Has(self, p) || Turns(self, enemy, m, p))
      ensures Has(enemy ^ all, p) == (Has(enemy, p) && !Turns(self, enemy, m, p))
    {
      var turned := Turns(self, enemy, m, p);
      if turned {
        TurnedIsEnemy(self, enemy, m, p);
        HasAnd(self, enemy, p);
        HasZero(p);
      }
      FlipSquare(own, all, p, turned);
      FlipSquare(enemy, all, p, turned);
    }
  }
}
