/**
 * Lines: Othello on a single line of eight squares.
 *
 * The engine solves the game once for every pair of rows (self, enemy) and
 * caches the answers in the `Moves` and `Captures` tables. Square p of a line
 * is bit p of a byte. `MovesOf` and `CapturesOf` are the engine's shift-and-mask
 * computation; `IsMove` and `Flips` state the sandwich rule directly, and the
 * lemmas of this module connect the two.
 */
module Lines {
  import Bitboards

  type Row = bv8

  /** Square p of the line is set in x; positions off the line are never set. */
  predicate In(x: Row, p: int) { 0 <= p < 8 && x & ((1 as bv8) << p) != 0 }

  /** Up is towards higher bits (the engine's `<<`), Down towards lower bits (`>>`). */
  datatype Direction = Up | Down
  {
    function Opposite(): (o: Direction)
      ensures o != this
    {
      if this == Up then Down else Up
    }
  }

  /** The square i steps from p in direction d. */
  function Step(p: int, d: Direction, i: int): int { if d == Up then p + i else p - i }

  /** How many steps in direction d lead from loc to p. */
  function Dist(loc: int, d: Direction, p: int): int { if d == Up then p - loc else loc - p }

  /** Every square moves one step in direction d; squares pushed off the line are lost. */
  function Shift(x: Row, d: Direction): Row { if d == Up then x << 1 else x >> 1 }

  // ---------------------------------------------------------------------
  // Bits of a line. Each equivalence is proved one direction at a time.

  lemma ShiftInto(x: Row, d: Direction, p: int) ensures In(Shift(x, d), p) ==> In(x, Step(p, d.Opposite(), 1)) {}
  lemma ShiftFrom(x: Row, d: Direction, p: int) ensures 0 <= p < 8 && In(x, Step(p, d.Opposite(), 1)) ==> In(Shift(x, d), p) {}
  lemma OrInto(x: Row, y: Row, p: int) ensures In(x | y, p) ==> In(x, p) || In(y, p) {}
  lemma OrFrom(x: Row, y: Row, p: int) ensures In(x, p) || In(y, p) ==> In(x | y, p) {}
  lemma AndInto(x: Row, y: Row, p: int) ensures In(x & y, p) ==> In(x, p) && In(y, p) {}
  lemma AndFrom(x: Row, y: Row, p: int) ensures In(x, p) && In(y, p) ==> In(x & y, p) {}
  lemma NotInto(x: Row, p: int) ensures In(!x, p) ==> !In(x, p) {}
  lemma NotFrom(x: Row, p: int) ensures 0 <= p < 8 && !In(x, p) ==> In(!x, p) {}
  lemma ZeroIn(p: int) ensures !In(0, p) {}

  lemma ShiftIn(x: Row, d: Direction, p: int)
    ensures In(Shift(x, d), p) == (0 <= p < 8 && In(x, Step(p, d.Opposite(), 1)))
  {
    ShiftInto(x, d, p);
    ShiftFrom(x, d, p);
  }

  lemma OrIn(x: Row, y: Row, p: int)
    ensures In(x | y, p) == (In(x, p) || In(y, p))
  {
    OrInto(x, y, p);
    OrFrom(x, y, p);
  }

  lemma AndIn(x: Row, y: Row, p: int)
    ensures In(x & y, p) == (In(x, p) && In(y, p))
  {
    AndInto(x, y, p);
    AndFrom(x, y, p);
  }

  lemma NotIn(x: Row, p: int)
    ensures In(!x, p) == (0 <= p < 8 && !In(x, p))
  {
    NotInto(x, p);
    NotFrom(x, p);
  }

  /** `1 << loc` is the one-square line {loc}. */
  lemma PieceIn(loc: int, p: int)
    requires 0 <= loc < 8
    ensures In((1 as bv8) << loc, p) == (p == loc)
  {}

  lemma NonzeroHasBit(x: Row)
    requires x != 0
    ensures In(x, 0) || In(x, 1) || In(x, 2) || In(x, 3) || In(x, 4) || In(x, 5) || In(x, 6) || In(x, 7)
  {}

  lemma BitsEqual(x: Row, y: Row)
    requires In(x, 0) == In(y, 0) && In(x, 1) == In(y, 1) && In(x, 2) == In(y, 2) && In(x, 3) == In(y, 3)
    requires In(x, 4) == In(y, 4) && In(x, 5) == In(y, 5) && In(x, 6) == In(y, 6) && In(x, 7) == In(y, 7)
    ensures x == y
  {}

  /** A line is determined by its squares. */
  lemma Extensionality(x: Row, y: Row)
    requires forall p :: 0 <= p < 8 ==> In(x, p) == In(y, p)
    ensures x == y
  {
    BitsEqual(x, y);
  }

  /** A line is empty exactly when none of its squares is set. */
  lemma NonzeroIff(x: Row)
    ensures x != 0 <==> exists p :: 0 <= p < 8 && In(x, p)
  {
    if x != 0 {
      NonzeroHasBit(x);
    } else {
      forall p | 0 <= p < 8 ensures !In(x, p) { ZeroIn(p); }
    }
  }

  // ---------------------------------------------------------------------
  // The sandwich rule

  /** The first m squares from loc in direction d all hold enemy pieces. */
  ghost predicate EnemyPath(enemy: Row, loc: int, d: Direction, m: int)
  {
    forall i :: 1 <= i <= m ==> In(enemy, Step(loc, d, i))
  }

  /** A piece placed at loc encloses m >= 1 enemy squares in direction d: they are followed by a self piece. */
  ghost predicate Brackets(self: Row, enemy: Row, loc: int, d: Direction, m: int)
  {
    1 <= m && EnemyPath(enemy, loc, d, m) && In(self, Step(loc, d, m + 1))
  }

  /** Some run of at most n enemy squares from loc in direction d is bracketed. */
  ghost predicate BracketsWithin(self: Row, enemy: Row, loc: int, d: Direction, n: int)
  {
    exists m :: 1 <= m <= n && Brackets(self, enemy, loc, d, m)
  }

  ghost predicate Flanks(self: Row, enemy: Row, loc: int, d: Direction)
  {
    exists m :: Brackets(self, enemy, loc, d, m)
  }

  ghost predicate Empty(self: Row, enemy: Row, loc: int)
  {
    0 <= loc < 8 && !In(self, loc) && !In(enemy, loc)
  }

  /** Self may play at loc: it is empty and encloses enemy pieces in at least one direction. */
  ghost predicate IsMove(self: Row, enemy: Row, loc: int)
  {
    Empty(self, enemy, loc) && (Flanks(self, enemy, loc, Up) || Flanks(self, enemy, loc, Down))
  }

  /** Playing at loc turns over p: p lies on an enclosed run in direction d. */
  ghost predicate FlipsAlong(self: Row, enemy: Row, loc: int, d: Direction, p: int)
  {
    exists m :: Brackets(self, enemy, loc, d, m) && 1 <= Dist(loc, d, p) <= m
  }

  /** The squares a move of self at loc turns over. */
  ghost predicate Flips(self: Row, enemy: Row, loc: int, p: int)
  {
    Empty(self, enemy, loc) && (FlipsAlong(self, enemy, loc, Up, p) || FlipsAlong(self, enemy, loc, Down, p))
  }

  lemma StepStep(p: int, d: Direction, i: int, j: int)
    ensures Step(Step(p, d, i), d, j) == Step(p, d, i + j)
    ensures Step(Step(p, d, i), d.Opposite(), j) == Step(p, d, i - j)
  {}

  /** A bracket seen from one square further along. */
  lemma {:induction false} BracketsPeel(self: Row, enemy: Row, loc: int, d: Direction, m: int)
    requires 1 <= m
    ensures Brackets(self, enemy, loc, d, m + 1)
        <==> In(enemy, Step(loc, d, 1)) && Brackets(self, enemy, Step(loc, d, 1), d, m)
  {
    var next := Step(loc, d, 1);
    forall i | 1 <= i <= m ensures Step(next, d, i) == Step(loc, d, i + 1) { StepStep(loc, d, 1, i); }
    StepStep(loc, d, 1, m + 1);
    if Brackets(self, enemy, loc, d, m + 1) {
      forall i | 1 <= i <= m ensures In(enemy, Step(next, d, i)) {
        assert In(enemy, Step(loc, d, i + 1));
      }
    }
    if In(enemy, next) && Brackets(self, enemy, next, d, m) {
      forall i | 1 <= i <= m + 1 ensures In(enemy, Step(loc, d, i)) {
        if i > 1 {
          assert Step(loc, d, i) == Step(next, d, i - 1);
        }
      }
    }
  }

  /** BracketsWithin, one square further along. */
  lemma WithinPeel(self: Row, enemy: Row, loc: int, d: Direction, n: int)
    requires 1 <= n
    ensures BracketsWithin(self, enemy, loc, d, n + 1)
        <==> In(enemy, Step(loc, d, 1))
             && (In(self, Step(loc, d, 2)) || BracketsWithin(self, enemy, Step(loc, d, 1), d, n))
  {
    var next := Step(loc, d, 1);
    StepStep(loc, d, 1, 1);
    if BracketsWithin(self, enemy, loc, d, n + 1) {
      var m :| 1 <= m <= n + 1 && Brackets(self, enemy, loc, d, m);
      assert In(enemy, Step(loc, d, 1));
      if m > 1 {
        BracketsPeel(self, enemy, loc, d, m - 1);
        assert Brackets(self, enemy, next, d, m - 1);
      }
    }
    if In(enemy, next) && In(self, Step(loc, d, 2)) {
      assert Brackets(self, enemy, loc, d, 1);
    }
    if In(enemy, next) && BracketsWithin(self, enemy, next, d, n) {
      var m :| 1 <= m <= n && Brackets(self, enemy, next, d, m);
      BracketsPeel(self, enemy, loc, d, m);
      assert Brackets(self, enemy, loc, d, m + 1);
    }
  }

  lemma WithinFirst(self: Row, enemy: Row, loc: int, d: Direction)
    ensures BracketsWithin(self, enemy, loc, d, 1)
        <==> In(enemy, Step(loc, d, 1)) && In(self, Step(loc, d, 2))
  {
    StepStep(loc, d, 1, 1);
    if In(enemy, Step(loc, d, 1)) && In(self, Step(loc, d, 2)) {
      assert Brackets(self, enemy, loc, d, 1);
    }
  }

  /** On a line of eight squares no bracket encloses more than six enemy pieces. */
  lemma BracketBound(self: Row, enemy: Row, loc: int, d: Direction, m: int)
    requires 0 <= loc < 8 && Brackets(self, enemy, loc, d, m)
    ensures m <= 6
  {}

  lemma FlanksWithinSix(self: Row, enemy: Row, loc: int, d: Direction)
    requires 0 <= loc < 8
    ensures Flanks(self, enemy, loc, d) <==> BracketsWithin(self, enemy, loc, d, 6)
  {
    if Flanks(self, enemy, loc, d) {
      var m :| Brackets(self, enemy, loc, d, m);
      BracketBound(self, enemy, loc, d, m);
    }
  }

  // ---------------------------------------------------------------------
  // The engine's computation

  /** One pass of `captured |= (captured << 1) & enemy` (or `>>` for Down). */
  function Extend(run: Row, enemy: Row, d: Direction): Row
  {
    run | (Shift(run, d) & enemy)
  }

  /** A run after n passes. */
  function Spread(run: Row, enemy: Row, d: Direction, n: nat): Row
    decreases n
  {
    if n == 0 then run else Extend(Spread(run, enemy, d, n - 1), enemy, d)
  }

  /** The loops run `length - 3` times (not at all for length <= 3). */
  function Rounds(length: int): nat
  {
    if length > 3 then length - 3 else 0
  }

  /** Runs of enemy pieces that start next to a self piece, grown in direction d. */
  function SelfRun(self: Row, enemy: Row, d: Direction, length: int): Row
  {
    Spread(Shift(self, d) & enemy, enemy, d, Rounds(length))
  }

  /** The engine's `computeMoves(self, enemy, length)`. */
  function MovesOf(self: Row, enemy: Row, length: int): Row
  {
    var unoccupied := !(self | enemy);
    (Shift(SelfRun(self, enemy, Up, length), Up) & unoccupied)
    | (Shift(SelfRun(self, enemy, Down, length), Down) & unoccupied)
  }

  /** The run of enemy pieces next to loc in direction d. */
  function PieceRun(enemy: Row, loc: int, d: Direction, length: int): Row
    requires 0 <= loc < 8
  {
    Spread(Shift((1 as bv8) << loc, d) & enemy, enemy, d, Rounds(length))
  }

  /** A run is kept only if a self piece lies just past some square of it. */
  function Kept(run: Row, self: Row, d: Direction): Row
  {
    if Shift(run, d) & self == 0 then 0 else run
  }

  /** The engine's `computeCaptures(self, enemy, length, loc)`. */
  function CapturesOf(self: Row, enemy: Row, length: int, loc: int): Row
    requires 0 <= loc < 8
  {
    var unoccupied := !(self | enemy);
    if ((1 as bv8) << loc) & unoccupied == 0 then 0
    else Kept(PieceRun(enemy, loc, Up, length), self, Up) | Kept(PieceRun(enemy, loc, Down, length), self, Down)
  }

  lemma ExtendIn(run: Row, enemy: Row, d: Direction, q: int)
    ensures In(Extend(run, enemy, d), q)
        == (In(run, q) || (In(run, Step(q, d.Opposite(), 1)) && In(enemy, q)))
  {
    OrIn(run, Shift(run, d) & enemy, q);
    AndIn(Shift(run, d), enemy, q);
    ShiftIn(run, d, q);
  }

  lemma WithinGrows(self: Row, enemy: Row, loc: int, d: Direction, n: int)
    ensures BracketsWithin(self, enemy, loc, d, n) ==> BracketsWithin(self, enemy, loc, d, n + 1)
  {}

  /** How BracketsWithin grows by one square, seen from the square beyond q. */
  lemma WithinStep(self: Row, enemy: Row, q: int, d: Direction, n: int)
    requires 1 <= n
    ensures BracketsWithin(self, enemy, Step(q, d, 1), d.Opposite(), n + 1)
        <==> BracketsWithin(self, enemy, Step(q, d, 1), d.Opposite(), n)
             || (BracketsWithin(self, enemy, q, d.Opposite(), n) && In(enemy, q))
  {
    var o := d.Opposite();
    var beyond := Step(q, d, 1);
    assert Step(beyond, o, 1) == q && Step(beyond, o, 2) == Step(q, o, 1);
    WithinPeel(self, enemy, beyond, o, n);
    if n > 1 {
      WithinPeel(self, enemy, beyond, o, n - 1);
    } else {
      WithinFirst(self, enemy, beyond, o);
    }
    WithinGrows(self, enemy, q, o, n - 1);
  }

  lemma SelfRunStart(self: Row, enemy: Row, d: Direction, q: int)
    ensures In(Shift(self, d) & enemy, q)
        <==> BracketsWithin(self, enemy, Step(q, d, 1), d.Opposite(), 1)
  {
    SelfRunFirst(self, enemy, d, q);
    WithinOneBack(self, enemy, d, q);
  }

  /** One pass of the loop grows the bracket bound by one. */
  lemma RunStep(run: Row, self: Row, enemy: Row, d: Direction, n: int, q: int)
    requires 1 <= n
    requires In(run, q) == BracketsWithin(self, enemy, Step(q, d, 1), d.Opposite(), n)
    requires In(run, Step(q, d.Opposite(), 1)) == BracketsWithin(self, enemy, q, d.Opposite(), n)
    ensures In(Extend(run, enemy, d), q) == BracketsWithin(self, enemy, Step(q, d, 1), d.Opposite(), n + 1)
  {
    ExtendIn(run, enemy, d, q);
    WithinStep(self, enemy, q, d, n);
  }

  /**
   * After n passes, the run grown from self in direction d holds q exactly when a piece
   * one step beyond q would bracket at most n + 1 enemy squares looking back.
   */
  lemma {:induction false} SelfRunIn(self: Row, enemy: Row, d: Direction, n: nat, q: int)
    ensures In(Spread(Shift(self, d) & enemy, enemy, d, n), q)
        == BracketsWithin(self, enemy, Step(q, d, 1), d.Opposite(), n + 1)
  {
    if n == 0 {
      SelfRunStart(self, enemy, d, q);
    } else {
      var behind := Step(q, d.Opposite(), 1);
      assert Step(behind, d, 1) == q;
      SelfRunIn(self, enemy, d, n - 1, q);
      SelfRunIn(self, enemy, d, n - 1, behind);
      SelfRunStep(self, enemy, d, n, q);
    }
  }

  lemma SelfRunFirst(self: Row, enemy: Row, d: Direction, q: int)
    ensures In(Shift(self, d) & enemy, q) == (In(self, Step(q, d.Opposite(), 1)) && In(enemy, q))
  {
    AndIn(Shift(self, d), enemy, q);
    ShiftIn(self, d, q);
  }
  lemma WithinOneBack(self: Row, enemy: Row, d: Direction, q: int)
    ensures BracketsWithin(self, enemy, Step(q, d, 1), d.Opposite(), 1) == (In(self, Step(q, d.Opposite(), 1)) && In(enemy, q))
  {
    var o := d.Opposite();
    var beyond := Step(q, d, 1);
    assert Step(beyond, o, 1) == q && Step(beyond, o, 2) == Step(q, o, 1);
    WithinFirst(self, enemy, beyond, o);
  }
  lemma SelfRunStep(self: Row, enemy: Row, d: Direction, n: nat, q: int)
    requires 1 <= n
    requires In(Spread(Shift(self, d) & enemy, enemy, d, n - 1), q) == BracketsWithin(self, enemy, Step(q, d, 1), d.Opposite(), n)
    requires In(Spread(Shift(self, d) & enemy, enemy, d, n - 1), Step(q, d.Opposite(), 1)) == BracketsWithin(self, enemy, q, d.Opposite(), n)
    ensures In(Spread(Shift(self, d) & enemy, enemy, d, n), q) == BracketsWithin(self, enemy, Step(q, d, 1), d.Opposite(), n + 1)
  {
    RunStep(Spread(Shift(self, d) & enemy, enemy, d, n - 1), self, enemy, d, n, q);
  }

  /** The run from self, read one square behind p. */
  lemma SelfRunAt(self: Row, enemy: Row, d: Direction, length: int, p: int)
    ensures In(SelfRun(self, enemy, d, length), Step(p, d.Opposite(), 1))
        == BracketsWithin(self, enemy, p, d.Opposite(), Rounds(length) + 1)
  {
    var q := Step(p, d.Opposite(), 1);
    assert Step(q, d, 1) == p;
    SelfRunIn(self, enemy, d, Rounds(length), q);
  }

  lemma UnoccupiedIn(self: Row, enemy: Row, p: int)
    ensures In(!(self | enemy), p) == Empty(self, enemy, p)
  {
    NotIn(self | enemy, p);
    OrIn(self, enemy, p);
  }

  lemma MovesBits(self: Row, enemy: Row, length: int, p: int)
    ensures In(MovesOf(self, enemy, length), p)
        == (Empty(self, enemy, p)
            && (In(SelfRun(self, enemy, Up, length), Step(p, Down, 1))
                || In(SelfRun(self, enemy, Down, length), Step(p, Up, 1))))
  {
    var unoccupied := !(self | enemy);
    var up, down := SelfRun(self, enemy, Up, length), SelfRun(self, enemy, Down, length);
    OrIn(Shift(up, Up) & unoccupied, Shift(down, Down) & unoccupied, p);
    AndIn(Shift(up, Up), unoccupied, p);
    AndIn(Shift(down, Down), unoccupied, p);
    ShiftIn(up, Up, p);
    ShiftIn(down, Down, p);
    UnoccupiedIn(self, enemy, p);
  }

  /** computeMoves marks p exactly when p is empty and brackets a run of at most length - 2 enemy squares. */
  lemma MovesIn(self: Row, enemy: Row, length: int, p: int)
    ensures In(MovesOf(self, enemy, length), p)
        == (Empty(self, enemy, p)
            && (BracketsWithin(self, enemy, p, Down, Rounds(length) + 1)
                || BracketsWithin(self, enemy, p, Up, Rounds(length) + 1)))
  {
    MovesBits(self, enemy, length, p);
    SelfRunAt(self, enemy, Up, length, p);
    SelfRunAt(self, enemy, Down, length, p);
  }

  /** On the engine's full lines (length 8) the move table is exactly the sandwich rule. */
  lemma MovesRule(self: Row, enemy: Row, p: int)
    ensures In(MovesOf(self, enemy, 8), p) == IsMove(self, enemy, p)
  {
    MovesIn(self, enemy, 8, p);
    if 0 <= p < 8 {
      FlanksWithinSix(self, enemy, p, Up);
      FlanksWithinSix(self, enemy, p, Down);
    }
  }

  /** The move mask never meets an occupied square. */
  lemma MovesUnoccupied(self: Row, enemy: Row, length: int)
    ensures MovesOf(self, enemy, length) & (self | enemy) == 0
  {
    var moves := MovesOf(self, enemy, length);
    forall p | 0 <= p < 8 ensures In(moves & (self | enemy), p) == In(0, p) {
      MovesIn(self, enemy, length, p);
      AndIn(moves, self | enemy, p);
      OrIn(self, enemy, p);
      ZeroIn(p);
    }
    Extensionality(moves & (self | enemy), 0);
  }

  // ---------------------------------------------------------------------
  // Captures

  /** p is 1..n steps from loc in direction d and every square from loc up to p is an enemy piece. */
  ghost predicate OnRun(enemy: Row, loc: int, d: Direction, p: int, n: int)
  {
    1 <= Dist(loc, d, p) <= n && EnemyPath(enemy, loc, d, Dist(loc, d, p))
  }

  lemma PieceRunFirst(enemy: Row, loc: int, d: Direction, q: int)
    requires 0 <= loc < 8
    ensures In(Shift((1 as bv8) << loc, d) & enemy, q) == (Step(q, d.Opposite(), 1) == loc && In(enemy, q))
  {
    SelfRunFirst((1 as bv8) << loc, enemy, d, q);
    PieceIn(loc, Step(q, d.Opposite(), 1));
  }

  lemma OnRunFirst(enemy: Row, loc: int, d: Direction, q: int)
    ensures OnRun(enemy, loc, d, q, 1) == (Step(q, d.Opposite(), 1) == loc && In(enemy, q))
  {
    if Step(q, d.Opposite(), 1) == loc {
      assert Dist(loc, d, q) == 1 && Step(loc, d, 1) == q;
    }
  }

  lemma OnRunStep(enemy: Row, loc: int, d: Direction, q: int, n: int)
    requires 1 <= n
    ensures OnRun(enemy, loc, d, q, n + 1)
        == (OnRun(enemy, loc, d, q, n) || (OnRun(enemy, loc, d, Step(q, d.Opposite(), 1), n) && In(enemy, q)))
  {
    var k := Dist(loc, d, q);
    var behind := Step(q, d.Opposite(), 1);
    assert Dist(loc, d, behind) == k - 1;
    assert Step(loc, d, k) == q;
    if OnRun(enemy, loc, d, behind, n) && In(enemy, q) {
      forall i | 1 <= i <= k ensures In(enemy, Step(loc, d, i)) {
        if i < k {
          assert In(enemy, Step(loc, d, i));
        }
      }
    }
  }

  lemma PieceRunStep(run: Row, enemy: Row, loc: int, d: Direction, n: int, q: int)
    requires 1 <= n
    requires In(run, q) == OnRun(enemy, loc, d, q, n)
    requires In(run, Step(q, d.Opposite(), 1)) == OnRun(enemy, loc, d, Step(q, d.Opposite(), 1), n)
    ensures In(Extend(run, enemy, d), q) == OnRun(enemy, loc, d, q, n + 1)
  {
    ExtendIn(run, enemy, d, q);
    OnRunStep(enemy, loc, d, q, n);
  }

  lemma PieceSpreadStep(enemy: Row, loc: int, d: Direction, n: nat, q: int)
    requires 0 <= loc < 8 && 1 <= n
    requires In(Spread(Shift((1 as bv8) << loc, d) & enemy, enemy, d, n - 1), q) == OnRun(enemy, loc, d, q, n)
    requires In(Spread(Shift((1 as bv8) << loc, d) & enemy, enemy, d, n - 1), Step(q, d.Opposite(), 1))
          == OnRun(enemy, loc, d, Step(q, d.Opposite(), 1), n)
    ensures In(Spread(Shift((1 as bv8) << loc, d) & enemy, enemy, d, n), q) == OnRun(enemy, loc, d, q, n + 1)
  {
    PieceRunStep(Spread(Shift((1 as bv8) << loc, d) & enemy, enemy, d, n - 1), enemy, loc, d, n, q);
  }

  /** After n passes, the run from loc holds exactly the enemy squares reachable from loc through enemy squares within n + 1 steps. */
  lemma {:induction false} PieceSpreadIn(enemy: Row, loc: int, d: Direction, n: nat, q: int)
    requires 0 <= loc < 8
    ensures In(Spread(Shift((1 as bv8) << loc, d) & enemy, enemy, d, n), q) == OnRun(enemy, loc, d, q, n + 1)
  {
    if n == 0 {
      PieceRunFirst(enemy, loc, d, q);
      OnRunFirst(enemy, loc, d, q);
    } else {
      PieceSpreadIn(enemy, loc, d, n - 1, q);
      PieceSpreadIn(enemy, loc, d, n - 1, Step(q, d.Opposite(), 1));
      PieceSpreadStep(enemy, loc, d, n, q);
    }
  }

  lemma PieceRunIn(enemy: Row, loc: int, d: Direction, length: int, q: int)
    requires 0 <= loc < 8
    ensures In(PieceRun(enemy, loc, d, length), q) == OnRun(enemy, loc, d, q, Rounds(length) + 1)
  {
    PieceSpreadIn(enemy, loc, d, Rounds(length), q);
  }

  /** Square x of `(run << 1) & self`: a self piece just past a square of the run. */
  lemma KeepsBit(run: Row, self: Row, d: Direction, x: int)
    ensures In(Shift(run, d) & self, x) == (0 <= x < 8 && In(run, Step(x, d.Opposite(), 1)) && In(self, x))
  {
    AndIn(Shift(run, d), self, x);
    ShiftIn(run, d, x);
  }

  /** The run from loc is kept exactly when it is bracketed. */
  lemma PieceRunKept(self: Row, enemy: Row, loc: int, d: Direction, length: int)
    requires 0 <= loc < 8
    ensures (Shift(PieceRun(enemy, loc, d, length), d) & self != 0)
        == BracketsWithin(self, enemy, loc, d, Rounds(length) + 1)
  {
    var run, n := PieceRun(enemy, loc, d, length), Rounds(length) + 1;
    var z := Shift(run, d) & self;
    NonzeroIff(z);
    if z != 0 {
      var x :| 0 <= x < 8 && In(z, x);
      KeepsBit(run, self, d, x);
      KeptWitness(self, enemy, loc, d, length, x);
    }
    if BracketsWithin(self, enemy, loc, d, n) {
      var m :| 1 <= m <= n && Brackets(self, enemy, loc, d, m);
      var x := Step(loc, d, m + 1);
      BracketWitness(self, enemy, loc, d, length, m);
      KeepsBit(run, self, d, x);
    }
  }

  lemma KeptWitness(self: Row, enemy: Row, loc: int, d: Direction, length: int, x: int)
    requires 0 <= loc < 8
    requires In(PieceRun(enemy, loc, d, length), Step(x, d.Opposite(), 1)) && In(self, x)
    ensures BracketsWithin(self, enemy, loc, d, Rounds(length) + 1)
  {
    var y := Step(x, d.Opposite(), 1);
    PieceRunIn(enemy, loc, d, length, y);
    var m := Dist(loc, d, y);
    assert Step(loc, d, m) == y && Step(loc, d, m + 1) == x;
    assert Brackets(self, enemy, loc, d, m);
  }

  lemma BracketWitness(self: Row, enemy: Row, loc: int, d: Direction, length: int, m: int)
    requires 0 <= loc < 8
    requires 1 <= m <= Rounds(length) + 1 && Brackets(self, enemy, loc, d, m)
    ensures In(PieceRun(enemy, loc, d, length), Step(Step(loc, d, m + 1), d.Opposite(), 1))
    ensures In(self, Step(loc, d, m + 1))
  {
    var x := Step(loc, d, m + 1);
    var y := Step(x, d.Opposite(), 1);
    assert y == Step(loc, d, m) && Dist(loc, d, y) == m;
    PieceRunIn(enemy, loc, d, length, y);
  }

  lemma KeptIn(self: Row, enemy: Row, loc: int, d: Direction, length: int, p: int)
    requires 0 <= loc < 8
    ensures In(Kept(PieceRun(enemy, loc, d, length), self, d), p)
        == (BracketsWithin(self, enemy, loc, d, Rounds(length) + 1) && OnRun(enemy, loc, d, p, Rounds(length) + 1))
  {
    PieceRunKept(self, enemy, loc, d, length);
    PieceRunIn(enemy, loc, d, length, p);
    ZeroIn(p);
  }

  /** The engine's test `(piece_mask & unoccupied) == 0` says loc is occupied. */
  lemma PieceFree(self: Row, enemy: Row, loc: int)
    requires 0 <= loc < 8
    ensures (((1 as bv8) << loc) & !(self | enemy) != 0) == Empty(self, enemy, loc)
  {
    var piece := (1 as bv8) << loc;
    NonzeroIff(piece & !(self | enemy));
    forall x ensures In(piece & !(self | enemy), x) == (x == loc && Empty(self, enemy, x)) {
      AndIn(piece, !(self | enemy), x);
      PieceIn(loc, x);
      UnoccupiedIn(self, enemy, x);
    }
  }

  /** computeCaptures: the bracketed runs on either side of an empty loc, of at most length - 2 squares. */
  lemma CapturesIn(self: Row, enemy: Row, length: int, loc: int, p: int)
    requires 0 <= loc < 8
    ensures In(CapturesOf(self, enemy, length, loc), p)
        == (Empty(self, enemy, loc)
            && ((BracketsWithin(self, enemy, loc, Up, Rounds(length) + 1) && OnRun(enemy, loc, Up, p, Rounds(length) + 1))
                || (BracketsWithin(self, enemy, loc, Down, Rounds(length) + 1) && OnRun(enemy, loc, Down, p, Rounds(length) + 1))))
  {
    PieceFree(self, enemy, loc);
    ZeroIn(p);
    KeptIn(self, enemy, loc, Up, length, p);
    KeptIn(self, enemy, loc, Down, length, p);
    OrIn(Kept(PieceRun(enemy, loc, Up, length), self, Up), Kept(PieceRun(enemy, loc, Down, length), self, Down), p);
  }

  lemma OnRunIsEnemy(enemy: Row, loc: int, d: Direction, p: int, n: int)
    requires OnRun(enemy, loc, d, p, n)
    ensures In(enemy, p)
  {
    assert Step(loc, d, Dist(loc, d, p)) == p;
  }

  /** computeCaptures returns a subset of the enemy pieces. */
  lemma CapturesAreEnemy(self: Row, enemy: Row, length: int, loc: int)
    requires 0 <= loc < 8
    ensures CapturesOf(self, enemy, length, loc) & enemy == CapturesOf(self, enemy, length, loc)
  {
    var captures := CapturesOf(self, enemy, length, loc);
    forall p | 0 <= p < 8 ensures In(captures & enemy, p) == In(captures, p) {
      AndIn(captures, enemy, p);
      CapturesIn(self, enemy, length, loc, p);
      if In(captures, p) {
        if OnRun(enemy, loc, Up, p, Rounds(length) + 1) {
          OnRunIsEnemy(enemy, loc, Up, p, Rounds(length) + 1);
        } else {
          OnRunIsEnemy(enemy, loc, Down, p, Rounds(length) + 1);
        }
      }
    }
    Extensionality(captures & enemy, captures);
  }

  /** computeCaptures returns 0 when loc is occupied. */
  lemma CapturesOccupied(self: Row, enemy: Row, length: int, loc: int)
    requires 0 <= loc < 8 && !Empty(self, enemy, loc)
    ensures CapturesOf(self, enemy, length, loc) == 0
  {
    PieceFree(self, enemy, loc);
  }

  /** A bracket of m squares puts the square next to loc on the run. */
  lemma BracketsNext(self: Row, enemy: Row, loc: int, d: Direction, n: int)
    requires 1 <= n && BracketsWithin(self, enemy, loc, d, n)
    ensures OnRun(enemy, loc, d, Step(loc, d, 1), n)
  {
    assert Dist(loc, d, Step(loc, d, 1)) == 1;
  }

  /** The captures entry is nonzero exactly when the moves entry marks loc: the legality make_move relies on. */
  lemma CapturesIffMove(self: Row, enemy: Row, length: int, loc: int)
    requires 0 <= loc < 8
    ensures (CapturesOf(self, enemy, length, loc) != 0) == In(MovesOf(self, enemy, length), loc)
  {
    var n := Rounds(length) + 1;
    var captures := CapturesOf(self, enemy, length, loc);
    MovesIn(self, enemy, length, loc);
    NonzeroIff(captures);
    if captures != 0 {
      var p :| 0 <= p < 8 && In(captures, p);
      CapturesIn(self, enemy, length, loc, p);
    }
    if In(MovesOf(self, enemy, length), loc) {
      var d := if BracketsWithin(self, enemy, loc, Up, n) then Up else Down;
      BracketsNext(self, enemy, loc, d, n);
      CapturesIn(self, enemy, length, loc, Step(loc, d, 1));
      ZeroIn(Step(loc, d, 1));
    }
  }

  /** With self and enemy disjoint, an enemy run from loc stops at the bracketing self piece. */
  lemma RunWithinBracket(self: Row, enemy: Row, loc: int, d: Direction, p: int, m: int)
    requires self & enemy == 0 && Brackets(self, enemy, loc, d, m) && OnRun(enemy, loc, d, p, 6)
    ensures Dist(loc, d, p) <= m
  {
    var x := Step(loc, d, m + 1);
    AndIn(self, enemy, x);
    ZeroIn(x);
  }

  /** With self and enemy disjoint, a kept run ends at the bracketing self piece. */
  lemma FlipsAlongIff(self: Row, enemy: Row, loc: int, d: Direction, p: int)
    requires 0 <= loc < 8 && self & enemy == 0
    ensures (BracketsWithin(self, enemy, loc, d, 6) && OnRun(enemy, loc, d, p, 6)) == FlipsAlong(self, enemy, loc, d, p)
  {
    var k := Dist(loc, d, p);
    if BracketsWithin(self, enemy, loc, d, 6) && OnRun(enemy, loc, d, p, 6) {
      var m :| 1 <= m <= 6 && Brackets(self, enemy, loc, d, m);
      RunWithinBracket(self, enemy, loc, d, p, m);
    }
    if FlipsAlong(self, enemy, loc, d, p) {
      var m :| Brackets(self, enemy, loc, d, m) && 1 <= k <= m;
      BracketBound(self, enemy, loc, d, m);
    }
  }

  /** On full lines of disjoint rows, computeCaptures is exactly the set of squares the move turns over. */
  lemma CapturesRule(self: Row, enemy: Row, loc: int, p: int)
    requires 0 <= loc < 8 && self & enemy == 0
    ensures In(CapturesOf(self, enemy, 8, loc), p) == Flips(self, enemy, loc, p)
  {
    CapturesIn(self, enemy, 8, loc, p);
    FlipsAlongIff(self, enemy, loc, Up, p);
    FlipsAlongIff(self, enemy, loc, Down, p);
  }

  // ---------------------------------------------------------------------
  // The loops of computeMoves and computeCaptures

  lemma MovesFromRuns(self: Row, enemy: Row, length: int, unoccupied: Row, up: Row, down: Row)
    requires unoccupied == !(self | enemy)
    requires up == SelfRun(self, enemy, Up, length) && down == SelfRun(self, enemy, Down, length)
    ensures (0 | (Shift(up, Up) & unoccupied)) | (Shift(down, Down) & unoccupied) == MovesOf(self, enemy, length)
  {}

  lemma PieceRunFrom(enemy: Row, loc: int, d: Direction, length: int, pieceMask: Row)
    requires 0 <= loc < 8 && pieceMask == (1 as bv8) << loc
    ensures PieceRun(enemy, loc, d, length) == Spread(Shift(pieceMask, d) & enemy, enemy, d, Rounds(length))
  {}

  lemma PieceFreeFrom(self: Row, enemy: Row, loc: int, unoccupied: Row, pieceMask: Row)
    requires 0 <= loc < 8 && unoccupied == !(self | enemy) && pieceMask == (1 as bv8) << loc
    ensures (pieceMask & unoccupied != 0) == (((1 as bv8) << loc) & !(self | enemy) != 0)
  {}

  lemma KeptRuns(self: Row, enemy: Row, length: int, loc: int, right: Row, left: Row)
    requires 0 <= loc < 8 && ((1 as bv8) << loc) & !(self | enemy) != 0
    requires right == Kept(PieceRun(enemy, loc, Up, length), self, Up)
    requires left == Kept(PieceRun(enemy, loc, Down, length), self, Down)
    ensures right | left == CapturesOf(self, enemy, length, loc)
  {}

  lemma NoCaptures(self: Row, enemy: Row, length: int, loc: int, unoccupied: Row, pieceMask: Row)
    requires 0 <= loc < 8 && unoccupied == !(self | enemy) && pieceMask == (1 as bv8) << loc
    requires pieceMask & unoccupied == 0
    ensures CapturesOf(self, enemy, length, loc) == 0
  {
    PieceFreeFrom(self, enemy, loc, unoccupied, pieceMask);
  }

  lemma CapturesFromRuns(self: Row, enemy: Row, length: int, loc: int, unoccupied: Row, pieceMask: Row, right: Row, left: Row)
    requires 0 <= loc < 8 && unoccupied == !(self | enemy) && pieceMask == (1 as bv8) << loc
    requires pieceMask & unoccupied != 0
    requires right == Kept(Spread(Shift(pieceMask, Up) & enemy, enemy, Up, Rounds(length)), self, Up)
    requires left == Kept(Spread(Shift(pieceMask, Down) & enemy, enemy, Down, Rounds(length)), self, Down)
    ensures right | left == CapturesOf(self, enemy, length, loc)
  {
    PieceFreeFrom(self, enemy, loc, unoccupied, pieceMask);
    PieceRunFrom(enemy, loc, Up, length, pieceMask);
    PieceRunFrom(enemy, loc, Down, length, pieceMask);
    KeptRuns(self, enemy, length, loc, right, left);
  }

  /**
   * The loop the engine writes out four times: `for (i = 0; i < length - 3; i++) captured |= (captured << 1) & enemy`
   * (with `>>` for Down). `Extend` is one pass of its body.
   */
  method GrowRun(run: Row, enemy: Row, d: Direction, length: int) returns (captured: Row)
    ensures captured == Spread(run, enemy, d, Rounds(length))
  {
    captured := run;
    var i := 0;
    while i < length - 3
      invariant 0 <= i && (i <= length - 3 || i == 0)
      invariant captured == Spread(run, enemy, d, i)
    {
      captured := Extend(captured, enemy, d);
      i := i + 1;
    }
  }

  /** computeMoves: grow the runs next to self pieces in both directions, then step onto empty squares. */
  method ComputeMoves(self: Row, enemy: Row, length: int) returns (moves: Row)
    ensures moves == MovesOf(self, enemy, length)
  {
    var up := GrowRun(Shift(self, Up) & enemy, enemy, Up, length);
    var down := GrowRun(Shift(self, Down) & enemy, enemy, Down, length);
    var unoccupied := !(self | enemy);
    MovesFromRuns(self, enemy, length, unoccupied, up, down);
    moves := 0;
    moves := moves | (Shift(up, Up) & unoccupied);
    moves := moves | (Shift(down, Down) & unoccupied);
  }

  /**
   * computeCaptures: place a piece at loc; if the square is free, grow the enemy run on each side of it
   * and keep the run only when a self piece closes it (`Kept` is the engine's `if (...) captured = 0`).
   */
  method ComputeCaptures(self: Row, enemy: Row, length: int, loc: int) returns (captures: Row)
    requires 0 <= loc < 8
    ensures captures == CapturesOf(self, enemy, length, loc)
  {
    var unoccupied := !(self | enemy);
    var pieceMask := (1 as bv8) << loc;
    if pieceMask & unoccupied == 0 {
      NoCaptures(self, enemy, length, loc, unoccupied, pieceMask);
      return 0;
    }
    var rightRun := GrowRun(Shift(pieceMask, Up) & enemy, enemy, Up, length);
    var rightCaptured := Kept(rightRun, self, Up);
    var leftRun := GrowRun(Shift(pieceMask, Down) & enemy, enemy, Down, length);
    var leftCaptured := Kept(leftRun, self, Down);
    CapturesFromRuns(self, enemy, length, loc, unoccupied, pieceMask, rightCaptured, leftCaptured);
    captures := rightCaptured | leftCaptured;
  }

  // ---------------------------------------------------------------------
  // The Moves and Captures tables (computeMovesCaptures)

  /**
   * `Moves[black][white][c]`: every entry is computed on a full line of 8; the WHITE
   * entry is the BLACK computation with the two rows swapped.
   */
  function MoveEntry(black: Row, white: Row, c: Bitboards.Color): Row
  {
    if c == Bitboards.Black then MovesOf(black, white, 8) else MovesOf(white, black, 8)
  }

  /** `Captures[black][white][c][k]`, filled the same way for k in 0..7. */
  function CaptureEntry(black: Row, white: Row, c: Bitboards.Color, k: int): Row
    requires 0 <= k < 8
  {
    if c == Bitboards.Black then CapturesOf(black, white, 8, k) else CapturesOf(white, black, 8, k)
  }

  /** The moves entry for c marks exactly the squares where c may play by the sandwich rule. */
  lemma MoveEntryRule(black: Row, white: Row, c: Bitboards.Color, p: int)
    ensures In(MoveEntry(black, white, c), p)
        == if c == Bitboards.Black then IsMove(black, white, p) else IsMove(white, black, p)
    ensures MoveEntry(black, white, c) & (black | white) == 0
  {
    if c == Bitboards.Black {
      MovesRule(black, white, p);
      MovesUnoccupied(black, white, 8);
    } else {
      MovesRule(white, black, p);
      MovesUnoccupied(white, black, 8);
      assert white | black == black | white;
    }
  }

  /**
   * On disjoint rows the captures entry for c at k is exactly the set of opponent squares a
   * move at k turns over, and it is nonzero exactly when the moves entry marks k.
   */
  lemma CaptureEntryRule(black: Row, white: Row, c: Bitboards.Color, k: int, p: int)
    requires 0 <= k < 8 && black & white == 0
    ensures In(CaptureEntry(black, white, c, k), p)
        == if c == Bitboards.Black then Flips(black, white, k, p) else Flips(white, black, k, p)
    ensures (CaptureEntry(black, white, c, k) != 0) == In(MoveEntry(black, white, c), k)
    ensures CaptureEntry(black, white, c, k) & (if c == Bitboards.Black then white else black)
        == CaptureEntry(black, white, c, k)
  {
    if c == Bitboards.Black {
      CapturesRule(black, white, k, p);
      CapturesIffMove(black, white, 8, k);
      CapturesAreEnemy(black, white, 8, k);
    } else {
      assert white & black == 0;
      CapturesRule(white, black, k, p);
      CapturesIffMove(white, black, 8, k);
      CapturesAreEnemy(white, black, 8, k);
    }
  }
}
