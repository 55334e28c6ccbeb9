/**
 * The pieces a move turns over, as make_move finds them: for each of the four
 * views it reads the line through the move from the view's boards, looks up the
 * captures entry at the move's index, shifts it back to the line's offset and
 * turns the result back upright.
 */
module Captures {
  import opened Bitboards
  import Lines
  import opened Segments
  import opened Views

  /** `((Bitboard)Captures[black][white][c][index]) << offset` on the view's board. */
  function LineCaptures(v: View, xb: Bitboard, xw: Bitboard, c: Color, m: int): Bitboard
    requires IsSquare(m)
  {
    Placement(v, m);
    Place(Lines.CaptureEntry(LineOf(v, xb, m), LineOf(v, xw, m), c, Index(v, m)), Index6(Start(v, m)))
  }

  // ---------------------------------------------------------------------
  // The line of the view: runs along it are runs on the real board

  /** Counting t steps from the index lands on q exactly when q is t steps away. */
  lemma StepDist(loc: int, d: Lines.Direction, q: int)
    ensures Lines.Step(loc, d, Lines.Dist(loc, d, q)) == q
  {}

  /** Distinct squares of a view's board show distinct squares of the real board. */
  lemma TurnBackInjective(v: View, i: int, j: int, k: int)
    requires IsSquare(i) && IsSquare(j) && TurnBackSquare(v, i) == k
    ensures (j == i) == (TurnBackSquare(v, j) == k)
  {
    TurnSquareInverse(v, i);
    TurnSquareInverse(v, j);
  }

  /** Square Start + q of the view's board shows the square t steps along the ray exactly when q is t steps from the index. */
  lemma StepSquare(v: View, m: int, d: Lines.Direction, t: int, j: int)
    requires IsSquare(m) && IsSquare(j) && OnBoard(m, v, d, t)
    ensures (j == Start(v, m) + Lines.Step(Index(v, m), d, t)) == (TurnBackSquare(v, j) == RaySquare(m, v, d, t))
  {
    Ray(v, m, d, t);
    Placement(v, m);
    TurnBackInjective(v, Start(v, m) + Lines.Step(Index(v, m), d, t), j, RaySquare(m, v, d, t));
  }

  /** The sandwich rule on the line, in one direction, is the sandwich rule on the board. */
  lemma FlipsAlongInto(v: View, xs: Bitboard, xe: Bitboard, self: Bitboard, enemy: Bitboard,
                       m: int, d: Lines.Direction, q: int)
    requires IsSquare(m) && Agrees(v, xs, self, m, d) && Agrees(v, xe, enemy, m, d)
    requires Lines.FlipsAlong(LineOf(v, xs, m), LineOf(v, xe, m), Index(v, m), d, q)
    ensures exists n :: Encloses(self, enemy, m, v, d, n) && 1 <= Lines.Dist(Index(v, m), d, q) <= n
  {
    var n :| Lines.Brackets(LineOf(v, xs, m), LineOf(v, xe, m), Index(v, m), d, n)
             && 1 <= Lines.Dist(Index(v, m), d, q) <= n;
    BracketsIff(v, xs, xe, self, enemy, m, d, n);
  }

  lemma FlipsAlongFrom(v: View, xs: Bitboard, xe: Bitboard, self: Bitboard, enemy: Bitboard,
                       m: int, d: Lines.Direction, q: int, n: int)
    requires IsSquare(m) && Agrees(v, xs, self, m, d) && Agrees(v, xe, enemy, m, d)
    requires Encloses(self, enemy, m, v, d, n) && 1 <= Lines.Dist(Index(v, m), d, q) <= n
    ensures Lines.FlipsAlong(LineOf(v, xs, m), LineOf(v, xe, m), Index(v, m), d, q)
  {
    BracketsIff(v, xs, xe, self, enemy, m, d, n);
  }

  /** No square of the line is on both lines read from disjoint boards. */
  lemma LinesDisjointAt(v: View, xb: Bitboard, xw: Bitboard, black: Bitboard, white: Bitboard, m: int, q: int)
    requires IsSquare(m) && Shows(v, xb, black) && Shows(v, xw, white) && black & white == 0
    ensures !(Lines.In(LineOf(v, xb, m), q) && Lines.In(LineOf(v, xw, m), q))
  {
    LineIn(v, xb, m, q);
    LineIn(v, xw, m, q);
    var j := Start(v, m) + q;
    if 0 <= q < Length(v, m) && IsSquare(j) {
      var k := TurnBackSquare(v, j);
      ShowsAt(v, xb, black, j, k);
      ShowsAt(v, xw, white, j, k);
      HasAnd(black, white, k);
      HasZero(k);
    }
  }

  /** Lines read from disjoint boards are disjoint. */
  lemma LinesDisjoint(v: View, xb: Bitboard, xw: Bitboard, black: Bitboard, white: Bitboard, m: int)
    requires IsSquare(m) && Shows(v, xb, black) && Shows(v, xw, white) && black & white == 0
    ensures LineOf(v, xb, m) & LineOf(v, xw, m) == 0
  {
    var lb, lw := LineOf(v, xb, m), LineOf(v, xw, m);
    forall q | 0 <= q < 8 ensures Lines.In(lb & lw, q) == Lines.In(0, q) {
      Lines.AndIn(lb, lw, q);
      Lines.ZeroIn(q);
      LinesDisjointAt(v, xb, xw, black, white, m, q);
    }
    Lines.Extensionality(lb & lw, 0);
  }

  /** A flip on the line in direction d at j - Start is a piece turned on the board at the square j shows. */
  lemma FlipsAlongSquare(v: View, xs: Bitboard, xe: Bitboard, self: Bitboard, enemy: Bitboard,
                         m: int, d: Lines.Direction, j: int)
    requires IsSquare(m) && IsSquare(j)
    requires Agrees(v, xs, self, m, d) && Agrees(v, xe, enemy, m, d)
    requires Lines.FlipsAlong(LineOf(v, xs, m), LineOf(v, xe, m), Index(v, m), d, j - Start(v, m))
    ensures TurnsAlong(self, enemy, m, v, TurnBackSquare(v, j))
  {
    var q := j - Start(v, m);
    FlipsAlongInto(v, xs, xe, self, enemy, m, d, q);
    var n :| Encloses(self, enemy, m, v, d, n) && 1 <= Lines.Dist(Index(v, m), d, q) <= n;
    var t := Lines.Dist(Index(v, m), d, q);
    StepDist(Index(v, m), d, q);
    assert OnBoard(m, v, d, t);
    StepSquare(v, m, d, t, j);
  }

  /** A piece turned along the run (d, n) at step t is a flip on the line in direction d. */
  lemma SquareFlipsAlong(v: View, xs: Bitboard, xe: Bitboard, self: Bitboard, enemy: Bitboard,
                         m: int, d: Lines.Direction, n: int, t: int, j: int)
    requires IsSquare(m) && IsSquare(j)
    requires Agrees(v, xs, self, m, d) && Agrees(v, xe, enemy, m, d)
    requires Encloses(self, enemy, m, v, d, n) && 1 <= t <= n && TurnBackSquare(v, j) == RaySquare(m, v, d, t)
    ensures 0 <= j - Start(v, m) < Length(v, m)
    ensures Lines.FlipsAlong(LineOf(v, xs, m), LineOf(v, xe, m), Index(v, m), d, j - Start(v, m))
  {
    assert OnBoard(m, v, d, t);
    RayPosition(v, m, d, t, j);
    FlipsAlongFrom(v, xs, xe, self, enemy, m, d, j - Start(v, m), n);
  }

  /** The square j of the view's board that shows the square t steps along (v, d) from m lies t steps from m on its line. */
  lemma RayPosition(v: View, m: int, d: Lines.Direction, t: int, j: int)
    requires IsSquare(m) && IsSquare(j) && OnBoard(m, v, d, t) && TurnBackSquare(v, j) == RaySquare(m, v, d, t)
    ensures 0 <= j - Start(v, m) < Length(v, m)
    ensures Lines.Dist(Index(v, m), d, j - Start(v, m)) == t
  {
    StepSquare(v, m, d, t, j);
    Ray(v, m, d, t);
  }

  /** A flip on the line at j - Start is a piece turned on the board at the square j shows. */
  lemma FlipsInto(v: View, xs: Bitboard, xe: Bitboard, self: Bitboard, enemy: Bitboard, m: int, j: int)
    requires IsSquare(m) && IsSquare(j)
    requires Agrees(v, xs, self, m, Lines.Up) && Agrees(v, xe, enemy, m, Lines.Up)
    requires Agrees(v, xs, self, m, Lines.Down) && Agrees(v, xe, enemy, m, Lines.Down)
    requires Lines.Empty(LineOf(v, xs, m), LineOf(v, xe, m), Index(v, m)) == Vacant(self, enemy, m)
    requires Lines.Flips(LineOf(v, xs, m), LineOf(v, xe, m), Index(v, m), j - Start(v, m))
    ensures Vacant(self, enemy, m) && TurnsAlong(self, enemy, m, v, TurnBackSquare(v, j))
  {
    if Lines.FlipsAlong(LineOf(v, xs, m), LineOf(v, xe, m), Index(v, m), Lines.Up, j - Start(v, m)) {
      FlipsAlongSquare(v, xs, xe, self, enemy, m, Lines.Up, j);
    } else {
      FlipsAlongSquare(v, xs, xe, self, enemy, m, Lines.Down, j);
    }
  }

  /** A piece turned on the board along view v is a flip on the line. */
  lemma FlipsFrom(v: View, xs: Bitboard, xe: Bitboard, self: Bitboard, enemy: Bitboard, m: int, j: int)
    requires IsSquare(m) && IsSquare(j)
    requires Agrees(v, xs, self, m, Lines.Up) && Agrees(v, xe, enemy, m, Lines.Up)
    requires Agrees(v, xs, self, m, Lines.Down) && Agrees(v, xe, enemy, m, Lines.Down)
    requires Lines.Empty(LineOf(v, xs, m), LineOf(v, xe, m), Index(v, m)) == Vacant(self, enemy, m)
    requires Vacant(self, enemy, m) && TurnsAlong(self, enemy, m, v, TurnBackSquare(v, j))
    ensures 0 <= j - Start(v, m) < Length(v, m)
    ensures Lines.Flips(LineOf(v, xs, m), LineOf(v, xe, m), Index(v, m), j - Start(v, m))
  {
    var d, n, t :| Encloses(self, enemy, m, v, d, n) && 1 <= t <= n && TurnBackSquare(v, j) == RaySquare(m, v, d, t);
    if d == Lines.Up {
      SquareFlipsAlong(v, xs, xe, self, enemy, m, Lines.Up, n, t, j);
    } else {
      SquareFlipsAlong(v, xs, xe, self, enemy, m, Lines.Down, n, t, j);
    }
  }

  // ---------------------------------------------------------------------
  // The captures read from one view

  /** The captures entry at the index marks exactly the line's flips for the mover. */
  lemma EntryFlips(v: View, xb: Bitboard, xw: Bitboard, c: Color, m: int, q: int)
    requires IsSquare(m) && LineOf(v, xb, m) & LineOf(v, xw, m) == 0
    ensures 0 <= Index(v, m) < 8
    ensures Lines.In(Lines.CaptureEntry(LineOf(v, xb, m), LineOf(v, xw, m), c, Index(v, m)), q)
         == Lines.Flips(LineOf(v, Own(xb, xw, c), m), LineOf(v, Opponent(xb, xw, c), m), Index(v, m), q)
  {
    Placement(v, m);
    Lines.CaptureEntryRule(LineOf(v, xb, m), LineOf(v, xw, m), c, Index(v, m), q);
  }

  /** Square j of the view's captures is set exactly when the piece on the square it shows is turned over. */
  lemma LineCapturesCore(v: View, xb: Bitboard, xw: Bitboard, c: Color, self: Bitboard, enemy: Bitboard, m: int, j: int)
    requires IsSquare(m) && IsSquare(j)
    requires Agrees(v, Own(xb, xw, c), self, m, Lines.Up) && Agrees(v, Opponent(xb, xw, c), enemy, m, Lines.Up)
    requires Agrees(v, Own(xb, xw, c), self, m, Lines.Down) && Agrees(v, Opponent(xb, xw, c), enemy, m, Lines.Down)
    requires Lines.Empty(LineOf(v, Own(xb, xw, c), m), LineOf(v, Opponent(xb, xw, c), m), Index(v, m)) == Vacant(self, enemy, m)
    requires LineOf(v, xb, m) & LineOf(v, xw, m) == 0
    ensures Has(LineCaptures(v, xb, xw, c, m), j) == (Vacant(self, enemy, m) && TurnsAlong(self, enemy, m, v, TurnBackSquare(v, j)))
  {
    Placement(v, m);
    Index6Value(Start(v, m));
    var e := Lines.CaptureEntry(LineOf(v, xb, m), LineOf(v, xw, m), c, Index(v, m));
    PlaceHas(e, Index6(Start(v, m)), j);
    EntryFlips(v, xb, xw, c, m, j - Start(v, m));
    var xs, xe := Own(xb, xw, c), Opponent(xb, xw, c);
    if Has(LineCaptures(v, xb, xw, c, m), j) {
      FlipsInto(v, xs, xe, self, enemy, m, j);
    } else if Vacant(self, enemy, m) && TurnsAlong(self, enemy, m, v, TurnBackSquare(v, j)) {
      FlipsFrom(v, xs, xe, self, enemy, m, j);
    }
  }

  /**
   * make_move's captures along one view: square j of the view's board is set exactly
   * when the move at m turns over the piece on the square that j shows.
   */
  lemma LineCapturesIn(v: View, xb: Bitboard, xw: Bitboard, black: Bitboard, white: Bitboard, c: Color, m: int, j: int)
    requires IsSquare(m) && IsSquare(j) && Shows(v, xb, black) && Shows(v, xw, white) && black & white == 0
    ensures Has(LineCaptures(v, xb, xw, c, m), j)
        == (Vacant(Own(black, white, c), Opponent(black, white, c), m)
            && TurnsAlong(Own(black, white, c), Opponent(black, white, c), m, v, TurnBackSquare(v, j)))
  {
    var xs, xe := Own(xb, xw, c), Opponent(xb, xw, c);
    var self, enemy := Own(black, white, c), Opponent(black, white, c);
    assert Shows(v, xs, self) && Shows(v, xe, enemy);
    ShowsAgrees(v, xs, self, m, Lines.Up);
    ShowsAgrees(v, xs, self, m, Lines.Down);
    ShowsAgrees(v, xe, enemy, m, Lines.Up);
    ShowsAgrees(v, xe, enemy, m, Lines.Down);
    EmptyIff(v, xs, xe, self, enemy, m);
    LinesDisjoint(v, xb, xw, black, white, m);
    LineCapturesCore(v, xb, xw, c, self, enemy, m, j);
  }

  // ---------------------------------------------------------------------
  // All four views together

  /** The captures of one view, turned back upright. */
  function ViewCaptures(v: View, black: Bitboard, white: Bitboard, c: Color, m: int): Bitboard
    requires IsSquare(m)
  {
    TurnBack(v, LineCaptures(v, Turn(v, black), Turn(v, white), c, m))
  }

  /** One view's captures are the pieces a move at m turns over along that view's line. */
  lemma ViewCapturesIn(v: View, black: Bitboard, white: Bitboard, c: Color, m: int, p: int)
    requires IsSquare(m) && IsSquare(p) && black & white == 0
    ensures Has(ViewCaptures(v, black, white, c, m), p)
        == (Vacant(Own(black, white, c), Opponent(black, white, c), m)
            && TurnsAlong(Own(black, white, c), Opponent(black, white, c), m, v, p))
  {
    TurnBackHas(v, LineCaptures(v, Turn(v, black), Turn(v, white), c, m), p);
    TurnShows(v, black);
    TurnShows(v, white);
    TurnSquareInverse(v, p);
    LineCapturesIn(v, Turn(v, black), Turn(v, white), black, white, c, m, TurnSquare(v, p));
  }

  /** A piece is turned over when it is turned over along one of the four views. */
  lemma TurnsByView(self: Bitboard, enemy: Bitboard, m: int, p: int)
    ensures Turns(self, enemy, m, p)
        == (Vacant(self, enemy, m)
            && (TurnsAlong(self, enemy, m, Upright, p) || TurnsAlong(self, enemy, m, Rotate90, p)
                || TurnsAlong(self, enemy, m, Rotate45Cw, p) || TurnsAlong(self, enemy, m, Rotate45Ccw, p)))
  {
    if Turns(self, enemy, m, p) {
      var v :| TurnsAlong(self, enemy, m, v, p);
      match v
      case Upright =>
      case Rotate90 =>
      case Rotate45Cw =>
      case Rotate45Ccw =>
    }
  }

  /** x holds exactly the pieces a move at m turns over along the lines of view v. */
  ghost predicate CapturedAlong(x: Bitboard, self: Bitboard, enemy: Bitboard, m: int, v: View)
  {
    forall p | IsSquare(p) :: Has(x, p) == (Vacant(self, enemy, m) && TurnsAlong(self, enemy, m, v, p))
  }

  /** Four boards that each hold the pieces turned along one view together hold every piece turned. */
  lemma CombineViews(self: Bitboard, enemy: Bitboard, m: int, p: int, a: Bitboard, b: Bitboard, e: Bitboard, f: Bitboard)
    requires IsSquare(p)
    requires Has(a, p) == (Vacant(self, enemy, m) && TurnsAlong(self, enemy, m, Upright, p))
    requires Has(b, p) == (Vacant(self, enemy, m) && TurnsAlong(self, enemy, m, Rotate90, p))
    requires Has(e, p) == (Vacant(self, enemy, m) && TurnsAlong(self, enemy, m, Rotate45Cw, p))
    requires Has(f, p) == (Vacant(self, enemy, m) && TurnsAlong(self, enemy, m, Rotate45Ccw, p))
    ensures Has(a | b | e | f, p) == Turns(self, enemy, m, p)
  {
    HasOr4(a, b, e, f, p);
    TurnsByView(self, enemy, m, p);
  }
}
