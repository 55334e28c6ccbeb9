/**
 * Views: the four orientation boards of a position, and the lines they hold.
 *
 * A position keeps every colour on four boards: upright, turned 90 degrees
 * clockwise, and pseudo-rotated 45 degrees either way. On each of them one
 * family of lines of the real board (rows, columns, diagonals, anti-diagonals)
 * lies along the rows of the turned board, so the engine can read a whole line
 * with one shift and one mask. This module states where the line through a
 * square lies on each turned board, reads that line as a byte, and proves that
 * stepping along the byte is stepping along the line on the real board.
 */
module Views {
  import opened Bitboards
  import Lines
  import opened CaptureTables
  import opened Segments

  /** The four orientation boards, each holding one family of lines. */
  datatype View = Upright | Rotate90 | Rotate45Cw | Rotate45Ccw

  /** The board b as the view sees it. */
  function Turn(v: View, b: Bitboard): Bitboard
  {
    match v
    case Upright => b
    case Rotate90 => Rotate90Cw(b)
    case Rotate45Cw => PseudoRotate45Cw(b)
    case Rotate45Ccw => PseudoRotate45Ccw(b)
  }

  /** The transform the engine uses to bring a view's board back upright. */
  function TurnBack(v: View, b: Bitboard): Bitboard
  {
    match v
    case Upright => b
    case Rotate90 => Rotate90Ccw(b)
    case Rotate45Cw => PseudoRotate45CwInverse(b)
    case Rotate45Ccw => PseudoRotate45CcwInverse(b)
  }

  /** Where square k lands on the view's board. */
  function TurnSquare(v: View, k: int): (j: int)
    ensures IsSquare(k) ==> IsSquare(j)
  {
    match v
    case Upright => k
    case Rotate90 => Rotate90CwSquare(k)
    case Rotate45Cw => PseudoRotate45CwSquare(k)
    case Rotate45Ccw => PseudoRotate45CcwSquare(k)
  }

  /** Which square of the real board square j of the view's board shows. */
  function TurnBackSquare(v: View, j: int): (k: int)
    ensures IsSquare(j) ==> IsSquare(k)
  {
    match v
    case Upright => j
    case Rotate90 => Rotate90CcwSquare(j)
    case Rotate45Cw => PseudoRotate45CwInverseSquare(j)
    case Rotate45Ccw => PseudoRotate45CcwInverseSquare(j)
  }

  /** First bit of the line through k on the view's board. */
  function Start(v: View, k: int): int
  {
    match v
    case Upright => StartUpright(k)
    case Rotate90 => StartRotate90(k)
    case Rotate45Cw => StartRotate45Cw(k)
    case Rotate45Ccw => StartRotate45Ccw(k)
  }

  /** Number of squares on the line through k. */
  function Length(v: View, k: int): int
  {
    match v
    case Upright => 8
    case Rotate90 => 8
    case Rotate45Cw => LengthRotate45Cw(k)
    case Rotate45Ccw => LengthRotate45Ccw(k)
  }

  /** Position of k on its line. */
  function Index(v: View, k: int): int
  {
    match v
    case Upright => IndexUpright(k)
    case Rotate90 => IndexRotate90(k)
    case Rotate45Cw => IndexRotate45Cw(k)
    case Rotate45Ccw => IndexRotate45Ccw(k)
  }

  // ---------------------------------------------------------------------
  // Directions on the real board

  /**
   * Row of the square t steps from m along the view's line, towards the end
   * the view calls Up. Up is column + 1 on rows, row + 1 on columns,
   * row + 1 and column + 1 on diagonals, row - 1 and column + 1 on
   * anti-diagonals; Down is the opposite. These are the eight directions.
   */
  function RayRow(m: int, v: View, d: Lines.Direction, t: int): int
  {
    match v
    case Upright => m / 8
    case Rotate90 => Lines.Step(m / 8, d, t)
    case Rotate45Cw => Lines.Step(m / 8, d, t)
    case Rotate45Ccw => Lines.Step(m / 8, d.Opposite(), t)
  }

  function RayColumn(m: int, v: View, d: Lines.Direction, t: int): int
  {
    if v == Rotate90 then m % 8 else Lines.Step(m % 8, d, t)
  }

  predicate OnBoard(m: int, v: View, d: Lines.Direction, t: int)
  {
    0 <= RayRow(m, v, d, t) < 8 && 0 <= RayColumn(m, v, d, t) < 8
  }

  function RaySquare(m: int, v: View, d: Lines.Direction, t: int): int
  {
    8 * RayRow(m, v, d, t) + RayColumn(m, v, d, t)
  }

  // ---------------------------------------------------------------------
  // The turned boards

  /** TurnSquare and TurnBackSquare are inverse maps of the squares. */
  lemma TurnSquareInverse(v: View, k: int)
    requires IsSquare(k)
    ensures TurnBackSquare(v, TurnSquare(v, k)) == k && TurnSquare(v, TurnBackSquare(v, k)) == k
  {
    match v
    case Upright =>
    case Rotate90 => Rotate90SquareInverse(k);
    case Rotate45Cw =>
      PseudoRotate45CwSquareInverse(k);
      PseudoRotate45CwInverseSquareInverse(k);
    case Rotate45Ccw =>
      PseudoRotate45CcwSquareInverse(k);
      PseudoRotate45CcwInverseSquareInverse(k);
  }

  /** Square j of the view's board shows square TurnBackSquare(v, j) of b. */
  lemma TurnHas(v: View, b: Bitboard, j: int)
    requires IsSquare(j)
    ensures IsSquare(TurnBackSquare(v, j)) && TurnSquare(v, TurnBackSquare(v, j)) == j
    ensures Has(Turn(v, b), j) == Has(b, TurnBackSquare(v, j))
  {
    match v
    case Upright =>
    case Rotate90 =>
      Rotate90SquareInverse(j);
      Rotate90CwAt(b, Rotate90CcwSquare(j));
    case Rotate45Cw =>
      PseudoRotate45CwInverseSquareInverse(j);
      PseudoRotate45CwAt(b, PseudoRotate45CwInverseSquare(j));
    case Rotate45Ccw =>
      PseudoRotate45CcwInverseSquareInverse(j);
      PseudoRotate45CcwAt(b, PseudoRotate45CcwInverseSquare(j));
  }

  /** Turning back puts square TurnSquare(v, k) of the view's board at k. */
  lemma TurnBackHas(v: View, x: Bitboard, k: int)
    requires IsSquare(k)
    ensures IsSquare(TurnSquare(v, k)) && TurnBackSquare(v, TurnSquare(v, k)) == k
    ensures Has(TurnBack(v, x), k) == Has(x, TurnSquare(v, k))
  {
    match v
    case Upright =>
    case Rotate90 =>
      Rotate90SquareInverse(k);
      Rotate90CcwAt(x, Rotate90CwSquare(k));
    case Rotate45Cw =>
      PseudoRotate45CwSquareInverse(k);
      PseudoRotate45CwInverseAt(x, PseudoRotate45CwSquare(k));
    case Rotate45Ccw =>
      PseudoRotate45CcwSquareInverse(k);
      PseudoRotate45CcwInverseAt(x, PseudoRotate45CcwSquare(k));
  }

  /** Turning back undoes turning. */
  lemma TurnBackTurn(v: View, b: Bitboard)
    ensures TurnBack(v, Turn(v, b)) == b
  {
    match v
    case Upright =>
    case Rotate90 => Rotate90CcwAfterCw(b);
    case Rotate45Cw => PseudoRotate45CwRoundTrip(b);
    case Rotate45Ccw => PseudoRotate45CcwRoundTrip(b);
  }

  /** The line through k is a run of Length squares inside one row of the view's board, with k at Index. */
  lemma Placement(v: View, k: int)
    requires IsSquare(k)
    ensures 0 <= Index(v, k) < Length(v, k) <= 8
    ensures IsSquare(Start(v, k)) && Start(v, k) % 8 + Length(v, k) <= 8 && Start(v, k) + Length(v, k) <= 64
    ensures Start(v, k) + Index(v, k) == TurnSquare(v, k)
  {
    match v
    case Upright => UprightPlacement(k);
    case Rotate90 => Rotate90Placement(k);
    case Rotate45Cw => Rotate45CwPlacement(k);
    case Rotate45Ccw => Rotate45CcwPlacement(k);
  }

  // ---------------------------------------------------------------------
  // Stepping along a line of a view's board is stepping along the real board

  /** Diagonal arithmetic: column c2 on the diagonal row - column == r - c, in terms of its row r2. */
  lemma CwRay(r: int, c: int, r2: int, c2: int)
    requires 0 <= r < 8 && 0 <= c < 8 && r2 - c2 == r - c
    ensures var first := if r - c < 0 then c - r else 0;
      (0 <= c2 - first < 8 - Abs(r - c)) == (0 <= r2 < 8 && 0 <= c2 < 8)
    ensures 0 <= r2 < 8 && 0 <= c2 < 8 ==>
      PseudoRotate45CwInverseSquare(8 * WrapRow(r - c) + c2) == 8 * r2 + c2
  {
    if 0 <= r2 < 8 && 0 <= c2 < 8 {
      var j := 8 * WrapRow(r - c) + c2;
      assert j / 8 == WrapRow(r - c) && j % 8 == c2;
      if r - c < 0 {
        assert j / 8 + j % 8 == r2 + 8;
      }
    }
  }

  /** Anti-diagonal arithmetic: column c2 on the anti-diagonal row + column == r + c. */
  lemma CcwRay(r: int, c: int, r2: int, c2: int)
    requires 0 <= r < 8 && 0 <= c < 8 && r2 + c2 == r + c
    ensures var first := if r + c > 7 then r + c - 7 else 0;
      (0 <= c2 - first < 8 - Abs(r + c - 7)) == (0 <= r2 < 8 && 0 <= c2 < 8)
    ensures 0 <= r2 < 8 && 0 <= c2 < 8 ==>
      PseudoRotate45CcwInverseSquare(8 * WrapRow(r + c - 7) + c2) == 8 * r2 + c2
  {
    if 0 <= r2 < 8 && 0 <= c2 < 8 {
      var j := 8 * WrapRow(r + c - 7) + c2;
      assert j / 8 == WrapRow(r + c - 7) && j % 8 == c2;
      if r + c - 7 < 0 {
        assert j / 8 - j % 8 - 1 == r2;
      } else {
        assert j / 8 - j % 8 - 1 == r2 - 8;
      }
    }
  }

  lemma UprightRay(m: int, d: Lines.Direction, t: int)
    requires IsSquare(m)
    ensures (0 <= Lines.Step(Index(Upright, m), d, t) < Length(Upright, m)) == OnBoard(m, Upright, d, t)
    ensures OnBoard(m, Upright, d, t) ==>
      TurnBackSquare(Upright, Start(Upright, m) + Lines.Step(Index(Upright, m), d, t)) == RaySquare(m, Upright, d, t)
  {}

  lemma Rotate90Ray(m: int, d: Lines.Direction, t: int)
    requires IsSquare(m)
    ensures (0 <= Lines.Step(Index(Rotate90, m), d, t) < Length(Rotate90, m)) == OnBoard(m, Rotate90, d, t)
    ensures OnBoard(m, Rotate90, d, t) ==>
      TurnBackSquare(Rotate90, Start(Rotate90, m) + Lines.Step(Index(Rotate90, m), d, t)) == RaySquare(m, Rotate90, d, t)
  {
    var q := Lines.Step(m / 8, d, t);
    if 0 <= q < 8 {
      var j := 8 * (7 - m % 8) + q;
      assert j / 8 == 7 - m % 8 && j % 8 == q;
      assert Start(Rotate90, m) + q == j;
    }
  }

  lemma Rotate45CwRay(m: int, d: Lines.Direction, t: int)
    requires IsSquare(m)
    ensures (0 <= Lines.Step(Index(Rotate45Cw, m), d, t) < Length(Rotate45Cw, m)) == OnBoard(m, Rotate45Cw, d, t)
    ensures OnBoard(m, Rotate45Cw, d, t) ==>
      TurnBackSquare(Rotate45Cw, Start(Rotate45Cw, m) + Lines.Step(Index(Rotate45Cw, m), d, t))
      == RaySquare(m, Rotate45Cw, d, t)
  {
    var r, c := m / 8, m % 8;
    var r2, c2 := Lines.Step(r, d, t), Lines.Step(c, d, t);
    Rotate45CwSquareOf(m);
    CwRay(r, c, r2, c2);
    var q := Lines.Step(Index(Rotate45Cw, m), d, t);
    assert q == c2 - FirstColumnCw(m);
    assert Start(Rotate45Cw, m) + q == 8 * WrapRow(r - c) + c2;
    assert OnBoard(m, Rotate45Cw, d, t) == (0 <= r2 < 8 && 0 <= c2 < 8);
    assert RaySquare(m, Rotate45Cw, d, t) == 8 * r2 + c2;
  }

  lemma Rotate45CcwRay(m: int, d: Lines.Direction, t: int)
    requires IsSquare(m)
    ensures (0 <= Lines.Step(Index(Rotate45Ccw, m), d, t) < Length(Rotate45Ccw, m)) == OnBoard(m, Rotate45Ccw, d, t)
    ensures OnBoard(m, Rotate45Ccw, d, t) ==>
      TurnBackSquare(Rotate45Ccw, Start(Rotate45Ccw, m) + Lines.Step(Index(Rotate45Ccw, m), d, t))
      == RaySquare(m, Rotate45Ccw, d, t)
  {
    var r, c := m / 8, m % 8;
    var r2, c2 := Lines.Step(r, d.Opposite(), t), Lines.Step(c, d, t);
    Rotate45CcwSquareOf(m);
    CcwRay(r, c, r2, c2);
    var q := Lines.Step(Index(Rotate45Ccw, m), d, t);
    assert q == c2 - FirstColumnCcw(m);
    assert Start(Rotate45Ccw, m) + q == 8 * WrapRow(r + c - 7) + c2;
    assert OnBoard(m, Rotate45Ccw, d, t) == (0 <= r2 < 8 && 0 <= c2 < 8);
    assert RaySquare(m, Rotate45Ccw, d, t) == 8 * r2 + c2;
  }

  /**
   * Position Index(v, m) +- t on the view's line lies on the line exactly when the
   * square t steps from m in the matching direction is on the board, and it shows
   * that square.
   */
  lemma Ray(v: View, m: int, d: Lines.Direction, t: int)
    requires IsSquare(m)
    ensures (0 <= Lines.Step(Index(v, m), d, t) < Length(v, m)) == OnBoard(m, v, d, t)
    ensures OnBoard(m, v, d, t) ==>
      TurnBackSquare(v, Start(v, m) + Lines.Step(Index(v, m), d, t)) == RaySquare(m, v, d, t)
  {
    match v
    case Upright => UprightRay(m, d, t);
    case Rotate90 => Rotate90Ray(m, d, t);
    case Rotate45Cw => Rotate45CwRay(m, d, t);
    case Rotate45Ccw => Rotate45CcwRay(m, d, t);
  }

  // ---------------------------------------------------------------------
  // The rules of the game on the real board

  /** The player to move and the opponent, from the black and white boards. */
  function Own(black: Bitboard, white: Bitboard, c: Color): Bitboard { if c == Black then black else white }
  function Opponent(black: Bitboard, white: Bitboard, c: Color): Bitboard { if c == Black then white else black }

  /** Square m holds no piece. */
  predicate Vacant(self: Bitboard, enemy: Bitboard, m: int)
  {
    IsSquare(m) && !Has(self, m) && !Has(enemy, m)
  }

  /**
   * From m in the direction (v, d) lie n >= 1 enemy pieces in a row and then a
   * piece of self, all on the board.
   */
  ghost predicate Encloses(self: Bitboard, enemy: Bitboard, m: int, v: View, d: Lines.Direction, n: int)
  {
    && 1 <= n
    && (forall i | 1 <= i <= n :: OnBoard(m, v, d, i) && Has(enemy, RaySquare(m, v, d, i)))
    && OnBoard(m, v, d, n + 1) && Has(self, RaySquare(m, v, d, n + 1))
  }

  /** Self may play at m: it is empty and encloses enemy pieces in some direction. */
  ghost predicate Legal(self: Bitboard, enemy: Bitboard, m: int)
  {
    Vacant(self, enemy, m) && exists v, d, n :: Encloses(self, enemy, m, v, d, n)
  }

  /** p lies on an enclosed run from m along the lines of view v. */
  ghost predicate TurnsAlong(self: Bitboard, enemy: Bitboard, m: int, v: View, p: int)
  {
    exists d, n, t :: Encloses(self, enemy, m, v, d, n) && 1 <= t <= n && p == RaySquare(m, v, d, t)
  }

  /** Playing self at m turns over the piece on p. */
  ghost predicate Turns(self: Bitboard, enemy: Bitboard, m: int, p: int)
  {
    Vacant(self, enemy, m) && exists v :: TurnsAlong(self, enemy, m, v, p)
  }

  // ---------------------------------------------------------------------
  // Reading the line through a square from a view's board

  /** x is the view's board of b: square j of x shows square TurnBackSquare(v, j) of b. */
  ghost predicate Shows(v: View, x: Bitboard, b: Bitboard)
  {
    forall j {:trigger Has(x, j)} | IsSquare(j) :: Has(x, j) == Has(b, TurnBackSquare(v, j))
  }

  /** r90, r45cw and r45ccw are the rotate90, rotate45cw and rotate45ccw boards of the upright board b. */
  predicate Oriented(b: Bitboard, r90: Bitboard, r45cw: Bitboard, r45ccw: Bitboard)
  {
    r90 == Turn(Rotate90, b) && r45cw == Turn(Rotate45Cw, b) && r45ccw == Turn(Rotate45Ccw, b)
  }

  lemma TurnShows(v: View, b: Bitboard)
    ensures Shows(v, Turn(v, b), b)
  {
    forall j | IsSquare(j) ensures Has(Turn(v, b), j) == Has(b, TurnBackSquare(v, j)) {
      TurnHas(v, b, j);
    }
  }

  /** r90, r45cw and r45ccw show the upright board b square by square in their views. */
  ghost predicate Shown(b: Bitboard, r90: Bitboard, r45cw: Bitboard, r45ccw: Bitboard)
  {
    Shows(Upright, b, b) && Shows(Rotate90, r90, b) && Shows(Rotate45Cw, r45cw, b) && Shows(Rotate45Ccw, r45ccw, b)
  }

  /** Each board of an oriented set shows the upright board square by square. */
  lemma OrientedShows(b: Bitboard, r90: Bitboard, r45cw: Bitboard, r45ccw: Bitboard)
    requires Oriented(b, r90, r45cw, r45ccw)
    ensures Shown(b, r90, r45cw, r45ccw)
  {
    TurnShows(Upright, b);
    TurnShows(Rotate90, b);
    TurnShows(Rotate45Cw, b);
    TurnShows(Rotate45Ccw, b);
  }

  /** The line through m on the view's board x, as the engine reads it: `(x >> offset) & mask`. */
  function LineOf(v: View, x: Bitboard, m: int): Lines.Row
    requires IsSquare(m)
  {
    Placement(v, m);
    Segment(x, Index6(Start(v, m)), LowMask(Length(v, m)))
  }

  lemma LineInside(v: View, x: Bitboard, m: int, q: int)
    requires IsSquare(m) && 0 <= q < Length(v, m) && IsSquare(Start(v, m)) && Start(v, m) + Length(v, m) <= 64
    requires Length(v, m) <= 8
    ensures IsSquare(Start(v, m) + q)
    ensures Lines.In(LineOf(v, x, m), q) == Has(x, Start(v, m) + q)
  {
    var o := Index6(Start(v, m));
    Index6Value(Start(v, m));
    LowMaskIn(Length(v, m), q);
    SegmentIn(x, o, LowMask(Length(v, m)), q);
  }

  lemma LineOutside(v: View, x: Bitboard, m: int, q: int)
    requires IsSquare(m) && IsSquare(Start(v, m)) && 0 <= Length(v, m) <= 8
    requires !(0 <= q < Length(v, m))
    ensures !Lines.In(LineOf(v, x, m), q)
  {
    LowMaskIn(Length(v, m), q);
    SegmentMasked(x, Index6(Start(v, m)), LowMask(Length(v, m)), q);
  }

  /** Square q of the line is square Start + q of the view's board. */
  lemma LineIn(v: View, x: Bitboard, m: int, q: int)
    requires IsSquare(m)
    ensures Lines.In(LineOf(v, x, m), q) == (0 <= q < Length(v, m) && IsSquare(Start(v, m) + q) && Has(x, Start(v, m) + q))
  {
    Placement(v, m);
    if 0 <= q < Length(v, m) {
      LineInside(v, x, m, q);
    } else {
      LineOutside(v, x, m, q);
    }
  }

  /** One square of a view's board, read through Shows. */
  lemma ShowsAt(v: View, x: Bitboard, b: Bitboard, j: int, k: int)
    requires IsSquare(j) && Shows(v, x, b) && TurnBackSquare(v, j) == k
    ensures IsSquare(k) && Has(x, j) == Has(b, k)
  {
  }

  /** Stepping t squares along the line from m is stepping t squares on the real board. */
  lemma LineAlong(v: View, x: Bitboard, b: Bitboard, m: int, d: Lines.Direction, t: int)
    requires IsSquare(m) && Shows(v, x, b)
    ensures Lines.In(LineOf(v, x, m), Lines.Step(Index(v, m), d, t))
        == (OnBoard(m, v, d, t) && Has(b, RaySquare(m, v, d, t)))
  {
    var q := Lines.Step(Index(v, m), d, t);
    LineIn(v, x, m, q);
    Ray(v, m, d, t);
    if OnBoard(m, v, d, t) {
      Placement(v, m);
      ShowsAt(v, x, b, Start(v, m) + q, RaySquare(m, v, d, t));
    }
  }

  /** The line shows square m itself at Index(v, m). */
  lemma LineAtIndex(v: View, x: Bitboard, m: int)
    requires IsSquare(m)
    ensures Lines.In(LineOf(v, x, m), Index(v, m)) == Has(x, TurnSquare(v, m))
  {
    Placement(v, m);
    var q := Index(v, m);
    LineInside(v, x, m, q);
    ReadSame(LineOf(v, x, m), q, x, Start(v, m) + q, TurnSquare(v, m));
  }

  /** A line bit that reads square a of x reads any square equal to a. */
  lemma ReadSame(line: Lines.Row, q: int, x: Bitboard, a: int, b: int)
    requires IsSquare(a) && a == b && Lines.In(line, q) == Has(x, a)
    ensures Lines.In(line, q) == Has(x, b)
  {
  }

  /** Lines of boards with no common square have no common square. */
  lemma LineDisjoint(v: View, x: Bitboard, y: Bitboard, m: int)
    requires IsSquare(m) && x & y == 0
    ensures LineOf(v, x, m) & LineOf(v, y, m) == 0
  {
    var lx, ly := LineOf(v, x, m), LineOf(v, y, m);
    forall q | 0 <= q < 8 ensures Lines.In(lx & ly, q) == Lines.In(0, q) {
      Lines.AndIn(lx, ly, q);
      Lines.ZeroIn(q);
      LineIn(v, x, m, q);
      LineIn(v, y, m, q);
      if 0 <= q < Length(v, m) && IsSquare(Start(v, m) + q) {
        HasAnd(x, y, Start(v, m) + q);
        HasZero(Start(v, m) + q);
      }
    }
    Lines.Extensionality(lx & ly, 0);
  }

  /** Along direction d from m, the line of x reads the squares of b that the ray crosses. */
  ghost predicate Agrees(v: View, x: Bitboard, b: Bitboard, m: int, d: Lines.Direction)
    requires IsSquare(m)
  {
    forall t {:trigger Lines.In(LineOf(v, x, m), Lines.Step(Index(v, m), d, t))}
      :: Lines.In(LineOf(v, x, m), Lines.Step(Index(v, m), d, t))
             == (OnBoard(m, v, d, t) && Has(b, RaySquare(m, v, d, t)))
  }

  lemma ShowsAgrees(v: View, x: Bitboard, b: Bitboard, m: int, d: Lines.Direction)
    requires IsSquare(m) && Shows(v, x, b)
    ensures Agrees(v, x, b, m, d)
  {
    forall t ensures Lines.In(LineOf(v, x, m), Lines.Step(Index(v, m), d, t))
                  == (OnBoard(m, v, d, t) && Has(b, RaySquare(m, v, d, t))) {
      LineAlong(v, x, b, m, d, t);
    }
  }

  /** The sandwich rule on the line is the sandwich rule on the board, direction by direction. */
  lemma BracketsIff(v: View, xs: Bitboard, xe: Bitboard, self: Bitboard, enemy: Bitboard,
                    m: int, d: Lines.Direction, n: int)
    requires IsSquare(m) && Agrees(v, xs, self, m, d) && Agrees(v, xe, enemy, m, d)
    ensures Lines.Brackets(LineOf(v, xs, m), LineOf(v, xe, m), Index(v, m), d, n)
        == Encloses(self, enemy, m, v, d, n)
  {
  }

  /** The square played is empty on the line exactly when it is empty on the board. */
  lemma EmptyIff(v: View, xs: Bitboard, xe: Bitboard, self: Bitboard, enemy: Bitboard, m: int)
    requires IsSquare(m) && Shows(v, xs, self) && Shows(v, xe, enemy)
    ensures Lines.Empty(LineOf(v, xs, m), LineOf(v, xe, m), Index(v, m)) == Vacant(self, enemy, m)
  {
    Placement(v, m);
    LineAtIndex(v, xs, m);
    LineAtIndex(v, xe, m);
    TurnSquareInverse(v, m);
    ShowsAt(v, xs, self, TurnSquare(v, m), m);
    ShowsAt(v, xe, enemy, TurnSquare(v, m), m);
  }
}
