/**
 * The game state: the black and white boards kept in four orientations, the
 * two pass flags and the side to move, with the operations the search uses.
 */
module Positions {
  import opened Bitboards
  import Lines
  import opened Segments
  import opened Views
  import opened Captures
  import opened MoveGeneration
  import opened CaptureTables
  import opened Popcounts
  import opened SquareSets
  import opened Playing

  /** The slot of a colour in the engine's two-entry arrays (BLACK = 0, WHITE = 1). */
  function Slot(c: Color): int { if c == Black then 0 else 1 }

  // ---------------------------------------------------------------------
  // The steps of generate_moves and make_move, one view at a time

  /**
   * The moves of one view: every line of the view's boards xb, xw looked up in
   * the moves table and placed back, then turned upright. The result holds the
   * squares where c encloses pieces along that view's lines.
   */
  method MovesOfView(v: View, xb: Bitboard, xw: Bitboard, c: Color, ghost black: Bitboard, ghost white: Bitboard)
    returns (moves: Bitboard)
    requires Shows(v, xb, black) && Shows(v, xw, white)
    ensures forall k | IsSquare(k) :: Has(moves, k) == LegalAlong(Own(black, white, c), Opponent(black, white, c), k, v)
  {
    SpansFit(v);
    moves := TurnBack(v, SpansMoves(xb, xw, c, Spans(v)));
    forall k | IsSquare(k)
      ensures Has(moves, k) == LegalAlong(Own(black, white, c), Opponent(black, white, c), k, v)
    {
      TurnBackHas(v, SpansMoves(xb, xw, c, Spans(v)), k);
      MovesShown(v, xb, xw, black, white, c, k);
    }
  }

  /**
   * The captures of one view: the line through m read from the view's boards at
   * the tabulated offset and length, the captures entry at the tabulated index
   * shifted back to the offset, then turned upright. The result holds the pieces
   * a move at m turns over along that view's line.
   */
  method CapturesOfView(v: View, xb: Bitboard, xw: Bitboard, c: Color, m: int, offset: int, length: int, index: int,
                        ghost black: Bitboard, ghost white: Bitboard)
    returns (captures: Bitboard)
    requires IsSquare(m) && black & white == 0 && Shows(v, xb, black) && Shows(v, xw, white)
    requires offset == Start(v, m) && length == Length(v, m) && index == Index(v, m)
    ensures CapturedAlong(captures, Own(black, white, c), Opponent(black, white, c), m, v)
  {
    Placement(v, m);
    var mask := LowMask(length);
    var lineBlack := Segment(xb, Index6(offset), mask);
    var lineWhite := Segment(xw, Index6(offset), mask);
    var line := Place(Lines.CaptureEntry(lineBlack, lineWhite, c, index), Index6(offset));
    captures := TurnBack(v, line);
    assert line == LineCaptures(v, xb, xw, c, m);
    forall p | IsSquare(p)
      ensures Has(captures, p)
          == (Vacant(Own(black, white, c), Opponent(black, white, c), m)
              && TurnsAlong(Own(black, white, c), Opponent(black, white, c), m, v, p))
    {
      TurnBackHas(v, line, p);
      TurnSquareInverse(v, p);
      LineCapturesIn(v, xb, xw, black, white, c, m, TurnSquare(v, p));
    }
  }

  /** The four views' moves together: every legal move. */
  method UnionOfMoves(a: Bitboard, b: Bitboard, e: Bitboard, f: Bitboard, ghost self: Bitboard, ghost enemy: Bitboard)
    returns (moves: Bitboard)
    requires forall k | IsSquare(k) :: Has(a, k) == LegalAlong(self, enemy, k, Upright)
    requires forall k | IsSquare(k) :: Has(b, k) == LegalAlong(self, enemy, k, Rotate90)
    requires forall k | IsSquare(k) :: Has(e, k) == LegalAlong(self, enemy, k, Rotate45Cw)
    requires forall k | IsSquare(k) :: Has(f, k) == LegalAlong(self, enemy, k, Rotate45Ccw)
    ensures forall k | IsSquare(k) :: Has(moves, k) == Legal(self, enemy, k)
  {
    moves := a | b | e | f;
    forall k | IsSquare(k) ensures Has(moves, k) == Legal(self, enemy, k) {
      CombineMoves(self, enemy, k, a, b, e, f);
    }
  }

  /** generate_moves on the boards' values: the four views' moves joined. */
  method AllMoves(c: Color, black: Bitboard, white: Bitboard, black90: Bitboard, white90: Bitboard,
                  black45cw: Bitboard, white45cw: Bitboard, black45ccw: Bitboard, white45ccw: Bitboard)
    returns (moves: Bitboard)
    requires Oriented(black, black90, black45cw, black45ccw) && Oriented(white, white90, white45cw, white45ccw)
    ensures forall k | IsSquare(k) :: Has(moves, k) == Legal(Own(black, white, c), Opponent(black, white, c), k)
  {
    OrientedShows(black, black90, black45cw, black45ccw);
    OrientedShows(white, white90, white45cw, white45ccw);
    var upright := MovesOfView(Upright, black, white, c, black, white);
    var rotate90 := MovesOfView(Rotate90, black90, white90, c, black, white);
    var rotate45cw := MovesOfView(Rotate45Cw, black45cw, white45cw, c, black, white);
    var rotate45ccw := MovesOfView(Rotate45Ccw, black45ccw, white45ccw, c, black, white);
    moves := UnionOfMoves(upright, rotate90, rotate45cw, rotate45ccw, Own(black, white, c), Opponent(black, white, c));
  }

  /**
   * The table entries make_move reads for the line through m in view v; the
   * upright and rotate90 lines are whole rows, read with the mask 0xff.
   */
  method Lookup(tables: CapturesTables, v: View, m: int) returns (offset: int, length: int, index: int)
    requires tables.Filled() && IsSquare(m)
    ensures offset == Start(v, m) && length == Length(v, m) && index == Index(v, m)
  {
    match v
    case Upright =>
      offset, length, index := tables.offsetUpright[m], 8, tables.indexUpright[m];
    case Rotate90 =>
      offset, length, index := tables.offsetRotate90[m], 8, tables.indexRotate90[m];
    case Rotate45Cw =>
      offset, length, index := tables.offsetRotate45Cw[m], tables.lengthRotate45Cw[m], tables.indexRotate45Cw[m];
    case Rotate45Ccw =>
      offset, length, index := tables.offsetRotate45Ccw[m], tables.lengthRotate45Ccw[m], tables.indexRotate45Ccw[m];
  }

  /** The four views' captures together: every piece a move at m turns over (all_captures). */
  method UnionOfCaptures(a: Bitboard, b: Bitboard, e: Bitboard, f: Bitboard, m: int, ghost self: Bitboard, ghost enemy: Bitboard)
    returns (all: Bitboard)
    requires CapturedAlong(a, self, enemy, m, Upright) && CapturedAlong(b, self, enemy, m, Rotate90)
    requires CapturedAlong(e, self, enemy, m, Rotate45Cw) && CapturedAlong(f, self, enemy, m, Rotate45Ccw)
    ensures CapturedAll(all, self, enemy, m)
  {
    all := a | b | e | f;
    forall p | IsSquare(p) ensures Has(all, p) == Turns(self, enemy, m, p) {
      CombineViews(self, enemy, m, p, a, b, e, f);
    }
  }

  /**
   * The first half of make_move: the line through m in each view read at the
   * tabulated offset, length and index, its captures entry turned upright, and
   * the four results joined. The result holds every piece c turns over by playing m.
   */
  method AllCaptures(tables: CapturesTables, c: Color, m: int,
                     black: Bitboard, white: Bitboard, black90: Bitboard, white90: Bitboard,
                     black45cw: Bitboard, white45cw: Bitboard, black45ccw: Bitboard, white45ccw: Bitboard)
    returns (all: Bitboard)
    requires tables.Filled() && IsSquare(m) && Squares(black) !! Squares(white)
    requires Oriented(black, black90, black45cw, black45ccw) && Oriented(white, white90, white45cw, white45ccw)
    ensures CapturedAll(all, Own(black, white, c), Opponent(black, white, c), m)
  {
    OrientedShows(black, black90, black45cw, black45ccw);
    OrientedShows(white, white90, white45cw, white45ccw);
    all := ViewsCaptures(tables, c, m, black, white, black90, white90, black45cw, white45cw, black45ccw, white45ccw);
  }

  /** AllCaptures on boards known square by square through their views. */
  method ViewsCaptures(tables: CapturesTables, c: Color, m: int,
                       black: Bitboard, white: Bitboard, black90: Bitboard, white90: Bitboard,
                       black45cw: Bitboard, white45cw: Bitboard, black45ccw: Bitboard, white45ccw: Bitboard)
    returns (all: Bitboard)
    requires tables.Filled() && IsSquare(m) && Squares(black) !! Squares(white)
    requires Shown(black, black90, black45cw, black45ccw) && Shown(white, white90, white45cw, white45ccw)
    ensures CapturedAll(all, Own(black, white, c), Opponent(black, white, c), m)
  {
    DisjointBoards(black, white);
    var offset, length, index := Lookup(tables, Upright, m);
    var offset90, length90, index90 := Lookup(tables, Rotate90, m);
    var offset45cw, length45cw, index45cw := Lookup(tables, Rotate45Cw, m);
    var offset45ccw, length45ccw, index45ccw := Lookup(tables, Rotate45Ccw, m);
    var upright := CapturesOfView(Upright, black, white, c, m, offset, length, index, black, white);
    var rotate90 := CapturesOfView(Rotate90, black90, white90, c, m, offset90, length90, index90, black, white);
    var rotate45cw := CapturesOfView(Rotate45Cw, black45cw, white45cw, c, m, offset45cw, length45cw, index45cw, black, white);
    var rotate45ccw := CapturesOfView(Rotate45Ccw, black45ccw, white45ccw, c, m, offset45ccw, length45ccw, index45ccw, black, white);
    all := UnionOfCaptures(upright, rotate90, rotate45cw, rotate45ccw, m, Own(black, white, c), Opponent(black, white, c));
  }

  /**
   * The second half of make_move: `1ULL << move` joins the mover's board, then
   * the captures are flipped in both boards.
   */
  method PlaceAndFlip(self: Bitboard, enemy: Bitboard, m: int, all: Bitboard) returns (self2: Bitboard, enemy2: Bitboard)
    requires IsSquare(m) && self & enemy == 0 && Vacant(self, enemy, m)
    requires CapturedAll(all, self, enemy, m)
    ensures Played(self, enemy, m, self2, enemy2) && self2 & enemy2 == 0
  {
    var bit := SquareBitOf(m);
    var own := self | bit;
    SetSquare(self, bit, m);
    self2 := own ^ all;
    enemy2 := enemy ^ all;
    FlipCaptures(self, enemy, m, own, all);
    PlayedDisjoint(self, enemy, m, self2, enemy2);
  }

  /**
   * make_move on the boards' values: the captures found, the piece placed, the
   * captures flipped and the three views derived again from the new boards.
   */
  method NextBoards(tables: CapturesTables, c: Color, m: int,
                    black: Bitboard, white: Bitboard, black90: Bitboard, white90: Bitboard,
                    black45cw: Bitboard, white45cw: Bitboard, black45ccw: Bitboard, white45ccw: Bitboard)
    returns (black2: Bitboard, white2: Bitboard)
    requires tables.Filled() && Squares(black) !! Squares(white) && Vacant(Own(black, white, c), Opponent(black, white, c), m)
    requires Oriented(black, black90, black45cw, black45ccw) && Oriented(white, white90, white45cw, white45ccw)
    ensures Played(Own(black, white, c), Opponent(black, white, c), m, Own(black2, white2, c), Opponent(black2, white2, c))
    ensures Squares(black2) !! Squares(white2)
  {
    var all := AllCaptures(tables, c, m, black, white, black90, white90, black45cw, white45cw, black45ccw, white45ccw);
    black2, white2 := PlayBoards(c, m, black, white, all);
  }

  /** `uprightBB[c] |= m; uprightBB[c] ^= all_captures; uprightBB[c^1] ^= all_captures` on the black and white boards. */
  method PlayBoards(c: Color, m: int, black: Bitboard, white: Bitboard, all: Bitboard) returns (black2: Bitboard, white2: Bitboard)
    requires Squares(black) !! Squares(white) && Vacant(Own(black, white, c), Opponent(black, white, c), m)
    requires CapturedAll(all, Own(black, white, c), Opponent(black, white, c), m)
    ensures Played(Own(black, white, c), Opponent(black, white, c), m, Own(black2, white2, c), Opponent(black2, white2, c))
    ensures Squares(black2) !! Squares(white2)
  {
    DisjointBoards(black, white);
    if c == Black {
      black2, white2 := PlaceAndFlip(black, white, m, all);
    } else {
      assert black & white == white & black;
      white2, black2 := PlaceAndFlip(white, black, m, all);
      assert white2 & black2 == black2 & white2;
    }
    DisjointBoards(black2, white2);
  }

  /** `1ULL << move`: the board holding the single square k. */
  method SquareBitOf(k: int) returns (bit: Bitboard)
    requires IsSquare(k)
    ensures forall j | IsSquare(j) :: Has(bit, j) == (j == k)
  {
    bit := SquareBit(k);
    forall j | IsSquare(j) ensures Has(bit, j) == (j == k) {
      HasSquareBit(k, j);
    }
  }

  /** A fresh two-entry array holding the boards of black and white. */
  method Pair(black: Bitboard, white: Bitboard) returns (a: array<Bitboard>)
    ensures fresh(a) && a.Length == 2 && a[0] == black && a[1] == white
  {
    a := new Bitboard[2] [black, white];
  }

  /** Every square holds a piece of one colour or the other. */
  ghost predicate Full(black: Bitboard, white: Bitboard)
  {
    forall k | IsSquare(k) :: Has(black, k) || Has(white, k)
  }

  /** The constructor's words put black on squares 27 and 36 and white on 28 and 35. */
  lemma InitialBoards()
    ensures Squares(0x0000001008000000) == {27, 36}
    ensures Squares(0x0000000810000000) == {28, 35}
  {
    forall k | IsSquare(k)
      ensures Has(0x0000001008000000, k) == (k == 27 || k == 36)
      ensures Has(0x0000000810000000, k) == (k == 28 || k == 35)
    {
      InitialSquare(k);
    }
  }

  /** How far the square index moves for one step along direction (v, d). */
  function Stride(v: View, d: Lines.Direction): (s: int)
    ensures s != 0
  {
    match v
    case Upright => if d == Lines.Up then 1 else -1
    case Rotate90 => if d == Lines.Up then 8 else -8
    case Rotate45Cw => if d == Lines.Up then 9 else -9
    case Rotate45Ccw => if d == Lines.Up then -7 else 7
  }

  /** The square t steps from m along (v, d) is m plus t strides. */
  lemma RayStride(m: int, v: View, d: Lines.Direction, t: int)
    requires IsSquare(m)
    ensures RaySquare(m, v, d, t) == m + t * Stride(v, d)
  {}

  /**
   * A run from m of enemy squares a1 (and a2, a3 when n reaches 2, 3) closed
   * by own square e, one stride s apart, with white on 28 and 35 and black on
   * 27 and 36: m is one of 20, 29, 34 and 43.
   */
  lemma InitialRun(m: int, s: int, n: int, a1: int, a2: int, a3: int, e: int)
    requires s != 0 && 1 <= n
    requires a1 == m + s && a1 in {28, 35}
    requires n >= 2 ==> a2 == m + 2 * s && a2 in {28, 35}
    requires n >= 3 ==> a3 == m + 3 * s && a3 in {28, 35}
    requires e == m + (n + 1) * s && e in {27, 36}
    ensures m in {20, 29, 34, 43}
  {
    if n == 1 {
    } else if n == 2 {
    } else {
      assert false;
    }
  }

  /** The initial words, square by square. */
  lemma InitialSquare(k: int)
    requires IsSquare(k)
    ensures Has(0x0000001008000000, k) == (k == 27 || k == 36)
    ensures Has(0x0000000810000000, k) == (k == 28 || k == 35)
  {
    Index6Value(k);
  }

  /** A black move in the initial position is on 20, 29, 34 or 43. */
  lemma InitialMoveOnly(k: int)
    requires IsSquare(k) && Legal(0x0000001008000000, 0x0000000810000000, k)
    ensures k in {20, 29, 34, 43}
  {
    var v, d, n :| Encloses(0x0000001008000000, 0x0000000810000000, k, v, d, n);
    var s := Stride(v, d);
    var a1, a2, a3, e := RaySquare(k, v, d, 1), RaySquare(k, v, d, 2), RaySquare(k, v, d, 3), RaySquare(k, v, d, n + 1);
    RayStride(k, v, d, 1);
    RayStride(k, v, d, 2);
    RayStride(k, v, d, 3);
    RayStride(k, v, d, n + 1);
    InitialSquare(a1);
    if n >= 2 {
      InitialSquare(a2);
    }
    if n >= 3 {
      InitialSquare(a3);
    }
    InitialSquare(e);
    InitialRun(k, s, n, a1, a2, a3, e);
  }

  /** Each of 20, 29, 34 and 43 is a black move in the initial position. */
  lemma InitialMoveEach(k: int)
    requires k in {20, 29, 34, 43}
    ensures Legal(0x0000001008000000, 0x0000000810000000, k)
  {
    var black: Bitboard, white: Bitboard := 0x0000001008000000, 0x0000000810000000;
    InitialSquare(k);
    var v, d := if k == 20 || k == 43 then Rotate90 else Upright, if k == 20 || k == 34 then Lines.Up else Lines.Down;
    InitialSquare(RaySquare(k, v, d, 1));
    InitialSquare(RaySquare(k, v, d, 2));
    assert Encloses(black, white, k, v, d, 1);
  }

  /**
   * From the initial position black may play exactly on squares 20, 29, 34
   * and 43.
   */
  lemma InitialMoves()
    ensures forall k | IsSquare(k) ::
      Legal(0x0000001008000000, 0x0000000810000000, k) <==> k in {20, 29, 34, 43}
  {
    forall k | IsSquare(k) ensures Legal(0x0000001008000000, 0x0000000810000000, k) <==> k in {20, 29, 34, 43} {
      if Legal(0x0000001008000000, 0x0000000810000000, k) {
        InitialMoveOnly(k);
      }
      if k in {20, 29, 34, 43} {
        InitialMoveEach(k);
      }
    }
  }

  /** `~(black | white) == 0` says the board is full. */
  lemma FullWord(black: Bitboard, white: Bitboard)
    ensures (!(black | white) == 0) == Full(black, white)
  {
    FullBoard(black | white);
    forall k | IsSquare(k) ensures Has(black | white, k) == (Has(black, k) || Has(white, k)) {
      HasOr(black, white, k);
    }
  }

  /** outcome on the two boards: the sign of the difference of their popcounts. */
  function OutcomeOf(black: Bitboard, white: Bitboard): (result: int)
    ensures result == (if |Squares(black)| > |Squares(white)| then 1
                       else if |Squares(black)| < |Squares(white)| then -1
                       else 0)
  {
    var b, w := Popcount(black), Popcount(white);
    PopcountIsSize(black);
    PopcountIsSize(white);
    if b > w then 1 else if b < w then -1 else 0
  }

  // ---------------------------------------------------------------------
  // bb2vec

  /** The squares of b below n, in ascending order. */
  ghost function SetBits(b: Bitboard, n: nat): (r: seq<int>)
    requires n <= 64
    ensures forall i | 0 <= i < |r| :: 0 <= r[i] < n && Has(b, r[i])
    ensures forall k | 0 <= k < n && Has(b, k) :: k in r
    ensures forall i, j | 0 <= i < j < |r| :: r[i] < r[j]
  {
    if n == 0 then [] else SetBits(b, n - 1) + (if Has(b, n - 1) then [n - 1] else [])
  }

  /** An ascending sequence has as many entries as it has distinct values. */
  lemma {:induction false} AscendingSize(r: seq<int>)
    requires forall i, j | 0 <= i < j < |r| :: r[i] < r[j]
    ensures |set x | x in r| == |r|
  {
    if r != [] {
      var front := r[..|r| - 1];
      AscendingSize(front);
      assert (set x | x in r) == (set x | x in front) + {r[|r| - 1]};
      assert r[|r| - 1] !in (set x | x in front);
    }
  }

  /** bb2vec lists exactly popcount(b) squares. */
  lemma SetBitsCount(b: Bitboard)
    ensures |SetBits(b, 64)| == Popcount(b)
  {
    var r := SetBits(b, 64);
    AscendingSize(r);
    assert (set x | x in r) == Squares(b);
    PopcountIsSize(b);
  }

  /** `move & 1` tests square 0 of move. */
  lemma LowBit(x: Bitboard)
    ensures (x & 1 != 0) == Has(x, 0)
  {
    Index6Value(0);
  }

  lemma Bv3Next(x: int)
    requires 0 <= x < 7
    ensures Bv3(x + 1) == Bv3(x) + 1
  {}

  lemma Sq6NextColumn(r: bv3, c: bv3)
    requires c < 7
    ensures Sq6(r, c + 1) == Sq6(r, c) + 1
  {}

  lemma Sq6NextRow(r: bv3)
    requires r < 7
    ensures Sq6(r + 1, 0) == Sq6(r, 7) + 1
  {}

  /** The bit position after square j's is square j + 1's. */
  lemma Index6Next(j: int)
    requires 0 <= j < 63
    ensures Index6(j) < 63 && Index6(j + 1) == Index6(j) + 1
  {
    if j % 8 < 7 {
      assert (j + 1) / 8 == j / 8 && (j + 1) % 8 == j % 8 + 1;
      Bv3Next(j % 8);
      Sq6NextColumn(Bv3(j / 8), Bv3(j % 8));
    } else {
      assert (j + 1) / 8 == j / 8 + 1 && (j + 1) % 8 == 0 && j % 8 == 7;
      Bv3Next(j / 8);
      Sq6NextRow(Bv3(j / 8));
    }
  }

  lemma Shift6(x: Bitboard, y: bv6)
    requires y < 63
    ensures Has6(x >> 1, y) == Has6(x, y + 1)
  {}

  /** `move >>= 1` moves every square one place down. */
  lemma ShiftDown(x: Bitboard, j: int)
    requires 0 <= j < 63
    ensures Has(x >> 1, j) == Has(x, j + 1)
  {
    Index6Next(j);
    Shift6(x, Index6(j));
  }

  /** rest is move shifted down by i places: `move >> i`, square by square. */
  ghost predicate Shifted(rest: Bitboard, move: Bitboard, i: int)
    requires 0 <= i <= 64
  {
    forall j | 0 <= j < 64 - i :: Has(rest, j) == Has(move, j + i)
  }

  lemma ShiftStep(rest: Bitboard, move: Bitboard, i: int)
    requires 0 <= i < 64 && Shifted(rest, move, i)
    ensures Shifted(rest >> 1, move, i + 1)
    ensures (rest & 1 != 0) == Has(move, i)
  {
    LowBit(rest);
    var next := rest >> 1;
    forall j | 0 <= j < 63 - i ensures Has(next, j) == Has(move, j + i + 1) {
      ShiftDown(rest, j);
    }
  }

  /** bb2vec(move): the set squares of move, lowest first. */
  method BB2Vec(move: Bitboard) returns (res: seq<int>)
    ensures res == SetBits(move, 64)
  {
    res := [];
    var rest := move;
    for i := 0 to 64
      invariant res == SetBits(move, i)
      invariant Shifted(rest, move, i)
    {
      ShiftStep(rest, move, i);
      if rest & 1 != 0 {
        res := res + [i];
      }
      rest := rest >> 1;
    }
  }

  // ---------------------------------------------------------------------
  // The position

  class Position {
    /** The two colours' boards upright and as the three other views see them. */
    const uprightBB: array<Bitboard>
    const rotate90BB: array<Bitboard>
    const rotate45cwBB: array<Bitboard>
    const rotate45ccwBB: array<Bitboard>
    /** Whether each player passed the last time it was to move. */
    const passed: array<bool>
    /** 0 when black is to move, 1 when white is. */
    var sideToMove: int

    /**
     * Every rotated board is its transform of the upright board of the same colour,
     * no square holds both colours, and the side to move is 0 or 1.
     */
    ghost predicate Valid()
      reads this, uprightBB, rotate90BB, rotate45cwBB, rotate45ccwBB
    {
      && uprightBB.Length == 2 && rotate90BB.Length == 2 && rotate45cwBB.Length == 2 && rotate45ccwBB.Length == 2
      && passed.Length == 2
      && uprightBB != rotate90BB && uprightBB != rotate45cwBB && uprightBB != rotate45ccwBB
      && rotate90BB != rotate45cwBB && rotate90BB != rotate45ccwBB && rotate45cwBB != rotate45ccwBB
      && passed as object != uprightBB && passed as object != rotate90BB
      && passed as object != rotate45cwBB && passed as object != rotate45ccwBB
      && Oriented(uprightBB[0], rotate90BB[0], rotate45cwBB[0], rotate45ccwBB[0])
      && Oriented(uprightBB[1], rotate90BB[1], rotate45cwBB[1], rotate45ccwBB[1])
      && Squares(uprightBB[0]) !! Squares(uprightBB[1])
      && (sideToMove == 0 || sideToMove == 1)
    }

    /** get_blackBB and get_whiteBB. */
    function BlackBB(): Bitboard
      reads this, uprightBB
      requires uprightBB.Length == 2
    {
      uprightBB[0]
    }

    function WhiteBB(): Bitboard
      reads this, uprightBB
      requires uprightBB.Length == 2
    {
      uprightBB[1]
    }

    /** whose_turn: 0 when black is to move, 1 when white is. */
    function WhoseTurn(): (side: int)
      reads this, uprightBB, rotate90BB, rotate45cwBB, rotate45ccwBB
      requires Valid()
      ensures side == 0 || side == 1
    {
      sideToMove
    }

    /** game_over: the board is full, both players passed in turn, or one colour has no pieces left. */
    function GameOver(): (over: bool)
      reads this, uprightBB, passed
      requires uprightBB.Length == 2 && passed.Length == 2
      ensures over == (Full(BlackBB(), WhiteBB()) || (passed[0] && passed[1])
                       || Squares(BlackBB()) == {} || Squares(WhiteBB()) == {})
    {
      var black, white := uprightBB[0], uprightBB[1];
      FullWord(black, white);
      EmptyBoard(black);
      EmptyBoard(white);
      !(black | white) == 0 || (passed[0] && passed[1]) || black == 0 || white == 0
    }

    /** outcome: 1 when black has more pieces, -1 when white has, 0 on a draw. */
    function Outcome(): (result: int)
      reads this, uprightBB
      requires uprightBB.Length == 2
      ensures result == (if |Squares(BlackBB())| > |Squares(WhiteBB())| then 1
                         else if |Squares(BlackBB())| < |Squares(WhiteBB())| then -1
                         else 0)
    {
      OutcomeOf(uprightBB[0], uprightBB[1])
    }

    /** The initial position: black on 27 and 36, white on 28 and 35, black to move, nobody passed. */
    constructor()
      ensures Valid()
      ensures BlackBB() == 0x0000001008000000 && WhiteBB() == 0x0000000810000000
      ensures !passed[0] && !passed[1] && sideToMove == 0
      ensures fresh(uprightBB) && fresh(rotate90BB) && fresh(rotate45cwBB) && fresh(rotate45ccwBB) && fresh(passed)
    {
      var black: Bitboard := 0x0000001008000000;
      var white: Bitboard := 0x0000000810000000;
      var black90, white90 := Turn(Rotate90, black), Turn(Rotate90, white);
      var black45cw, white45cw := Turn(Rotate45Cw, black), Turn(Rotate45Cw, white);
      var black45ccw, white45ccw := Turn(Rotate45Ccw, black), Turn(Rotate45Ccw, white);
      DisjointBoards(black, white);
      var upright := Pair(black, white);
      var rotate90 := Pair(black90, white90);
      var rotate45cw := Pair(black45cw, white45cw);
      var rotate45ccw := Pair(black45ccw, white45ccw);
      uprightBB, rotate90BB, rotate45cwBB, rotate45ccwBB := upright, rotate90, rotate45cw, rotate45ccw;
      passed := new bool[2] [false, false];
      sideToMove := 0;
    }

    /** The copy constructor: the same boards, flags and side to move in fresh arrays. */
    constructor Copy(position: Position)
      requires position.Valid()
      ensures Valid()
      ensures BlackBB() == position.BlackBB() && WhiteBB() == position.WhiteBB()
      ensures passed[0] == position.passed[0] && passed[1] == position.passed[1]
      ensures sideToMove == position.sideToMove
      ensures fresh(uprightBB) && fresh(rotate90BB) && fresh(rotate45cwBB) && fresh(rotate45ccwBB) && fresh(passed)
    {
      var black, white := position.uprightBB[0], position.uprightBB[1];
      var black90, white90 := position.rotate90BB[0], position.rotate90BB[1];
      var black45cw, white45cw := position.rotate45cwBB[0], position.rotate45cwBB[1];
      var black45ccw, white45ccw := position.rotate45ccwBB[0], position.rotate45ccwBB[1];
      assert Oriented(black, black90, black45cw, black45ccw) && Oriented(white, white90, white45cw, white45ccw);
      var upright := Pair(black, white);
      var rotate90 := Pair(black90, white90);
      var rotate45cw := Pair(black45cw, white45cw);
      var rotate45ccw := Pair(black45ccw, white45ccw);
      uprightBB, rotate90BB, rotate45cwBB, rotate45ccwBB := upright, rotate90, rotate45cw, rotate45ccw;
      passed := new bool[2] [position.passed[0], position.passed[1]];
      sideToMove := position.sideToMove;
      new;
      assert uprightBB[0] == black && rotate90BB[0] == black90 && rotate45cwBB[0] == black45cw && rotate45ccwBB[0] == black45ccw;
      assert uprightBB[1] == white && rotate90BB[1] == white90 && rotate45cwBB[1] == white45cw && rotate45ccwBB[1] == white45ccw;
    }

    /** generate_moves(c): exactly the squares where c may legally play. */
    method GenerateMoves(c: Color) returns (moves: Bitboard)
      requires Valid()
      ensures forall k | IsSquare(k) :: Has(moves, k) == Legal(Own(BlackBB(), WhiteBB(), c), Opponent(BlackBB(), WhiteBB(), c), k)
    {
      moves := AllMoves(c, uprightBB[0], uprightBB[1], rotate90BB[0], rotate90BB[1],
                        rotate45cwBB[0], rotate45cwBB[1], rotate45ccwBB[0], rotate45ccwBB[1]);
    }

    /**
     * make_move(move, c): a negative move is a pass; otherwise c's piece goes on
     * the empty square move, every enemy piece it encloses is turned over, the
     * views are derived again, c's pass flag is cleared and the turn changes.
     */
    method MakeMove(move: int, c: Color, tables: CapturesTables)
      requires Valid() && tables.Filled()
      requires 0 <= move ==> Vacant(Own(BlackBB(), WhiteBB(), c), Opponent(BlackBB(), WhiteBB(), c), move)
      modifies this, uprightBB, rotate90BB, rotate45cwBB, rotate45ccwBB, passed
      ensures Valid()
      ensures move < 0 ==> BlackBB() == old(BlackBB()) && WhiteBB() == old(WhiteBB()) && passed[Slot(c)]
      ensures 0 <= move ==> !passed[Slot(c)]
      ensures 0 <= move ==>
                Played(old(Own(BlackBB(), WhiteBB(), c)), old(Opponent(BlackBB(), WhiteBB(), c)), move,
                       Own(BlackBB(), WhiteBB(), c), Opponent(BlackBB(), WhiteBB(), c))
      ensures passed[1 - Slot(c)] == old(passed[1 - Slot(c)])
      ensures sideToMove == 1 - old(sideToMove)
    {
      if move < 0 {
        Pass(c);
      } else {
        Play(move, c, tables);
      }
    }

    /** make_move with a square: the move played on the boards, then committed. */
    method Play(move: int, c: Color, tables: CapturesTables)
      requires Valid() && tables.Filled()
      requires Vacant(Own(BlackBB(), WhiteBB(), c), Opponent(BlackBB(), WhiteBB(), c), move)
      modifies this, uprightBB, rotate90BB, rotate45cwBB, rotate45ccwBB, passed
      ensures Valid() && !passed[Slot(c)] && passed[1 - Slot(c)] == old(passed[1 - Slot(c)])
      ensures Played(old(Own(BlackBB(), WhiteBB(), c)), old(Opponent(BlackBB(), WhiteBB(), c)), move,
                     Own(BlackBB(), WhiteBB(), c), Opponent(BlackBB(), WhiteBB(), c))
      ensures sideToMove == 1 - old(sideToMove)
    {
      var black, white := uprightBB[0], uprightBB[1];
      var black2, white2 :=
        NextBoards(tables, c, move, black, white, rotate90BB[0], rotate90BB[1],
                   rotate45cwBB[0], rotate45cwBB[1], rotate45ccwBB[0], rotate45ccwBB[1]);
      Commit(c, black2, white2);
    }

    /**
     * The end of make_move: the new boards stored in all four orientations, c's
     * pass flag cleared and the turn handed to the other side.
     */
    method Commit(c: Color, black: Bitboard, white: Bitboard)
      requires Valid() && Squares(black) !! Squares(white)
      modifies this, uprightBB, rotate90BB, rotate45cwBB, rotate45ccwBB, passed
      ensures Valid() && BlackBB() == black && WhiteBB() == white
      ensures !passed[Slot(c)] && passed[1 - Slot(c)] == old(passed[1 - Slot(c)])
      ensures sideToMove == 1 - old(sideToMove)
    {
      var black90, white90 := Turn(Rotate90, black), Turn(Rotate90, white);
      var black45cw, white45cw := Turn(Rotate45Cw, black), Turn(Rotate45Cw, white);
      var black45ccw, white45ccw := Turn(Rotate45Ccw, black), Turn(Rotate45Ccw, white);
      passed[Slot(c)] := false;
      sideToMove := 1 - sideToMove;
      uprightBB[0], uprightBB[1] := black, white;
      rotate90BB[0], rotate90BB[1] := black90, white90;
      rotate45cwBB[0], rotate45cwBB[1] := black45cw, white45cw;
      rotate45ccwBB[0], rotate45ccwBB[1] := black45ccw, white45ccw;
      assert uprightBB[0] == black && rotate90BB[0] == black90 && rotate45cwBB[0] == black45cw && rotate45ccwBB[0] == black45ccw;
      assert uprightBB[1] == white && rotate90BB[1] == white90 && rotate45cwBB[1] == white45cw && rotate45ccwBB[1] == white45ccw;
    }

    /** pass(c): the turn goes to the other side and c is marked as having passed. */
    method Pass(c: Color)
      requires Valid()
      modifies this, passed
      ensures Valid()
      ensures BlackBB() == old(BlackBB()) && WhiteBB() == old(WhiteBB())
      ensures passed[Slot(c)] && passed[1 - Slot(c)] == old(passed[1 - Slot(c)])
      ensures sideToMove == 1 - old(sideToMove)
    {
      sideToMove := 1 - sideToMove;
      passed[Slot(c)] := true;
      assert uprightBB[..] == old(uprightBB[..]) && rotate90BB[..] == old(rotate90BB[..]);
      assert rotate45cwBB[..] == old(rotate45cwBB[..]) && rotate45ccwBB[..] == old(rotate45ccwBB[..]);
    }
  }
}
