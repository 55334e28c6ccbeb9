/**
 * generate_moves: every line of every view's board is read as a row of at most
 * eight squares, looked up in the moves table, masked to the line's length and
 * shifted back into place; each view's moves are then turned back upright. The
 * engine writes the lines of each view out one by one; here they are the span
 * lists below, with the same offsets and masks.
 */
module MoveGeneration {
  import opened Bitboards
  import Lines
  import opened CaptureTables
  import opened Segments
  import opened Views
  import Unions

  /** The bits `offset .. offset + length - 1` of a view's board, read as one line. */
  datatype Span = Span(offset: int, length: int)

  predicate Fits(s: Span) { 0 <= s.offset && 1 <= s.length <= 8 && s.offset + s.length <= 64 }

  predicate Covers(s: Span, j: int) { s.offset <= j < s.offset + s.length }

  predicate AllFit(spans: seq<Span>) { forall i | 0 <= i < |spans| :: Fits(spans[i]) }

  /** The eight rows `(x >> 8r) & 0xff` read from the upright and the rotate90 boards. */
  const RowSpans: seq<Span> :=
    [Span(0, 8), Span(8, 8), Span(16, 8), Span(24, 8), Span(32, 8), Span(40, 8), Span(48, 8), Span(56, 8)]

  /** The diagonals read from the clockwise board, masks 0xff down to 0x7 and back up to 0x7f. */
  const Rotate45CwSpans: seq<Span> :=
    [Span(0, 8), Span(8, 7), Span(16, 6), Span(24, 5), Span(32, 4), Span(40, 3),
     Span(29, 3), Span(36, 4), Span(43, 5), Span(50, 6), Span(57, 7)]

  /** The anti-diagonals read from the anti-clockwise board. */
  const Rotate45CcwSpans: seq<Span> :=
    [Span(0, 8), Span(9, 7), Span(18, 6), Span(27, 5), Span(36, 4), Span(45, 3),
     Span(24, 3), Span(32, 4), Span(40, 5), Span(48, 6), Span(56, 7)]

  function Spans(v: View): seq<Span>
  {
    match v
    case Upright => RowSpans
    case Rotate90 => RowSpans
    case Rotate45Cw => Rotate45CwSpans
    case Rotate45Ccw => Rotate45CcwSpans
  }

  lemma SpansFit(v: View)
    ensures AllFit(Spans(v))
  {}

  /**
   * One line: `((Bitboard)(Moves[black][white][c] & mask)) << offset` with
   * `black = (xb >> offset) & mask` and `white = (xw >> offset) & mask`.
   */
  function SpanMoves(xb: Bitboard, xw: Bitboard, c: Color, s: Span): Bitboard
    requires Fits(s)
  {
    Place(SpanEntry(xb, xw, c, s) & LowMask(s.length), Index6(s.offset))
  }

  /** The moves entry of span s, as a line. */
  function SpanEntry(xb: Bitboard, xw: Bitboard, c: Color, s: Span): Lines.Row
    requires Fits(s)
  {
    var o, mask := Index6(s.offset), LowMask(s.length);
    Lines.MoveEntry(Segment(xb, o, mask), Segment(xw, o, mask), c)
  }

  /** The moves of all lines of a view, or-ed together in order. */
  function SpansMoves(xb: Bitboard, xw: Bitboard, c: Color, spans: seq<Span>): Bitboard
    requires AllFit(spans)
  {
    Unions.OrAll(SpanParts(xb, xw, c, spans))
  }

  /** One view's moves, turned back upright. */
  function ViewMoves(v: View, black: Bitboard, white: Bitboard, c: Color): Bitboard
  {
    SpansFit(v);
    TurnBack(v, SpansMoves(Turn(v, black), Turn(v, white), c, Spans(v)))
  }

  // ---------------------------------------------------------------------
  // Reading spans

  /** Square j of a masked line placed at the span's offset is the line's bit j - offset, inside the span. */
  lemma MaskedPlaceHas(e: Lines.Row, s: Span, j: int)
    requires Fits(s) && IsSquare(j)
    ensures Has(Place(e & LowMask(s.length), Index6(s.offset)), j) == (Covers(s, j) && Lines.In(e, j - s.offset))
  {
    Index6Value(s.offset);
    PlaceHas(e & LowMask(s.length), Index6(s.offset), j);
    Lines.AndIn(e, LowMask(s.length), j - s.offset);
    LowMaskIn(s.length, j - s.offset);
  }

  /** Square j of a span's moves is its entry's bit j - offset, inside the span. */
  lemma SpanMovesIn(xb: Bitboard, xw: Bitboard, c: Color, s: Span, j: int)
    requires Fits(s) && IsSquare(j)
    ensures Has(SpanMoves(xb, xw, c, s), j) == (Covers(s, j) && Lines.In(SpanEntry(xb, xw, c, s), j - s.offset))
  {
    var e := SpanEntry(xb, xw, c, s);
    assert SpanMoves(xb, xw, c, s) == Place(e & LowMask(s.length), Index6(s.offset));
    MaskedPlaceHas(e, s, j);
  }

  /** The line moves of a list of spans, in order. */
  function SpanParts(xb: Bitboard, xw: Bitboard, c: Color, spans: seq<Span>): seq<Bitboard>
    requires AllFit(spans)
  {
    seq(|spans|, i requires 0 <= i < |spans| => SpanMoves(xb, xw, c, spans[i]))
  }

  /** Membership of square j is a hit of its one-bit mask. */
  lemma HasHits(b: Bitboard, j: int)
    requires IsSquare(j)
    ensures Has(b, j) == Unions.Hits(b, (1 as Bitboard) << Index6(j))
  {
    Has6Hits(b, Index6(j));
  }

  lemma Has6Hits(b: Bitboard, x: bv6)
    ensures Has6(b, x) == Unions.Hits(b, (1 as Bitboard) << x)
  {}

  /** If square j of the view's moves is set, a listed span covering j marks it. */
  lemma SpansMovesInto(xb: Bitboard, xw: Bitboard, c: Color, spans: seq<Span>, s: Span, j: int)
    requires AllFit(spans) && Fits(s) && IsSquare(j) && Covers(s, j)
    requires forall i | 0 <= i < |spans| && Covers(spans[i], j) :: spans[i] == s
    ensures Has(SpansMoves(xb, xw, c, spans), j) ==> s in spans && Lines.In(SpanEntry(xb, xw, c, s), j - s.offset)
  {
    var parts, m := SpanParts(xb, xw, c, spans), (1 as Bitboard) << Index6(j);
    var moves := SpansMoves(xb, xw, c, spans);
    assert moves == Unions.OrAll(parts);
    HasHits(moves, j);
    Unions.OrAllHitsInto(parts, m);
    if Unions.SomeHit(parts, m) {
      var i :| 0 <= i < |parts| && Unions.Hits(parts[i], m);
      var part := SpanMoves(xb, xw, c, spans[i]);
      assert parts[i] == part;
      HasHits(part, j);
      SpanMovesIn(xb, xw, c, spans[i], j);
    }
  }

  /** If the span s of j is listed and its entry marks j, square j of the view's moves is set. */
  lemma SpansMovesFrom(xb: Bitboard, xw: Bitboard, c: Color, spans: seq<Span>, s: Span, j: int)
    requires AllFit(spans) && Fits(s) && IsSquare(j) && Covers(s, j)
    ensures s in spans && Lines.In(SpanEntry(xb, xw, c, s), j - s.offset) ==> Has(SpansMoves(xb, xw, c, spans), j)
  {
    var parts, m := SpanParts(xb, xw, c, spans), (1 as Bitboard) << Index6(j);
    var moves := SpansMoves(xb, xw, c, spans);
    assert moves == Unions.OrAll(parts);
    HasHits(moves, j);
    Unions.OrAllHitsFrom(parts, m);
    if s in spans && Lines.In(SpanEntry(xb, xw, c, s), j - s.offset) {
      var i :| 0 <= i < |spans| && spans[i] == s;
      var part := SpanMoves(xb, xw, c, s);
      assert parts[i] == part;
      SpanMovesIn(xb, xw, c, s, j);
      HasHits(part, j);
    }
  }

  /**
   * When every listed span that covers j is s, square j of the view's moves is set
   * exactly when s is listed and its entry marks j.
   */
  lemma SpansMovesIn(xb: Bitboard, xw: Bitboard, c: Color, spans: seq<Span>, s: Span, j: int)
    requires AllFit(spans) && Fits(s) && IsSquare(j) && Covers(s, j)
    requires forall i | 0 <= i < |spans| && Covers(spans[i], j) :: spans[i] == s
    ensures Has(SpansMoves(xb, xw, c, spans), j) == (s in spans && Lines.In(SpanEntry(xb, xw, c, s), j - s.offset))
  {
    SpansMovesInto(xb, xw, c, spans, s, j);
    SpansMovesFrom(xb, xw, c, spans, s, j);
  }

  // ---------------------------------------------------------------------
  // The span of each square of a view's board

  /** The row of j is r. */
  lemma RowOf(j: int, r: int)
    requires 8 * r <= j < 8 * r + 8
    ensures j / 8 == r && j % 8 == j - 8 * r
  {}

  /**
   * The line through square j of a view's board: a whole row of the upright and
   * rotate90 boards; on the pseudo-rotated boards the low or the high part of the row.
   */
  function SpanOf(v: View, j: int): Span
  {
    var r, c := j / 8, j % 8;
    match v
    case Upright => Span(8 * r, 8)
    case Rotate90 => Span(8 * r, 8)
    case Rotate45Cw => if c < 8 - r then Span(8 * r, 8 - r) else Span(8 * r + 8 - r, r)
    case Rotate45Ccw => if r == 0 then Span(0, 8) else if c < r then Span(8 * r, r) else Span(8 * r + r, 8 - r)
  }

  /** The line through k, read from the tables' reference functions, is the span of its square on the view's board. */
  lemma LineSpan(v: View, k: int)
    requires IsSquare(k)
    ensures SpanOf(v, TurnSquare(v, k)) == Span(Start(v, k), Length(v, k))
  {
    var r, c := k / 8, k % 8;
    match v
    case Upright =>
    case Rotate90 =>
      RowOf(Rotate90CwSquare(k), 7 - c);
    case Rotate45Cw =>
      Rotate45CwSquareOf(k);
    case Rotate45Ccw =>
      Rotate45CcwSquareOf(k);
  }

  /** Every square of the view's board lies in its own span, which fits the board. */
  lemma SpanOfCovers(v: View, j: int)
    requires IsSquare(j)
    ensures Fits(SpanOf(v, j)) && Covers(SpanOf(v, j), j)
  {}

  /** A listed span covering j is the span of j. */
  lemma ListedSpanOf(v: View, i: int, j: int)
    requires 0 <= i < |Spans(v)| && IsSquare(j) && Covers(Spans(v)[i], j)
    ensures Spans(v)[i] == SpanOf(v, j)
  {
    var s := Spans(v)[i];
    RowOf(j, s.offset / 8);
  }

  /** Every listed span has at least three squares. */
  lemma ListedLong(v: View, i: int)
    requires 0 <= i < |Spans(v)|
    ensures Spans(v)[i].length >= 3
  {}

  /** The span of j is listed exactly when it has at least three squares. */
  lemma SpanListed(v: View, j: int)
    requires IsSquare(j)
    ensures (SpanOf(v, j) in Spans(v)) == (SpanOf(v, j).length >= 3)
  {
    if SpanOf(v, j) in Spans(v) {
      var i :| 0 <= i < |Spans(v)| && Spans(v)[i] == SpanOf(v, j);
      ListedLong(v, i);
    }
  }

  // ---------------------------------------------------------------------
  // The moves read from one view

  /** m is empty and encloses enemy pieces along one of the two directions of view v. */
  ghost predicate LegalAlong(self: Bitboard, enemy: Bitboard, m: int, v: View)
  {
    Vacant(self, enemy, m) && exists d, n :: Encloses(self, enemy, m, v, d, n)
  }

  /** The line brackets in direction d exactly when the board encloses along (v, d). */
  lemma FlanksIff(v: View, xs: Bitboard, xe: Bitboard, self: Bitboard, enemy: Bitboard, m: int, d: Lines.Direction)
    requires IsSquare(m) && Agrees(v, xs, self, m, d) && Agrees(v, xe, enemy, m, d)
    ensures Lines.Flanks(LineOf(v, xs, m), LineOf(v, xe, m), Index(v, m), d)
         == exists n :: Encloses(self, enemy, m, v, d, n)
  {
    if Lines.Flanks(LineOf(v, xs, m), LineOf(v, xe, m), Index(v, m), d) {
      var n :| Lines.Brackets(LineOf(v, xs, m), LineOf(v, xe, m), Index(v, m), d, n);
      BracketsIff(v, xs, xe, self, enemy, m, d, n);
    }
    if exists n :: Encloses(self, enemy, m, v, d, n) {
      var n :| Encloses(self, enemy, m, v, d, n);
      BracketsIff(v, xs, xe, self, enemy, m, d, n);
    }
  }

  /** The moves entry at the index marks exactly the line's move for the mover. */
  lemma EntryMove(v: View, xb: Bitboard, xw: Bitboard, c: Color, m: int)
    requires IsSquare(m)
    ensures Lines.In(Lines.MoveEntry(LineOf(v, xb, m), LineOf(v, xw, m), c), Index(v, m))
         == Lines.IsMove(LineOf(v, Own(xb, xw, c), m), LineOf(v, Opponent(xb, xw, c), m), Index(v, m))
  {
    Lines.MoveEntryRule(LineOf(v, xb, m), LineOf(v, xw, m), c, Index(v, m));
  }

  /** The line has a move at the index exactly when m is a move along view v. */
  lemma IsMoveIff(v: View, xs: Bitboard, xe: Bitboard, self: Bitboard, enemy: Bitboard, m: int)
    requires IsSquare(m)
    requires Agrees(v, xs, self, m, Lines.Up) && Agrees(v, xe, enemy, m, Lines.Up)
    requires Agrees(v, xs, self, m, Lines.Down) && Agrees(v, xe, enemy, m, Lines.Down)
    requires Lines.Empty(LineOf(v, xs, m), LineOf(v, xe, m), Index(v, m)) == Vacant(self, enemy, m)
    ensures Lines.IsMove(LineOf(v, xs, m), LineOf(v, xe, m), Index(v, m)) == LegalAlong(self, enemy, m, v)
  {
    FlanksIff(v, xs, xe, self, enemy, m, Lines.Up);
    FlanksIff(v, xs, xe, self, enemy, m, Lines.Down);
    EnclosesEither(self, enemy, m, v);
  }

  /** A run is enclosed along view v exactly when one is enclosed upwards or downwards. */
  lemma EnclosesEither(self: Bitboard, enemy: Bitboard, m: int, v: View)
    ensures (exists d, n :: Encloses(self, enemy, m, v, d, n))
         == ((exists n :: Encloses(self, enemy, m, v, Lines.Up, n)) || (exists n :: Encloses(self, enemy, m, v, Lines.Down, n)))
  {
    if exists d, n :: Encloses(self, enemy, m, v, d, n) {
      var d, n :| Encloses(self, enemy, m, v, d, n);
      if d == Lines.Up {
        assert Encloses(self, enemy, m, v, Lines.Up, n);
      } else {
        assert Encloses(self, enemy, m, v, Lines.Down, n);
      }
    }
  }

  /** No run of enemy pieces fits a line of fewer than three squares. */
  lemma ShortLine(v: View, self: Bitboard, enemy: Bitboard, m: int)
    requires IsSquare(m) && Length(v, m) < 3
    ensures !LegalAlong(self, enemy, m, v)
  {
    Placement(v, m);
    forall d, n ensures !Encloses(self, enemy, m, v, d, n) {
      Ray(v, m, d, n + 1);
    }
  }

  /** Square k's square on the view's board is set in the view's moves exactly when k is a move along view v. */
  lemma ViewMovesCore(v: View, xb: Bitboard, xw: Bitboard, c: Color, self: Bitboard, enemy: Bitboard, k: int)
    requires IsSquare(k)
    requires Agrees(v, Own(xb, xw, c), self, k, Lines.Up) && Agrees(v, Opponent(xb, xw, c), enemy, k, Lines.Up)
    requires Agrees(v, Own(xb, xw, c), self, k, Lines.Down) && Agrees(v, Opponent(xb, xw, c), enemy, k, Lines.Down)
    requires Lines.Empty(LineOf(v, Own(xb, xw, c), k), LineOf(v, Opponent(xb, xw, c), k), Index(v, k)) == Vacant(self, enemy, k)
    ensures IsSquare(TurnSquare(v, k))
    ensures AllFit(Spans(v)) && Has(SpansMoves(xb, xw, c, Spans(v)), TurnSquare(v, k)) == LegalAlong(self, enemy, k, v)
  {
    Placement(v, k);
    SpansFit(v);
    var j, s := TurnSquare(v, k), Span(Start(v, k), Length(v, k));
    LineSpan(v, k);
    SpanOfCovers(v, j);
    forall i | 0 <= i < |Spans(v)| && Covers(Spans(v)[i], j) ensures Spans(v)[i] == s {
      ListedSpanOf(v, i, j);
    }
    SpanListed(v, j);
    SpansMovesIn(xb, xw, c, Spans(v), s, j);
    assert SpanEntry(xb, xw, c, s) == Lines.MoveEntry(LineOf(v, xb, k), LineOf(v, xw, k), c);
    if Length(v, k) >= 3 {
      EntryMove(v, xb, xw, c, k);
      IsMoveIff(v, Own(xb, xw, c), Opponent(xb, xw, c), self, enemy, k);
    } else {
      ShortLine(v, self, enemy, k);
    }
  }

  /** With boards that show black and white, the view's moves hold k exactly when k is a move along view v. */
  lemma MovesShown(v: View, xb: Bitboard, xw: Bitboard, black: Bitboard, white: Bitboard, c: Color, k: int)
    requires IsSquare(k) && Shows(v, xb, black) && Shows(v, xw, white)
    ensures IsSquare(TurnSquare(v, k))
    ensures AllFit(Spans(v)) && Has(SpansMoves(xb, xw, c, Spans(v)), TurnSquare(v, k))
         == LegalAlong(Own(black, white, c), Opponent(black, white, c), k, v)
  {
    var xs, xe := Own(xb, xw, c), Opponent(xb, xw, c);
    var self, enemy := Own(black, white, c), Opponent(black, white, c);
    assert Shows(v, xs, self) && Shows(v, xe, enemy);
    ShowsAgrees(v, xs, self, k, Lines.Up);
    ShowsAgrees(v, xs, self, k, Lines.Down);
    ShowsAgrees(v, xe, enemy, k, Lines.Up);
    ShowsAgrees(v, xe, enemy, k, Lines.Down);
    EmptyIff(v, xs, xe, self, enemy, k);
    ViewMovesCore(v, xb, xw, c, self, enemy, k);
  }

  /** generate_moves along one view: the view's moves are the squares where the mover may play along that view. */
  lemma ViewMovesIn(v: View, black: Bitboard, white: Bitboard, c: Color, k: int)
    requires IsSquare(k)
    ensures Has(ViewMoves(v, black, white, c), k) == LegalAlong(Own(black, white, c), Opponent(black, white, c), k, v)
  {
    SpansFit(v);
    var xb, xw := Turn(v, black), Turn(v, white);
    TurnBackHas(v, SpansMoves(xb, xw, c, Spans(v)), k);
    TurnShows(v, black);
    TurnShows(v, white);
    MovesShown(v, xb, xw, black, white, c, k);
  }

  // ---------------------------------------------------------------------
  // All four views together

  /** A move along one view is a legal move. */
  lemma AlongIsLegal(self: Bitboard, enemy: Bitboard, m: int, v: View)
    requires LegalAlong(self, enemy, m, v)
    ensures Legal(self, enemy, m)
  {
    var d, n :| Encloses(self, enemy, m, v, d, n);
  }

  /** A legal move is a move along one of the four views. */
  lemma LegalIsAlong(self: Bitboard, enemy: Bitboard, m: int)
    requires Legal(self, enemy, m)
    ensures LegalAlong(self, enemy, m, Upright) || LegalAlong(self, enemy, m, Rotate90)
         || LegalAlong(self, enemy, m, Rotate45Cw) || LegalAlong(self, enemy, m, Rotate45Ccw)
  {
    var v, d, n :| Encloses(self, enemy, m, v, d, n);
    assert LegalAlong(self, enemy, m, v);
    match v
    case Upright =>
    case Rotate90 =>
    case Rotate45Cw =>
    case Rotate45Ccw =>
  }

  /** A move is legal when it is a move along one of the four views. */
  lemma LegalByView(self: Bitboard, enemy: Bitboard, m: int)
    ensures Legal(self, enemy, m)
        == (LegalAlong(self, enemy, m, Upright) || LegalAlong(self, enemy, m, Rotate90)
            || LegalAlong(self, enemy, m, Rotate45Cw) || LegalAlong(self, enemy, m, Rotate45Ccw))
  {
    if Legal(self, enemy, m) {
      LegalIsAlong(self, enemy, m);
    }
    if LegalAlong(self, enemy, m, Upright) {
      AlongIsLegal(self, enemy, m, Upright);
    } else if LegalAlong(self, enemy, m, Rotate90) {
      AlongIsLegal(self, enemy, m, Rotate90);
    } else if LegalAlong(self, enemy, m, Rotate45Cw) {
      AlongIsLegal(self, enemy, m, Rotate45Cw);
    } else if LegalAlong(self, enemy, m, Rotate45Ccw) {
      AlongIsLegal(self, enemy, m, Rotate45Ccw);
    }
  }

  /** Four boards that each hold the moves along one view together hold every legal move. */
  lemma CombineMoves(self: Bitboard, enemy: Bitboard, m: int, a: Bitboard, b: Bitboard, e: Bitboard, f: Bitboard)
    requires IsSquare(m)
    requires Has(a, m) == LegalAlong(self, enemy, m, Upright)
    requires Has(b, m) == LegalAlong(self, enemy, m, Rotate90)
    requires Has(e, m) == LegalAlong(self, enemy, m, Rotate45Cw)
    requires Has(f, m) == LegalAlong(self, enemy, m, Rotate45Ccw)
    ensures Has(a | b | e | f, m) == Legal(self, enemy, m)
  {
    HasOr4(a, b, e, f, m);
    LegalByView(self, enemy, m);
  }
}
