/**
 * CaptureTables: where the line through a square lies in each of the four orientation boards.
 *
 * `make_move` reads the line of eight (or fewer) squares through the square played from
 * each of the four boards a position keeps: the upright board (rows), the board turned
 * 90 degrees (columns), and the two pseudo-rotated boards (diagonals and anti-diagonals).
 * For every square the engine precomputes where that line starts in the orientation board
 * (the offset), how many squares it has (the length; only the diagonal boards need one)
 * and where the square itself sits on it (the index). This module gives the geometric
 * definition of those three numbers, proves it places every line exactly, and proves that
 * `computeCapturesTables` fills its ten arrays with exactly these numbers.
 */
module CaptureTables {
  import opened Bitboards

  /** The a1-h8 diagonal through square i, as row minus column (-7..7). */
  function Diagonal(i: int): int { i / 8 - i % 8 }

  /** The a8-h1 anti-diagonal through square i, as row plus column (0..14). */
  function AntiDiagonal(i: int): int { i / 8 + i % 8 }

  function Abs(x: int): nat { if x < 0 then -x else x }

  /** The row of a pseudo-rotated board that holds the line numbered d, for d in -7..7. */
  function WrapRow(d: int): int { if d < 0 then d + 8 else d }

  // ---------------------------------------------------------------------
  // Geometric reference: the segment of the orientation board holding the line through i

  /** Upright board: the line through i is its row. */
  function StartUpright(i: int): int { 8 * (i / 8) }
  function IndexUpright(i: int): int { i % 8 }

  /** Board turned 90 degrees clockwise: the column of i becomes row 7 - column. */
  function StartRotate90(i: int): int { 8 * (7 - i % 8) }
  function IndexRotate90(i: int): int { i / 8 }

  /**
   * Pseudo-rotated clockwise board: row (row - column) mod 8 holds two diagonals, the one
   * starting on the a-file in its low columns and the one starting on the first rank in its
   * high columns. The diagonal through i starts at column `FirstColumnCw(i)` of that row.
   */
  function FirstColumnCw(i: int): int { if Diagonal(i) < 0 then -Diagonal(i) else 0 }
  function StartRotate45Cw(i: int): int { 8 * (PseudoRotate45CwSquare(i) / 8) + FirstColumnCw(i) }
  function LengthRotate45Cw(i: int): int { 8 - Abs(Diagonal(i)) }
  function IndexRotate45Cw(i: int): int { i % 8 - FirstColumnCw(i) }

  /** Pseudo-rotated anti-clockwise board: row (row + column + 1) mod 8 holds two anti-diagonals. */
  function FirstColumnCcw(i: int): int { if AntiDiagonal(i) > 7 then AntiDiagonal(i) - 7 else 0 }
  function StartRotate45Ccw(i: int): int { 8 * (PseudoRotate45CcwSquare(i) / 8) + FirstColumnCcw(i) }
  function LengthRotate45Ccw(i: int): int { 8 - Abs(AntiDiagonal(i) - 7) }
  function IndexRotate45Ccw(i: int): int { i % 8 - FirstColumnCcw(i) }

  // ---------------------------------------------------------------------
  // Each segment holds exactly the line through i, and i sits at the index

  /** The row of i occupies bits 8r..8r+7 of the upright board; i is bit Index of it. */
  lemma UprightPlacement(i: int)
    requires IsSquare(i)
    ensures StartUpright(i) + IndexUpright(i) == i && 0 <= IndexUpright(i) < 8 && StartUpright(i) % 8 == 0
    ensures forall j | IsSquare(j) :: (j / 8 == i / 8) == (StartUpright(i) <= j < StartUpright(i) + 8)
  {
  }

  /** The column of i is one full row of the 90-degree board, and i lands at its index. */
  lemma Rotate90Placement(i: int)
    requires IsSquare(i)
    ensures StartRotate90(i) + IndexRotate90(i) == Rotate90CwSquare(i)
    ensures 0 <= IndexRotate90(i) < 8 && StartRotate90(i) % 8 == 0
    ensures forall j | IsSquare(j) :: (j % 8 == i % 8) == (StartRotate90(i) <= Rotate90CwSquare(j) < StartRotate90(i) + 8)
  {
    forall j | IsSquare(j) ensures (j % 8 == i % 8) == (StartRotate90(i) <= Rotate90CwSquare(j) < StartRotate90(i) + 8) {
      var r, c := j / 8, j % 8;
      assert Rotate90CwSquare(j) == 8 * (7 - c) + r;
    }
  }

  lemma Rotate45CwSquareOf(j: int)
    requires IsSquare(j)
    ensures PseudoRotate45CwSquare(j) / 8 == Diagonal(j) % 8
    ensures PseudoRotate45CwSquare(j) % 8 == j % 8
    ensures Diagonal(j) % 8 == WrapRow(Diagonal(j))
  {
  }

  lemma Rotate45CcwSquareOf(j: int)
    requires IsSquare(j)
    ensures PseudoRotate45CcwSquare(j) / 8 == (AntiDiagonal(j) + 1) % 8
    ensures PseudoRotate45CcwSquare(j) % 8 == j % 8
    ensures (AntiDiagonal(j) + 1) % 8 == WrapRow(AntiDiagonal(j) - 7)
  {
  }

  /** Whether j lies on the segment of the clockwise board that holds the diagonal through i. */
  /** The segment test on the clockwise board in terms of diagonals and columns alone. */
  lemma CwSegment(di: int, dj: int, cj: int)
    requires -7 <= di <= 7 && -7 <= dj <= 7 && 0 <= cj < 8 && 0 <= cj + dj < 8
    ensures (dj == di)
        == (8 * WrapRow(di) + (if di < 0 then -di else 0) <= 8 * WrapRow(dj) + cj
            < 8 * WrapRow(di) + (if di < 0 then -di else 0) + 8 - Abs(di))
  {}

  /** Whether j lies on the segment of the clockwise board that holds the diagonal through i. */
  lemma Rotate45CwSameLine(i: int, j: int)
    requires IsSquare(i) && IsSquare(j)
    ensures (Diagonal(j) == Diagonal(i))
        == (StartRotate45Cw(i) <= PseudoRotate45CwSquare(j) < StartRotate45Cw(i) + LengthRotate45Cw(i))
  {
    Rotate45CwSquareOf(i);
    Rotate45CwSquareOf(j);
    CwSegment(Diagonal(i), Diagonal(j), j % 8);
  }

  /**
   * The diagonal through i is a run of `LengthRotate45Cw(i)` squares inside one row of the
   * clockwise board, starting at `StartRotate45Cw(i)`; i sits at `IndexRotate45Cw(i)` on it,
   * and a square lies in the run exactly when it is on the same diagonal.
   */
  lemma Rotate45CwPlacement(i: int)
    requires IsSquare(i)
    ensures StartRotate45Cw(i) + IndexRotate45Cw(i) == PseudoRotate45CwSquare(i)
    ensures 0 <= IndexRotate45Cw(i) < LengthRotate45Cw(i) <= 8
    ensures 0 <= StartRotate45Cw(i) && StartRotate45Cw(i) % 8 + LengthRotate45Cw(i) <= 8
    ensures forall j | IsSquare(j) ::
      (Diagonal(j) == Diagonal(i))
      == (StartRotate45Cw(i) <= PseudoRotate45CwSquare(j) < StartRotate45Cw(i) + LengthRotate45Cw(i))
  {
    Rotate45CwSquareOf(i);
    assert PseudoRotate45CwSquare(i) == 8 * (PseudoRotate45CwSquare(i) / 8) + i % 8;
    forall j | IsSquare(j) ensures (Diagonal(j) == Diagonal(i))
        == (StartRotate45Cw(i) <= PseudoRotate45CwSquare(j) < StartRotate45Cw(i) + LengthRotate45Cw(i))
    {
      Rotate45CwSameLine(i, j);
    }
  }

  /** The segment test on the anti-clockwise board in terms of anti-diagonals and columns alone. */
  lemma CcwSegment(si: int, sj: int, cj: int)
    requires 0 <= si <= 14 && 0 <= sj <= 14 && 0 <= cj < 8 && 0 <= sj - cj < 8
    ensures (sj == si)
        == (8 * WrapRow(si - 7) + (if si > 7 then si - 7 else 0) <= 8 * WrapRow(sj - 7) + cj
            < 8 * WrapRow(si - 7) + (if si > 7 then si - 7 else 0) + 8 - Abs(si - 7))
  {}

  /** Whether j lies on the segment of the anti-clockwise board that holds the anti-diagonal through i. */
  lemma Rotate45CcwSameLine(i: int, j: int)
    requires IsSquare(i) && IsSquare(j)
    ensures (AntiDiagonal(j) == AntiDiagonal(i))
        == (StartRotate45Ccw(i) <= PseudoRotate45CcwSquare(j) < StartRotate45Ccw(i) + LengthRotate45Ccw(i))
  {
    Rotate45CcwSquareOf(i);
    Rotate45CcwSquareOf(j);
    CcwSegment(AntiDiagonal(i), AntiDiagonal(j), j % 8);
  }

  /** The same for the anti-diagonal through i in the anti-clockwise board. */
  lemma Rotate45CcwPlacement(i: int)
    requires IsSquare(i)
    ensures StartRotate45Ccw(i) + IndexRotate45Ccw(i) == PseudoRotate45CcwSquare(i)
    ensures 0 <= IndexRotate45Ccw(i) < LengthRotate45Ccw(i) <= 8
    ensures 0 <= StartRotate45Ccw(i) && StartRotate45Ccw(i) % 8 + LengthRotate45Ccw(i) <= 8
    ensures forall j | IsSquare(j) ::
      (AntiDiagonal(j) == AntiDiagonal(i))
      == (StartRotate45Ccw(i) <= PseudoRotate45CcwSquare(j) < StartRotate45Ccw(i) + LengthRotate45Ccw(i))
  {
    Rotate45CcwSquareOf(i);
    assert PseudoRotate45CcwSquare(i) == 8 * (PseudoRotate45CcwSquare(i) / 8) + i % 8;
    forall j | IsSquare(j) ensures (AntiDiagonal(j) == AntiDiagonal(i))
        == (StartRotate45Ccw(i) <= PseudoRotate45CcwSquare(j) < StartRotate45Ccw(i) + LengthRotate45Ccw(i))
    {
      Rotate45CcwSameLine(i, j);
    }
  }

  // ---------------------------------------------------------------------
  // Arithmetic the engine's loops rely on

  /** `i % 9` tells the diagonal up to its sign; comparing i with a threshold tells the sign. */
  lemma CwResidue(i: int)
    requires IsSquare(i)
    ensures i % 9 == (if Diagonal(i) > 0 then 9 - Diagonal(i) else -Diagonal(i))
    ensures Diagonal(i) > 0 ==> i >= 8 * Diagonal(i)
    ensures Diagonal(i) < 0 ==> i < 8 * (8 + Diagonal(i))
    ensures Diagonal(i) >= 0 ==> i - 8 * Diagonal(i) == 9 * (i % 8)
    ensures Diagonal(i) < 0 ==> i / 9 == i % 8 + Diagonal(i)
  {
    var r, c, d := i / 8, i % 8, Diagonal(i);
    assert i == 8 * r + c;
    if d > 0 {
      assert i == 9 * (c + d - 1) + (9 - d);
    } else {
      assert i == 9 * (c + d) + -d;
    }
  }

  /** `i % 7` tells the anti-diagonal modulo 7; comparing i with a threshold tells which one. */
  lemma CcwResidue(i: int)
    requires IsSquare(i)
    ensures i % 7 == AntiDiagonal(i) % 7 && i / 7 == i / 8 + AntiDiagonal(i) / 7
    ensures AntiDiagonal(i) <= 6 ==> i <= 8 * AntiDiagonal(i)
    ensures AntiDiagonal(i) >= 8 ==> i >= 8 * (AntiDiagonal(i) - 7) + 7
  {
    var r, c := i / 8, i % 8;
    assert i == 8 * r + c;
    assert i == 7 * r + AntiDiagonal(i);
  }

  // ---------------------------------------------------------------------
  // The body of each loop of computeCapturesTables, for one square

  /** The clockwise length loop: the residue of i modulo 9, and a threshold on i, give the length. */
  method Rotate45CwLengthOf(i: int) returns (length: int)
    requires IsSquare(i)
    ensures length == LengthRotate45Cw(i)
  {
    CwResidue(i);
    if i % 9 == 0 {
      length := 8;
    } else if i % 9 == 8 || i % 9 == 1 {
      length := 7;
    } else if i % 9 == 2 {
      length := if i >= 56 then 1 else 6;
    } else if i % 9 == 3 {
      length := if i >= 48 then 2 else 5;
    } else if i % 9 == 4 {
      length := if i >= 40 then 3 else 4;
    } else if i % 9 == 5 {
      length := if i >= 32 then 4 else 3;
    } else if i % 9 == 6 {
      length := if i >= 24 then 5 else 2;
    } else if i % 9 == 7 {
      length := if i >= 16 then 6 else 1;
    } else {
      assert false;
    }
  }

  /** The clockwise offset: first the row of the diagonal in the clockwise board. */
  method Rotate45CwRowOf(i: int) returns (offset: int)
    requires IsSquare(i)
    ensures offset == 8 * (PseudoRotate45CwSquare(i) / 8)
  {
    Rotate45CwSquareOf(i);
    offset := ((i / 8 + (8 - i % 8)) % 8) * 8;
  }

  /** The switch that moves a clockwise row offset to the first column of the diagonal. */
  method Rotate45CwPatch(i: int, offset: int) returns (patched: int)
    requires IsSquare(i) && offset == 8 * (PseudoRotate45CwSquare(i) / 8)
    ensures patched == StartRotate45Cw(i)
  {
    CwResidue(i);
    Rotate45CwSquareOf(i);
    patched := offset;
    match offset
    case 0 =>
    case 8 => if i <= 7 { patched := patched + 7; }
    case 16 => if i <= 15 { patched := patched + 6; }
    case 24 => if i <= 23 { patched := patched + 5; }
    case 32 => if i <= 31 { patched := patched + 4; }
    case 40 => if i <= 39 { patched := patched + 3; }
    case 48 => if i <= 47 { patched := patched + 2; }
    case 56 => if i <= 55 { patched := patched + 1; }
    case _ => assert false;
  }

  /** The clockwise index, from the patched offset. */
  method Rotate45CwIndexOf(i: int, offset: int) returns (index: int)
    requires IsSquare(i) && offset == StartRotate45Cw(i)
    ensures index == IndexRotate45Cw(i)
  {
    CwResidue(i);
    Rotate45CwSquareOf(i);
    if offset % 8 == 0 {
      index := (i - offset) / 9;
    } else {
      index := i / 9;
    }
  }

  /** The anti-diagonal length by the residue of i modulo 7 and the threshold 8 times that residue. */
  lemma CcwLengthCases(i: int)
    requires IsSquare(i)
    ensures i % 7 == 0 ==> LengthRotate45Ccw(i) == if i == 0 || i == 63 then 1 else 8
    ensures i % 7 != 0 ==> LengthRotate45Ccw(i) == if i <= 8 * (i % 7) then i % 7 + 1 else 8 - i % 7
  {
    CcwResidue(i);
    var a := AntiDiagonal(i);
    assert a == i % 7 || a == i % 7 + 7 || a == 14;
  }

  /** The anti-clockwise length loop: the residue of i modulo 7, and a threshold on i, give the length. */
  method Rotate45CcwLengthOf(i: int) returns (length: int)
    requires IsSquare(i)
    ensures length == LengthRotate45Ccw(i)
  {
    CcwLengthCases(i);
    if i % 7 == 0 {
      length := if i == 0 || i == 63 then 1 else 8;
    } else if i % 7 == 1 {
      length := if i <= 8 then 2 else 7;
    } else if i % 7 == 2 {
      length := if i <= 16 then 3 else 6;
    } else if i % 7 == 3 {
      length := if i <= 24 then 4 else 5;
    } else if i % 7 == 4 {
      length := if i <= 32 then 5 else 4;
    } else if i % 7 == 5 {
      length := if i <= 40 then 6 else 3;
    } else if i % 7 == 6 {
      length := if i <= 48 then 7 else 2;
    } else {
      assert false;
    }
  }

  /** The anti-clockwise offset: first the row of the anti-diagonal in the anti-clockwise board. */
  method Rotate45CcwRowOf(i: int) returns (offset: int)
    requires IsSquare(i)
    ensures offset == 8 * (PseudoRotate45CcwSquare(i) / 8)
  {
    Rotate45CcwSquareOf(i);
    offset := ((i / 8 + (1 + i % 8)) % 8) * 8;
  }

  /** The switch that moves an anti-clockwise row offset to the first column of the anti-diagonal. */
  method Rotate45CcwPatch(i: int, offset: int) returns (patched: int)
    requires IsSquare(i) && offset == 8 * (PseudoRotate45CcwSquare(i) / 8)
    ensures patched == StartRotate45Ccw(i)
  {
    CcwResidue(i);
    Rotate45CcwSquareOf(i);
    patched := offset;
    match offset
    case 0 =>
    case 8 => if i >= 15 { patched := patched + 1; }
    case 16 => if i >= 23 { patched := patched + 2; }
    case 24 => if i >= 31 { patched := patched + 3; }
    case 32 => if i >= 39 { patched := patched + 4; }
    case 40 => if i >= 47 { patched := patched + 5; }
    case 48 => if i >= 55 { patched := patched + 6; }
    case 56 => if i >= 63 { patched := patched + 7; }
    case _ => assert false;
  }

  /** The cases of the anti-clockwise index loop, in terms of the anti-diagonal through i. */
  lemma CcwIndexCases(i: int)
    requires IsSquare(i)
    ensures AntiDiagonal(i) == 7 ==> StartRotate45Ccw(i) == 0 && i / 7 == i / 8 + 1
    ensures AntiDiagonal(i) <= 6 ==>
      && StartRotate45Ccw(i) == 8 * (AntiDiagonal(i) + 1) && i / 7 == i / 8
      && (StartRotate45Ccw(i) + 56) % 64 / 8 == AntiDiagonal(i)
    ensures AntiDiagonal(i) >= 8 ==>
      && StartRotate45Ccw(i) % 8 == AntiDiagonal(i) - 7
      && (i == 63 <==> AntiDiagonal(i) == 14) && (i != 63 ==> i / 7 == i / 8 + 1)
  {
    CcwResidue(i);
    Rotate45CcwSquareOf(i);
    if AntiDiagonal(i) <= 6 {
      assert StartRotate45Ccw(i) + 56 == 8 * AntiDiagonal(i) + 64;
    }
  }

  /** The anti-clockwise index, from the patched offset. */
  method Rotate45CcwIndexOf(i: int, offset: int) returns (index: int)
    requires IsSquare(i) && offset == StartRotate45Ccw(i)
    ensures index == IndexRotate45Ccw(i)
  {
    CcwIndexCases(i);
    if offset % 8 == 0 {
      if offset == 0 {
        index := 8 - i / 7;
      } else {
        index := (offset + 56) % 64 / 8 - i / 7;
      }
    } else {
      if i == 63 {
        index := 0;
      } else {
        index := 8 - i / 7;
      }
    }
  }

  // ---------------------------------------------------------------------
  // The ten arrays and computeCapturesTables

  /** The engine's ten 64-entry tables (globals of unsigned char, zero before they are filled). */
  class CapturesTables {
    const offsetUpright: array<int>
    const offsetRotate90: array<int>
    const offsetRotate45Cw: array<int>
    const offsetRotate45Ccw: array<int>
    const lengthRotate45Cw: array<int>
    const lengthRotate45Ccw: array<int>
    const indexUpright: array<int>
    const indexRotate90: array<int>
    const indexRotate45Cw: array<int>
    const indexRotate45Ccw: array<int>

    ghost predicate Valid()
      reads this
    {
      && offsetUpright.Length == 64 && offsetRotate90.Length == 64
      && offsetRotate45Cw.Length == 64 && offsetRotate45Ccw.Length == 64
      && lengthRotate45Cw.Length == 64 && lengthRotate45Ccw.Length == 64
      && indexUpright.Length == 64 && indexRotate90.Length == 64
      && indexRotate45Cw.Length == 64 && indexRotate45Ccw.Length == 64
      && offsetUpright != offsetRotate90 && offsetUpright != offsetRotate45Cw && offsetUpright != offsetRotate45Ccw
      && offsetUpright != lengthRotate45Cw && offsetUpright != lengthRotate45Ccw && offsetUpright != indexUpright
      && offsetUpright != indexRotate90 && offsetUpright != indexRotate45Cw && offsetUpright != indexRotate45Ccw
      && offsetRotate90 != offsetRotate45Cw && offsetRotate90 != offsetRotate45Ccw && offsetRotate90 != lengthRotate45Cw
      && offsetRotate90 != lengthRotate45Ccw && offsetRotate90 != indexUpright && offsetRotate90 != indexRotate90
      && offsetRotate90 != indexRotate45Cw && offsetRotate90 != indexRotate45Ccw
      && offsetRotate45Cw != offsetRotate45Ccw && offsetRotate45Cw != lengthRotate45Cw && offsetRotate45Cw != lengthRotate45Ccw
      && offsetRotate45Cw != indexUpright && offsetRotate45Cw != indexRotate90 && offsetRotate45Cw != indexRotate45Cw
      && offsetRotate45Cw != indexRotate45Ccw
      && offsetRotate45Ccw != lengthRotate45Cw && offsetRotate45Ccw != lengthRotate45Ccw && offsetRotate45Ccw != indexUpright
      && offsetRotate45Ccw != indexRotate90 && offsetRotate45Ccw != indexRotate45Cw && offsetRotate45Ccw != indexRotate45Ccw
      && lengthRotate45Cw != lengthRotate45Ccw && lengthRotate45Cw != indexUpright && lengthRotate45Cw != indexRotate90
      && lengthRotate45Cw != indexRotate45Cw && lengthRotate45Cw != indexRotate45Ccw
      && lengthRotate45Ccw != indexUpright && lengthRotate45Ccw != indexRotate90 && lengthRotate45Ccw != indexRotate45Cw
      && lengthRotate45Ccw != indexRotate45Ccw
      && indexUpright != indexRotate90 && indexUpright != indexRotate45Cw && indexUpright != indexRotate45Ccw
      && indexRotate90 != indexRotate45Cw && indexRotate90 != indexRotate45Ccw
      && indexRotate45Cw != indexRotate45Ccw
    }

    /** Every entry holds the geometric offset, length and index of its square. */
    ghost predicate Filled()
      reads this, offsetUpright, offsetRotate90, offsetRotate45Cw, offsetRotate45Ccw, lengthRotate45Cw
      reads lengthRotate45Ccw, indexUpright, indexRotate90, indexRotate45Cw, indexRotate45Ccw
    {
      && Valid()
      && (forall i | 0 <= i < 64 :: offsetUpright[i] == StartUpright(i) && indexUpright[i] == IndexUpright(i))
      && (forall i | 0 <= i < 64 :: offsetRotate90[i] == StartRotate90(i) && indexRotate90[i] == IndexRotate90(i))
      && (forall i | 0 <= i < 64 :: offsetRotate45Cw[i] == StartRotate45Cw(i))
      && (forall i | 0 <= i < 64 :: lengthRotate45Cw[i] == LengthRotate45Cw(i))
      && (forall i | 0 <= i < 64 :: indexRotate45Cw[i] == IndexRotate45Cw(i))
      && (forall i | 0 <= i < 64 :: offsetRotate45Ccw[i] == StartRotate45Ccw(i))
      && (forall i | 0 <= i < 64 :: lengthRotate45Ccw[i] == LengthRotate45Ccw(i))
      && (forall i | 0 <= i < 64 :: indexRotate45Ccw[i] == IndexRotate45Ccw(i))
    }

    constructor()
      ensures Valid()
      ensures fresh(offsetUpright) && fresh(offsetRotate90) && fresh(offsetRotate45Cw) && fresh(offsetRotate45Ccw)
      ensures fresh(lengthRotate45Cw) && fresh(lengthRotate45Ccw)
      ensures fresh(indexUpright) && fresh(indexRotate90) && fresh(indexRotate45Cw) && fresh(indexRotate45Ccw)
    {
      offsetUpright := new int[64](_ => 0);
      offsetRotate90 := new int[64](_ => 0);
      offsetRotate45Cw := new int[64](_ => 0);
      offsetRotate45Ccw := new int[64](_ => 0);
      lengthRotate45Cw := new int[64](_ => 0);
      lengthRotate45Ccw := new int[64](_ => 0);
      indexUpright := new int[64](_ => 0);
      indexRotate90 := new int[64](_ => 0);
      indexRotate45Cw := new int[64](_ => 0);
      indexRotate45Ccw := new int[64](_ => 0);
    }

    /** Upright board offset: the row of i. */
    method FillOffsetUpright()
      requires Valid()
      modifies offsetUpright
      ensures forall k | 0 <= k < 64 :: offsetUpright[k] == StartUpright(k)
    {
      for i := 0 to 64
        modifies offsetUpright
        invariant forall k | 0 <= k < i :: offsetUpright[k] == StartUpright(k)
      {
        offsetUpright[i] := (i / 8) * 8;
      }
    }

    /** Rotate90 board offset: the column of i turned into a row. */
    method FillOffsetRotate90()
      requires Valid()
      modifies offsetRotate90
      ensures forall k | 0 <= k < 64 :: offsetRotate90[k] == StartRotate90(k)
    {
      for i := 0 to 64
        modifies offsetRotate90
        invariant forall k | 0 <= k < i :: offsetRotate90[k] == StartRotate90(k)
      {
        offsetRotate90[i] := (7 - i % 8) * 8;
      }
    }

    /** Rotate45 cw board: the row offset and the length of each diagonal. */
    method FillRotate45CwRows()
      requires Valid()
      modifies offsetRotate45Cw, lengthRotate45Cw
      ensures forall k | 0 <= k < 64 :: offsetRotate45Cw[k] == 8 * (PseudoRotate45CwSquare(k) / 8)
      ensures forall k | 0 <= k < 64 :: lengthRotate45Cw[k] == LengthRotate45Cw(k)
    {
      for i := 0 to 64
        modifies offsetRotate45Cw, lengthRotate45Cw
        invariant forall k | 0 <= k < i :: offsetRotate45Cw[k] == 8 * (PseudoRotate45CwSquare(k) / 8)
        invariant forall k | 0 <= k < i :: lengthRotate45Cw[k] == LengthRotate45Cw(k)
      {
        offsetRotate45Cw[i] := Rotate45CwRowOf(i);
        lengthRotate45Cw[i] := Rotate45CwLengthOf(i);
      }
    }

    /** Rotate45 cw board: the second pass that patches every offset. */
    method PatchOffsetRotate45Cw()
      requires Valid()
      requires forall k | 0 <= k < 64 :: offsetRotate45Cw[k] == 8 * (PseudoRotate45CwSquare(k) / 8)
      modifies offsetRotate45Cw
      ensures forall k | 0 <= k < 64 :: offsetRotate45Cw[k] == StartRotate45Cw(k)
    {
      for i := 0 to 64
        modifies offsetRotate45Cw
        invariant forall k | 0 <= k < i :: offsetRotate45Cw[k] == StartRotate45Cw(k)
        invariant forall k | i <= k < 64 :: offsetRotate45Cw[k] == 8 * (PseudoRotate45CwSquare(k) / 8)
      {
        offsetRotate45Cw[i] := Rotate45CwPatch(i, offsetRotate45Cw[i]);
      }
    }

    /** Rotate45 ccw board: the row offset and the length of each anti-diagonal. */
    method FillRotate45CcwRows()
      requires Valid()
      modifies offsetRotate45Ccw, lengthRotate45Ccw
      ensures forall k | 0 <= k < 64 :: offsetRotate45Ccw[k] == 8 * (PseudoRotate45CcwSquare(k) / 8)
      ensures forall k | 0 <= k < 64 :: lengthRotate45Ccw[k] == LengthRotate45Ccw(k)
    {
      for i := 0 to 64
        modifies offsetRotate45Ccw, lengthRotate45Ccw
        invariant forall k | 0 <= k < i :: offsetRotate45Ccw[k] == 8 * (PseudoRotate45CcwSquare(k) / 8)
        invariant forall k | 0 <= k < i :: lengthRotate45Ccw[k] == LengthRotate45Ccw(k)
      {
        offsetRotate45Ccw[i] := Rotate45CcwRowOf(i);
        lengthRotate45Ccw[i] := Rotate45CcwLengthOf(i);
      }
    }

    /** Rotate45 ccw board: the second pass that patches every offset. */
    method PatchOffsetRotate45Ccw()
      requires Valid()
      requires forall k | 0 <= k < 64 :: offsetRotate45Ccw[k] == 8 * (PseudoRotate45CcwSquare(k) / 8)
      modifies offsetRotate45Ccw
      ensures forall k | 0 <= k < 64 :: offsetRotate45Ccw[k] == StartRotate45Ccw(k)
    {
      for i := 0 to 64
        modifies offsetRotate45Ccw
        invariant forall k | 0 <= k < i :: offsetRotate45Ccw[k] == StartRotate45Ccw(k)
        invariant forall k | i <= k < 64 :: offsetRotate45Ccw[k] == 8 * (PseudoRotate45CcwSquare(k) / 8)
      {
        offsetRotate45Ccw[i] := Rotate45CcwPatch(i, offsetRotate45Ccw[i]);
      }
    }

    /** Upright index: the column of i. */
    method FillIndexUpright()
      requires Valid()
      modifies indexUpright
      ensures forall k | 0 <= k < 64 :: indexUpright[k] == IndexUpright(k)
    {
      for i := 0 to 64
        modifies indexUpright
        invariant forall k | 0 <= k < i :: indexUpright[k] == IndexUpright(k)
      {
        indexUpright[i] := i % 8;
      }
    }

    /** Rotate90 index: the row of i. */
    method FillIndexRotate90()
      requires Valid()
      modifies indexRotate90
      ensures forall k | 0 <= k < 64 :: indexRotate90[k] == IndexRotate90(k)
    {
      for i := 0 to 64
        modifies indexRotate90
        invariant forall k | 0 <= k < i :: indexRotate90[k] == IndexRotate90(k)
      {
        indexRotate90[i] := i / 8;
      }
    }

    /** Rotate45 cw index, read off the patched offset. */
    method FillIndexRotate45Cw()
      requires Valid()
      requires forall k | 0 <= k < 64 :: offsetRotate45Cw[k] == StartRotate45Cw(k)
      modifies indexRotate45Cw
      ensures forall k | 0 <= k < 64 :: indexRotate45Cw[k] == IndexRotate45Cw(k)
    {
      for i := 0 to 64
        modifies indexRotate45Cw
        invariant forall k | 0 <= k < i :: indexRotate45Cw[k] == IndexRotate45Cw(k)
      {
        indexRotate45Cw[i] := Rotate45CwIndexOf(i, offsetRotate45Cw[i]);
      }
    }

    /** Rotate45 ccw index, read off the patched offset. */
    method FillIndexRotate45Ccw()
      requires Valid()
      requires forall k | 0 <= k < 64 :: offsetRotate45Ccw[k] == StartRotate45Ccw(k)
      modifies indexRotate45Ccw
      ensures forall k | 0 <= k < 64 :: indexRotate45Ccw[k] == IndexRotate45Ccw(k)
    {
      for i := 0 to 64
        modifies indexRotate45Ccw
        invariant forall k | 0 <= k < i :: indexRotate45Ccw[k] == IndexRotate45Ccw(k)
      {
        indexRotate45Ccw[i] := Rotate45CcwIndexOf(i, offsetRotate45Ccw[i]);
      }
    }

    /**
     * computeCapturesTables: the ten loops in the engine's order. `i >> 3` and `i & 7` are
     * `i / 8` and `i % 8` on these non-negative operands, and every division sees
     * non-negative operands, so C++'s truncating division agrees with Dafny's.
     */
    method ComputeCapturesTables()
      requires Valid()
      modifies offsetUpright, offsetRotate90, offsetRotate45Cw, offsetRotate45Ccw, lengthRotate45Cw
      modifies lengthRotate45Ccw, indexUpright, indexRotate90, indexRotate45Cw, indexRotate45Ccw
      ensures Filled()
    {
      FillOffsetUpright();
      FillOffsetRotate90();
      FillRotate45CwRows();
      PatchOffsetRotate45Cw();
      FillRotate45CcwRows();
      PatchOffsetRotate45Ccw();
      FillIndexUpright();
      FillIndexRotate90();
      FillIndexRotate45Cw();
      FillIndexRotate45Ccw();
    }
  }
}
