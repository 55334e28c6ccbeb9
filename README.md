# Othello engine core in Dafny

This project models the core of an Othello engine: the 64-bit bitboard
geometry, the per-line move and capture tables, the `Position` that
generates and makes moves, the Monte Carlo tree search of the computer
player, and the small data formats around them (the move-class tables of
the move predictor, its 17-byte training records, and the WTHOR game
files).

- **Bitboards** (`bitboard.dfy`, `popcount.dfy`, `distribution.dfy`,
  `squaresets.dfy`, `setsizes.dfy`). A board is a `bv64`; square k is bit
  k, on row k / 8 and column k % 8, so row 0 is bits 0..7. Every flip,
  rotation and pseudo-rotation is proved to send each square to a
  closed-form target square. From that follow its inverse, its
  distribution over `|`, `&` and `^`, and that it keeps the popcount.
  The SWAR popcount is proved to count the squares.
- **Lines** (`lines.dfy`, `capturetables.dfy`, `segments.dfy`,
  `views.dfy`, `unions.dfy`). The byte-wide move and capture tables are
  functions. Each is computed by the engine's own loops, and proved equal
  to the sandwich rule on a line: a run of enemy pieces closed by an own
  piece. The ten offset/length/index arrays are filled by a class whose
  loops are proved to place every square's row, column, diagonal and
  anti-diagonal in each of the four orientations.
- **Position** (`position.dfy`, `movegen.dfy`, `captures.dfy`,
  `playing.dfy`). A class holds the black and white boards in four
  orientations, the two pass flags and the side to move.
  - `GenerateMoves` marks exactly the squares where the rules of the game
    allow a move. The rules are stated directly on the board, as eight
    directions from the square.
  - `MakeMove` places the piece and turns over exactly the enclosed
    pieces. It re-derives the rotated boards and updates the flags and
    the side.
- **Search** (`mcts.dfy`). The tree is a value of type `Node`. One
  iteration returns the node it becomes, and the `Agent` class keeps the
  current root between moves. Every node satisfies `Counted`:
  - its rewards lie between minus and plus its visit count;
  - its children's visits sum to at most its own;
  - each child's `base` equals that sum.
- **Data** (`classes.dfy`, `bytes.dfy`, `records.dfy`, `wthor.dfy`).
  - The square/class tables are inverse bijections between the 60
    playable squares and 0..59.
  - The 17-byte records round-trip.
  - Removing duplicates keeps every distinct record exactly once.
  - The WTHOR parser yields one 60-move game per record.

## Model

| member | source | states |
|---|---|---|
| Bitboards.FlipHorizontalAt | bitboard.h:106-112 | for every board b and square k, square FlipHorizontalSquare(k) of the transformed board is set exactly when k is set in b: the transform sends 8r+c to 8r+(7-c) |
| Bitboards.FlipVerticalAt | bitboard.h:114-119 | for every board b and square k, square FlipVerticalSquare(k) of the transformed board is set exactly when k is set in b: the transform sends 8r+c to 8(7-r)+c |
| Bitboards.FlipDiagAt | bitboard.h:122-135 | for every board b and square k, square FlipDiagSquare(k) of the transformed board is set exactly when k is set in b: the transform sends 8r+c to 8c+r |
| Bitboards.FlipAntiDiagAt | bitboard.h:137-149 | for every board b and square k, square FlipAntiDiagSquare(k) of the transformed board is set exactly when k is set in b: the transform sends 8r+c to 8(7-c)+(7-r) |
| Bitboards.Rotate90CwAt | bitboard.h:152-155 | for every board b and square k, square Rotate90CwSquare(k) of the transformed board is set exactly when k is set in b: the transform sends 8r+c to 8(7-c)+r |
| Bitboards.Rotate90CcwAt | bitboard.h:157-160 | for every board b and square k, square Rotate90CcwSquare(k) of the transformed board is set exactly when k is set in b: the transform sends 8r+c to 8c+(7-r) |
| Bitboards.PseudoRotate45CwAt | bitboard.h:167-176 | for every board b and square k, square PseudoRotate45CwSquare(k) of the transformed board is set exactly when k is set in b: the transform sends 8r+c to 8((r-c) mod 8)+c, so row 0 holds the a1-h8 diagonal |
| Bitboards.PseudoRotate45CcwAt | bitboard.h:178-187 | for every board b and square k, square PseudoRotate45CcwSquare(k) of the transformed board is set exactly when k is set in b: the transform sends 8r+c to 8((r+c+1) mod 8)+c |
| Bitboards.PseudoRotate45CwInverseAt | bitboard.h:189-192 | for every board b and square k, square PseudoRotate45CwInverseSquare(k) of the transformed board is set exactly when k is set in b: the transform sends 8r+c to 8((r+c) mod 8)+c |
| Bitboards.PseudoRotate45CcwInverseAt | bitboard.h:194-197 | for every board b and square k, square PseudoRotate45CcwInverseSquare(k) of the transformed board is set exactly when k is set in b: the transform sends 8r+c to 8((r-c-1) mod 8)+c |
| Bitboards.Color.Other | position.cpp:224 | the opponent colour (`c^1`) differs from c |
| Bitboards.HasMask | position.cpp:260 | membership of square k is the engine's mask test `b & (1ULL << k) != 0` |
| Bitboards.HasSquareBit | position.cpp:221 | `1ULL << k` holds square k and no other |
| Bitboards.Rotr8Law6 | bitboard.h:162-164 | bit x of rotr(n, 8) is bit (x + 8) mod 64 of n |
| Bitboards.Rotr16Law6 | bitboard.h:162-164 | bit x of rotr(n, 16) is bit (x + 16) mod 64 of n |
| Bitboards.Rotr32Law6 | bitboard.h:162-164 | bit x of rotr(n, 32) is bit (x + 32) mod 64 of n |
| Bitboards.FlipHorizontalInvolution | bitboard.h:106-112 | the mirror applied twice gives back every board |
| Bitboards.FlipVerticalInvolution | bitboard.h:114-119 | the mirror applied twice gives back every board |
| Bitboards.FlipDiagInvolution | bitboard.h:122-135 | the mirror applied twice gives back every board |
| Bitboards.FlipAntiDiagInvolution | bitboard.h:137-149 | the mirror applied twice gives back every board |
| Bitboards.Rotate90CcwAfterCw | bitboard.h:152-160 | rotate90_ccw undoes rotate90_cw on every board |
| Bitboards.Rotate90CwAfterCcw | bitboard.h:152-160 | rotate90_cw undoes rotate90_ccw on every board |
| Bitboards.PseudoRotate45CwRoundTrip | bitboard.h:167-192 | pseudoRotate45_cw_inverse undoes pseudoRotate45_cw on every board |
| Bitboards.PseudoRotate45CcwRoundTrip | bitboard.h:178-197 | pseudoRotate45_ccw_inverse undoes pseudoRotate45_ccw on every board |
| Bitboards.FlipHorizontalSquareInvolution | bitboard.h:106-112 | the square map of the mirror stays on the board and is its own inverse |
| Bitboards.FlipVerticalSquareInvolution | bitboard.h:114-119 | the square map of the mirror stays on the board and is its own inverse |
| Bitboards.FlipDiagSquareInvolution | bitboard.h:122-135 | the square map of the mirror stays on the board and is its own inverse |
| Bitboards.FlipAntiDiagSquareInvolution | bitboard.h:137-149 | the square map of the mirror stays on the board and is its own inverse |
| Bitboards.Rotate90SquareInverse | bitboard.h:152-160 | the clockwise and anti-clockwise square maps are inverse to each other, both ways |
| Bitboards.PseudoRotate45CwSquareInverse | bitboard.h:167-192 | the inverse square map undoes the clockwise pseudo-rotation's map |
| Bitboards.PseudoRotate45CwInverseSquareInverse | bitboard.h:167-192 | the clockwise pseudo-rotation's map undoes the inverse's map |
| Bitboards.PseudoRotate45CcwSquareInverse | bitboard.h:178-197 | the inverse square map undoes the anti-clockwise pseudo-rotation's map |
| Bitboards.PseudoRotate45CcwInverseSquareInverse | bitboard.h:178-197 | the anti-clockwise pseudo-rotation's map undoes the inverse's map |
| Popcounts.PopcountIsSize | bitboard.h:53-58 | the SWAR popcount of b is the number of squares of b, hence in 0..64 |
| Popcounts.LaneValues | bitboard.h:55-56 | after the first two SWAR steps each byte is at most 8 and counts the squares of that row |
| Popcounts.PopcountSum8 | bitboard.h:57 | the multiply-and-shift step reads the 8-bit sum of the byte counts |
| Popcounts.PermutedCount | bitboard.h:53-58 | a board whose squares are another's moved by a bijection of the squares has the same popcount |
| Popcounts.FlipHorizontalSquareBijection | bitboard.h:106-112 | the square map of FlipHorizontal is a bijection of 0..63 with a named inverse |
| Popcounts.FlipHorizontalMoves | bitboard.h:106-112 | the squares of FlipHorizontal(b) are exactly the images of the squares of b |
| Popcounts.FlipHorizontalCount | bitboard.h:106-112 | FlipHorizontal keeps the popcount of every board |
| Popcounts.FlipVerticalSquareBijection | bitboard.h:114-119 | the square map of FlipVertical is a bijection of 0..63 with a named inverse |
| Popcounts.FlipVerticalMoves | bitboard.h:114-119 | the squares of FlipVertical(b) are exactly the images of the squares of b |
| Popcounts.FlipVerticalCount | bitboard.h:114-119 | FlipVertical keeps the popcount of every board |
| Popcounts.FlipDiagSquareBijection | bitboard.h:122-135 | the square map of FlipDiag is a bijection of 0..63 with a named inverse |
| Popcounts.FlipDiagMoves | bitboard.h:122-135 | the squares of FlipDiag(b) are exactly the images of the squares of b |
| Popcounts.FlipDiagCount | bitboard.h:122-135 | FlipDiag keeps the popcount of every board |
| Popcounts.FlipAntiDiagSquareBijection | bitboard.h:137-149 | the square map of FlipAntiDiag is a bijection of 0..63 with a named inverse |
| Popcounts.FlipAntiDiagMoves | bitboard.h:137-149 | the squares of FlipAntiDiag(b) are exactly the images of the squares of b |
| Popcounts.FlipAntiDiagCount | bitboard.h:137-149 | FlipAntiDiag keeps the popcount of every board |
| Popcounts.Rotate90CwSquareBijection | bitboard.h:152-155 | the square map of Rotate90Cw is a bijection of 0..63 with a named inverse |
| Popcounts.Rotate90CwMoves | bitboard.h:152-155 | the squares of Rotate90Cw(b) are exactly the images of the squares of b |
| Popcounts.Rotate90CwCount | bitboard.h:152-155 | Rotate90Cw keeps the popcount of every board |
| Popcounts.Rotate90CcwSquareBijection | bitboard.h:157-160 | the square map of Rotate90Ccw is a bijection of 0..63 with a named inverse |
| Popcounts.Rotate90CcwMoves | bitboard.h:157-160 | the squares of Rotate90Ccw(b) are exactly the images of the squares of b |
| Popcounts.Rotate90CcwCount | bitboard.h:157-160 | Rotate90Ccw keeps the popcount of every board |
| Popcounts.PseudoRotate45CwSquareBijection | bitboard.h:167-176 | the square map of PseudoRotate45Cw is a bijection of 0..63 with a named inverse |
| Popcounts.PseudoRotate45CwMoves | bitboard.h:167-176 | the squares of PseudoRotate45Cw(b) are exactly the images of the squares of b |
| Popcounts.PseudoRotate45CwCount | bitboard.h:167-176 | PseudoRotate45Cw keeps the popcount of every board |
| Popcounts.PseudoRotate45CcwSquareBijection | bitboard.h:178-187 | the square map of PseudoRotate45Ccw is a bijection of 0..63 with a named inverse |
| Popcounts.PseudoRotate45CcwMoves | bitboard.h:178-187 | the squares of PseudoRotate45Ccw(b) are exactly the images of the squares of b |
| Popcounts.PseudoRotate45CcwCount | bitboard.h:178-187 | PseudoRotate45Ccw keeps the popcount of every board |
| Popcounts.PseudoRotate45CwInverseSquareBijection | bitboard.h:189-192 | the square map of PseudoRotate45CwInverse is a bijection of 0..63 with a named inverse |
| Popcounts.PseudoRotate45CwInverseMoves | bitboard.h:189-192 | the squares of PseudoRotate45CwInverse(b) are exactly the images of the squares of b |
| Popcounts.PseudoRotate45CwInverseCount | bitboard.h:189-192 | PseudoRotate45CwInverse keeps the popcount of every board |
| Popcounts.PseudoRotate45CcwInverseSquareBijection | bitboard.h:194-197 | the square map of PseudoRotate45CcwInverse is a bijection of 0..63 with a named inverse |
| Popcounts.PseudoRotate45CcwInverseMoves | bitboard.h:194-197 | the squares of PseudoRotate45CcwInverse(b) are exactly the images of the squares of b |
| Popcounts.PseudoRotate45CcwInverseCount | bitboard.h:194-197 | PseudoRotate45CcwInverse keeps the popcount of every board |
| Distribution.FlipHorizontalOr | bitboard.h:106-112 | FlipHorizontal(a \| b) == FlipHorizontal(a) \| FlipHorizontal(b) for all boards: the transform distributes over union |
| Distribution.FlipHorizontalAnd | bitboard.h:106-112 | FlipHorizontal(a & b) == FlipHorizontal(a) & FlipHorizontal(b) for all boards: the transform distributes over intersection |
| Distribution.FlipHorizontalXor | bitboard.h:106-112 | FlipHorizontal(a ^ b) == FlipHorizontal(a) ^ FlipHorizontal(b) for all boards: the transform distributes over symmetric difference |
| Distribution.FlipVerticalOr | bitboard.h:114-119 | FlipVertical(a \| b) == FlipVertical(a) \| FlipVertical(b) for all boards: the transform distributes over union |
| Distribution.FlipVerticalAnd | bitboard.h:114-119 | FlipVertical(a & b) == FlipVertical(a) & FlipVertical(b) for all boards: the transform distributes over intersection |
| Distribution.FlipVerticalXor | bitboard.h:114-119 | FlipVertical(a ^ b) == FlipVertical(a) ^ FlipVertical(b) for all boards: the transform distributes over symmetric difference |
| Distribution.FlipDiagOr | bitboard.h:122-135 | FlipDiag(a \| b) == FlipDiag(a) \| FlipDiag(b) for all boards: the transform distributes over union |
| Distribution.FlipDiagAnd | bitboard.h:122-135 | FlipDiag(a & b) == FlipDiag(a) & FlipDiag(b) for all boards: the transform distributes over intersection |
| Distribution.FlipDiagXor | bitboard.h:122-135 | FlipDiag(a ^ b) == FlipDiag(a) ^ FlipDiag(b) for all boards: the transform distributes over symmetric difference |
| Distribution.FlipAntiDiagOr | bitboard.h:137-149 | FlipAntiDiag(a \| b) == FlipAntiDiag(a) \| FlipAntiDiag(b) for all boards: the transform distributes over union |
| Distribution.FlipAntiDiagAnd | bitboard.h:137-149 | FlipAntiDiag(a & b) == FlipAntiDiag(a) & FlipAntiDiag(b) for all boards: the transform distributes over intersection |
| Distribution.FlipAntiDiagXor | bitboard.h:137-149 | FlipAntiDiag(a ^ b) == FlipAntiDiag(a) ^ FlipAntiDiag(b) for all boards: the transform distributes over symmetric difference |
| Distribution.Rotate90CwOr | bitboard.h:152-155 | Rotate90Cw(a \| b) == Rotate90Cw(a) \| Rotate90Cw(b) for all boards: the transform distributes over union |
| Distribution.Rotate90CwAnd | bitboard.h:152-155 | Rotate90Cw(a & b) == Rotate90Cw(a) & Rotate90Cw(b) for all boards: the transform distributes over intersection |
| Distribution.Rotate90CwXor | bitboard.h:152-155 | Rotate90Cw(a ^ b) == Rotate90Cw(a) ^ Rotate90Cw(b) for all boards: the transform distributes over symmetric difference |
| Distribution.Rotate90CcwOr | bitboard.h:157-160 | Rotate90Ccw(a \| b) == Rotate90Ccw(a) \| Rotate90Ccw(b) for all boards: the transform distributes over union |
| Distribution.Rotate90CcwAnd | bitboard.h:157-160 | Rotate90Ccw(a & b) == Rotate90Ccw(a) & Rotate90Ccw(b) for all boards: the transform distributes over intersection |
| Distribution.Rotate90CcwXor | bitboard.h:157-160 | Rotate90Ccw(a ^ b) == Rotate90Ccw(a) ^ Rotate90Ccw(b) for all boards: the transform distributes over symmetric difference |
| Distribution.PseudoRotate45CwOr | bitboard.h:167-176 | PseudoRotate45Cw(a \| b) == PseudoRotate45Cw(a) \| PseudoRotate45Cw(b) for all boards: the transform distributes over union |
| Distribution.PseudoRotate45CwAnd | bitboard.h:167-176 | PseudoRotate45Cw(a & b) == PseudoRotate45Cw(a) & PseudoRotate45Cw(b) for all boards: the transform distributes over intersection |
| Distribution.PseudoRotate45CwXor | bitboard.h:167-176 | PseudoRotate45Cw(a ^ b) == PseudoRotate45Cw(a) ^ PseudoRotate45Cw(b) for all boards: the transform distributes over symmetric difference |
| Distribution.PseudoRotate45CcwOr | bitboard.h:178-187 | PseudoRotate45Ccw(a \| b) == PseudoRotate45Ccw(a) \| PseudoRotate45Ccw(b) for all boards: the transform distributes over union |
| Distribution.PseudoRotate45CcwAnd | bitboard.h:178-187 | PseudoRotate45Ccw(a & b) == PseudoRotate45Ccw(a) & PseudoRotate45Ccw(b) for all boards: the transform distributes over intersection |
| Distribution.PseudoRotate45CcwXor | bitboard.h:178-187 | PseudoRotate45Ccw(a ^ b) == PseudoRotate45Ccw(a) ^ PseudoRotate45Ccw(b) for all boards: the transform distributes over symmetric difference |
| Distribution.PseudoRotate45CwInverseOr | bitboard.h:189-192 | PseudoRotate45CwInverse(a \| b) == PseudoRotate45CwInverse(a) \| PseudoRotate45CwInverse(b) for all boards: the transform distributes over union |
| Distribution.PseudoRotate45CwInverseAnd | bitboard.h:189-192 | PseudoRotate45CwInverse(a & b) == PseudoRotate45CwInverse(a) & PseudoRotate45CwInverse(b) for all boards: the transform distributes over intersection |
| Distribution.PseudoRotate45CwInverseXor | bitboard.h:189-192 | PseudoRotate45CwInverse(a ^ b) == PseudoRotate45CwInverse(a) ^ PseudoRotate45CwInverse(b) for all boards: the transform distributes over symmetric difference |
| Distribution.PseudoRotate45CcwInverseOr | bitboard.h:194-197 | PseudoRotate45CcwInverse(a \| b) == PseudoRotate45CcwInverse(a) \| PseudoRotate45CcwInverse(b) for all boards: the transform distributes over union |
| Distribution.PseudoRotate45CcwInverseAnd | bitboard.h:194-197 | PseudoRotate45CcwInverse(a & b) == PseudoRotate45CcwInverse(a) & PseudoRotate45CcwInverse(b) for all boards: the transform distributes over intersection |
| Distribution.PseudoRotate45CcwInverseXor | bitboard.h:194-197 | PseudoRotate45CcwInverse(a ^ b) == PseudoRotate45CcwInverse(a) ^ PseudoRotate45CcwInverse(b) for all boards: the transform distributes over symmetric difference |
| Distribution.SquaresOr | position.cpp:76 | the squares of a \| b are the union of the squares of a and b |
| Distribution.SquaresAnd | bitboard.h:107 | the squares of a & b are the intersection |
| Distribution.SquaresXor | position.cpp:223-224 | the squares of a ^ b are the symmetric difference |
| Distribution.MovedOr | bitboard.h:106-196 | a square permutation that moves a to ta and b to tb moves a \| b to exactly ta \| tb |
| Distribution.MovedAnd | bitboard.h:106-196 | the same for a & b |
| Distribution.MovedXor | bitboard.h:106-196 | the same for a ^ b |
| SquareSets.Extensional | bitboard.h:106-196 | two boards with the same squares are the same word |
| SquareSets.SquaresDetermine | bitboard.h:106-196 | boards are equal exactly when their square sets are |
| SquareSets.EmptyBoard | position.cpp:279 | `b == 0` exactly when b has no squares |
| SquareSets.FullBoard | position.cpp:277 | `~b == 0` exactly when b holds all 64 squares |
| SquareSets.DisjointBoards | position.cpp:222-224 | `a & b == 0` exactly when a and b share no square |
| Lines.ComputeMoves | bitboard.cpp:24-38 | the loop's result is exactly MovesOf(self, enemy, length), the function MovesIn and MovesRule characterise |
| Lines.GrowRun | bitboard.cpp:30-31 | after the loop the run from the start holds exactly the enemy squares reachable through enemy squares within length - 2 steps |
| Lines.ComputeCaptures | bitboard.cpp:41-59 | the result is exactly CapturesOf: 0 for an occupied loc, otherwise the bracketed runs on both sides |
| Lines.MovesIn | bitboard.cpp:24-38 | square p is marked exactly when it is empty and brackets a run of at most length - 2 enemy squares |
| Lines.MovesRule | bitboard.cpp:24-38 | on a line of 8 squares, p is marked exactly when p is empty and some direction holds one or more enemy squares ended by a self square (IsMove) |
| Lines.MovesUnoccupied | bitboard.cpp:26-36 | the move mask never meets self \| enemy |
| Lines.CapturesIn | bitboard.cpp:41-59 | square q of the result is set exactly when loc is empty and q lies on a run that a self piece closes, on either side |
| Lines.CapturesAreEnemy | bitboard.cpp:47-59 | the result is a subset of enemy |
| Lines.CapturesOccupied | bitboard.cpp:47-48 | the result is 0 when loc is occupied |
| Lines.PieceRunKept | bitboard.cpp:53 | a direction's run is kept exactly when the square just past it holds a self piece |
| Lines.CapturesIffMove | bitboard.cpp:72-76 | the captures entry at loc is nonzero exactly when the moves entry marks loc |
| Lines.CapturesRule | bitboard.cpp:41-59 | on full lines of disjoint rows the result is exactly the set of enemy squares a move at loc turns over |
| Lines.BracketBound | bitboard.cpp:30 | on a line of 8 squares no bracket encloses more than 6 enemy squares, which is why length - 3 passes suffice |
| Lines.MoveEntryRule | bitboard.cpp:72-73 | the moves table entry of colour c marks exactly where c may play; the WHITE entry is the BLACK computation with the rows swapped |
| Lines.CaptureEntryRule | bitboard.cpp:74-76 | the captures table entry of colour c at k is exactly what a move at k turns over, and nonzero exactly when the moves entry marks k |
| CaptureTables.UprightPlacement | bitboard.cpp:98-99 | the row through i is bits 8(i/8)..+7 of the upright board, with i at index i % 8 |
| CaptureTables.Rotate90Placement | bitboard.cpp:101-102 | the column through i is one full row of the rotate90 board, and Rotate90CwSquare(i) sits at offset + index |
| CaptureTables.Rotate45CwPlacement | bitboard.cpp:104-136 | offset + index is i's square on the clockwise board, index < length <= 8, and the segment holds exactly the squares of i's diagonal |
| CaptureTables.Rotate45CcwPlacement | bitboard.cpp:138-168 | the same for the anti-diagonal through i on the anti-clockwise board |
| CaptureTables.CwResidue | bitboard.cpp:106-121 | i % 9 and a threshold on i against 8 times the diagonal determine which diagonal holds i, the facts the if-chain on i % 9 relies on |
| CaptureTables.CcwResidue | bitboard.cpp:140-153 | i % 7 and a threshold on i determine which anti-diagonal holds i, the facts the if-chain on i % 7 relies on |
| CaptureTables.Rotate45CwLengthOf | bitboard.cpp:106-122 | the if-chain on i % 9 yields the length of i's diagonal, and its "bug!!" branch is unreachable |
| CaptureTables.Rotate45CwRowOf | bitboard.cpp:105 | the first offset is the row of i's square on the clockwise board |
| CaptureTables.Rotate45CwPatch | bitboard.cpp:124-136 | the switch moves that row offset to the first square of i's diagonal; the default branch is unreachable |
| CaptureTables.Rotate45CwIndexOf | bitboard.cpp:177-183 | the index computed from the patched offset is i's place on its diagonal |
| CaptureTables.Rotate45CcwLengthOf | bitboard.cpp:140-154 | the if-chain on i % 7 yields the length of i's anti-diagonal, and its "bug!!!" branch is unreachable |
| CaptureTables.Rotate45CcwRowOf | bitboard.cpp:139 | the first offset is the row of i's square on the anti-clockwise board |
| CaptureTables.Rotate45CcwPatch | bitboard.cpp:156-168 | the switch moves that row offset to the first square of i's anti-diagonal; the default branch is unreachable |
| CaptureTables.CcwIndexCases | bitboard.cpp:184-192 | the cases of the anti-clockwise index loop, stated in terms of the anti-diagonal through i |
| CaptureTables.Rotate45CcwIndexOf | bitboard.cpp:184-192 | the index computed from the patched offset is i's place on its anti-diagonal |
| CaptureTables.CapturesTables.FillOffsetUpright | bitboard.cpp:98-99 | every entry is the start of i's row on the upright board |
| CaptureTables.CapturesTables.FillOffsetRotate90 | bitboard.cpp:101-102 | every entry is the start of i's column on the rotate90 board |
| CaptureTables.CapturesTables.FillRotate45CwRows | bitboard.cpp:104-123 | every offset entry is the row of i on the clockwise board and every length entry the diagonal's length |
| CaptureTables.CapturesTables.PatchOffsetRotate45Cw | bitboard.cpp:124-136 | the in-place pass turns every offset into the diagonal's first square and leaves the other arrays alone |
| CaptureTables.CapturesTables.FillRotate45CcwRows | bitboard.cpp:138-155 | the same for the anti-clockwise board |
| CaptureTables.CapturesTables.PatchOffsetRotate45Ccw | bitboard.cpp:156-168 | the in-place pass turns every anti-clockwise offset into the anti-diagonal's first square |
| CaptureTables.CapturesTables.FillIndexUpright | bitboard.cpp:171-173 | every entry is i % 8 |
| CaptureTables.CapturesTables.FillIndexRotate90 | bitboard.cpp:174-176 | every entry is i / 8 |
| CaptureTables.CapturesTables.FillIndexRotate45Cw | bitboard.cpp:177-183 | every entry is i's place on its diagonal |
| CaptureTables.CapturesTables.FillIndexRotate45Ccw | bitboard.cpp:184-192 | every entry is i's place on its anti-diagonal |
| CaptureTables.CapturesTables.ComputeCapturesTables | bitboard.cpp:95-194 | after the ten loops all ten arrays hold the placement of every square's line in every orientation (Filled) |
| CaptureTables.CapturesTables.constructor | bitboard.cpp:82-92 | ten fresh, distinct arrays of 64 entries |
| Views.TurnSquareInverse | position.cpp:14-19 | each orientation's square map and its way back are inverse bijections of the squares |
| Views.TurnBackTurn | position.cpp:103 | turning a board into an orientation and back gives the board |
| Views.Placement | bitboard.cpp:95-194 | in every orientation the line through k is a run of Length squares inside one row of the view's board, with k at Index |
| Views.Ray | bitboard.cpp:95-194 | stepping t places along the view's line from k is stepping t squares on the real board in the matching direction, and stays on the line exactly when it stays on the board |
| Views.OrientedShows | position.cpp:14-19 | boards kept as the transforms of the upright board show it square by square |
| Views.BracketsIff | bitboard.cpp:24-59 | the sandwich rule on a view's line is the sandwich rule on the board, direction by direction |
| Views.EmptyIff | bitboard.cpp:26 | the square is empty on the line exactly when it is empty on the board |
| MoveGeneration.SpanListed | position.cpp:104-175 | a diagonal is read by generate_moves exactly when it has at least three squares |
| MoveGeneration.ListedLong | position.cpp:104-175 | every diagonal generate_moves reads has at least three squares |
| MoveGeneration.ViewMovesIn | position.cpp:51-175 | the moves gathered from one orientation's lines are exactly the squares where the mover may play along that orientation |
| MoveGeneration.AlongIsLegal | position.cpp:46-178 | a move along one orientation is a legal move |
| MoveGeneration.LegalIsAlong | position.cpp:46-178 | a legal move is a move along one of the four orientations |
| MoveGeneration.LegalByView | position.cpp:46-178 | a move is legal exactly when it is a move along one of the four orientations |
| MoveGeneration.CombineMoves | position.cpp:76-175 | OR-ing the four orientations' moves gives exactly the legal moves |
| Captures.LinesDisjoint | position.cpp:193-217 | lines read from disjoint boards are disjoint |
| Captures.ViewCapturesIn | position.cpp:190-219 | one orientation's captures, turned upright, are exactly the pieces a move at m turns over along that orientation |
| Captures.TurnsByView | position.cpp:190-219 | a piece is turned over exactly when it is turned over along one of the four orientations |
| Captures.CombineViews | position.cpp:196-219 | OR-ing the four orientations' captures gives exactly the pieces the move turns over (all_captures) |
| Playing.TurnedIsEnemy | position.cpp:222-224 | only enemy pieces are turned over, never the square played |
| Playing.LegalTurnsSome | position.cpp:181-182 | a legal move turns over at least one piece |
| Playing.PlayedDisjoint | position.cpp:222-224 | after a move onto an empty square the two sides stay disjoint |
| Playing.PlayedCounts | position.cpp:222-224 | the mover gains 1 + the turned pieces, the opponent loses the turned pieces, so the occupied count rises by exactly 1 |
| Playing.SetSquare | position.cpp:221-222 | `self \| (1ULL << m)` is self with m added |
| Playing.FlipCaptures | position.cpp:222-224 | the two `^= all_captures` updates move exactly the captured squares from the opponent to the mover and change nothing else |
| Positions.MovesOfView | position.cpp:51-175 | one orientation's part of generate_moves, turned upright, is exactly the moves along that orientation |
| Positions.UnionOfMoves | position.cpp:76-175 | the OR of the four orientations' moves is exactly the legal moves |
| Positions.AllMoves | position.cpp:46-178 | generate_moves on oriented boards marks square k exactly when the mover may legally play at k |
| Positions.Lookup | position.cpp:191-218 | the offset, length and index make_move reads for the line through m, and the two line words, are the tables' values for that line |
| Positions.CapturesOfView | position.cpp:190-219 | one orientation's captures, turned upright, are exactly the pieces turned along that orientation |
| Positions.UnionOfCaptures | position.cpp:196-219 | the OR of the four orientations' captures is exactly the pieces the move turns over |
| Positions.AllCaptures | position.cpp:186-219 | all_captures holds exactly the pieces a move at m turns over |
| Positions.ViewsCaptures | position.cpp:186-219 | the same, for boards known square by square through their views |
| Positions.PlaceAndFlip | position.cpp:220-224 | placing the piece and flipping the captures yields the Played boards, and the sides stay disjoint |
| Positions.PlayBoards | position.cpp:221-224 | `uprightBB[c] \|= m; ^= all_captures; uprightBB[c^1] ^= all_captures` gives exactly the Played boards |
| Positions.NextBoards | position.cpp:186-224 | the new boards are exactly the Played boards: m and the captured pieces join c, the captures leave the opponent, nothing else changes |
| Positions.InitialBoards | position.cpp:12-13 | the constructor's words put black on squares 27 and 36 and white on 28 and 35, and nothing else |
| Positions.InitialMoves | position.cpp:46-178 | from the initial boards black may play on square k exactly when k is 20, 29, 34 or 43 |
| Positions.InitialMoveOnly | position.cpp:46-178 | any square black may play on in the initial position is one of 20, 29, 34, 43: a run of white squares closed by black fits only those |
| Positions.InitialMoveEach | position.cpp:46-178 | each of 20, 29, 34 and 43 encloses a white piece against a black one in the initial position |
| Positions.FullWord | position.cpp:277 | `~(black \| white) == 0` says every square is occupied |
| Positions.OutcomeOf | position.cpp:284-291 | 1 when black has more squares, -1 when white has, 0 on equal counts |
| Positions.SetBitsCount | position.cpp:256-264 | bb2vec lists exactly popcount(b) squares |
| Positions.BB2Vec | position.cpp:256-264 | the result is the set squares of move in ascending order (SetBits) |
| Positions.Position.WhoseTurn | position.cpp:268-271 | the side to move is 0 or 1 |
| Positions.Position.GameOver | position.cpp:275-280 | true exactly when the board is full, both sides have passed, or one side has no pieces |
| Positions.Position.Outcome | position.cpp:284-291 | the sign of black's count minus white's count |
| Positions.Position.constructor | position.cpp:10-23 | black on {27, 36}, white on {28, 35}, all three views derived, nobody passed, black to move |
| Positions.Position.Copy | position.cpp:27-40 | the same boards, pass flags and side to move, in fresh arrays |
| Positions.Position.GenerateMoves | position.cpp:46-178 | square k of the result is set exactly when c may legally play at k; in particular it holds only empty squares |
| Positions.Position.MakeMove | position.cpp:183-234 | a negative move is pass(c); otherwise the square joins c, exactly the captured squares move from the opponent to c, nothing else changes, the views are derived again, passed[c] is cleared and the side toggles |
| Positions.Position.Play | position.cpp:186-233 | the real-move path of make_move, with the same promises |
| Positions.Position.Commit | position.cpp:225-233 | the new boards stored with their three views, passed[c] cleared, the other flag kept, the side toggled |
| Positions.Position.Pass | position.cpp:295-299 | the boards unchanged, passed[c] set, the other flag kept, the side toggled |
| Search.ExpansionMovesListed | mcts.cpp:108-132 | the expansion moves are every legal square once in ascending order, or the single pass -1 when there is none |
| Search.NonEmptyListed | mcts.cpp:121 | a non-empty move set lists at least one square |
| Search.SquaresOf | mcts.cpp:121-126 | the loop taking `moves & (~moves + 1)` and clearing it lists exactly the squares of moves in ascending order |
| Search.Expand | mcts.cpp:108-132 | one fresh leaf (rewards 0, base 1, chosen 0) per expansion move, in order |
| Search.Tally | mcts.cpp:100-106 | a terminal leaf adds the outcome to rewards and one to chosen, and keeps the tree invariant |
| Search.ExpandLeaf | mcts.cpp:108-142 | after expansion exactly child draw % n gets the rollout outcome and one choice, the node gets the same outcome and one choice, every other child is a fresh leaf, and the invariant holds |
| Search.BumpBases | mcts.cpp:145-146 | every child's base goes up by one and nothing else changes |
| Search.Select | mcts.cpp:150-194 | the result is Selected: the first child with chosen == 0 if there is one; otherwise every child has been chosen and the result is strictly better than every earlier child and not beaten by any later one (black maximises, white minimises) |
| Search.Iterate | mcts.cpp:97-197 | one iteration keeps the invariant, adds one to chosen, moves rewards by at most one, and tallies a terminal leaf |
| Search.Descend | mcts.cpp:144-194 | every child's base and the node's chosen go up by one, the child searched is the one selection takes on the bumped children (Selected), it alone changes otherwise, and the node's rewards change by that child's reward change |
| Search.DescendedCounted | mcts.cpp:144-194 | the node after such a descent satisfies the tree invariant (\|rewards\| <= chosen, children's choices sum to at most chosen, bases equal that sum) |
| Search.SiblingsCounted | mcts.cpp:145-146 | children changed in their base only stay counted |
| Search.ChosenStep | mcts.cpp:147-169 | one more choice of one child raises the sum of the children's choices by one |
| Search.SomeChosen | mcts.cpp:82-90 | a counted node with children has a child chosen at least once, so the argmax is defined |
| Search.SizeAllBound | mcts.cpp:169 | a child's subtree is smaller than its siblings together, so the recursion ends |
| Search.SameStatistics | mcts.cpp:144-147 | the invariant depends only on a node's children and counters |
| Search.MostChosen | mcts.cpp:82-91 | the first child with the strictly greatest chosen count |
| Search.LastWithMove | mcts.cpp:53-56 | the index of the last child with the given move, or -1 when none has it |
| Search.Agent.constructor | mcts.cpp:34-38 | the agent starts with no tree |
| Search.Agent.AcknowledgeMove | mcts.cpp:49-59 | no tree stays no tree; otherwise the tree becomes the last child whose move is m, or none |
| Search.Agent.Policy | mcts.cpp:63-92 | for a position that is not over: -1 with the tree untouched when the side has no move; otherwise the root has been chosen `iterations` more times, keeps the invariant, and the result is the move of the first most-chosen child |
| Classes.Square2ClassRule | move_predictor/classes.py:6-74 | the keys of Square2Class are exactly the 60 squares other than 27, 28, 35, 36, and each is labelled s, s - 2 or s - 4 |
| Classes.Class2SquareRule | move_predictor/classes.py:78-146 | the keys of Class2Square are exactly 0..59 and k maps to k, k + 2 or k + 4 (below 27, below 33, from 33) |
| Classes.ClassIsRank | move_predictor/classes.py:6-74 | a label is the number of playable squares before its square |
| Classes.Square2ClassValues | move_predictor/classes.py:6-74 | every label lies in 0..59 and every number in 0..59 is a label |
| Classes.Square2ClassIncreasing | move_predictor/classes.py:6-74 | Square2Class is strictly increasing |
| Classes.ClassRoundTrip | move_predictor/classes.py:6-146 | Class2Square[Square2Class[s]] == s for every key s |
| Classes.SquareRoundTrip | move_predictor/classes.py:6-146 | Square2Class[Class2Square[k]] == k for every label k |
| Classes.NoStartingSquare | move_predictor/classes.py:78-146 | no label maps to a starting square |
| Records.WordRoundTrip | move_predictor/data_helper.py:24-25 | reading back little-endian the n low bytes written for a value below 256^n gives the value |
| Records.BytesRoundTrip | move_predictor/data_helper.py:35-42 | writing back the value of n bytes gives the same bytes |
| Records.WriteBoard | move_predictor/data_helper.py:35-42 | the eight `& 0xff` then `>>= 8` rounds write exactly the 8 little-endian bytes of the board |
| Records.Encode | move_predictor/data_helper.py:31-43 | a record is 17 bytes: 8 for black, 8 for white, 1 for the move |
| Records.Decode | move_predictor/data_helper.py:19-27 | reading 8, 8 and 1 bytes yields values that fit their widths |
| Records.SampleRoundTrip | move_predictor/data_helper.py:19-43 | decoding the record of a sample whose boards fit 64 bits and move fits a byte gives the sample back |
| Records.SamplesRoundTrip | move_predictor/data_helper.py:17-43 | reading back the records of samples gives the samples back, in order |
| Records.RecordOffset | move_predictor/data_helper.py:80 | record k starts at byte 17k |
| Records.ReadSamples | move_predictor/data_helper.py:16-27 | the set of samples read until the stream ends is the set of samples the stream holds |
| Records.WriteSamples | move_predictor/data_helper.py:28-43 | the file written holds each sample of the set exactly once, in some order |
| Records.Unduplicate | move_predictor/data_helper.py:15-44 | reading back the output gives each distinct input sample exactly once |
| Records.SeekDatum | move_predictor/data_helper.py:79-88 | the input is an 8 by 8 grid of cells, each holding the two channels |
| Records.BinaryValue | move_predictor/data_helper.py:85-86 | the zero-filled 64-digit binary string spells the board |
| Records.GridCell | move_predictor/data_helper.py:85-86 | cell [r][c] of the grid is bit 8(7 - r) + c of the board |
| Records.SeekDatumCells | move_predictor/data_helper.py:79-88 | the input for record index holds the index-th sample's black board in channel 0 and white board in channel 1, bit 8(7 - r) + c at cell [r][c] |
| Wthor.SignedChar | parser.cpp:39-40 | a byte read into a char is in -128..127 and congruent to the byte mod 256 |
| Wthor.Rem | parser.cpp:39 | C++ `%` pairs with truncating division: a == (a / n) * n + a % n |
| Wthor.MoveSquareCoded | parser.cpp:38-41 | a byte 10a + b with a, b in 1..8 decodes to square (8 - a) * 8 + (b - 1), in 0..63 |
| Wthor.MoveCode | parser.cpp:34-41 | the byte for a square is never the no-move byte 0 |
| Wthor.MoveCodeRoundTrip | parser.cpp:34-41 | every square has a byte that decodes back to it |
| Wthor.GameAt | parser.cpp:32-42 | every game read has exactly 60 entries |
| Wthor.GamesFrom | parser.cpp:25-44 | every game of the file has exactly 60 entries |
| Wthor.GamesCount | parser.cpp:25-44 | one game per record whose 8 information bytes are present |
| Wthor.GameOffset | parser.cpp:19-44 | game k comes from the record at byte 16 + 68k, after the 16-byte header |
| Wthor.CompleteRecord | parser.cpp:32-42 | a record wholly inside the file decodes its own 60 move bytes, 0 as -1 |
| Wthor.ParseWtb | parser.cpp:16-47 | the games are the existing ones followed by the file's games in file order; reading stops when the file ends inside a record's first 8 bytes |

## Left out

- Search: the tree is a value (`Node`), not a heap of `TreeNode` pointers. In-place counter updates, sharing between nodes and the release of memory are not captured. One iteration returns the node it becomes, and the agent keeps the root in a field.
- Search.Agent.AcknowledgeMove: the nodes the engine deletes on this path are simply no longer referenced. The deletion loop and `dumpTree` (mcts.cpp:25-30, 55-57) have no member of their own, and neither has the destructor (mcts.cpp:42-45).
- Search.Select: the UCB score is computed over exact reals. The mean reward is `rewards / chosen`, and the exploration term `sqrt(2 log base / chosen)` is an input (`Game.explore`). Float rounding (mcts.cpp:160,183) can merge near-ties and so pick a different child than the model does. The engine's start value for the best score is replaced by "the first child scored becomes the best so far". Every child already has `chosen > 0` at that point.
- Search.ExpandLeaf: the random index `randInt(size - 1)` (mcts.cpp:135) is `draw % |children|` for an input `draw`. The rollout (not part of this model) is the function `Game.rollout`, which receives the same draw as its seed.
- Search: the counters `rewards`, `base` and `chosen` are C++ `int`, and `iterations` is `uint32_t` (mcts.cpp:17-20, agent.h:62). The model uses unbounded integers, so overflow after 2^31 visits is not captured.
- Search: the search runs over an abstract `Game`: whether the game is over, the outcome, the side to move, the legal moves, playing a move, and the rollout. No lemma links this `Game` to `Positions.Position`. `Scored` assumes outcomes and rollouts lie in -1..1, which `Positions.OutcomeOf` satisfies.
- Search.Agent.Policy: requires a position that is not over and `iterations >= 1`. On a finished position the engine's tree gains no children. With zero iterations it reads an unset `argmax` (mcts.cpp:82-91). The callers in othello.cpp, main.cpp and mcts_v_edax.cpp only ask for a move in a game that is not over.
- Search.SquaresOf: `bit_pos` (mcts.cpp:126) is not part of this model. It is specified as the index of the single set bit of its argument (`BitPos`).
- Bitboards.Rotr8Law6: the rotation law is proved for the three amounts the engine uses (8, 16 and 32), not for every 0 < c < 64. The same holds for Bitboards.Rotr16Law6 and Bitboards.Rotr32Law6.
- Lines.MoveEntryRule: `computeMovesCaptures` (bitboard.cpp:67-80) fills two 256 by 256 arrays in nested loops. Here the tables are the functions `MoveEntry` and `CaptureEntry`, whose values are exactly what the loop stores. The filling loop itself is not modelled.
- Positions.Position.GenerateMoves: the upright and rot90 lines are read in the source without `& mask`, while the model reads every line through `LowMask(length)`. For those two orientations the length is 8, so the mask is 0xff and changes nothing.
- Positions.Position.MakeMove: requires only that a real move lands on an empty square. This is what the update needs; the source's comment asks for a legal move (position.cpp:181-182). An empty square that encloses nothing just receives the piece.
- Positions: `rth_setbit_position` (bitboard.h:62-100), `pretty`, `print_board`, `serialize` and all printing are not modelled. None of them takes part in the rules.
- Positions: squares are bit indices 0..63 throughout. The two naming conventions of the source (row 0 as rank 1 in position.cpp and agent.cpp, as rank 8 in parser.cpp) are not modelled as text.
- Records.Unduplicate: the files become byte sequences, and the opens, the `.undup` file name and the print (move_predictor/data_helper.py:17,29-30) are not modelled. `list(set(...))` yields the distinct records in some order. The model leaves that order arbitrary (`WriteSamples` takes any ordering of the set).
- Records: `create_labels` and its pickle output are not modelled, as they are file I/O around a `Square2Class` lookup.
- Records.SeekDatum: the file seek becomes reading at byte 17 * index of a byte sequence. A read past the end of the data is short and yields the value of the bytes present; the source's caller guarantees an index in range.
- Wthor.SignedChar: `char` is taken to be signed (as on x86), so a byte of 128 or more reads as a negative value. Whether `char` is signed is implementation-defined (parser.cpp:20,39-40). A valid WTHOR move byte is at most 88, so this affects only malformed files.
- Wthor.ParseWtb: the file is a byte sequence, and opening and closing it is not modelled. The `games` vector passed by reference is an input sequence plus the result.
- The command-line programs (othello.cpp, main.cpp, agent.cpp, mcts_v_edax.cpp), the neural network forward pass (cnn.cpp) and the Python training pipeline are not part of this model. They are I/O, external processes and floating point.
