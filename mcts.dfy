/**
 * The Monte Carlo tree search of the computer player: a tree of nodes
 * carrying visit and reward counters, grown one iteration at a time, and the
 * player that keeps the tree between turns.
 *
 * The search is written against the operations it uses on a position
 * (`Game`): whether the game is over, its outcome, whose turn it is, the
 * legal moves as a bitboard, playing a move, and the rollout that finishes a
 * game. The random child choice and the floating-point exploration term of
 * UCB1 are inputs.
 *
 * The tree is a value: one iteration takes a node and returns the node it
 * becomes, and the player keeps the current root in a field. Every node
 * satisfies `Counted`: its reward total lies between minus and plus its
 * visit count, its children's visit counts add up to at most its own, and
 * each child's `base` (the parent visit count UCB1 reads) equals that sum.
 */
module Search {
  import opened Bitboards
  import opened SquareSets
  import opened Positions

  // ---------------------------------------------------------------------
  // Extracting the squares of a move set one at a time

  /** Bits of `(1 << x) - 1`: the positions below x. */
  lemma BelowMask6(x: bv6, y: bv6)
    ensures Has6(((1 as Bitboard) << x) - 1, y) == (y < x)
  {}

  /** Bits of `SquareBit(k) - 1`: the squares below k. */
  lemma BelowMask(k: int, j: int)
    requires IsSquare(k) && IsSquare(j)
    ensures Has(SquareBit(k) - 1, j) == (j < k)
  {
    BelowMask6(Index6(k), Index6(j));
    Index6Value(k);
    Index6Value(j);
  }

  /** `m & (~m + 1)` keeps only the lowest set bit of m. */
  lemma LowestBit6(m: Bitboard, x: bv6)
    requires m & ((1 as Bitboard) << x) != 0
    requires m & (((1 as Bitboard) << x) - 1) == 0
    ensures m & (!m + 1) == (1 as Bitboard) << x
  {}

  /** The first square listed for a non-empty set is its lowest square. */
  lemma FirstSquare(m: Bitboard) returns (k: int)
    requires m != 0
    ensures IsSquare(k) && Has(m, k)
    ensures forall j | 0 <= j < k :: !Has(m, j)
  {
    EmptyBoard(m);
    var some :| some in Squares(m);
    var r := SetBits(m, 64);
    assert some in r;
    k := r[0];
    forall j | 0 <= j < k ensures !Has(m, j) {
      assert Has(m, j) ==> j in r;
    }
  }

  /** No bit of m lies below its lowest square k. */
  lemma NothingBelow(m: Bitboard, k: int)
    requires IsSquare(k)
    requires forall j | 0 <= j < k :: !Has(m, j)
    ensures m & (SquareBit(k) - 1) == 0
  {
    var below := SquareBit(k) - 1;
    forall j | IsSquare(j) ensures Has(m & below, j) == Has(0, j) {
      HasAnd(m, below, j);
      BelowMask(k, j);
      HasZero(j);
    }
    Extensional(m & below, 0);
  }

  /** `a & ~b` keeps the bits of a that b lacks. */
  lemma AndNot6(a: Bitboard, b: Bitboard, x: bv6)
    ensures Has6(a & !b, x) == (Has6(a, x) && !Has6(b, x))
  {
    And6(a, !b, x);
    Not6(b, x);
  }

  lemma HasAndNot(a: Bitboard, b: Bitboard, k: int)
    requires IsSquare(k)
    ensures Has(a & !b, k) == (Has(a, k) && !Has(b, k))
  {
    AndNot6(a, b, Index6(k));
  }

  /** Clearing square k keeps every other square. */
  lemma Clear(m: Bitboard, k: int)
    requires IsSquare(k)
    ensures forall j | IsSquare(j) :: Has(m & !SquareBit(k), j) == (Has(m, j) && j != k)
  {
    forall j | IsSquare(j) ensures Has(m & !SquareBit(k), j) == (Has(m, j) && j != k) {
      HasSquareBit(k, j);
      ClearOne(m, SquareBit(k), k, j);
    }
  }

  /** Clearing a word that holds square j exactly when j is k. */
  lemma ClearOne(m: Bitboard, s: Bitboard, k: int, j: int)
    requires IsSquare(k) && IsSquare(j) && Has(s, j) == (j == k)
    ensures Has(m & !s, j) == (Has(m, j) && j != k)
  {
    HasAndNot(m, s, j);
  }

  /** The lowest square of a non-empty set, its lowest bit, and the set without it. */
  lemma LowestSquare(m: Bitboard) returns (k: int)
    requires m != 0
    ensures IsSquare(k) && Has(m, k)
    ensures m & (!m + 1) == SquareBit(k)
    ensures SetBits(m, 64) == [k] + SetBits(m & !SquareBit(k), 64)
  {
    k := FirstSquare(m);
    NothingBelow(m, k);
    LowestBit6(m, Index6(k));
    ListedAfterLowest(m, k);
  }

  /** The lowest set bit of m, `m & (~m + 1)`. */
  function LowestBit(m: Bitboard): Bitboard
  {
    m & (!m + 1)
  }

  /** m without the bits of b, `m & ~b`. */
  function Without(m: Bitboard, b: Bitboard): Bitboard
  {
    m & !b
  }

  /** Taking the lowest bit of a non-empty set yields its first listed square, and the rest lists the others. */
  lemma PopLowest(m: Bitboard) returns (k: int)
    requires m != 0
    ensures IsSquare(k) && BitPos(LowestBit(m)) == k
    ensures SetBits(m, 64) == [k] + SetBits(Without(m, LowestBit(m)), 64)
  {
    k := LowestSquare(m);
    BitPosSquare(k);
  }

  /** After the lowest square k come the squares of m without k. */
  lemma ListedAfterLowest(m: Bitboard, k: int)
    requires IsSquare(k) && Has(m, k)
    requires forall j | 0 <= j < k :: !Has(m, j)
    ensures SetBits(m, 64) == [k] + SetBits(m & !SquareBit(k), 64)
  {
    Clear(m, k);
    DropLowest(m, m & !SquareBit(k), k, 64);
  }

  /** Listing the squares of m from its lowest square k on is k followed by the squares of m without k. */
  lemma {:induction false} DropLowest(m: Bitboard, rest: Bitboard, k: int, n: nat)
    requires IsSquare(k) && k < n <= 64 && Has(m, k)
    requires forall j | 0 <= j < k :: !Has(m, j)
    requires forall j | IsSquare(j) :: Has(rest, j) == (Has(m, j) && j != k)
    ensures SetBits(m, n) == [k] + SetBits(rest, n)
  {
    if n == k + 1 {
      NoneBelow(m, k);
      NoneBelow(rest, k);
      assert SetBits(m, n) == SetBits(m, k) + [k];
      assert SetBits(rest, n) == SetBits(rest, k);
    } else {
      DropLowest(m, rest, k, n - 1);
      assert Has(rest, n - 1) == Has(m, n - 1);
      SameTop(m, rest, [k], n);
    }
  }

  /** Listings that agree below n - 1 up to a prefix agree below n when bit n - 1 agrees. */
  lemma SameTop(m: Bitboard, rest: Bitboard, front: seq<int>, n: nat)
    requires 0 < n <= 64
    requires SetBits(m, n - 1) == front + SetBits(rest, n - 1)
    requires Has(rest, n - 1) == Has(m, n - 1)
    ensures SetBits(m, n) == front + SetBits(rest, n)
  {
    var last := if Has(m, n - 1) then [n - 1] else [];
    assert SetBits(m, n) == SetBits(m, n - 1) + last;
    assert SetBits(rest, n) == SetBits(rest, n - 1) + last;
    assert front + SetBits(rest, n - 1) + last == front + (SetBits(rest, n - 1) + last);
  }

  /** A set without squares below n lists none of them. */
  lemma {:induction false} NoneBelow(m: Bitboard, n: nat)
    requires n <= 64
    requires forall j | 0 <= j < n :: !Has(m, j)
    ensures SetBits(m, n) == []
  {
    if n > 0 {
      NoneBelow(m, n - 1);
    }
  }

  /** The index of the lowest set bit of x at or above i (64 when there is none). */
  function FirstFrom(x: Bitboard, i: nat): (k: int)
    requires i <= 64
    ensures i <= k <= 64
    decreases 64 - i
  {
    if i == 64 then 64 else if Has(x, i) then i else FirstFrom(x, i + 1)
  }

  /** The index of the single set bit of a one-square word. */
  function BitPos(x: Bitboard): int
  {
    FirstFrom(x, 0)
  }

  /** The one-square word of square k has its bit at k. */
  lemma BitPosSquare(k: int)
    requires IsSquare(k)
    ensures BitPos(SquareBit(k)) == k
  {
    FirstFromSquare(k, 0);
  }

  lemma {:induction false} FirstFromSquare(k: int, i: nat)
    requires IsSquare(k) && i <= k
    ensures FirstFrom(SquareBit(k), i) == k
    decreases k - i
  {
    HasSquareBit(k, i);
    if i < k {
      FirstFromSquare(k, i + 1);
    }
  }

  /** The moves of the children expansion creates: one per legal square in ascending order, or a single pass. */
  ghost function ExpansionMoves(moves: Bitboard): (r: seq<int>)
    ensures |r| >= 1
  {
    if moves == 0 then [-1] else NonEmptyListed(moves); SetBits(moves, 64)
  }

  /** A non-empty set lists at least one square. */
  lemma NonEmptyListed(m: Bitboard)
    requires m != 0
    ensures SetBits(m, 64) != []
  {
    var k := PopLowest(m);
  }

  // ---------------------------------------------------------------------
  // Counters

  /** The sum of a sequence. */
  function Sum(s: seq<int>): int
  {
    if s == [] then 0 else Sum(s[..|s| - 1]) + s[|s| - 1]
  }

  /** Raising one entry raises the sum by as much. */
  lemma {:induction false} SumUpdate(s: seq<int>, k: int, d: int)
    requires 0 <= k < |s|
    ensures Sum(s[k := s[k] + d]) == Sum(s) + d
  {
    var t := s[k := s[k] + d];
    if k < |s| - 1 {
      assert t[..|t| - 1] == s[..|s| - 1][k := s[k] + d];
      SumUpdate(s[..|s| - 1], k, d);
    } else {
      assert t[..|t| - 1] == s[..|s| - 1];
    }
  }

  /** A sum of non-negative entries is at least each entry. */
  lemma {:induction false} SumBound(s: seq<int>, k: int)
    requires forall i | 0 <= i < |s| :: s[i] >= 0
    requires 0 <= k < |s|
    ensures Sum(s) >= s[k] >= 0
  {
    if k < |s| - 1 {
      SumBound(s[..|s| - 1], k);
    } else {
      SumNonnegative(s[..|s| - 1]);
    }
  }

  lemma {:induction false} SumNonnegative(s: seq<int>)
    requires forall i | 0 <= i < |s| :: s[i] >= 0
    ensures Sum(s) >= 0
  {
    if s != [] {
      SumNonnegative(s[..|s| - 1]);
    }
  }

  /** A sum of zeros is zero. */
  lemma {:induction false} SumZeros(s: seq<int>)
    requires forall i | 0 <= i < |s| :: s[i] == 0
    ensures Sum(s) == 0
  {
    if s != [] {
      SumZeros(s[..|s| - 1]);
    }
  }

  /** A sum of zeros and a single one is one. */
  lemma SumSingle(s: seq<int>, k: int)
    requires 0 <= k < |s| && forall i | 0 <= i < |s| :: s[i] == if i == k then 1 else 0
    ensures Sum(s) == 1
  {
    var z := s[k := 0];
    SumZeros(z);
    SumUpdate(z, k, 1);
    assert z[k := z[k] + 1] == s;
  }

  /** A sum of non-negative entries that is positive has a positive entry. */
  lemma {:induction false} SumPositive(s: seq<int>) returns (k: int)
    requires forall i | 0 <= i < |s| :: s[i] >= 0
    requires Sum(s) > 0
    ensures 0 <= k < |s| && s[k] > 0
  {
    if s[|s| - 1] > 0 {
      k := |s| - 1;
    } else {
      k := SumPositive(s[..|s| - 1]);
    }
  }


  /** Raising entry k by one and keeping the others raises the sum by one. */
  lemma {:induction false} SumStep(after: seq<int>, before: seq<int>, k: int)
    requires |after| == |before| && 0 <= k < |before|
    requires forall j | 0 <= j < |before| :: after[j] == if j == k then before[j] + 1 else before[j]
    ensures Sum(after) == Sum(before) + 1
  {
    SumUpdate(before, k, 1);
    assert after == before[k := before[k] + 1];
  }

  // ---------------------------------------------------------------------
  // The tree

  /**
   * A search tree node: its children, the move leading to it, the net wins of
   * the rollouts through it (for black), how often its parent was visited
   * since it exists (base) and how often it was visited itself (chosen).
   */
  datatype Node = Node(children: seq<Node>, move: int, rewards: int, base: int, chosen: int)

  datatype Option<T> = None | Some(value: T)

  /** A child as expansion creates it under move m: no children, no rewards, base 1, never chosen. */
  function Leaf(m: int): Node
  {
    Node([], m, 0, 1, 0)
  }

  /** How often each of the nodes was chosen. */
  function ChosenOf(cs: seq<Node>): (r: seq<int>)
    ensures |r| == |cs| && forall i | 0 <= i < |cs| :: r[i] == cs[i].chosen
  {
    if cs == [] then [] else ChosenOf(cs[..|cs| - 1]) + [cs[|cs| - 1].chosen]
  }

  /**
   * The counters of a node and its children agree: the net wins never
   * exceed the visits, the children were chosen at most as often as the node
   * was visited and, once it is expanded, at least once, and each child's
   * base counts exactly the visits that chose one of the children.
   */
  predicate Counted(n: Node)
  {
    -n.chosen <= n.rewards <= n.chosen &&
    Sum(ChosenOf(n.children)) <= n.chosen &&
    (n.children != [] ==> 1 <= Sum(ChosenOf(n.children))) &&
    forall i | 0 <= i < |n.children| :: n.children[i].base == Sum(ChosenOf(n.children))
  }

  /** The tree invariant: every node of the tree is Counted. A node's own base belongs to its parent's. */
  predicate AllCounted(n: Node)
  {
    Counted(n) && forall i | 0 <= i < |n.children| :: AllCounted(n.children[i])
  }

  /** The number of nodes of a tree. */
  function Size(n: Node): nat
  {
    1 + SizeAll(n.children)
  }

  function SizeAll(cs: seq<Node>): nat
  {
    if cs == [] then 0 else Size(cs[0]) + SizeAll(cs[1..])
  }

  /** A subtree is smaller than the forest it belongs to. */
  lemma {:induction false} SizeAllBound(cs: seq<Node>, k: int)
    requires 0 <= k < |cs|
    ensures Size(cs[k]) <= SizeAll(cs)
  {
    if k > 0 {
      SizeAllBound(cs[1..], k - 1);
    }
  }

  /** Nodes with the same children and counters are counted alike and have the same size, whatever their base and move. */
  lemma SameStatistics(a: Node, b: Node)
    requires AllCounted(a) && a.children == b.children && a.rewards == b.rewards && a.chosen == b.chosen
    ensures AllCounted(b) && Size(b) == Size(a)
  {
  }

  // ---------------------------------------------------------------------
  // Expansion

  /**
   * Expansion of a leaf: one new child per square of moves, lowest square
   * first (taking `moves & (~moves + 1)` and clearing it each round), or a
   * single pass child (move -1) when there is no legal move.
   */
  method Expand(moves: Bitboard) returns (children: seq<Node>)
    ensures |children| == |ExpansionMoves(moves)|
    ensures forall i | 0 <= i < |children| :: children[i] == Leaf(ExpansionMoves(moves)[i])
  {
    var squares := [-1];
    if moves != 0 {
      squares := SquaresOf(moves);
    }
    children := [];
    for i := 0 to |squares|
      invariant |children| == i
      invariant forall j | 0 <= j < i :: children[j] == Leaf(squares[j])
    {
      children := children + [Leaf(squares[i])];
    }
  }

  /** The squares of a move set in ascending order, taking the lowest bit `moves & (~moves + 1)` and clearing it each round. */
  method SquaresOf(moves: Bitboard) returns (squares: seq<int>)
    ensures squares == SetBits(moves, 64)
  {
    var rest := moves;
    squares := [];
    while rest != 0
      invariant SetBits(moves, 64) == squares + SetBits(rest, 64)
      decreases |SetBits(rest, 64)|
    {
      ghost var k := PopLowest(rest);
      var low := LowestBit(rest);
      Regroup(SetBits(moves, 64), squares, k, SetBits(Without(rest, low), 64));
      rest := Without(rest, low);
      squares := squares + [BitPos(low)];
    }
    NoSetBits(64);
  }

  /** The empty board has no square set. */
  lemma {:induction false} NoSetBits(n: nat)
    requires n <= 64
    ensures SetBits(0, n) == []
  {
    if n > 0 {
      NoSetBits(n - 1);
      HasZero(n - 1);
    }
  }

  /** Moving the head of the remainder to the end of the prefix. */
  lemma Regroup(all: seq<int>, front: seq<int>, x: int, back: seq<int>)
    requires all == front + ([x] + back)
    ensures all == (front + [x]) + back
  {
  }

  /**
   * The moves expansion creates: with legal moves, every legal square once,
   * in ascending order and nothing else; without, the single pass -1.
   */
  lemma ExpansionMovesListed(moves: Bitboard)
    ensures moves == 0 ==> ExpansionMoves(moves) == [-1]
    ensures moves != 0 ==> forall i | 0 <= i < |ExpansionMoves(moves)| ::
      IsSquare(ExpansionMoves(moves)[i]) && Has(moves, ExpansionMoves(moves)[i])
    ensures moves != 0 ==> forall j | IsSquare(j) && Has(moves, j) :: j in ExpansionMoves(moves)
    ensures forall i, j | 0 <= i < j < |ExpansionMoves(moves)| :: ExpansionMoves(moves)[i] < ExpansionMoves(moves)[j]
  {
  }

  // ---------------------------------------------------------------------
  // The game the search runs on

  /**
   * What the search asks of a position of type P: whether the game is over,
   * its outcome for black (1 black wins, -1 white wins, 0 draw), whose turn
   * it is, the legal moves of a side, the position after a move, the result
   * of a random playout with a given seed, and the UCB1 exploration term
   * sqrt(2 ln base / chosen) as a real number.
   */
  datatype Game<!P> = Game(
    over: P -> bool,
    outcome: P -> int,
    turn: P -> Color,
    moves: (P, Color) -> Bitboard,
    play: (P, int, Color) -> P,
    rollout: (P, nat) -> int,
    explore: (int, int) -> real)

  /** Outcomes and playout results are wins, losses or draws. */
  ghost predicate Scored<P(!new)>(game: Game<P>)
  {
    (forall p: P :: -1 <= game.outcome(p) <= 1) &&
    (forall p: P, seed: nat :: -1 <= game.rollout(p, seed) <= 1)
  }

  // ---------------------------------------------------------------------
  // One iteration of the search

  /** A terminal leaf tallies the outcome: `rewards += outcome; chosen += 1`. */
  function Tally(n: Node, outcome: int): (r: Node)
    requires AllCounted(n) && n.children == [] && -1 <= outcome <= 1
    ensures AllCounted(r)
  {
    n.(rewards := n.rewards + outcome, chosen := n.chosen + 1)
  }

  /**
   * A leaf of a game not over: expansion, then a rollout from child
   * `draw % |children|` (the engine's random index) after its move, whose
   * outcome is added to that child and to the node, both counted as chosen
   * once more.
   */
  method ExpandLeaf<P(!new)>(node: Node, pos: P, game: Game<P>, draw: nat) returns (r: Node)
    requires AllCounted(node) && node.children == [] && Scored(game)
    ensures AllCounted(r)
    ensures r.move == node.move && r.base == node.base && r.chosen == node.chosen + 1
    ensures var ms := ExpansionMoves(game.moves(pos, game.turn(pos)));
      var i := draw % |ms|;
      var outcome := game.rollout(game.play(pos, ms[i], game.turn(pos)), draw);
      |r.children| == |ms| &&
      r.rewards == node.rewards + outcome &&
      r.children[i] == Node([], ms[i], outcome, 1, 1) &&
      forall j | 0 <= j < |ms| && j != i :: r.children[j] == Leaf(ms[j])
  {
    var side := game.turn(pos);
    var children := Expand(game.moves(pos, side));
    var i := draw % |children|;
    var outcome := game.rollout(game.play(pos, children[i].move, side), draw);
    children := children[i := children[i].(rewards := children[i].rewards + outcome, chosen := children[i].chosen + 1)];
    r := node.(children := children, rewards := node.rewards + outcome, chosen := node.chosen + 1);
    ExpandedCounted(node, i, outcome, r);
  }

  /** A leaf expanded into fresh children, one of them tallied once, is counted. */
  lemma ExpandedCounted(node: Node, i: int, outcome: int, r: Node)
    requires AllCounted(node) && node.children == [] && -1 <= outcome <= 1
    requires 0 <= i < |r.children| && r.rewards == node.rewards + outcome && r.chosen == node.chosen + 1
    requires forall j | 0 <= j < |r.children| :: r.children[j].children == [] && r.children[j].base == 1
    requires r.children[i].chosen == 1 && -1 <= r.children[i].rewards <= 1
    requires forall j | 0 <= j < |r.children| && j != i :: r.children[j].chosen == 0 && r.children[j].rewards == 0
    ensures AllCounted(r)
  {
    SumSingle(ChosenOf(r.children), i);
  }

  /** Every child counts one more visit of its parent: `child->base += 1`. */
  method BumpBases(cs: seq<Node>) returns (bumped: seq<Node>)
    ensures |bumped| == |cs|
    ensures forall j | 0 <= j < |cs| :: bumped[j] == cs[j].(base := cs[j].base + 1)
  {
    bumped := cs;
    for i := 0 to |cs|
      invariant |bumped| == |cs|
      invariant forall j | 0 <= j < i :: bumped[j] == cs[j].(base := cs[j].base + 1)
      invariant forall j | i <= j < |cs| :: bumped[j] == cs[j]
    {
      bumped := bumped[i := bumped[i].(base := bumped[i].base + 1)];
    }
  }

  /** The UCB1 score of a child for the side to move: mean reward plus (black) or minus (white) the exploration term. */
  function Ucb<P>(n: Node, black: bool, game: Game<P>): real
    requires n.chosen > 0
  {
    var mean := n.rewards as real / n.chosen as real;
    if black then mean + game.explore(n.base, n.chosen) else mean - game.explore(n.base, n.chosen)
  }

  /** Whether score a beats score b for the side to move: higher for black, lower for white. */
  predicate Better(a: real, b: real, black: bool)
  {
    if black then a > b else a < b
  }

  /**
   * Child k is the one selection takes: the first child never chosen, if
   * there is one; otherwise the first child with the best score (the
   * greatest for black, the least for white), later children replacing it
   * only when strictly better.
   */
  ghost predicate Selected<P>(cs: seq<Node>, k: int, black: bool, game: Game<P>)
  {
    0 <= k < |cs| &&
    (cs[k].chosen == 0 ==> forall j | 0 <= j < k :: cs[j].chosen > 0) &&
    (cs[k].chosen > 0 ==>
      (forall j | 0 <= j < |cs| :: cs[j].chosen > 0) &&
      (forall j | 0 <= j < k :: Better(Ucb(cs[k], black, game), Ucb(cs[j], black, game), black)) &&
      (forall j | k < j < |cs| :: !Better(Ucb(cs[j], black, game), Ucb(cs[k], black, game), black)))
  }

  /** The children as they are after every base went up by one. */
  ghost function Bumped(cs: seq<Node>): (r: seq<Node>)
    ensures |r| == |cs|
  {
    seq(|cs|, j requires 0 <= j < |cs| => cs[j].(base := cs[j].base + 1))
  }

  /** A sequence that is cs with every base one higher is Bumped(cs). */
  lemma BumpedAll(cs: seq<Node>, bumped: seq<Node>)
    requires |bumped| == |cs|
    requires forall j | 0 <= j < |cs| :: bumped[j] == cs[j].(base := cs[j].base + 1)
    ensures bumped == Bumped(cs)
  {
  }

  /** Selection: the loop over the children keeping the best score so far. */
  method Select<P>(cs: seq<Node>, black: bool, game: Game<P>) returns (k: int)
    requires cs != []
    requires forall j | 0 <= j < |cs| :: cs[j].chosen >= 0
    ensures Selected(cs, k, black, game)
  {
    k := -1;
    var best: real := 0.0;
    var i := 0;
    while i < |cs|
      invariant 0 <= i <= |cs|
      invariant forall j | 0 <= j < i :: cs[j].chosen > 0
      invariant i == 0 ==> k == -1
      invariant 0 < i ==> 0 <= k < i && best == Ucb(cs[k], black, game)
      invariant 0 < i ==> forall j | 0 <= j < k :: Better(best, Ucb(cs[j], black, game), black)
      invariant 0 < i ==> forall j | k < j < i :: !Better(Ucb(cs[j], black, game), best, black)
    {
      if cs[i].chosen == 0 {
        return i;
      }
      var score := Ucb(cs[i], black, game);
      if k < 0 || Better(score, best, black) {
        best := score;
        k := i;
      }
      i := i + 1;
    }
  }

  /**
   * One iteration of the search from node at position pos (the engine's
   * MCTS), returning the node with its updated statistics: a terminal leaf
   * tallies the outcome, any other leaf is expanded and one new child played
   * out, and an expanded node descends into one child.
   */
  method Iterate<P(!new)>(node: Node, pos: P, game: Game<P>, draw: nat) returns (r: Node)
    requires AllCounted(node) && Scored(game)
    decreases Size(node), 1
    ensures AllCounted(r)
    ensures r.move == node.move && r.base == node.base && r.chosen == node.chosen + 1
    ensures node.rewards - 1 <= r.rewards <= node.rewards + 1
    ensures node.children != [] ==> |r.children| == |node.children|
    ensures node.children == [] ==> (r.children == [] <==> game.over(pos))
    ensures node.children == [] && game.over(pos) ==> r.rewards == node.rewards + game.outcome(pos)
  {
    if node.children == [] {
      if game.over(pos) {
        r := Tally(node, game.outcome(pos));
      } else {
        r := ExpandLeaf(node, pos, game, draw);
      }
    } else {
      var k;
      r, k := Descend(node, pos, game, draw);
    }
  }

  /**
   * The recursive case: every child's base and the node's chosen count go up
   * by one, the child k that selection takes is searched from the position after its
   * move, and the node's rewards change by exactly as much as k's.
   */
  method Descend<P(!new)>(node: Node, pos: P, game: Game<P>, draw: nat) returns (r: Node, k: int)
    requires AllCounted(node) && node.children != [] && Scored(game)
    decreases Size(node), 0
    ensures AllCounted(r)
    ensures r.move == node.move && r.base == node.base && r.chosen == node.chosen + 1
    ensures |r.children| == |node.children| && 0 <= k < |node.children|
    ensures forall j | 0 <= j < |r.children| ::
      r.children[j].base == node.children[j].base + 1 && r.children[j].move == node.children[j].move
    ensures r.children[k].chosen == node.children[k].chosen + 1
    ensures forall j | 0 <= j < |r.children| && j != k :: r.children[j] == node.children[j].(base := node.children[j].base + 1)
    ensures r.rewards - node.rewards == r.children[k].rewards - node.children[k].rewards
    ensures node.rewards - 1 <= r.rewards <= node.rewards + 1
    ensures Selected(Bumped(node.children), k, game.turn(pos) == Black, game)
  {
    var children := BumpBases(node.children);
    BumpedAll(node.children, children);
    var side := game.turn(pos);
    k := Select(children, side == Black, game);
    var child := children[k];
    SameStatistics(node.children[k], child);
    SizeAllBound(node.children, k);
    var searched := Iterate(child, game.play(pos, child.move, side), game, draw);
    r := node.(children := children[k := searched], rewards := node.rewards + (searched.rewards - child.rewards), chosen := node.chosen + 1);
    DescendShape(node, children, k, searched, r);
    DescendStep(node, k, searched, r);
  }

  /** The node rebuilt after child k of the bumped children was searched: its shape and counters. */
  lemma DescendShape(node: Node, bumped: seq<Node>, k: int, searched: Node, r: Node)
    requires |bumped| == |node.children| && 0 <= k < |bumped|
    requires forall j | 0 <= j < |bumped| :: bumped[j] == node.children[j].(base := node.children[j].base + 1)
    requires searched.move == bumped[k].move && searched.base == bumped[k].base
    requires searched.chosen == bumped[k].chosen + 1
    requires bumped[k].rewards - 1 <= searched.rewards <= bumped[k].rewards + 1
    requires r.move == node.move && r.base == node.base && r.chosen == node.chosen + 1
    requires r.children == bumped[k := searched] && r.rewards == node.rewards + (searched.rewards - bumped[k].rewards)
    ensures |r.children| == |node.children|
    ensures forall j | 0 <= j < |r.children| ::
      r.children[j].base == node.children[j].base + 1 && r.children[j].move == node.children[j].move
    ensures r.children[k].chosen == node.children[k].chosen + 1
    ensures forall j | 0 <= j < |r.children| && j != k :: r.children[j] == node.children[j].(base := node.children[j].base + 1)
    ensures r.rewards - node.rewards == r.children[k].rewards - node.children[k].rewards
    ensures node.rewards - 1 <= r.rewards <= node.rewards + 1
  {
    assert r.children[k] == searched;
    assert forall j | 0 <= j < |r.children| && j != k :: r.children[j] == bumped[j];
  }

  /** The node rebuilt after child k was searched keeps the tree invariant. */
  lemma DescendStep(node: Node, k: int, searched: Node, r: Node)
    requires AllCounted(node) && |r.children| == |node.children| && 0 <= k < |node.children|
    requires r.children[k] == searched && AllCounted(searched)
    requires r.chosen == node.chosen + 1 && r.children[k].chosen == node.children[k].chosen + 1
    requires forall j | 0 <= j < |r.children| :: r.children[j].base == node.children[j].base + 1
    requires forall j | 0 <= j < |r.children| && j != k :: r.children[j] == node.children[j].(base := node.children[j].base + 1)
    requires node.rewards - 1 <= r.rewards <= node.rewards + 1
    ensures AllCounted(r)
  {
    SiblingsCounted(node, r, k);
    DescendedCounted(node, r, k);
  }

  /** The node after a descent through child k, whose children are all counted, satisfies the invariant. */
  lemma DescendedCounted(node: Node, r: Node, k: int)
    requires Counted(node) && 0 <= k < |node.children|
    requires |r.children| == |node.children| && r.chosen == node.chosen + 1
    requires r.children[k].chosen == node.children[k].chosen + 1
    requires forall j | 0 <= j < |r.children| && j != k :: r.children[j].chosen == node.children[j].chosen
    requires forall j | 0 <= j < |r.children| :: r.children[j].base == node.children[j].base + 1
    requires forall j | 0 <= j < |r.children| :: AllCounted(r.children[j])
    requires node.rewards - 1 <= r.rewards <= node.rewards + 1
    ensures AllCounted(r)
  {
    ChosenStep(node.children, r.children, k);
  }

  /** The children other than k, changed in their base only, stay counted. */
  lemma SiblingsCounted(node: Node, r: Node, k: int)
    requires AllCounted(node) && |r.children| == |node.children|
    requires forall j | 0 <= j < |r.children| && j != k :: r.children[j] == node.children[j].(base := node.children[j].base + 1)
    ensures forall j | 0 <= j < |r.children| && j != k :: AllCounted(r.children[j])
  {
    forall j | 0 <= j < |r.children| && j != k ensures AllCounted(r.children[j]) {
      SameStatistics(node.children[j], r.children[j]);
    }
  }

  /** One more choice of child k and none of the others adds one to the children's choices. */
  lemma ChosenStep(before: seq<Node>, after: seq<Node>, k: int)
    requires |after| == |before| && 0 <= k < |before|
    requires after[k].chosen == before[k].chosen + 1
    requires forall j | 0 <= j < |before| && j != k :: after[j].chosen == before[j].chosen
    ensures Sum(ChosenOf(after)) == Sum(ChosenOf(before)) + 1
  {
    SumStep(ChosenOf(after), ChosenOf(before), k);
  }

  /** A counted node with children has chosen one of them at least once. */
  lemma SomeChosen(n: Node) returns (j: int)
    requires Counted(n) && n.children != []
    requires forall i | 0 <= i < |n.children| :: Counted(n.children[i])
    ensures 0 <= j < |n.children| && n.children[j].chosen > 0
  {
    j := SumPositive(ChosenOf(n.children));
  }

  // ---------------------------------------------------------------------
  // The player

  /** Child k is the first of the children chosen most often, and was chosen at least once. */
  ghost predicate MostChosenAt(cs: seq<Node>, k: int)
  {
    0 <= k < |cs| && cs[k].chosen > 0 &&
    (forall j | 0 <= j < k :: cs[j].chosen < cs[k].chosen) &&
    (forall j | k < j < |cs| :: cs[j].chosen <= cs[k].chosen)
  }

  /** The child explored the most: a strictly greater count replaces the best so far, starting from 0. */
  method MostChosen(cs: seq<Node>) returns (k: int)
    requires exists j | 0 <= j < |cs| :: cs[j].chosen > 0
    ensures MostChosenAt(cs, k)
  {
    var most := 0;
    k := -1;
    for i := 0 to |cs|
      invariant k == -1 ==> most == 0 && forall j | 0 <= j < i :: cs[j].chosen <= 0
      invariant k != -1 ==> 0 <= k < i && most == cs[k].chosen > 0
      invariant k != -1 ==> forall j | 0 <= j < k :: cs[j].chosen < most
      invariant k != -1 ==> forall j | k < j < i :: cs[j].chosen <= most
    {
      if cs[i].chosen > most {
        most := cs[i].chosen;
        k := i;
      }
    }
  }

  /** The index of the last child reached by move m, or -1 when there is none. */
  function LastWithMove(cs: seq<Node>, m: int): (r: int)
    ensures -1 <= r < |cs|
    ensures r >= 0 ==> cs[r].move == m
    ensures forall j | r < j < |cs| :: cs[j].move != m
  {
    if cs == [] then -1
    else if cs[|cs| - 1].move == m then |cs| - 1
    else LastWithMove(cs[..|cs| - 1], m)
  }

  /**
   * The computer player: its side, the number of search iterations per move,
   * the game it searches, and the tree kept between its moves (none at
   * first).
   */
  class Agent<P(!new)> {
    const side: Color
    const iterations: nat
    const game: Game<P>
    var tree: Option<Node>

    /** A kept tree satisfies the tree invariant. */
    ghost predicate Valid()
      reads this
    {
      tree.Some? ==> AllCounted(tree.value)
    }

    constructor (c: Color, n: nat, g: Game<P>)
      ensures Valid() && tree == None
      ensures side == c && iterations == n && game == g
    {
      side := c;
      iterations := n;
      game := g;
      tree := None;
    }

    /**
     * A move was played: the kept tree becomes the subtree of the child
     * reached by that move (the last one, should there be several), or none;
     * every other node is released.
     */
    method AcknowledgeMove(m: int)
      requires Valid()
      modifies this
      ensures Valid()
      ensures old(tree) == None ==> tree == None
      ensures old(tree) != None ==>
        var cs := old(tree).value.children;
        var i := LastWithMove(cs, m);
        tree == if i < 0 then None else Some(cs[i])
    {
      if tree == None {
        return;
      }
      var cs := tree.value.children;
      var newtree: Option<Node> := None;
      for i := 0 to |cs|
        invariant var last := LastWithMove(cs[..i], m); newtree == if last < 0 then None else Some(cs[last])
      {
        assert cs[..i + 1][..i] == cs[..i];
        if cs[i].move == m {
          newtree := Some(cs[i]);
        }
      }
      assert cs[..|cs|] == cs;
      tree := newtree;
    }

    /**
     * The move to play at pos: -1 when the player's side has no legal move
     * (the tree is left alone); otherwise, after the given number of search
     * iterations from the kept tree (a fresh root when there is none), the
     * move of the first child chosen most often. draws(i) is the random
     * input of iteration i.
     */
    method Policy(pos: P, draws: nat -> nat) returns (best: int)
      requires Valid() && Scored(game) && !game.over(pos) && iterations >= 1
      modifies this
      ensures Valid()
      ensures game.moves(pos, side) == 0 ==> best == -1 && tree == old(tree)
      ensures game.moves(pos, side) != 0 ==>
        tree.Some? &&
        tree.value.chosen == (if old(tree).Some? then old(tree).value.chosen else 0) + iterations &&
        exists k :: MostChosenAt(tree.value.children, k) && best == tree.value.children[k].move
    {
      if game.moves(pos, side) == 0 {
        return -1;
      }
      var root := if tree.Some? then tree.value else Node([], 0, 0, 0, 0);
      ghost var start := root.chosen;
      for i := 0 to iterations
        invariant AllCounted(root) && root.chosen == start + i
        invariant i > 0 ==> root.children != []
      {
        root := Iterate(root, pos, game, draws(i));
      }
      tree := Some(root);
      var some := SomeChosen(root);
      var k := MostChosen(root.children);
      best := root.children[k].move;
    }
  }
}
