/**
 * The union of a list of boards, as the engine builds it with `moves |= ...` line
 * after line, and the bit-level fact that makes it a union.
 */
module Unions {
  type Bitboard = bv64

  /** The union of a list of boards, or-ed together in order. */
  function OrAll(parts: seq<Bitboard>): Bitboard
    decreases |parts|
  {
    if parts == [] then 0 else OrAll(parts[..|parts| - 1]) | parts[|parts| - 1]
  }

  /** b shares a bit with the mask m; with a one-bit mask, the engine's membership test. */
  predicate Hits(b: Bitboard, m: Bitboard) { b & m != 0 }

  // The equality is proved one direction at a time: the solver settles an
  // implication between bit tests far more cheaply.
  lemma HitsOrInto(a: Bitboard, b: Bitboard, m: Bitboard) ensures Hits(a | b, m) ==> Hits(a, m) || Hits(b, m) {}
  lemma HitsOrLeft(a: Bitboard, b: Bitboard, m: Bitboard) ensures Hits(a, m) ==> Hits(a | b, m) {}
  lemma HitsOrRight(a: Bitboard, b: Bitboard, m: Bitboard) ensures Hits(b, m) ==> Hits(a | b, m) {}
  lemma HitsOr(a: Bitboard, b: Bitboard, m: Bitboard)
    ensures Hits(a | b, m) == (Hits(a, m) || Hits(b, m))
  {
    HitsOrInto(a, b, m);
    HitsOrLeft(a, b, m);
    HitsOrRight(a, b, m);
  }

  /** The mask hits one of the parts. */
  predicate SomeHit(parts: seq<Bitboard>, m: Bitboard)
  {
    exists i | 0 <= i < |parts| :: Hits(parts[i], m)
  }

  /** The mask hits one of the parts exactly when it hits the last one or one of the others. */
  lemma SomeHitLast(parts: seq<Bitboard>, m: Bitboard)
    requires parts != []
    ensures SomeHit(parts, m) == (SomeHit(parts[..|parts| - 1], m) || Hits(parts[|parts| - 1], m))
  {
    var init := parts[..|parts| - 1];
    if SomeHit(init, m) {
      var i :| 0 <= i < |init| && Hits(init[i], m);
      assert parts[i] == init[i];
    }
    if SomeHit(parts, m) {
      var i :| 0 <= i < |parts| && Hits(parts[i], m);
      if i < |init| { assert parts[i] == init[i]; }
    }
  }

  /** The last part joins the union of the others. */
  lemma OrAllLast(parts: seq<Bitboard>)
    requires parts != []
    ensures OrAll(parts) == OrAll(parts[..|parts| - 1]) | parts[|parts| - 1]
  {}

  lemma HitsZero(m: Bitboard) ensures !Hits(0, m) {}

  // The union lemma is proved one direction at a time, like the bit tests above.
  lemma {:induction false} OrAllHitsInto(parts: seq<Bitboard>, m: Bitboard)
    ensures Hits(OrAll(parts), m) ==> SomeHit(parts, m)
    decreases |parts|
  {
    if parts == [] {
      HitsZero(m);
    } else {
      var init := parts[..|parts| - 1];
      OrAllLast(parts);
      HitsOrInto(OrAll(init), parts[|parts| - 1], m);
      OrAllHitsInto(init, m);
      SomeHitLast(parts, m);
    }
  }

  lemma {:induction false} OrAllHitsFrom(parts: seq<Bitboard>, m: Bitboard)
    ensures SomeHit(parts, m) ==> Hits(OrAll(parts), m)
    decreases |parts|
  {
    if parts != [] {
      var init := parts[..|parts| - 1];
      OrAllLast(parts);
      HitsOrLeft(OrAll(init), parts[|parts| - 1], m);
      HitsOrRight(OrAll(init), parts[|parts| - 1], m);
      OrAllHitsFrom(init, m);
      SomeHitLast(parts, m);
    }
  }

  /** The mask hits the union exactly when it hits one of the parts. */
  lemma OrAllHits(parts: seq<Bitboard>, m: Bitboard)
    ensures Hits(OrAll(parts), m) == SomeHit(parts, m)
  {
    OrAllHitsInto(parts, m);
    OrAllHitsFrom(parts, m);
  }
}
