/**
 * Segments: cutting a line out of a 64-bit board and putting it back.
 *
 * The engine reads the squares of a line as `(board >> offset) & mask`, looks
 * the byte up in its tables, and writes the answer back with
 * `(Bitboard)answer << offset`. The lemmas here say what those two operations
 * do to each square. Shifts by a variable amount are expensive for the
 * solver, so every fact is first proved for one literal position inside the
 * byte and then assembled by cases.
 */
module Segments {
  import opened Bitboards
  import Lines

  /** The engine's `(1 << length) - 1`: the first `length` squares of a line. */
  function LowMask(length: int): Lines.Row
    requires 0 <= length <= 8
  {
    if length == 8 then 0xff else ((1 as Lines.Row) << length) - 1
  }

  /** The byte `(b >> offset) & mask`, as the engine stores it in an unsigned char. */
  function Segment(b: Bitboard, offset: bv6, mask: Lines.Row): Lines.Row
  {
    (((b >> offset) & 0xff) as Lines.Row) & mask
  }

  /** The engine's `(Bitboard)r << offset`. */
  function Place(r: Lines.Row, offset: bv6): Bitboard
  {
    (r as Bitboard) << offset
  }

  lemma LowMaskIn(length: int, p: int)
    requires 0 <= length <= 8
    ensures Lines.In(LowMask(length), p) == (0 <= p < length)
  {
    if length == 0 {} else if length == 1 {} else if length == 2 {} else if length == 3 {}
    else if length == 4 {} else if length == 5 {} else if length == 6 {} else if length == 7 {} else {}
  }

  /** A bit position read back as a number. */
  lemma Index6Of(x: bv6)
    ensures Index6(x as int) == x
  {
    Index6Value(x as int);
  }

  lemma SegmentBit0(b: Bitboard, o: bv6, mask: Lines.Row)
    requires o as int + 0 < 64
    ensures (o + 0) as int == o as int + 0
    ensures Lines.In(Segment(b, o, mask), 0) == (Lines.In(mask, 0) && Has6(b, o + 0))
  {}

  lemma PlaceBit0(r: Lines.Row, o: bv6)
    requires o as int + 0 < 64
    ensures Has6(Place(r, o), o + 0) == Lines.In(r, 0)
  {}

  lemma SegmentBit1(b: Bitboard, o: bv6, mask: Lines.Row)
    requires o as int + 1 < 64
    ensures (o + 1) as int == o as int + 1
    ensures Lines.In(Segment(b, o, mask), 1) == (Lines.In(mask, 1) && Has6(b, o + 1))
  {}

  lemma PlaceBit1(r: Lines.Row, o: bv6)
    requires o as int + 1 < 64
    ensures Has6(Place(r, o), o + 1) == Lines.In(r, 1)
  {}

  lemma SegmentBit2(b: Bitboard, o: bv6, mask: Lines.Row)
    requires o as int + 2 < 64
    ensures (o + 2) as int == o as int + 2
    ensures Lines.In(Segment(b, o, mask), 2) == (Lines.In(mask, 2) && Has6(b, o + 2))
  {}

  lemma PlaceBit2(r: Lines.Row, o: bv6)
    requires o as int + 2 < 64
    ensures Has6(Place(r, o), o + 2) == Lines.In(r, 2)
  {}

  lemma SegmentBit3(b: Bitboard, o: bv6, mask: Lines.Row)
    requires o as int + 3 < 64
    ensures (o + 3) as int == o as int + 3
    ensures Lines.In(Segment(b, o, mask), 3) == (Lines.In(mask, 3) && Has6(b, o + 3))
  {}

  lemma PlaceBit3(r: Lines.Row, o: bv6)
    requires o as int + 3 < 64
    ensures Has6(Place(r, o), o + 3) == Lines.In(r, 3)
  {}

  lemma SegmentBit4(b: Bitboard, o: bv6, mask: Lines.Row)
    requires o as int + 4 < 64
    ensures (o + 4) as int == o as int + 4
    ensures Lines.In(Segment(b, o, mask), 4) == (Lines.In(mask, 4) && Has6(b, o + 4))
  {}

  lemma PlaceBit4(r: Lines.Row, o: bv6)
    requires o as int + 4 < 64
    ensures Has6(Place(r, o), o + 4) == Lines.In(r, 4)
  {}

  lemma SegmentBit5(b: Bitboard, o: bv6, mask: Lines.Row)
    requires o as int + 5 < 64
    ensures (o + 5) as int == o as int + 5
    ensures Lines.In(Segment(b, o, mask), 5) == (Lines.In(mask, 5) && Has6(b, o + 5))
  {}

  lemma PlaceBit5(r: Lines.Row, o: bv6)
    requires o as int + 5 < 64
    ensures Has6(Place(r, o), o + 5) == Lines.In(r, 5)
  {}

  lemma SegmentBit6(b: Bitboard, o: bv6, mask: Lines.Row)
    requires o as int + 6 < 64
    ensures (o + 6) as int == o as int + 6
    ensures Lines.In(Segment(b, o, mask), 6) == (Lines.In(mask, 6) && Has6(b, o + 6))
  {}

  lemma PlaceBit6(r: Lines.Row, o: bv6)
    requires o as int + 6 < 64
    ensures Has6(Place(r, o), o + 6) == Lines.In(r, 6)
  {}

  lemma SegmentBit7(b: Bitboard, o: bv6, mask: Lines.Row)
    requires o as int + 7 < 64
    ensures (o + 7) as int == o as int + 7
    ensures Lines.In(Segment(b, o, mask), 7) == (Lines.In(mask, 7) && Has6(b, o + 7))
  {}

  lemma PlaceBit7(r: Lines.Row, o: bv6)
    requires o as int + 7 < 64
    ensures Has6(Place(r, o), o + 7) == Lines.In(r, 7)
  {}


  lemma SegmentAt0(b: Bitboard, o: bv6, mask: Lines.Row, q: int)
    requires q == 0 && o as int + q < 64
    ensures IsSquare(o as int + q)
    ensures Lines.In(Segment(b, o, mask), q) == (Lines.In(mask, q) && Has(b, o as int + q))
  {
    SegmentBit0(b, o, mask);
    Index6Of(o + 0);
  }

  lemma PlaceAt0(r: Lines.Row, o: bv6, q: int)
    requires q == 0 && o as int + q < 64
    ensures IsSquare(o as int + q)
    ensures Has(Place(r, o), o as int + q) == Lines.In(r, q)
  {
    PlaceBit0(r, o);
    SegmentBit0(0, o, 0);
    Index6Of(o + 0);
  }

  lemma SegmentAt1(b: Bitboard, o: bv6, mask: Lines.Row, q: int)
    requires q == 1 && o as int + q < 64
    ensures IsSquare(o as int + q)
    ensures Lines.In(Segment(b, o, mask), q) == (Lines.In(mask, q) && Has(b, o as int + q))
  {
    SegmentBit1(b, o, mask);
    Index6Of(o + 1);
  }

  lemma PlaceAt1(r: Lines.Row, o: bv6, q: int)
    requires q == 1 && o as int + q < 64
    ensures IsSquare(o as int + q)
    ensures Has(Place(r, o), o as int + q) == Lines.In(r, q)
  {
    PlaceBit1(r, o);
    SegmentBit1(0, o, 0);
    Index6Of(o + 1);
  }

  lemma SegmentAt2(b: Bitboard, o: bv6, mask: Lines.Row, q: int)
    requires q == 2 && o as int + q < 64
    ensures IsSquare(o as int + q)
    ensures Lines.In(Segment(b, o, mask), q) == (Lines.In(mask, q) && Has(b, o as int + q))
  {
    SegmentBit2(b, o, mask);
    Index6Of(o + 2);
  }

  lemma PlaceAt2(r: Lines.Row, o: bv6, q: int)
    requires q == 2 && o as int + q < 64
    ensures IsSquare(o as int + q)
    ensures Has(Place(r, o), o as int + q) == Lines.In(r, q)
  {
    PlaceBit2(r, o);
    SegmentBit2(0, o, 0);
    Index6Of(o + 2);
  }

  lemma SegmentAt3(b: Bitboard, o: bv6, mask: Lines.Row, q: int)
    requires q == 3 && o as int + q < 64
    ensures IsSquare(o as int + q)
    ensures Lines.In(Segment(b, o, mask), q) == (Lines.In(mask, q) && Has(b, o as int + q))
  {
    SegmentBit3(b, o, mask);
    Index6Of(o + 3);
  }

  lemma PlaceAt3(r: Lines.Row, o: bv6, q: int)
    requires q == 3 && o as int + q < 64
    ensures IsSquare(o as int + q)
    ensures Has(Place(r, o), o as int + q) == Lines.In(r, q)
  {
    PlaceBit3(r, o);
    SegmentBit3(0, o, 0);
    Index6Of(o + 3);
  }

  lemma SegmentAt4(b: Bitboard, o: bv6, mask: Lines.Row, q: int)
    requires q == 4 && o as int + q < 64
    ensures IsSquare(o as int + q)
    ensures Lines.In(Segment(b, o, mask), q) == (Lines.In(mask, q) && Has(b, o as int + q))
  {
    SegmentBit4(b, o, mask);
    Index6Of(o + 4);
  }

  lemma PlaceAt4(r: Lines.Row, o: bv6, q: int)
    requires q == 4 && o as int + q < 64
    ensures IsSquare(o as int + q)
    ensures Has(Place(r, o), o as int + q) == Lines.In(r, q)
  {
    PlaceBit4(r, o);
    SegmentBit4(0, o, 0);
    Index6Of(o + 4);
  }

  lemma SegmentAt5(b: Bitboard, o: bv6, mask: Lines.Row, q: int)
    requires q == 5 && o as int + q < 64
    ensures IsSquare(o as int + q)
    ensures Lines.In(Segment(b, o, mask), q) == (Lines.In(mask, q) && Has(b, o as int + q))
  {
    SegmentBit5(b, o, mask);
    Index6Of(o + 5);
  }

  lemma PlaceAt5(r: Lines.Row, o: bv6, q: int)
    requires q == 5 && o as int + q < 64
    ensures IsSquare(o as int + q)
    ensures Has(Place(r, o), o as int + q) == Lines.In(r, q)
  {
    PlaceBit5(r, o);
    SegmentBit5(0, o, 0);
    Index6Of(o + 5);
  }

  lemma SegmentAt6(b: Bitboard, o: bv6, mask: Lines.Row, q: int)
    requires q == 6 && o as int + q < 64
    ensures IsSquare(o as int + q)
    ensures Lines.In(Segment(b, o, mask), q) == (Lines.In(mask, q) && Has(b, o as int + q))
  {
    SegmentBit6(b, o, mask);
    Index6Of(o + 6);
  }

  lemma PlaceAt6(r: Lines.Row, o: bv6, q: int)
    requires q == 6 && o as int + q < 64
    ensures IsSquare(o as int + q)
    ensures Has(Place(r, o), o as int + q) == Lines.In(r, q)
  {
    PlaceBit6(r, o);
    SegmentBit6(0, o, 0);
    Index6Of(o + 6);
  }

  lemma SegmentAt7(b: Bitboard, o: bv6, mask: Lines.Row, q: int)
    requires q == 7 && o as int + q < 64
    ensures IsSquare(o as int + q)
    ensures Lines.In(Segment(b, o, mask), q) == (Lines.In(mask, q) && Has(b, o as int + q))
  {
    SegmentBit7(b, o, mask);
    Index6Of(o + 7);
  }

  lemma PlaceAt7(r: Lines.Row, o: bv6, q: int)
    requires q == 7 && o as int + q < 64
    ensures IsSquare(o as int + q)
    ensures Has(Place(r, o), o as int + q) == Lines.In(r, q)
  {
    PlaceBit7(r, o);
    SegmentBit7(0, o, 0);
    Index6Of(o + 7);
  }

  /** Square q of the cut-out line is square offset + q of the board, when the mask keeps it. */
  lemma SegmentIn(b: Bitboard, o: bv6, mask: Lines.Row, q: int)
    requires 0 <= q < 8 && o as int + q < 64
    ensures IsSquare(o as int + q)
    ensures Lines.In(Segment(b, o, mask), q) == (Lines.In(mask, q) && Has(b, o as int + q))
  {
    if q == 0 { SegmentAt0(b, o, mask, q); }
    else if q == 1 { SegmentAt1(b, o, mask, q); }
    else if q == 2 { SegmentAt2(b, o, mask, q); }
    else if q == 3 { SegmentAt3(b, o, mask, q); }
    else if q == 4 { SegmentAt4(b, o, mask, q); }
    else if q == 5 { SegmentAt5(b, o, mask, q); }
    else if q == 6 { SegmentAt6(b, o, mask, q); }
    else { SegmentAt7(b, o, mask, q); }
  }

  /** The mask bounds the cut-out line. */
  lemma SegmentMasked(b: Bitboard, o: bv6, mask: Lines.Row, q: int)
    ensures Lines.In(Segment(b, o, mask), q) ==> Lines.In(mask, q)
  {
    Lines.AndIn(((b >> o) & 0xff) as Lines.Row, mask, q);
  }

  lemma PlaceOutside(r: Lines.Row, o: bv6, x: bv6)
    requires x < o || (x as int) - (o as int) >= 8
    ensures !Has6(Place(r, o), x)
  {}

  lemma PlaceOff(r: Lines.Row, o: bv6, k: int)
    requires IsSquare(k) && (k < o as int || k - o as int >= 8)
    ensures !Has(Place(r, o), k)
  {
    Index6Value(k);
    PlaceOutside(r, o, Index6(k));
  }

  /** Square k of the placed line is square k - offset of the line. */
  lemma PlaceHas(r: Lines.Row, o: bv6, k: int)
    requires IsSquare(k)
    ensures Has(Place(r, o), k) == (o as int <= k < o as int + 8 && Lines.In(r, k - o as int))
  {
    if k < o as int || k - o as int >= 8 {
      PlaceOff(r, o, k);
    } else {
      var q := k - o as int;
      if q == 0 { PlaceAt0(r, o, q); }
      else if q == 1 { PlaceAt1(r, o, q); }
      else if q == 2 { PlaceAt2(r, o, q); }
      else if q == 3 { PlaceAt3(r, o, q); }
      else if q == 4 { PlaceAt4(r, o, q); }
      else if q == 5 { PlaceAt5(r, o, q); }
      else if q == 6 { PlaceAt6(r, o, q); }
      else { PlaceAt7(r, o, q); }
    }
  }
}
