/**
 * The move predictor's training data: (state, action) samples stored as
 * 17-byte records, 8 bytes of the black board, 8 bytes of the white board
 * (both lowest byte first) and 1 byte for the move; the rewriting of a data
 * file with its duplicate samples removed; and the 8x8 grids a stored board
 * is turned into.
 */
module Records {
  import opened Bytes

  /** A (state, action) sample: two boards and the square played. */
  datatype Sample = Sample(black: nat, white: nat, move: nat)

  /** 256 to the n. */
  function Pow256(n: nat): (p: nat)
    ensures p > 0
  {
    if n == 0 then 1 else 256 * Pow256(n - 1)
  }

  /** A sample that fits the record layout: two 64-bit boards and a one-byte move. */
  predicate Storable(p: Sample)
  {
    p.black < Pow256(8) && p.white < Pow256(8) && p.move < 256
  }

  /** The value of bytes read lowest byte first. */
  function FromLittleEndian(bs: seq<Byte>): (n: nat)
    ensures n < Pow256(|bs|)
  {
    if bs == [] then 0 else bs[0] + 256 * FromLittleEndian(bs[1..])
  }

  /** The n lowest bytes of w, lowest first: what n rounds of "write w & 0xff, then w >>= 8" produce. */
  function LittleEndian(w: nat, n: nat): (bs: seq<Byte>)
    ensures |bs| == n
  {
    if n == 0 then [] else [w % 256] + LittleEndian(w / 256, n - 1)
  }

  /** Reading back the bytes written for a value that fits in them returns the value. */
  lemma {:induction false} WordRoundTrip(w: nat, n: nat)
    requires w < Pow256(n)
    ensures FromLittleEndian(LittleEndian(w, n)) == w
  {
    if n > 0 {
      WordRoundTrip(w / 256, n - 1);
      assert LittleEndian(w, n)[1..] == LittleEndian(w / 256, n - 1);
    }
  }

  /** Writing back the value of some bytes gives the same bytes. */
  lemma {:induction false} BytesRoundTrip(bs: seq<Byte>)
    ensures LittleEndian(FromLittleEndian(bs), |bs|) == bs
  {
    if bs != [] {
      BytesRoundTrip(bs[1..]);
      var n := FromLittleEndian(bs);
      assert n % 256 == bs[0] && n / 256 == FromLittleEndian(bs[1..]);
    }
  }

  /** The bytes written for one board: eight rounds of taking the low byte and shifting right by 8. */
  method WriteBoard(board: nat) returns (bs: seq<Byte>)
    ensures bs == LittleEndian(board, 8)
  {
    bs := [];
    var rest := board;
    for i := 0 to 8
      invariant bs + LittleEndian(rest, 8 - i) == LittleEndian(board, 8)
    {
      assert LittleEndian(rest, 8 - i) == [rest % 256] + LittleEndian(rest / 256, 8 - i - 1);
      bs := bs + [rest % 256];
      rest := rest / 256;
    }
  }

  /** The 17 bytes of one record. */
  function Encode(p: Sample): (bs: seq<Byte>)
    requires p.move < 256
    ensures |bs| == 17
  {
    LittleEndian(p.black, 8) + LittleEndian(p.white, 8) + [p.move]
  }

  /** The bytes of a stream from position pos on, at most n of them: what a read of n bytes returns. */
  function Read(data: seq<Byte>, pos: nat, n: nat): (bs: seq<Byte>)
    ensures |bs| <= n
    ensures pos + n <= |data| ==> bs == data[pos..pos + n]
  {
    if pos >= |data| then [] else if pos + n >= |data| then data[pos..] else data[pos..pos + n]
  }

  /** The sample read from the start of a stream: 8, then 8, then 1 byte, each short when the stream ends. */
  function Decode(data: seq<Byte>): (p: Sample)
    ensures Storable(p)
  {
    Sample(FromLittleEndian(Read(data, 0, 8)), FromLittleEndian(Read(data, 8, 8)),
           FromLittleEndian(Read(data, 16, 1)))
  }

  /** Decoding the record of a storable sample gives the sample back. */
  lemma SampleRoundTrip(p: Sample)
    requires Storable(p)
    ensures Decode(Encode(p)) == p
  {
    var bs := Encode(p);
    assert Read(bs, 0, 8) == LittleEndian(p.black, 8);
    assert Read(bs, 8, 8) == LittleEndian(p.white, 8);
    assert Read(bs, 16, 1) == [p.move];
    WordRoundTrip(p.black, 8);
    WordRoundTrip(p.white, 8);
    assert FromLittleEndian([p.move]) == p.move;
  }

  /** The samples a stream holds, in order: one per 17 bytes, the last one possibly short. */
  function Samples(data: seq<Byte>): (ps: seq<Sample>)
    ensures forall p | p in ps :: Storable(p)
    decreases |data|
  {
    if data == [] then []
    else if |data| <= 17 then [Decode(data)]
    else [Decode(data)] + Samples(data[17..])
  }

  /** The elements of a sequence. */
  function Elements(ps: seq<Sample>): set<Sample>
  {
    set p | p in ps
  }

  /** No sample occurs twice. */
  predicate Distinct(ps: seq<Sample>)
  {
    forall i, j | 0 <= i < j < |ps| :: ps[i] != ps[j]
  }

  /** The records of a sequence of samples, one after another. */
  function EncodeAll(ps: seq<Sample>): (bs: seq<Byte>)
    requires forall p | p in ps :: Storable(p)
    ensures |bs| == 17 * |ps|
  {
    if ps == [] then []
    else
      assert ps[0] in ps && forall p | p in ps[1..] :: p in ps;
      assert Storable(ps[0]);
      Encode(ps[0]) + EncodeAll(ps[1..])
  }

  /** Reading back the records of storable samples gives the samples back, in order. */
  lemma {:induction false} SamplesRoundTrip(ps: seq<Sample>)
    requires forall p | p in ps :: Storable(p)
    ensures Samples(EncodeAll(ps)) == ps
  {
    if ps != [] {
      assert ps[0] in ps && forall p | p in ps[1..] :: p in ps;
      var data := EncodeAll(ps);
      var head := Encode(ps[0]);
      assert data[..17] == head && data[17..] == EncodeAll(ps[1..]);
      SampleRoundTrip(ps[0]);
      assert Read(data, 0, 8) == Read(head, 0, 8);
      assert Read(data, 8, 8) == Read(head, 8, 8);
      assert Read(data, 16, 1) == Read(head, 16, 1);
      assert Decode(data) == ps[0];
      SamplesRoundTrip(ps[1..]);
    }
  }

  /** Record k starts at byte 17 * k: the sample there is the k-th one read. */
  lemma {:induction false} RecordOffset(data: seq<Byte>, k: nat)
    requires 17 * (k + 1) <= |data|
    ensures k < |Samples(data)|
    ensures Samples(data)[k] == Decode(data[17 * k..])
  {
    if k == 0 {
      assert data[0..] == data;
    } else {
      assert Samples(data) == [Decode(data)] + Samples(data[17..]);
      RecordOffset(data[17..], k - 1);
      assert data[17..][17 * (k - 1)..] == data[17 * k..];
    }
  }

  /** Reading at position pos is reading the stream that starts there. */
  lemma DecodeAt(data: seq<Byte>, pos: nat)
    requires pos < |data|
    ensures Decode(data[pos..]) == Sample(FromLittleEndian(Read(data, pos, 8)),
      FromLittleEndian(Read(data, pos + 8, 8)), FromLittleEndian(Read(data, pos + 16, 1)))
  {
    var rest := data[pos..];
    assert Read(data, pos, 8) == Read(rest, 0, 8);
    assert Read(data, pos + 8, 8) == Read(rest, 8, 8);
    assert Read(data, pos + 16, 1) == Read(rest, 16, 1);
  }

  /** The samples of a stream, gathered into a set by reading records until the stream ends. */
  method ReadSamples(data: seq<Byte>) returns (samples: set<Sample>)
    ensures samples == Elements(Samples(data))
  {
    samples := {};
    var pos := 0;
    while pos < |data|
      invariant pos <= |data|
      invariant Elements(Samples(data)) == samples + Elements(Samples(data[pos..]))
      decreases |data| - pos
    {
      var p := Sample(FromLittleEndian(Read(data, pos, 8)), FromLittleEndian(Read(data, pos + 8, 8)),
                      FromLittleEndian(Read(data, pos + 16, 1)));
      var rest := data[pos..];
      DecodeAt(data, pos);
      samples := samples + {p};
      if |rest| <= 17 {
        assert Samples(rest) == [p];
        pos := |data|;
      } else {
        assert Samples(rest) == [p] + Samples(rest[17..]);
        assert rest[17..] == data[pos + 17..];
        pos := pos + 17;
      }
    }
  }

  /** The records of a set of samples, written in some order, each sample once. */
  method WriteSamples(samples: set<Sample>) returns (out: seq<Byte>, order: seq<Sample>)
    requires forall p | p in samples :: Storable(p)
    ensures Elements(order) == samples && Distinct(order)
    ensures out == EncodeAll(order)
  {
    out, order := [], [];
    var rest := samples;
    while rest != {}
      invariant rest <= samples
      invariant forall q | q in order :: q in samples
      invariant Elements(order) == samples - rest && Distinct(order)
      invariant out == EncodeAll(order)
      decreases rest
    {
      var p :| p in rest;
      assert p !in Elements(order);
      AppendNew(order, p);
      var black := WriteBoard(p.black);
      var white := WriteBoard(p.white);
      EncodeAppend(order, p);
      out := out + (black + white + [p.move]);
      order := order + [p];
      rest := rest - {p};
    }
  }

  /** Appending a sample not yet listed keeps the listing free of repeats. */
  lemma AppendNew(ps: seq<Sample>, p: Sample)
    requires Distinct(ps) && p !in Elements(ps)
    ensures Distinct(ps + [p]) && Elements(ps + [p]) == Elements(ps) + {p}
  {
    forall i | 0 <= i < |ps|
      ensures (ps + [p])[i] != p
    {
      assert ps[i] in Elements(ps);
    }
  }

  /** Appending a sample appends its record. */
  lemma {:induction false} EncodeAppend(ps: seq<Sample>, p: Sample)
    requires forall p | p in ps :: Storable(p)
    requires Storable(p)
    ensures EncodeAll(ps + [p]) == EncodeAll(ps) + Encode(p)
  {
    if ps != [] {
      assert (ps + [p])[1..] == ps[1..] + [p];
      EncodeAppend(ps[1..], p);
    } else {
      assert ([] + [p])[1..] == [];
    }
  }

  /**
   * The file written by removing duplicates from data: its samples, read back,
   * are the distinct samples of data, each exactly once.
   */
  method Unduplicate(data: seq<Byte>) returns (out: seq<Byte>)
    ensures Elements(Samples(out)) == Elements(Samples(data))
    ensures Distinct(Samples(out))
  {
    var samples := ReadSamples(data);
    var order;
    out, order := WriteSamples(samples);
    SamplesRoundTrip(order);
  }

  /** Bit k of n. */
  function Bit(n: nat, k: nat): (b: int)
    ensures b == 0 || b == 1
  {
    if k == 0 then n % 2 else Bit(n / 2, k - 1)
  }

  /** The binary string of n, zero-filled to width digits, most significant digit first. */
  function Binary(n: nat, width: nat): (ds: seq<int>)
    ensures |ds| == width
  {
    if width == 0 then [] else Binary(n / 2, width - 1) + [n % 2]
  }

  /** The value of binary digits, most significant first. */
  function FromBinary(ds: seq<int>): int
  {
    if ds == [] then 0 else 2 * FromBinary(ds[..|ds| - 1]) + ds[|ds| - 1]
  }

  /** 2 to the n. */
  function Pow2(n: nat): (p: nat)
    ensures p > 0
  {
    if n == 0 then 1 else 2 * Pow2(n - 1)
  }

  /** The zero-filled binary string of n spells n, once n has no more digits than the width. */
  lemma {:induction false} BinaryValue(n: nat, width: nat)
    requires n < Pow2(width)
    ensures FromBinary(Binary(n, width)) == n
  {
    if width > 0 {
      BinaryValue(n / 2, width - 1);
      assert Binary(n, width)[..width - 1] == Binary(n / 2, width - 1);
    }
  }

  /** Digit i of the zero-filled binary string is bit width - 1 - i. */
  lemma {:induction false} BinaryDigit(n: nat, width: nat, i: nat)
    requires i < width
    ensures Binary(n, width)[i] == Bit(n, width - 1 - i)
  {
    if i < width - 1 {
      BinaryDigit(n / 2, width - 1, i);
    }
  }

  /** A board as an 8x8 grid: its 64-digit binary string cut into rows of 8, each row reversed. */
  function Grid(board: nat): (g: seq<seq<int>>)
    ensures |g| == 8 && forall r | 0 <= r < 8 :: |g[r]| == 8
  {
    var ds := Binary(board, 64);
    var rows := seq(8, r requires 0 <= r < 8 => ds[8 * r..8 * r + 8]);
    seq(8, r requires 0 <= r < 8 => seq(8, c requires 0 <= c < 8 => rows[r][7 - c]))
  }

  /** Cell [r][c] of the grid of a board is bit 8(7 - r) + c: row 0 is the top rank. */
  lemma GridCell(board: nat, r: nat, c: nat)
    requires r < 8 && c < 8
    ensures Grid(board)[r][c] == Bit(board, 8 * (7 - r) + c)
  {
    BinaryDigit(board, 64, 8 * r + 7 - c);
  }

  /**
   * The network input for record index: seek to byte 17 * index, read the two
   * boards and stack their grids, black in channel 0 and white in channel 1.
   */
  function SeekDatum(data: seq<Byte>, index: nat): (state: seq<seq<seq<int>>>)
    ensures |state| == 8 && forall r | 0 <= r < 8 :: |state[r]| == 8
    ensures forall r, c | 0 <= r < 8 && 0 <= c < 8 :: |state[r][c]| == 2
  {
    var black := Grid(FromLittleEndian(Read(data, 17 * index, 8)));
    var white := Grid(FromLittleEndian(Read(data, 17 * index + 8, 8)));
    seq(8, r requires 0 <= r < 8 => seq(8, c requires 0 <= c < 8 => [black[r][c], white[r][c]]))
  }

  /** The input for record index holds the boards of the index-th sample, bit 8(7 - r) + c at cell [r][c]. */
  lemma SeekDatumCells(data: seq<Byte>, index: nat, r: nat, c: nat)
    requires 17 * (index + 1) <= |data|
    requires r < 8 && c < 8
    ensures index < |Samples(data)|
    ensures SeekDatum(data, index)[r][c][0] == Bit(Samples(data)[index].black, 8 * (7 - r) + c)
    ensures SeekDatum(data, index)[r][c][1] == Bit(Samples(data)[index].white, 8 * (7 - r) + c)
  {
    RecordOffset(data, index);
    DecodeAt(data, 17 * index);
    GridCell(Samples(data)[index].black, r, c);
    GridCell(Samples(data)[index].white, r, c);
  }
}
