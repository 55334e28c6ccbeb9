/**
 * The reader of WTHOR game databases (.wtb files): a 16-byte file header,
 * then one 68-byte record per game, 8 bytes of game information followed by
 * the 60 moves. A move byte is 0 for "no move" or 10 * rank + file, with ranks
 * counted from the top of the board and both in 1..8.
 */
module Wthor {
  import opened Bytes

  /** A game: the squares played, -1 where the record holds no move. */
  type Game = seq<int>

  /** The value of a byte read into a (signed) char. */
  function SignedChar(b: Byte): (v: int)
    ensures -128 <= v < 128
    ensures v % 256 == b
  {
    if b < 128 then b else b - 256
  }

  /** Integer division rounding toward zero, as C++ divides. */
  function Quot(a: int, n: int): int
    requires n > 0
  {
    if a >= 0 then a / n else -((-a) / n)
  }

  /** The remainder of Quot, with the sign of a, as C++'s %. */
  function Rem(a: int, n: int): (r: int)
    requires n > 0
    ensures a == Quot(a, n) * n + r
  {
    if a >= 0 then a % n else -((-a) % n)
  }

  /** The square a move byte stands for: -1 for 0, otherwise row 8 - c / 10 and column c % 10 - 1. */
  function MoveSquare(b: Byte): int
  {
    if b == 0 then -1
    else
      var c := SignedChar(b);
      var col := Rem(c, 10) - 1;
      var row := 8 - Quot(c, 10);
      row * 8 + col
  }

  /** The move byte 10a + b, rank a and file b in 1..8, names square (8 - a) * 8 + (b - 1). */
  lemma MoveSquareCoded(a: int, b: int)
    requires 1 <= a <= 8 && 1 <= b <= 8
    ensures MoveSquare(10 * a + b) == (8 - a) * 8 + (b - 1)
    ensures 0 <= MoveSquare(10 * a + b) < 64
  {
    var c := 10 * a + b;
    assert SignedChar(c) == c;
    assert c / 10 == a && c % 10 == b;
  }

  /** The move byte naming square s. */
  function MoveCode(s: int): (b: Byte)
    requires 0 <= s < 64
    ensures b != 0
  {
    10 * (8 - s / 8) + s % 8 + 1
  }

  /** Every square has a move byte, and it decodes back to the square. */
  lemma MoveCodeRoundTrip(s: int)
    requires 0 <= s < 64
    ensures MoveSquare(MoveCode(s)) == s
  {
    MoveSquareCoded(8 - s / 8, s % 8 + 1);
  }

  /** The byte a read at position i leaves in the character: the byte there, or the last byte once the file has ended. */
  function ByteAt(data: seq<Byte>, i: nat): Byte
    requires 0 < |data|
  {
    if i < |data| then data[i] else data[|data| - 1]
  }

  /** The game of the record at position pos, whose 8 information bytes are all present. */
  function GameAt(data: seq<Byte>, pos: nat): (g: Game)
    requires pos + 8 <= |data|
    ensures |g| == 60
  {
    seq(60, i requires 0 <= i < 60 => MoveSquare(ByteAt(data, pos + 8 + i)))
  }

  /** The games of the records from position pos on; reading stops when the file ends inside a record's first 8 bytes. */
  function GamesFrom(data: seq<Byte>, pos: nat): (gs: seq<Game>)
    ensures forall g | g in gs :: |g| == 60
    decreases |data| - pos
  {
    if pos + 8 > |data| then [] else [GameAt(data, pos)] + GamesFrom(data, pos + 68)
  }

  /** The games of a .wtb file: the records after the 16-byte header. */
  function WtbGames(data: seq<Byte>): seq<Game>
  {
    GamesFrom(data, 16)
  }

  /** One game per record whose 8 information bytes are present. */
  lemma {:induction false} GamesCount(data: seq<Byte>, pos: nat)
    ensures |GamesFrom(data, pos)| == if pos + 8 > |data| then 0 else (|data| - pos - 8) / 68 + 1
    decreases |data| - pos
  {
    if pos + 8 <= |data| {
      GamesCount(data, pos + 68);
    }
  }

  /** Game k is read from the record at byte 16 + 68k; a complete record gives its 60 move bytes. */
  lemma {:induction false} GameOffset(data: seq<Byte>, pos: nat, k: nat)
    requires pos + 68 * k + 8 <= |data|
    ensures k < |GamesFrom(data, pos)|
    ensures GamesFrom(data, pos)[k] == GameAt(data, pos + 68 * k)
    decreases k
  {
    if k > 0 {
      GameOffset(data, pos + 68, k - 1);
    }
  }

  /** A record lying wholly inside the file decodes its own 60 move bytes. */
  lemma CompleteRecord(data: seq<Byte>, k: nat, i: nat)
    requires 16 + 68 * (k + 1) <= |data| && i < 60
    ensures k < |WtbGames(data)|
    ensures WtbGames(data)[k][i] == MoveSquare(data[16 + 68 * k + 8 + i])
  {
    GameOffset(data, 16, k);
    assert GameAt(data, 16 + 68 * k)[i] == MoveSquare(ByteAt(data, 16 + 68 * k + 8 + i));
  }

  /**
   * Reads a .wtb file byte by byte, appending its games to games: skip the
   * header, then per record skip 8 bytes (stopping if the file ends there)
   * and decode 60 move bytes.
   */
  method ParseWtb(games: seq<Game>, data: seq<Byte>) returns (result: seq<Game>)
    ensures result == games + WtbGames(data)
  {
    result := games;
    var pos := 0;
    var c: Byte := 0;
    for i := 0 to 16
      invariant pos == if i <= |data| then i else |data|
    {
      if pos < |data| {
        c := data[pos];
        pos := pos + 1;
      }
    }
    while true
      invariant pos <= |data|
      invariant pos == |data| || pos >= 16
      invariant result + GamesFrom(data, pos) == games + WtbGames(data)
      decreases |data| - pos
    {
      var start := pos;
      for i := 0 to 8
        invariant pos == start + i && pos <= |data|
        invariant i > 0 ==> c == data[pos - 1]
      {
        if pos >= |data| {
          return;
        }
        c := data[pos];
        pos := pos + 1;
      }
      var game: Game := [];
      for i := 0 to 60
        invariant start + 8 <= |data|
        invariant pos == if start + 8 + i <= |data| then start + 8 + i else |data|
        invariant c == data[pos - 1]
        invariant game == GameAt(data, start)[..i]
      {
        if pos < |data| {
          c := data[pos];
          pos := pos + 1;
        }
        assert c == ByteAt(data, start + 8 + i);
        assert GameAt(data, start)[..i + 1] == GameAt(data, start)[..i] + [MoveSquare(c)];
        game := game + [MoveSquare(c)];
      }
      assert game == GameAt(data, start);
      result := result + [game];
    }
  }
}
