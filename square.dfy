/** Squares: a file `x` and a rank `y`, each a byte, with the index, text and constructor forms. */
module Squares {
  import opened Wrappers

  /** An unsigned byte. */
  type u8 = n: int | 0 <= n < 256

  /**
   * A square: file `x` (0 is file a) and rank `y` (0 is rank 1). The constructor is
   * `Square::from_file_rank`, which stores its two bytes unchanged.
   */
  datatype Square = Square(x: u8, y: u8)

  /** Both coordinates lie on the 8x8 board. */
  predicate OnBoard(sq: Square)
  {
    sq.x < 8 && sq.y < 8
  }

  /**
   * `get_index`: eight squares per rank, so the index is 8 * rank + file. On the board it
   * is the bit position of the square in a bitboard, and the file and rank are read back
   * from it by `% 8` and `/ 8`.
   */
  function GetIndex(sq: Square): (i: nat)
    ensures OnBoard(sq) ==> i < 64 && i % 8 == sq.x && i / 8 == sq.y
  {
    8 * sq.y + sq.x
  }

  /** The square has a bit in a 64-bit board: shifting `1u64` by its index does not overflow. */
  predicate Indexable(sq: Square)
  {
    GetIndex(sq) < 64
  }

  /** `from_index`: file `idx % 8`, rank `idx / 8`; an index below 64 gives an on-board square. */
  function FromIndex(idx: u8): (sq: Square)
    ensures sq.x < 8
    ensures idx < 64 ==> OnBoard(sq) && GetIndex(sq) == idx
  {
    Square(idx % 8, idx / 8)
  }

  /** Indices and on-board squares are in one-to-one correspondence. */
  lemma IndexRoundTrip(sq: Square, idx: u8)
    ensures OnBoard(sq) ==> FromIndex(GetIndex(sq)) == sq
    ensures idx < 64 ==> GetIndex(FromIndex(idx)) == idx
  {
  }

  /** Two on-board squares with the same index are the same square. */
  lemma GetIndexInjective(a: Square, b: Square)
    requires OnBoard(a) && OnBoard(b)
    ensures GetIndex(a) == GetIndex(b) <==> a == b
  {
  }

  /**
   * `Square::from_string`: the first character is the file, 'a' to 'j', and the second the
   * rank, '1' to '8'. Further characters are ignored. A missing character or one out of
   * range fails.
   */
  function FromString(word: string): (r: Result<Square>)
    ensures r.Ok? ==> r.value.x < 10 && r.value.y < 8
  {
    if |word| < 1 then Err("Failed to parse square file")
    else if |word| < 2 then Err("Failed to parse square rank")
    else if !('a' <= word[0] <= 'j') || !('1' <= word[1] <= '8') then Err("Out of range")
    else Ok(Square(word[0] as int - 'a' as int, word[1] as int - '1' as int))
  }

  /**
   * `Display for Square`: the file letter then the rank digit. The source adds the
   * coordinates to `b'a'` and `b'1'` as bytes, which must not overflow.
   */
  function ToString(sq: Square): (s: string)
    requires sq.x < 256 - 'a' as int && sq.y < 256 - '1' as int
    ensures |s| == 2
  {
    [(sq.x + 'a' as int) as char, (sq.y + '1' as int) as char]
  }

  /** Writing a square that `from_string` can produce and reading it back gives the square. */
  lemma FromStringOfToString(sq: Square)
    requires sq.x < 10 && sq.y < 8
    ensures FromString(ToString(sq)) == Ok(sq)
  {
  }

  /** Reading a square and writing it back gives the first two characters that were read. */
  lemma ToStringOfFromString(word: string)
    requires FromString(word).Ok?
    ensures ToString(FromString(word).value) == word[..2]
  {
  }

  /** Parsing fails exactly when a character is missing or out of range. */
  lemma FromStringFails(word: string)
    ensures FromString(word).Err? <==>
      |word| < 2 || !('a' <= word[0] <= 'j') || !('1' <= word[1] <= '8')
  {
  }

  /** The four corners read and write as a1, a8, h1 and h8. */
  lemma Corners()
    ensures FromString("a1") == Ok(Square(0, 0)) && ToString(Square(0, 0)) == "a1"
    ensures FromString("a8") == Ok(Square(0, 7)) && ToString(Square(0, 7)) == "a8"
    ensures FromString("h1") == Ok(Square(7, 0)) && ToString(Square(7, 0)) == "h1"
    ensures FromString("h8") == Ok(Square(7, 7)) && ToString(Square(7, 7)) == "h8"
  {
  }

  /**
   * The file check admits 'i' and 'j', which give files 8 and 9: squares off the board.
   * The index of "i1" is 8, the index of a2.
   */
  lemma OffBoardFiles()
    ensures FromString("i1") == Ok(Square(8, 0)) && !OnBoard(Square(8, 0))
    ensures FromString("j1") == Ok(Square(9, 0)) && !OnBoard(Square(9, 0))
    ensures GetIndex(Square(8, 0)) == GetIndex(Square(0, 1))
  {
  }

  // The back-rank squares castling involves (`Square::from_index` of 0..7 and 56..63).
  const A1 := Square(0, 0)
  const B1 := Square(1, 0)
  const C1 := Square(2, 0)
  const D1 := Square(3, 0)
  const E1 := Square(4, 0)
  const F1 := Square(5, 0)
  const G1 := Square(6, 0)
  const H1 := Square(7, 0)
  const A8 := Square(0, 7)
  const B8 := Square(1, 7)
  const C8 := Square(2, 7)
  const D8 := Square(3, 7)
  const E8 := Square(4, 7)
  const F8 := Square(5, 7)
  const G8 := Square(6, 7)
  const H8 := Square(7, 7)
}
