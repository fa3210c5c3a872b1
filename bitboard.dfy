/**
 * Bitboards: a `u64` read as a set of squares, bit i standing for the square with index i.
 * The model keeps the 64 bits as a sequence, least significant bit first, and writes each
 * operation of the source with the bitwise and shift operators it uses.
 */
module Bitboards {
  import opened Squares

  /** The bits of a `u64`, least significant first. */
  type Bitboard = b: seq<bool> | |b| == 64 witness Zeros(64)

  /** `n` clear bits. */
  function Zeros(n: nat): (r: seq<bool>)
    ensures |r| == n
  {
    if n == 0 then [] else [false] + Zeros(n - 1)
  }

  /** `from_empty`: the word 0x0. */
  function FromEmpty(): (r: Bitboard)
    ensures forall i | 0 <= i < 64 :: !r[i]
  {
    seq(64, i => false)
  }

  /** `from_full`: the word 0xFFFFFFFFFFFFFFFF. */
  function FromFull(): (r: Bitboard)
    ensures forall i | 0 <= i < 64 :: r[i]
  {
    seq(64, i => true)
  }

  /** The word 0x1. */
  function One(): (r: Bitboard)
  {
    seq(64, i => i == 0)
  }

  /** The word 0xfefefefefefefefe: every square except those on file a. */
  function NotFileA(): (r: Bitboard)
  {
    seq(64, i => i % 8 != 0)
  }

  /** The word 0x7f7f7f7f7f7f7f7f: every square except those on file h. */
  function NotFileH(): (r: Bitboard)
  {
    seq(64, i => i % 8 != 7)
  }

  /** The word 0xff << (8 * r): the squares of rank `r`. */
  function Rank(r: nat): (b: Bitboard)
  {
    seq(64, i => i / 8 == r)
  }

  /** The bitboard whose bits are the given indices. */
  function Of(s: set<int>): (b: Bitboard)
  {
    seq(64, i => i in s)
  }

  // ---------------------------------------------------------------- bitwise operators

  /** `&` */
  function BitAnd(a: Bitboard, b: Bitboard): (r: Bitboard)
    ensures forall i | 0 <= i < 64 :: r[i] == (a[i] && b[i])
  {
    seq(64, i requires 0 <= i < 64 => a[i] && b[i])
  }

  /** `|` */
  function BitOr(a: Bitboard, b: Bitboard): (r: Bitboard)
    ensures forall i | 0 <= i < 64 :: r[i] == (a[i] || b[i])
  {
    seq(64, i requires 0 <= i < 64 => a[i] || b[i])
  }

  /** `^` */
  function BitXor(a: Bitboard, b: Bitboard): (r: Bitboard)
    ensures forall i | 0 <= i < 64 :: r[i] == (a[i] != b[i])
  {
    seq(64, i requires 0 <= i < 64 => a[i] != b[i])
  }

  /** `!` */
  function BitNot(a: Bitboard): (r: Bitboard)
    ensures forall i | 0 <= i < 64 :: r[i] == !a[i]
  {
    seq(64, i requires 0 <= i < 64 => !a[i])
  }

  /** `<< k`: bit i of the result is bit i - k; the low k bits are zero and the top k bits are lost. */
  function Shl(b: Bitboard, k: nat): (r: Bitboard)
    ensures forall i | 0 <= i < 64 :: r[i] == (k <= i && b[i - k])
  {
    seq(64, i requires 0 <= i < 64 => k <= i && b[i - k])
  }

  /** `>> k` (logical): bit i of the result is bit i + k; the top k bits are zero. */
  function Shr(b: Bitboard, k: nat): (r: Bitboard)
    ensures forall i | 0 <= i < 64 :: r[i] == (i + k < 64 && b[i + k])
  {
    seq(64, i requires 0 <= i < 64 => i + k < 64 && b[i + k])
  }

  // ---------------------------------------------------------------- predicates and squares

  /** `is_empty`: the word is zero, that is, no square is in the set. */
  function IsEmpty(b: Bitboard): (r: bool)
    ensures r <==> forall i | 0 <= i < 64 :: !b[i]
  {
    b == FromEmpty()
  }

  /** `is_full`: every square is in the set. */
  function IsFull(b: Bitboard): (r: bool)
    ensures r <==> forall i | 0 <= i < 64 :: b[i]
  {
    b == FromFull()
  }

  /** `is_occupied`: the word is not zero, that is, some square is in the set. */
  function IsOccupied(b: Bitboard): (r: bool)
    ensures r <==> exists i | 0 <= i < 64 :: b[i]
    ensures r <==> !IsEmpty(b)
  {
    b != FromEmpty()
  }

  /** `from_square`: `1 << get_index(sq)`, the set holding just `sq`. */
  function FromSquare(sq: Square): (r: Bitboard)
    requires Indexable(sq)
    ensures forall i | 0 <= i < 64 :: r[i] <==> i == GetIndex(sq)
  {
    Shl(One(), GetIndex(sq))
  }

  /** `is_set`: bit 0 of the word shifted right by the square's index. */
  function IsSet(b: Bitboard, sq: Square): (r: bool)
    requires Indexable(sq)
    ensures r == b[GetIndex(sq)]
  {
    Shr(b, GetIndex(sq))[0]
  }

  /** `set`: or-ing in `1 << index` adds `sq` and leaves every other bit as it was. */
  function Set(b: Bitboard, sq: Square): (r: Bitboard)
    requires Indexable(sq)
    ensures forall i | 0 <= i < 64 :: r[i] == (i == GetIndex(sq) || b[i])
  {
    BitOr(b, FromSquare(sq))
  }

  /** `unset`: and-ing with `!(1 << index)` removes `sq` and leaves every other bit as it was. */
  function Unset(b: Bitboard, sq: Square): (r: Bitboard)
    requires Indexable(sq)
    ensures forall i | 0 <= i < 64 :: r[i] == (i != GetIndex(sq) && b[i])
  {
    BitAnd(b, BitNot(FromSquare(sq)))
  }

  /** After `set(sq)` the square is set; after `unset(sq)` it is not; no other square changes. */
  lemma SetUnset(b: Bitboard, sq: Square, other: Square)
    requires Indexable(sq) && Indexable(other)
    ensures IsSet(Set(b, sq), sq) && !IsSet(Unset(b, sq), sq)
    ensures GetIndex(other) != GetIndex(sq) ==>
      IsSet(Set(b, sq), other) == IsSet(b, other) && IsSet(Unset(b, sq), other) == IsSet(b, other)
  {
  }

  // ---------------------------------------------------------------- one-square shifts

  /** `north`: `<< 8`, every square moves up one rank and rank 8 falls off. */
  function North(b: Bitboard): (r: Bitboard)
    ensures forall i | 0 <= i < 64 :: r[i] == (8 <= i && b[i - 8])
  {
    Shl(b, 8)
  }

  /** `south`: `>> 8`, every square moves down one rank and rank 1 falls off. */
  function South(b: Bitboard): (r: Bitboard)
    ensures forall i | 0 <= i < 64 :: r[i] == (i < 56 && b[i + 8])
  {
    Shr(b, 8)
  }

  /** `east`: `(b << 1) & 0xfefefefefefefefe`; a square on file h does not wrap to file a. */
  function East(b: Bitboard): (r: Bitboard)
    ensures forall i | 0 <= i < 64 :: r[i] == (i % 8 != 0 && b[i - 1])
  {
    BitAnd(Shl(b, 1), NotFileA())
  }

  /** `west`: `(b >> 1) & 0x7f7f7f7f7f7f7f7f`; a square on file a does not wrap to file h. */
  function West(b: Bitboard): (r: Bitboard)
    ensures forall i | 0 <= i < 64 :: r[i] == (i % 8 != 7 && b[i + 1])
  {
    BitAnd(Shr(b, 1), NotFileH())
  }

  /**
   * In file-and-rank terms each shift moves every square one step and drops the squares
   * that would leave the board: `east` never sets file a and `west` never sets file h.
   */
  lemma ShiftSquares(b: Bitboard, x: int, y: int)
    requires 0 <= x < 8 && 0 <= y < 8
    ensures North(b)[8 * y + x] == (y >= 1 && b[8 * (y - 1) + x])
    ensures South(b)[8 * y + x] == (y <= 6 && b[8 * (y + 1) + x])
    ensures East(b)[8 * y + x] == (x >= 1 && b[8 * y + x - 1])
    ensures West(b)[8 * y + x] == (x <= 6 && b[8 * y + x + 1])
  {
    assert (8 * y + x) % 8 == x;
  }

  /** The unit tests of `north`, `south`, `east` and `west`, with words written as sets of squares. */
  lemma ShiftExamples()
    ensures North(FromEmpty()) == FromEmpty() && South(FromEmpty()) == FromEmpty()
    ensures North(Of({0})) == Of({8}) && South(Of({8})) == Of({0})
    ensures North(Rank(0)) == Rank(1) && South(Rank(1)) == Rank(0)
    ensures North(Rank(5)) == Rank(6) && South(Rank(6)) == Rank(5)
    ensures North(Rank(7)) == FromEmpty()
    ensures East(FromEmpty()) == FromEmpty() && East(Of({0})) == Of({1})
    ensures West(FromEmpty()) == FromEmpty() && West(Of({0})) == FromEmpty()
  {
    assert North(Rank(0)) == Rank(1);
    assert South(Rank(1)) == Rank(0);
    assert North(Rank(5)) == Rank(6);
    assert South(Rank(6)) == Rank(5);
    assert North(Rank(7)) == FromEmpty();
    assert North(Of({0})) == Of({8});
    assert South(Of({8})) == Of({0});
    assert East(Of({0})) == Of({1});
    assert West(Of({0})) == FromEmpty();
  }

  // ---------------------------------------------------------------- population count

  /** `count_ones`: the number of set bits. */
  function Count(b: seq<bool>): (n: nat)
    ensures n <= |b|
  {
    if |b| == 0 then 0 else (if b[0] then 1 else 0) + Count(b[1..])
  }

  /** No bit is set exactly when the count is zero. */
  lemma {:induction false} CountZero(b: seq<bool>)
    ensures Count(b) == 0 <==> forall i | 0 <= i < |b| :: !b[i]
  {
    if |b| > 0 {
      CountZero(b[1..]);
      assert forall i | 1 <= i < |b| :: b[i] == b[1..][i - 1];
    }
  }

  /** Every bit is set exactly when the count is the length. */
  lemma {:induction false} CountAll(b: seq<bool>)
    ensures Count(b) == |b| <==> forall i | 0 <= i < |b| :: b[i]
  {
    if |b| > 0 {
      CountAll(b[1..]);
      assert forall i | 1 <= i < |b| :: b[i] == b[1..][i - 1];
    }
  }

  /** Clearing one set bit lowers the count by exactly one. */
  lemma {:induction false} CountClear(b: seq<bool>, j: nat)
    requires j < |b| && b[j]
    ensures Count(b[j := false]) == Count(b) - 1
  {
    if j > 0 {
      CountClear(b[1..], j - 1);
      assert b[j := false][1..] == b[1..][j - 1 := false];
    }
  }

  /** A set with at most one square counts at most one. */
  lemma AtMostOne(b: seq<bool>, j: int)
    requires forall i | 0 <= i < |b| :: b[i] ==> i == j
    ensures Count(b) <= 1
  {
    if 0 <= j < |b| && b[j] {
      CountClear(b, j);
      CountZero(b[j := false]);
    } else {
      CountZero(b);
    }
  }

  /** The count of a union is at most the sum of the counts. */
  lemma {:induction false} CountUnion(a: seq<bool>, b: seq<bool>, r: seq<bool>)
    requires |a| == |b| == |r|
    requires forall i | 0 <= i < |r| :: r[i] == (a[i] || b[i])
    ensures Count(r) <= Count(a) + Count(b)
  {
    if |r| > 0 {
      CountUnion(a[1..], b[1..], r[1..]);
    }
  }

  /** `count` is 0 on the empty board and 64 on the full one. */
  lemma CountEmptyFull()
    ensures Count(FromEmpty()) == 0 && Count(FromFull()) == 64
  {
    CountZero(FromEmpty());
    CountAll(FromFull());
  }

  /** A set that holds exactly square `j` counts one. */
  lemma CountSingle(b: seq<bool>, j: nat)
    requires j < |b| && b[j]
    requires forall i | 0 <= i < |b| :: b[i] ==> i == j
    ensures Count(b) == 1
  {
    CountClear(b, j);
    CountZero(b[j := false]);
  }

  /** `from_square` has exactly one bit set. */
  lemma CountFromSquare(sq: Square)
    requires Indexable(sq)
    ensures Count(FromSquare(sq)) == 1
  {
    CountSingle(FromSquare(sq), GetIndex(sq));
  }

  /** The unit tests of `count` on the words 1 and 2, which hold one square each. */
  lemma CountExamplesSingle()
    ensures Count(Of({0})) == 1 && Count(Of({1})) == 1
  {
    CountSingle(Of({0}), 0);
    CountSingle(Of({1}), 1);
  }

  /** The unit test of `count` on the word 3, which holds two squares. */
  lemma CountExamplesPair()
    ensures Count(Of({0, 1})) == 2
  {
    var b := Of({0, 1});
    CountClear(b, 0);
    assert b[0 := false] == Of({1});
    CountSingle(Of({1}), 1);
  }

  /** The unit tests of the operators, with words written as sets of squares. */
  lemma OperatorExamples()
    ensures IsEmpty(FromEmpty()) && !IsEmpty(Of({0}))
    ensures BitXor(FromEmpty(), FromEmpty()) == FromEmpty()
    ensures BitXor(Of({0}), Of({1})) == Of({0, 1}) && BitOr(Of({0}), Of({1})) == Of({0, 1})
    ensures BitAnd(Of({0}), Of({1})) == FromEmpty()
    ensures BitNot(FromEmpty()) == FromFull() && BitNot(FromFull()) == FromEmpty()
  {
    assert Of({0})[0];
    assert BitXor(Of({0}), Of({1})) == Of({0, 1});
    assert BitOr(Of({0}), Of({1})) == Of({0, 1});
    assert BitAnd(Of({0}), Of({1})) == FromEmpty();
  }

  // ---------------------------------------------------------------- lowest set bit

  /**
   * `trailing_zeros`: the number of clear bits below the lowest set bit, or the width when
   * no bit is set.
   */
  function TrailingZeros(b: seq<bool>): (n: nat)
    ensures n <= |b|
    ensures n < |b| ==> b[n]
    ensures forall j | 0 <= j < n :: !b[j]
  {
    if |b| == 0 then 0
    else if b[0] then 0
    else 1 + TrailingZeros(b[1..])
  }

  /** The unsigned value of a little-endian bit sequence. */
  function Value(b: seq<bool>): (v: nat)
  {
    if |b| == 0 then 0 else (if b[0] then 1 else 0) + 2 * Value(b[1..])
  }

  /**
   * Wrapping subtraction of one, bit by bit: the lowest bit flips, and the borrow moves on
   * past every bit that was clear.
   */
  function Decrement(b: seq<bool>): (r: seq<bool>)
    ensures |r| == |b|
  {
    if |b| == 0 then []
    else if b[0] then [false] + b[1..]
    else [true] + Decrement(b[1..])
  }

  /** Decrementing a non-zero word lowers its value by one. */
  lemma {:induction false} DecrementValue(b: seq<bool>)
    requires Value(b) > 0
    ensures Value(Decrement(b)) == Value(b) - 1
  {
    if !b[0] {
      DecrementValue(b[1..]);
      assert Decrement(b)[1..] == Decrement(b[1..]);
    } else {
      assert Decrement(b)[1..] == b[1..];
    }
  }

  /**
   * Decrementing sets the bits below the lowest set bit, clears that bit and keeps the
   * rest; a zero word becomes all ones.
   */
  lemma {:induction false} DecrementBits(b: seq<bool>)
    ensures forall i | 0 <= i < |b| ::
      Decrement(b)[i] == (if i < TrailingZeros(b) then true else if i == TrailingZeros(b) then false else b[i])
  {
    if |b| > 0 && !b[0] {
      DecrementBits(b[1..]);
      assert forall i | 1 <= i < |b| :: Decrement(b)[i] == Decrement(b[1..])[i - 1];
    }
  }

  /** `b & (b - 1)` clears exactly the lowest set bit. */
  lemma ClearLowest(b: Bitboard)
    ensures forall i | 0 <= i < 64 ::
      BitAnd(b, Decrement(b))[i] == (b[i] && i != TrailingZeros(b))
  {
    DecrementBits(b);
  }

  /** The square of the lowest set bit of a non-empty board. */
  function LowestSquare(b: Bitboard): (sq: Square)
    requires IsOccupied(b)
    ensures OnBoard(sq) && b[GetIndex(sq)]
    ensures forall j | 0 <= j < GetIndex(sq) :: !b[j]
  {
    var index := TrailingZeros(b);
    Square(index % 8, index / 8)
  }

  /**
   * `pop_lsb`: the square of the lowest set bit, and the board without that bit. The
   * source requires a non-empty board: on zero, `self.0 - 1` overflows.
   */
  method PopLsb(b: Bitboard) returns (sq: Square, rest: Bitboard)
    requires IsOccupied(b)
    ensures sq == LowestSquare(b)
    ensures OnBoard(sq) && b[GetIndex(sq)]
    ensures forall j | 0 <= j < GetIndex(sq) :: !b[j]
    ensures forall i | 0 <= i < 64 :: rest[i] == (b[i] && i != GetIndex(sq))
    ensures Count(rest) == Count(b) - 1
  {
    var index := TrailingZeros(b);
    rest := BitAnd(b, Decrement(b));
    sq := Square(index % 8, index / 8);
    ClearLowest(b);
    CountClear(b, index);
    assert rest == b[index := false];
  }
}
