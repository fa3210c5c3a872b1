/**
 * Forsyth-Edwards Notation: `set_fen` and `from_fen` read a position from the six
 * space-separated fields (placement, side to move, castling, en passant, halfmoves,
 * fullmoves) and `get_fen` writes them back.
 *
 * The reading side is specified by `ParseFen`, a function that returns an error where the
 * source panics; `SetFen` is the in-place method, proved to leave exactly the value
 * `ParseFen` computes. The writing side is specified by `FenOf`; `GetFen` is the method with
 * the rank and file loops, proved to build exactly that text. `FenRoundTrip` ties the two
 * together: reading what `get_fen` wrote gives back the position.
 */
module Fen {
  import opened Wrappers
  import opened Types
  import opened Squares
  import opened Bitboards
  import opened Positions

  /** The standard initial position, which `set_fen` reads in place of "startpos". */
  const StartFen: string := "rnbqkbnr/pppppppp/8/8/8/8/PPPPPPPP/RNBQKBNR w KQkq - 0 1"

  /** The messages of the panics of `set_fen`: a missing field (`parts[k]` out of bounds), a
      square index too large for `set`, and the three `panic!` calls. */
  const MissingField: string := "index out of bounds"
  const ShiftOverflow: string := "attempt to shift left with overflow"
  const BadPiece: string := "Unrecognised piece"
  const BadSide: string := "Unrecognised side to move"
  const BadCastling: string := "Invalid castling permission"

  /** The messages of `ParseIntError`. */
  const EmptyNumber: string := "cannot parse integer from empty string"
  const InvalidDigit: string := "invalid digit found in string"
  const TooLarge: string := "number too large to fit in target type"

  // ---------------------------------------------------------------- fields

  /** `fen.split(" ")`: the text between single spaces; two spaces in a row give an empty field. */
  function Split(s: string): (parts: seq<string>)
    ensures |parts| >= 1
    decreases |s|
  {
    if s == [] then [""]
    else
      var rest := Split(s[1..]);
      if s[0] == ' ' then [""] + rest
      else [[s[0]] + rest[0]] + rest[1..]
  }

  /** The fields joined with single spaces. */
  function Join(parts: seq<string>): (s: string)
    requires |parts| >= 1
    decreases |parts|
  {
    if |parts| == 1 then parts[0] else parts[0] + " " + Join(parts[1..])
  }

  /** A text without spaces. */
  predicate NoSpace(s: string)
  {
    forall k | 0 <= k < |s| :: s[k] != ' '
  }

  /** No field that `Split` returns contains a space. */
  lemma {:induction false} SplitNoSpaces(s: string)
    ensures forall k | 0 <= k < |Split(s)| :: NoSpace(Split(s)[k])
    decreases |s|
  {
    if s != [] {
      SplitNoSpaces(s[1..]);
      var rest := Split(s[1..]);
      if s[0] != ' ' {
        assert NoSpace([s[0]] + rest[0]) by {
          assert NoSpace(rest[0]);
        }
        assert forall k | 1 <= k < |Split(s)| :: Split(s)[k] == rest[k];
      } else {
        assert forall k | 1 <= k < |Split(s)| :: Split(s)[k] == rest[k - 1];
      }
    }
  }

  /** A text without spaces is one field. */
  lemma {:induction false} SplitOne(p: string)
    requires NoSpace(p)
    ensures Split(p) == [p]
    decreases |p|
  {
    if p != [] {
      SplitOne(p[1..]);
      assert [p[0]] + p[1..] == p;
    }
  }

  /** A field without spaces, then a space, then more text: the field comes first, then the fields of the rest. */
  lemma {:induction false} SplitCons(p: string, s: string)
    requires NoSpace(p)
    ensures Split(p + " " + s) == [p] + Split(s)
    decreases |p|
  {
    if p == [] {
      assert (p + " " + s)[1..] == s;
    } else {
      SplitCons(p[1..], s);
      assert (p + " " + s)[1..] == p[1..] + " " + s;
      assert [p[0]] + p[1..] == p;
    }
  }

  /** Splitting fields that were joined gives them back. */
  lemma {:induction false} SplitJoin(parts: seq<string>)
    requires |parts| >= 1 && forall k | 0 <= k < |parts| :: NoSpace(parts[k])
    ensures Split(Join(parts)) == parts
    decreases |parts|
  {
    if |parts| == 1 {
      SplitOne(parts[0]);
    } else {
      SplitJoin(parts[1..]);
      SplitCons(parts[0], Join(parts[1..]));
      assert [parts[0]] + parts[1..] == parts;
    }
  }

  /** Joining the fields of a text gives the text back. */
  lemma {:induction false} JoinSplit(s: string)
    ensures Join(Split(s)) == s
    decreases |s|
  {
    if s != [] {
      JoinSplit(s[1..]);
      var rest := Split(s[1..]);
      if s[0] == ' ' {
        assert ([""] + rest)[1..] == rest;
        assert Join([""] + rest) == "" + " " + Join(rest);
        assert [s[0]] + s[1..] == s;
      } else if |rest| == 1 {
        assert Join(Split(s)) == [s[0]] + rest[0];
        assert [s[0]] + s[1..] == s;
      } else {
        assert Join(rest) == rest[0] + " " + Join(rest[1..]);
        assert Join(Split(s)) == [s[0]] + rest[0] + " " + Join(rest[1..]);
        assert [s[0]] + s[1..] == s;
      }
    }
  }

  // ---------------------------------------------------------------- piece letters

  /** A piece letter: upper case for White, lower case for Black, P N B R Q K. */
  function LetterPiece(c: char): Option<(Side, Piece)>
  {
    match c
    case 'P' => Some((White, Pawn))
    case 'N' => Some((White, Knight))
    case 'B' => Some((White, Bishop))
    case 'R' => Some((White, Rook))
    case 'Q' => Some((White, Queen))
    case 'K' => Some((White, King))
    case 'p' => Some((Black, Pawn))
    case 'n' => Some((Black, Knight))
    case 'b' => Some((Black, Bishop))
    case 'r' => Some((Black, Rook))
    case 'q' => Some((Black, Queen))
    case 'k' => Some((Black, King))
    case _ => None
  }

  /** The letter `get_fen` writes for a piece; `set_fen` reads it back as the same piece. */
  function PieceLetter(side: Side, piece: Piece): (c: char)
    ensures LetterPiece(c) == Some((side, piece))
  {
    match side
    case White => (
      match piece
      case Pawn => 'P'
      case Knight => 'N'
      case Bishop => 'B'
      case Rook => 'R'
      case Queen => 'Q'
      case King => 'K')
    case Black => (
      match piece
      case Pawn => 'p'
      case Knight => 'n'
      case Bishop => 'b'
      case Rook => 'r'
      case Queen => 'q'
      case King => 'k')
  }

  /** Every letter `set_fen` reads as a piece is the letter `get_fen` writes for it. */
  lemma LetterRoundTrip(c: char)
    requires LetterPiece(c).Some?
    ensures PieceLetter(LetterPiece(c).value.0, LetterPiece(c).value.1) == c
  {
  }

  // ---------------------------------------------------------------- the placement walk

  /**
   * The state of the placement loop: the position so far and the `i32` cursors `x` (file)
   * and `y` (rank) of the next square.
   */
  datatype Cursor = Cursor(board: PositionValue, x: int, y: int)

  /** A character the placement loop accepts: a piece letter, a digit 1 to 8, or '/'. */
  predicate PlacementChar(c: char)
  {
    LetterPiece(c).Some? || '1' <= c <= '8' || c == '/'
  }

  /**
   * One character of the placement field. The square is `from_file_rank(x as u8, y as u8)`,
   * a truncation to bytes. A letter sets the piece there (the shift in `set` overflows unless
   * the index is below 64) and advances the file; a digit advances the file by its value; '/'
   * goes to file 0 of the rank below; anything else is an error.
   */
  function Step(w: Cursor, c: char): (r: Result<Cursor>)
    ensures r.Ok? ==> PlacementChar(c)
  {
    var sq := Square(w.x % 256, w.y % 256);
    match LetterPiece(c)
    case Some((side, piece)) =>
      if Indexable(sq) then Ok(Cursor(Placed(w.board, sq, side, piece), w.x + 1, w.y))
      else Err(ShiftOverflow)
    case None =>
      if '1' <= c <= '8' then Ok(Cursor(w.board, w.x + (c as int - '0' as int), w.y))
      else if c == '/' then Ok(Cursor(w.board, 0, w.y - 1))
      else Err(BadPiece)
  }

  /** The placement loop over a text: every character in turn, stopping at the first error. */
  function Place(w: Cursor, s: string): (r: Result<Cursor>)
    ensures r.Ok? ==> forall k | 0 <= k < |s| :: PlacementChar(s[k])
    ensures r.Ok? ==> r.value.board.castling == w.board.castling
    decreases |s|
  {
    if s == [] then Ok(w)
    else
      var n := Step(w, s[0]);
      if n.Err? then n else Place(n.value, s[1..])
  }

  /** Walking two texts one after the other is walking their concatenation. */
  lemma {:induction false} PlaceAppend(w: Cursor, a: string, b: string)
    ensures Place(w, a + b) == (if Place(w, a).Err? then Place(w, a) else Place(Place(w, a).value, b))
    decreases |a|
  {
    if a == [] {
      assert a + b == b;
    } else {
      assert (a + b)[0] == a[0] && (a + b)[1..] == a[1..] + b;
      var n := Step(w, a[0]);
      if n.Ok? {
        PlaceAppend(n.value, a[1..], b);
      }
    }
  }

  // ---------------------------------------------------------------- castling and en passant

  /** The castling right a character of the castling field stands for. */
  function CastleOf(c: char): Option<Castling>
  {
    match c
    case 'K' => Some(WKS)
    case 'Q' => Some(WQS)
    case 'k' => Some(BKS)
    case 'q' => Some(BQS)
    case _ => None
  }

  /** The letter of a castling right, in the order K Q k q. */
  function CastleLetter(right: Castling): (c: char)
    ensures CastleOf(c) == Some(right)
  {
    match right
    case WKS => 'K'
    case WQS => 'Q'
    case BKS => 'k'
    case BQS => 'q'
  }

  /** The castling loop: each letter sets its right; any other character is an error. */
  function ParseRights(rights: Rights, s: string): (r: Result<Rights>)
    ensures r.Ok? <==> forall k | 0 <= k < |s| :: CastleOf(s[k]).Some?
    decreases |s|
  {
    if s == [] then Ok(rights)
    else
      match CastleOf(s[0])
      case None => Err(BadCastling)
      case Some(right) => ParseRights(rights[CastlingIndex(right) := true], s[1..])
  }

  /** After the castling loop a right is held exactly when it was held before or its letter occurs. */
  lemma {:induction false} ParseRightsFlags(rights: Rights, s: string, right: Castling)
    requires ParseRights(rights, s).Ok?
    ensures ParseRights(rights, s).value[CastlingIndex(right)] ==
      (rights[CastlingIndex(right)] || CastleLetter(right) in s)
    decreases |s|
  {
    if s != [] {
      var first := CastleOf(s[0]).value;
      var next := rights[CastlingIndex(first) := true];
      ParseRightsFlags(next, s[1..], right);
      CastlingIndexInjective(first, right);
      assert CastleLetter(right) in s <==> s[0] == CastleLetter(right) || CastleLetter(right) in s[1..] by {
        assert s == [s[0]] + s[1..];
      }
      assert s[0] == CastleLetter(right) <==> first == right;
    }
  }

  /** No castling rights. */
  function NoRights(): Rights
  {
    [false, false, false, false]
  }

  /** The castling field: "-" for none, otherwise the castling loop from no rights. */
  function CastlingField(s: string): Result<Rights>
  {
    if s == "-" then Ok(NoRights()) else ParseRights(NoRights(), s)
  }

  /** The castling text `get_fen` writes: the held rights in the order K Q k q, or "-" for none. */
  function CastleText(r: Rights): string
  {
    (if r[CastlingIndex(WKS)] then "K" else "") + (if r[CastlingIndex(WQS)] then "Q" else "") +
    (if r[CastlingIndex(BKS)] then "k" else "") + (if r[CastlingIndex(BQS)] then "q" else "") +
    (if !r[CastlingIndex(WKS)] && !r[CastlingIndex(WQS)] && !r[CastlingIndex(BKS)] && !r[CastlingIndex(BQS)]
     then "-" else "")
  }

  /** Reading the castling text `get_fen` writes gives back the rights. */
  lemma CastleRoundTrip(r: Rights)
    ensures CastlingField(CastleText(r)) == Ok(r)
  {
    var s := CastleText(r);
    if r == NoRights() {
      assert s == "-";
    } else {
      assert s != "-" by {
        assert forall k | 0 <= k < |s| :: s[k] in "KQkq";
      }
      assert forall k | 0 <= k < |s| :: CastleOf(s[k]).Some?;
      var flags := ParseRights(NoRights(), s).value;
      forall right: Castling ensures flags[CastlingIndex(right)] == r[CastlingIndex(right)] {
        ParseRightsFlags(NoRights(), s, right);
      }
      assert flags[0] == r[0] && flags[1] == r[1] && flags[2] == r[2] && flags[3] == r[3] by {
        assert CastlingIndex(WKS) == 0 && CastlingIndex(WQS) == 1;
        assert CastlingIndex(BKS) == 2 && CastlingIndex(BQS) == 3;
      }
      assert flags == r;
    }
  }

  /** The castling text never contains a space. */
  lemma CastleTextNoSpace(r: Rights)
    ensures NoSpace(CastleText(r))
  {
    var s := CastleText(r);
    assert forall k | 0 <= k < |s| :: s[k] in "KQkq-";
  }

  /** The en-passant field: "-" for none, otherwise a square as `Square::from_string` reads it. */
  function EpField(s: string): Result<Option<Square>>
  {
    if s == "-" then Ok(None)
    else
      var sq := FromString(s);
      if sq.Err? then Err(sq.msg) else Ok(Some(sq.value))
  }

  /** `Display for Square` can write the square: adding its coordinates to 'a' and '1' stays a byte. */
  predicate Printable(ep: Option<Square>)
  {
    ep.Some? ==> ep.value.x < 256 - 'a' as int && ep.value.y < 256 - '1' as int
  }

  /** The en-passant text `get_fen` writes: the square, or "-". */
  function EpText(ep: Option<Square>): string
    requires Printable(ep)
  {
    if ep.None? then "-" else ToString(ep.value)
  }

  /** Reading the en-passant text gives back a square that `from_string` can produce. */
  lemma EpRoundTrip(ep: Option<Square>)
    requires ep.Some? ==> ep.value.x < 10 && ep.value.y < 8
    ensures EpField(EpText(ep)) == Ok(ep)
    ensures NoSpace(EpText(ep))
  {
    if ep.Some? {
      FromStringOfToString(ep.value);
      assert |EpText(ep)| == 2;
    }
  }

  // ---------------------------------------------------------------- counters

  /** The character of a decimal digit. */
  function Digit(d: nat): (c: char)
    requires d < 10
    ensures '0' <= c <= '9'
  {
    ('0' as int + d) as char
  }

  /** `to_string` of an unsigned number: its decimal digits, most significant first, no leading zeros. */
  function NatText(n: nat): (s: string)
    ensures |s| >= 1 && forall k | 0 <= k < |s| :: '0' <= s[k] <= '9'
    ensures n > 0 ==> s[0] != '0'
    decreases n
  {
    if n < 10 then [Digit(n)] else NatText(n / 10) + [Digit(n % 10)]
  }

  /** A non-empty text of decimal digits only. */
  predicate AllDigits(s: string)
  {
    forall k | 0 <= k < |s| :: '0' <= s[k] <= '9'
  }

  /** The value of a text of decimal digits, read left to right. */
  function DigitsValue(s: string): nat
    requires AllDigits(s)
    decreases |s|
  {
    if s == [] then 0 else DigitsValue(s[..|s| - 1]) * 10 + (s[|s| - 1] as int - '0' as int)
  }

  /** The text after an optional leading '+'. */
  function Unsigned(s: string): string
  {
    if |s| > 0 && s[0] == '+' then s[1..] else s
  }

  /**
   * `str::parse::<u8>`: an optional '+', then one or more decimal digits whose value fits
   * in a byte. An empty text, a '+' alone, any other character or a value above 255 is an
   * error.
   */
  function ParseU8(s: string): Result<u8>
  {
    var digits := Unsigned(s);
    if s == [] then Err(EmptyNumber)
    else if digits == [] || !AllDigits(digits) then Err(InvalidDigit)
    else if DigitsValue(digits) > 255 then Err(TooLarge)
    else Ok(DigitsValue(digits))
  }

  /** Reading back the digits of a number gives the number. */
  lemma {:induction false} NatTextValue(n: nat)
    ensures DigitsValue(NatText(n)) == n
    decreases n
  {
    if n >= 10 {
      NatTextValue(n / 10);
      var s := NatText(n);
      assert s[..|s| - 1] == NatText(n / 10);
    }
  }

  /** Reading the counter text `get_fen` writes gives back the counter. */
  lemma U8RoundTrip(n: u8)
    ensures ParseU8(NatText(n)) == Ok(n)
    ensures NoSpace(NatText(n))
  {
    NatTextValue(n);
  }

  // ---------------------------------------------------------------- reading a FEN

  /**
   * The fields of a FEN, read in order: the placement walk from an empty board at file 0
   * of rank 8, the side to move ("w" or "b"), castling, en passant, halfmoves and
   * fullmoves. A missing field, an unreadable one or an unrecognised character is an error;
   * fields after the sixth are ignored.
   */
  function ParseFields(fen: string): Result<PositionValue>
  {
    var parts := Split(fen);
    var placed := Place(Cursor(DefaultValue(), 0, 7), parts[0]);
    if placed.Err? then Err(placed.msg)
    else if |parts| < 2 then Err(MissingField)
    else if parts[1] != "w" && parts[1] != "b" then Err(BadSide)
    else if |parts| < 3 then Err(MissingField)
    else
      var rights := CastlingField(parts[2]);
      if rights.Err? then Err(rights.msg)
      else if |parts| < 4 then Err(MissingField)
      else
        var ep := EpField(parts[3]);
        if ep.Err? then Err(ep.msg)
        else if |parts| < 5 then Err(MissingField)
        else
          var half := ParseU8(parts[4]);
          if half.Err? then Err(half.msg)
          else if |parts| < 6 then Err(MissingField)
          else
            var full := ParseU8(parts[5]);
            if full.Err? then Err(full.msg)
            else
              var board := placed.value.board;
              Ok(PositionValue(board.colours, board.pieces, if parts[1] == "w" then White else Black,
                half.value, full.value, ep.value, rights.value))
  }

  /** `set_fen`: "startpos" stands for the initial position; any other text is read as a FEN. */
  function ParseFen(fen: string): Result<PositionValue>
  {
    ParseFields(if fen == "startpos" then StartFen else fen)
  }

  /** A text with fewer than six fields is never a position: some field is missing. */
  lemma {:induction false} TooFewFields(fen: string)
    requires fen != "startpos" && |Split(fen)| < 6
    ensures ParseFen(fen).Err?
  {
  }

  // ---------------------------------------------------------------- writing a FEN

  /** `get_side_piece_on`: the side and piece on a square, when it has both a colour and a piece. */
  function Occupant(v: PositionValue, sq: Square): Option<(Side, Piece)>
    requires Indexable(sq)
  {
    var colour, piece := ColourOn(v, sq), PieceOn(v, sq);
    if colour.Some? && piece.Some? then Some((colour.value, piece.value)) else None
  }

  /** The count of empty squares not yet written, as `get_fen` writes it: nothing when zero. */
  function EmptyText(empty: nat): string
  {
    if empty > 0 then NatText(empty) else ""
  }

  /**
   * The rest of rank `y` from file `x`, after `empty` empty squares counted and not yet
   * written: a piece first writes the pending count, then its letter; an empty square adds
   * to the count; the end of the rank writes what is pending.
   */
  function RankFrom(v: PositionValue, y: nat, x: nat, empty: nat): string
    requires y < 8 && x <= 8
    decreases 8 - x
  {
    if x == 8 then EmptyText(empty)
    else
      match Occupant(v, Square(x, y))
      case None => RankFrom(v, y, x + 1, empty + 1)
      case Some((side, piece)) => EmptyText(empty) + [PieceLetter(side, piece)] + RankFrom(v, y, x + 1, 0)
  }

  /** One rank of the placement, followed by '/' unless it is rank 1. */
  function RankText(v: PositionValue, y: nat): string
    requires y < 8
  {
    RankFrom(v, y, 0, 0) + (if y > 0 then "/" else "")
  }

  /** The placement text of ranks 8 down to `k + 1` (0-based `k`); `Ranks(v, 0)` is the whole field. */
  function Ranks(v: PositionValue, k: nat): string
    requires k <= 8
    decreases 8 - k
  {
    if k == 8 then "" else Ranks(v, k + 1) + RankText(v, k)
  }

  /** The placement text is built rank by rank, from rank 8 down. */
  lemma RanksStep(v: PositionValue, k: nat)
    requires k <= 8
    ensures k == 8 ==> Ranks(v, k) == ""
    ensures k < 8 ==> Ranks(v, k) == Ranks(v, k + 1) + RankText(v, k)
  {
  }

  /** The side-to-move text. */
  function SideText(side: Side): string
  {
    if side == White then "w" else "b"
  }

  /** The six fields `get_fen` writes. */
  function Fields(v: PositionValue): seq<string>
    requires Printable(v.ep)
  {
    [Ranks(v, 0), SideText(v.turn), CastleText(v.castling), EpText(v.ep), NatText(v.halfmoves), NatText(v.fullmoves)]
  }

  /** `get_fen`: the six fields separated by single spaces. */
  function FenOf(v: PositionValue): string
    requires Printable(v.ep)
  {
    Join(Fields(v))
  }

  /** Six fields joined with spaces, written out. */
  lemma JoinSix(a: string, b: string, c: string, d: string, e: string, f: string)
    ensures Join([a, b, c, d, e, f]) == a + " " + b + " " + c + " " + d + " " + e + " " + f
  {
    assert [e, f][1..] == [f];
    assert Join([e, f]) == e + " " + f;
    assert [d, e, f][1..] == [e, f];
    assert Join([d, e, f]) == d + " " + Join([e, f]);
    assert [c, d, e, f][1..] == [d, e, f];
    assert Join([c, d, e, f]) == c + " " + Join([d, e, f]);
    assert [b, c, d, e, f][1..] == [c, d, e, f];
    assert Join([b, c, d, e, f]) == b + " " + Join([c, d, e, f]);
    assert [a, b, c, d, e, f][1..] == [b, c, d, e, f];
    assert Join([a, b, c, d, e, f]) == a + " " + Join([b, c, d, e, f]);
  }

  // ---------------------------------------------------------------- the round trip

  /** The colour-bitboard bit the placement walk must leave on index `i` for `v`'s occupant. */
  function ColourBit(v: PositionValue, i: int, c: int): bool
    requires 0 <= i < 64
  {
    match Occupant(v, FromIndex(i))
    case Some((side, _)) => SideIndex(side) == c
    case None => false
  }

  /** The piece-bitboard bit the placement walk must leave on index `i` for `v`'s occupant. */
  function PieceBit(v: PositionValue, i: int, p: int): bool
    requires 0 <= i < 64
  {
    match Occupant(v, FromIndex(i))
    case Some((_, piece)) => PieceIndex(piece) == p
    case None => false
  }

  /** Index `i` is on a rank above `y`, or on rank `y` left of file `x`: the walk has passed it. */
  predicate Passed(i: int, y: int, x: int)
  {
    i / 8 > y || (i / 8 == y && i % 8 < x)
  }

  /** Square `i` of `w` holds `v`'s occupant if the walk has passed it, and nothing otherwise. */
  ghost predicate FilledAt(w: PositionValue, v: PositionValue, i: int, passed: bool)
    requires 0 <= i < 64
  {
    (forall c | 0 <= c < 2 :: w.colours[c][i] == (passed && ColourBit(v, i, c))) &&
    (forall p | 0 <= p < 6 :: w.pieces[p][i] == (passed && PieceBit(v, i, p)))
  }

  /** The walk, at file `x` of rank `y`, has placed exactly `v`'s pieces on the squares it passed. */
  ghost predicate Filled(w: PositionValue, v: PositionValue, y: int, x: int)
  {
    forall i | 0 <= i < 64 :: FilledAt(w, v, i, Passed(i, y, x))
  }

  /** The empty board is filled for a walk that has not started. */
  lemma FilledStart(v: PositionValue)
    ensures Filled(DefaultValue(), v, 7, 0)
  {
    var w := DefaultValue();
    forall i | 0 <= i < 64 ensures FilledAt(w, v, i, Passed(i, 7, 0)) {
      assert !Passed(i, 7, 0);
      assert forall c | 0 <= c < 2 :: !w.colours[c][i];
      assert forall p | 0 <= p < 6 :: !w.pieces[p][i];
    }
  }

  /** Skipping squares of rank `y` that `v` leaves empty keeps the board filled. */
  lemma FilledSkip(w: PositionValue, v: PositionValue, y: int, x: int, e: int)
    requires 0 <= y < 8 && 0 <= x && 0 <= e && x + e <= 8 && Filled(w, v, y, x)
    requires forall k | x <= k < x + e :: Occupant(v, Square(k, y)) == None
    ensures Filled(w, v, y, x + e)
  {
    var stop := x + e;
    forall i | 0 <= i < 64 ensures FilledAt(w, v, i, Passed(i, y, stop)) {
      assert FilledAt(w, v, i, Passed(i, y, x));
      if Passed(i, y, stop) && !Passed(i, y, x) {
        var k := i % 8;
        assert FromIndex(i) == Square(k, y);
        assert Occupant(v, Square(k, y)) == None;
      }
    }
  }

  /** Placing `v`'s occupant of square (x, y) advances a filled board by one file. */
  lemma FilledPlace(w: PositionValue, v: PositionValue, y: int, x: int, side: Side, piece: Piece)
    requires 0 <= y < 8 && 0 <= x < 8 && Filled(w, v, y, x)
    requires Occupant(v, Square(x, y)) == Some((side, piece))
    ensures Filled(Placed(w, Square(x, y), side, piece), v, y, x + 1)
  {
    var sq := Square(x, y);
    var j := GetIndex(sq);
    var u := Placed(w, sq, side, piece);
    PlacedBits(w, sq, side, piece);
    assert FromIndex(j) == sq;
    var next := x + 1;
    forall i | 0 <= i < 64 ensures FilledAt(u, v, i, Passed(i, y, next)) {
      assert FilledAt(w, v, i, Passed(i, y, x));
      if i == j {
        assert !Passed(i, y, x) && Passed(i, y, next);
      } else {
        assert Passed(i, y, next) == Passed(i, y, x);
      }
    }
  }

  /** The end of rank `y` is the start of the rank below. */
  lemma FilledNextRank(w: PositionValue, v: PositionValue, y: int)
    requires Filled(w, v, y, 8)
    ensures Filled(w, v, y - 1, 0)
  {
    var below := y - 1;
    forall i | 0 <= i < 64 ensures FilledAt(w, v, i, Passed(i, below, 0)) {
      assert FilledAt(w, v, i, Passed(i, y, 8));
      assert Passed(i, y, 8) == Passed(i, below, 0);
    }
  }

  /** On a consistent board the bits a walk must leave are the board's own bits. */
  lemma OccupantBits(v: PositionValue, i: int)
    requires Consistent(v) && 0 <= i < 64
    ensures forall c | 0 <= c < 2 :: ColourBit(v, i, c) == v.colours[c][i]
    ensures forall p | 0 <= p < 6 :: PieceBit(v, i, p) == v.pieces[p][i]
  {
    var sq := FromIndex(i);
    assert GetIndex(sq) == i;
    assert ConsistentAt(v, i);
    ColourIffPiece(v, sq);
    if Occupant(v, sq).Some? {
      var side, piece := ColourOn(v, sq).value, PieceOn(v, sq).value;
      forall p | 0 <= p < 6 ensures PieceBit(v, i, p) == v.pieces[p][i] {
        if p != PieceIndex(piece) {
          if p < PieceIndex(piece) {
          } else {
            assert !(v.pieces[PieceIndex(piece)][i] && v.pieces[p][i]);
          }
        }
      }
    }
  }

  /** A walk that has passed every square of a consistent board has rebuilt its bitboards. */
  lemma FilledAll(w: PositionValue, v: PositionValue)
    requires Consistent(v) && Filled(w, v, 0, 8)
    ensures w.colours == v.colours && w.pieces == v.pieces
  {
    forall c | 0 <= c < 2 ensures w.colours[c] == v.colours[c] {
      forall i | 0 <= i < 64 ensures w.colours[c][i] == v.colours[c][i] {
        assert FilledAt(w, v, i, Passed(i, 0, 8));
        OccupantBits(v, i);
      }
    }
    forall p | 0 <= p < 6 ensures w.pieces[p] == v.pieces[p] {
      forall i | 0 <= i < 64 ensures w.pieces[p][i] == v.pieces[p][i] {
        assert FilledAt(w, v, i, Passed(i, 0, 8));
        OccupantBits(v, i);
      }
    }
  }

  /** Reading a pending count of `e` squares, 1 to 8, moves the file on by `e`. */
  lemma PlaceCount(w: Cursor, e: nat)
    requires 0 < e <= 8
    ensures Place(w, EmptyText(e)) == Ok(w.(x := w.x + e))
  {
    var d := Digit(e);
    assert EmptyText(e) == [d];
    assert d as int - '0' as int == e;
    assert LetterPiece(d) == None;
    assert Step(w, d) == Ok(w.(x := w.x + e));
    assert [d][1..] == [];
  }

  /**
   * Reading the rest of rank `y` as `get_fen` writes it, from the file where the pending
   * empty squares start, places `v`'s pieces on that rank and ends after its last file.
   */
  lemma {:induction false} PlaceRank(w: PositionValue, v: PositionValue, y: nat, x: nat, e: nat)
    requires y < 8 && e <= x <= 8 && Filled(w, v, y, x - e)
    requires forall k | x - e <= k < x :: Occupant(v, Square(k, y)) == None
    ensures var r := Place(Cursor(w, x - e, y), RankFrom(v, y, x, e));
      r.Ok? && r.value.x == 8 && r.value.y == y && Filled(r.value.board, v, y, 8)
    decreases 8 - x
  {
    hide Occupant, Filled, Placed;
    var start := Cursor(w, x - e, y);
    if x == 8 {
      FilledSkip(w, v, y, x - e, e);
      if e > 0 {
        PlaceCount(start, e);
      }
    } else {
      match Occupant(v, Square(x, y))
      case None =>
        PlaceRank(w, v, y, x + 1, e + 1);
      case Some((side, piece)) =>
        FilledSkip(w, v, y, x - e, e);
        var here := Cursor(w, x, y);
        assert Place(start, EmptyText(e)) == Ok(here) by {
          if e > 0 {
            PlaceCount(start, e);
          }
        }
        var letter := [PieceLetter(side, piece)];
        var u := Placed(w, Square(x, y), side, piece);
        assert Place(here, letter) == Ok(Cursor(u, x + 1, y)) by {
          assert Square(x % 256, y % 256) == Square(x, y);
          assert Step(here, letter[0]) == Ok(Cursor(u, x + 1, y));
        }
        FilledPlace(w, v, y, x, side, piece);
        PlaceRank(u, v, y, x + 1, 0);
        PlaceAppend(start, EmptyText(e), letter + RankFrom(v, y, x + 1, 0));
        PlaceAppend(here, letter, RankFrom(v, y, x + 1, 0));
        assert RankFrom(v, y, x, e) == EmptyText(e) + (letter + RankFrom(v, y, x + 1, 0));
    }
  }

  /**
   * Reading the ranks from rank 8 down to rank `k + 1` (0-based `k`) from an empty board
   * places `v`'s pieces on them and stops at file 0 of rank `k`, or after the last file of
   * rank 1 once every rank is read.
   */
  lemma {:induction false} PlaceRanks(v: PositionValue, k: nat)
    requires k <= 8
    ensures var r := Place(Cursor(DefaultValue(), 0, 7), Ranks(v, k));
      r.Ok? &&
      (k > 0 ==> r.value.x == 0 && r.value.y == k - 1 && Filled(r.value.board, v, k - 1, 0)) &&
      (k == 0 ==> r.value.x == 8 && r.value.y == 0 && Filled(r.value.board, v, 0, 8))
    decreases 8 - k
  {
    hide Occupant, Filled, Place, Ranks, RankFrom;
    var start := Cursor(DefaultValue(), 0, 7);
    RanksStep(v, k);
    if k == 8 {
      PlaceNothing(start);
      FilledStart(v);
    } else {
      var tail := if k > 0 then "/" else "";
      assert RankText(v, k) == RankFrom(v, k, 0, 0) + tail;
      PlaceRanks(v, k + 1);
      var mid := Place(start, Ranks(v, k + 1)).value;
      assert mid == Cursor(mid.board, 0, k);
      PlaceRank(mid.board, v, k, 0, 0);
      var end := Place(mid, RankFrom(v, k, 0, 0)).value;
      PlaceAppend(start, Ranks(v, k + 1), RankText(v, k));
      PlaceAppend(mid, RankFrom(v, k, 0, 0), tail);
      if k > 0 {
        FilledNextRank(end.board, v, k);
        PlaceSlash(end);
      } else {
        PlaceNothing(end);
      }
    }
  }

  /** Reading nothing leaves the cursor where it is. */
  lemma PlaceNothing(w: Cursor)
    ensures Place(w, "") == Ok(w)
  {
  }

  /** Reading '/' moves to file 0 of the rank below. */
  lemma PlaceSlash(w: Cursor)
    ensures Place(w, "/") == Ok(Cursor(w.board, 0, w.y - 1))
  {
    assert "/"[0] == '/' && "/"[1..] == "";
    assert LetterPiece('/') == None;
    assert Step(w, '/') == Ok(Cursor(w.board, 0, w.y - 1));
  }

  /** The placement text `get_fen` writes contains no space. */
  lemma RanksNoSpace(v: PositionValue)
    ensures NoSpace(Ranks(v, 0))
  {
    hide Ranks, RankText, RankFrom, Filled;
    PlaceRanks(v, 0);
    var s := Ranks(v, 0);
    forall k | 0 <= k < |s| ensures s[k] != ' ' {
      assert PlacementChar(s[k]);
    }
  }

  /** On a consistent board, reading the placement text `get_fen` writes rebuilds the bitboards. */
  lemma BoardRoundTrip(v: PositionValue)
    requires Consistent(v)
    ensures var r := Place(Cursor(DefaultValue(), 0, 7), Ranks(v, 0));
      r.Ok? && r.value.board.colours == v.colours && r.value.board.pieces == v.pieces
  {
    hide Ranks, RankText, RankFrom;
    PlaceRanks(v, 0);
    FilledAll(Place(Cursor(DefaultValue(), 0, 7), Ranks(v, 0)).value.board, v);
  }

  /**
   * Reading what `get_fen` writes gives back the position: for a consistent board and an
   * en-passant square that `from_string` can produce, `set_fen(get_fen(p))` restores `p`.
   */
  lemma FenRoundTrip(v: PositionValue)
    requires Consistent(v)
    requires v.ep.Some? ==> v.ep.value.x < 10 && v.ep.value.y < 8
    ensures ParseFen(FenOf(v)) == Ok(v)
  {
    hide Ranks, RankText, RankFrom, Place, Split, Join, NatText, CastleText, EpText, ParseU8, CastlingField, EpField;
    var fields := Fields(v);
    var fen := FenOf(v);
    assert fields[0] == Ranks(v, 0) && fields[1] == SideText(v.turn);
    assert fields[2] == CastleText(v.castling) && fields[3] == EpText(v.ep);
    assert fields[4] == NatText(v.halfmoves) && fields[5] == NatText(v.fullmoves);
    RanksNoSpace(v);
    CastleTextNoSpace(v.castling);
    EpRoundTrip(v.ep);
    U8RoundTrip(v.halfmoves);
    U8RoundTrip(v.fullmoves);
    CastleRoundTrip(v.castling);
    BoardRoundTrip(v);
    assert forall k | 0 <= k < 6 :: NoSpace(fields[k]);
    SplitJoin(fields);
    assert fen != "startpos" by {
      JoinSix(fields[0], fields[1], fields[2], fields[3], fields[4], fields[5]);
      assert fen[|fields[0]|] == ' ';
      assert !NoSpace(fen);
      assert NoSpace("startpos");
    }
    assert Split(fen) == fields;
    assert ParseFen(fen) == ParseFields(fen);
    assert (if fields[1] == "w" then White else Black) == v.turn;
  }

  /**
   * Every FEN that `get_fen` writes is read back and written again unchanged: the property
   * the valid-FEN tests check, for every text in `get_fen`'s range.
   */
  lemma GetFenOfSetFen(v: PositionValue)
    requires Consistent(v)
    requires v.ep.Some? ==> v.ep.value.x < 10 && v.ep.value.y < 8
    ensures ParseFen(FenOf(v)).Ok? && Printable(ParseFen(FenOf(v)).value.ep)
    ensures FenOf(ParseFen(FenOf(v)).value) == FenOf(v)
  {
    FenRoundTrip(v);
  }

  /** Two consistent positions with the same FEN are the same position. */
  lemma FenInjective(v: PositionValue, w: PositionValue)
    requires Consistent(v) && Consistent(w)
    requires v.ep.Some? ==> v.ep.value.x < 10 && v.ep.value.y < 8
    requires w.ep.Some? ==> w.ep.value.x < 10 && w.ep.value.y < 8
    ensures FenOf(v) == FenOf(w) <==> v == w
  {
    FenRoundTrip(v);
    FenRoundTrip(w);
  }

  // ---------------------------------------------------------------- the methods

  /** A text read successfully has at least six fields, each read successfully, and the position is built from them. */
  lemma FieldsOf(fen: string)
    requires ParseFields(fen).Ok?
    ensures var parts := Split(fen);
      var placed := Place(Cursor(DefaultValue(), 0, 7), parts[0]);
      |parts| >= 6 && placed.Ok? && (parts[1] == "w" || parts[1] == "b") &&
      CastlingField(parts[2]).Ok? && EpField(parts[3]).Ok? && ParseU8(parts[4]).Ok? && ParseU8(parts[5]).Ok? &&
      ParseFields(fen).value == placed.value.board.(turn := if parts[1] == "w" then White else Black,
        halfmoves := ParseU8(parts[4]).value, fullmoves := ParseU8(parts[5]).value,
        ep := EpField(parts[3]).value, castling := CastlingField(parts[2]).value)
  {
  }

  /**
   * The placement loop of `set_fen`: walk the field character by character with the file
   * and rank cursors, setting each piece with `set_piece`. Only the bitboards change.
   */
  method PlacePieces(pos: Position, placement: string)
    requires Place(Cursor(pos.State(), 0, 7), placement).Ok?
    modifies pos
    ensures pos.State() == Place(Cursor(old(pos.State()), 0, 7), placement).value.board
  {
    hide Placed, LetterPiece;
    ghost var walk := Place(Cursor(pos.State(), 0, 7), placement);
    var x: int, y: int := 0, 7;
    var i := 0;
    while i < |placement|
      invariant 0 <= i <= |placement|
      invariant Place(Cursor(pos.State(), x, y), placement[i..]) == walk
    {
      var c := placement[i];
      assert placement[i..][0] == c && placement[i..][1..] == placement[i + 1..];
      var sq := Square(x % 256, y % 256);
      match LetterPiece(c) {
        case Some((side, piece)) =>
          pos.SetPiece(sq, side, piece);
          x := x + 1;
        case None =>
          if '1' <= c <= '8' {
            x := x + (c as int - '0' as int);
          } else if c == '/' {
            x := 0;
            y := y - 1;
          } else {
            assert false;
          }
      }
      i := i + 1;
    }
  }

  /**
   * The castling loop of `set_fen`: each letter of the field sets its right; the rights start
   * from those of the default position, which holds none.
   */
  method SetRights(pos: Position, field: string)
    requires ParseRights(pos.castling, field).Ok?
    modifies pos
    ensures pos.State() == old(pos.State()).(castling := ParseRights(old(pos.castling), field).value)
  {
    ghost var rights := ParseRights(pos.castling, field);
    var k := 0;
    while k < |field|
      invariant 0 <= k <= |field|
      invariant ParseRights(pos.castling, field[k..]) == rights
      invariant pos.State() == old(pos.State()).(castling := pos.castling)
    {
      assert field[k..][0] == field[k] && field[k..][1..] == field[k + 1..];
      match CastleOf(field[k]) {
        case Some(right) =>
          pos.castling := pos.castling[CastlingIndex(right) := true];
        case None =>
          assert false;
      }
      k := k + 1;
    }
  }

  /**
   * `set_fen`: "startpos" is read as the initial position; otherwise the position is reset
   * to the default, the placement is walked with `set_piece`, and the side, castling rights,
   * en-passant square and counters are assigned. The source panics on a text `ParseFen`
   * rejects, part-way through the update; here such a text is excluded. Whatever the position
   * held before, it ends up holding exactly what the text describes.
   */
  method SetFen(pos: Position, fen: string)
    requires ParseFen(fen).Ok?
    modifies pos
    ensures pos.State() == ParseFen(fen).value
    decreases if fen == "startpos" then 1 else 0
  {
    hide ParseFields, Split, Place, ParseU8, ParseRights, FromString;
    if fen == "startpos" {
      assert StartFen != "startpos" by {
        assert |StartFen| == 56;
      }
      SetFen(pos, StartFen);
      return;
    }
    FieldsOf(fen);
    pos.Assign(DefaultValue());
    var parts := Split(fen);

    // Pieces
    PlacePieces(pos, parts[0]);

    // Side to move
    if parts[1] == "w" {
      pos.turn := White;
    } else if parts[1] == "b" {
      pos.turn := Black;
    } else {
      assert false;
    }

    // Castling permissions
    if parts[2] != "-" {
      SetRights(pos, parts[2]);
    }

    // En passant
    if parts[3] == "-" {
      pos.ep := None;
    } else {
      pos.ep := Some(FromString(parts[3]).value);
    }

    // Counters
    pos.halfmoves := ParseU8(parts[4]).value;
    pos.fullmoves := ParseU8(parts[5]).value;
  }

  /** `from_fen`: a new default position, then `set_fen`. */
  method FromFen(fen: string) returns (pos: Position)
    requires ParseFen(fen).Ok?
    ensures fresh(pos) && pos.State() == ParseFen(fen).value
  {
    pos := new Position();
    SetFen(pos, fen);
  }

  /**
   * One rank of `get_fen`: each file from a to h, a piece's letter after any pending count of
   * empty squares, then the count left at the end of the rank, then '/' unless it is rank 1.
   */
  method AppendRank(fen: string, v: PositionValue, y: nat) returns (r: string)
    requires y < 8
    ensures r == fen + RankText(v, y)
  {
    hide Occupant;
    r := fen;
    var empty := 0;
    var x := 0;
    while x < 8
      invariant 0 <= x <= 8 && 0 <= empty <= x
      invariant r + RankFrom(v, y, x, empty) == fen + RankFrom(v, y, 0, 0)
    {
      var found := Occupant(v, Square(x, y));
      match found {
        case Some((side, piece)) =>
          ghost var before := r;
          ghost var pending := EmptyText(empty);
          ghost var letter := [PieceLetter(side, piece)];
          assert RankFrom(v, y, x, empty) == pending + letter + RankFrom(v, y, x + 1, 0);
          if empty > 0 {
            r := r + NatText(empty);
            empty := 0;
          }
          assert r == before + pending;
          r := r + [PieceLetter(side, piece)];
          assert r + RankFrom(v, y, x + 1, 0) == before + (pending + letter + RankFrom(v, y, x + 1, 0));
        case None =>
          assert RankFrom(v, y, x, empty) == RankFrom(v, y, x + 1, empty + 1);
          empty := empty + 1;
      }
      x := x + 1;
    }
    assert RankFrom(v, y, 8, empty) == EmptyText(empty);
    if empty > 0 {
      r := r + NatText(empty);
    }
    assert r == fen + RankFrom(v, y, 0, 0);
    if y > 0 {
      r := r + "/";
    }
  }

  /** The castling part of `get_fen`: the held rights in the order K Q k q, or "-" for none. */
  method AppendCastling(fen: string, rights: Rights) returns (r: string)
    ensures r == fen + CastleText(rights)
  {
    r := fen;
    if rights[CastlingIndex(WKS)] {
      r := r + "K";
    }
    if rights[CastlingIndex(WQS)] {
      r := r + "Q";
    }
    if rights[CastlingIndex(BKS)] {
      r := r + "k";
    }
    if rights[CastlingIndex(BQS)] {
      r := r + "q";
    }
    if !rights[CastlingIndex(WKS)] && !rights[CastlingIndex(WQS)] &&
       !rights[CastlingIndex(BKS)] && !rights[CastlingIndex(BQS)] {
      r := r + "-";
    }
  }

  /**
   * `get_fen`: the ranks from 8 down to 1, then the side, the castling rights, the
   * en-passant square and the two counters, each after a space.
   */
  method GetFen(pos: Position) returns (fen: string)
    requires Printable(pos.ep)
    ensures fen == FenOf(pos.State())
  {
    hide Ranks, RankText, RankFrom, Join, NatText, CastleText;
    var v := pos.State();
    fen := "";

    // Pieces
    var y: int := 7;
    RanksStep(v, 8);
    while y >= 0
      invariant -1 <= y <= 7
      invariant fen == Ranks(v, y + 1)
    {
      fen := AppendRank(fen, v, y);
      RanksStep(v, y);
      y := y - 1;
    }
    ghost var board := fen;

    // Side to move
    if v.turn == White {
      fen := fen + " w";
    } else {
      fen := fen + " b";
    }

    // Castling
    fen := fen + " ";
    fen := AppendCastling(fen, v.castling);
    ghost var head := board + " " + SideText(v.turn) + " " + CastleText(v.castling);
    assert fen == head;

    // En passant
    match v.ep {
      case Some(sq) =>
        fen := fen + " ";
        fen := fen + ToString(sq);
      case None =>
        fen := fen + " -";
    }
    assert fen == head + " " + EpText(v.ep);

    // Counters
    fen := fen + " ";
    fen := fen + NatText(v.halfmoves);
    fen := fen + " ";
    fen := fen + NatText(v.fullmoves);
    JoinSix(board, SideText(v.turn), CastleText(v.castling), EpText(v.ep), NatText(v.halfmoves),
      NatText(v.fullmoves));
  }
}
