/** The enums of the crate root: pieces, sides and castling rights, each used as an array index. */
module Types {
  datatype Piece = Pawn | Knight | Bishop | Rook | Queen | King

  datatype Side = White | Black

  datatype Castling = WKS | WQS | BKS | BQS

  /** The discriminant of a piece, which indexes the six piece bitboards. */
  function PieceIndex(p: Piece): (i: nat)
    ensures i < 6
  {
    match p
    case Pawn => 0
    case Knight => 1
    case Bishop => 2
    case Rook => 3
    case Queen => 4
    case King => 5
  }

  /** The piece whose discriminant is `i`. */
  function PieceOf(i: nat): (p: Piece)
    requires i < 6
    ensures PieceIndex(p) == i
  {
    if i == 0 then Pawn
    else if i == 1 then Knight
    else if i == 2 then Bishop
    else if i == 3 then Rook
    else if i == 4 then Queen
    else King
  }

  /** The discriminant of a side, which indexes the two colour bitboards. */
  function SideIndex(s: Side): (i: nat)
    ensures i < 2
    ensures i == 0 <==> s == White
  {
    match s
    case White => 0
    case Black => 1
  }

  /** The discriminant of a castling right, which indexes the four castling flags. */
  function CastlingIndex(c: Castling): (i: nat)
    ensures i < 4
  {
    match c
    case WKS => 0
    case WQS => 1
    case BKS => 2
    case BQS => 3
  }

  /** Distinct pieces index distinct bitboards, and every index 0..5 belongs to exactly one piece. */
  lemma PieceIndexBijective(p: Piece, q: Piece)
    ensures PieceIndex(p) == PieceIndex(q) <==> p == q
    ensures PieceOf(PieceIndex(p)) == p
  {
  }

  /** Distinct castling rights index distinct flags. */
  lemma CastlingIndexInjective(c: Castling, d: Castling)
    ensures CastlingIndex(c) == CastlingIndex(d) <==> c == d
  {
  }

  /** The opposite side: `!White == Black` and `!Black == White`. */
  function Opponent(s: Side): (r: Side)
    ensures r != s
  {
    match s
    case White => Black
    case Black => White
  }

  /** Taking the opposite side twice gives back the side. */
  lemma OpponentInvolution(s: Side)
    ensures Opponent(Opponent(s)) == s
    ensures SideIndex(Opponent(s)) == 1 - SideIndex(s)
  {
  }
}
