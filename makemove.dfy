/**
 * Move application: `makemove` updates a position in place by a pseudolegal move (there is no
 * undo) and answers whether the mover's king is safe afterwards. `Apply` is the position the
 * steps leave, `MakeMove` the in-place update.
 */
module MakeMoves {
  import opened Wrappers
  import opened Types
  import opened Squares
  import opened Bitboards
  import opened Positions
  import opened Attacks
  import opened Moves

  /** The piece a promotion letter stands for. */
  function PromotedPiece(p: PromoPiece): (r: Piece)
    ensures r != Pawn && r != King
  {
    match p
    case PromoKnight => Knight
    case PromoBishop => Bishop
    case PromoRook => Rook
    case PromoQueen => Queen
  }

  /** A pawn move onto the en-passant target. */
  predicate EnPassant(v: PositionValue, mv: Mv, piece: Piece)
  {
    v.ep == Some(mv.to) && piece == Pawn
  }

  /** The byte arithmetic for the square behind `to` stays in range. */
  predicate VictimInRange(side: Side, to: Square)
  {
    if side == White then to.y >= 1 else to.y < 255
  }

  /** The square of the pawn an en-passant capture by `side` removes: one rank behind `to`. */
  function EpVictim(side: Side, to: Square): (sq: Square)
    requires VictimInRange(side, to)
    ensures sq.x == to.x && sq.y == (if side == White then to.y - 1 else to.y + 1)
  {
    if side == White then Square(to.x, to.y - 1) else Square(to.x, to.y + 1)
  }

  /** The en-passant target after the move: the square a pawn's double step passed over. */
  function DoublePushTarget(piece: Piece, mv: Mv): (ep: Option<Square>)
  {
    if piece == Pawn && mv.from.y == 1 && mv.to.y == 3 then Some(Square(mv.from.x, 2))
    else if piece == Pawn && mv.from.y == 6 && mv.to.y == 4 then Some(Square(mv.from.x, 5))
    else None
  }

  /** The promotion step: the pawn bit of `to` removed and the promoted piece's bit added. */
  function Promote(v: PositionValue, to: Square, p: PromoPiece): (w: PositionValue)
    requires Indexable(to)
    ensures w.turn == v.turn && w.halfmoves == v.halfmoves && w.fullmoves == v.fullmoves
    ensures w.ep == v.ep && w.castling == v.castling
  {
    var pieces := v.pieces[PieceIndex(Pawn) := Unset(v.pieces[PieceIndex(Pawn)], to)];
    v.(pieces := pieces[PieceIndex(PromotedPiece(p)) := Set(pieces[PieceIndex(PromotedPiece(p))], to)])
  }

  /**
   * The castling rights after the move: a right survives unless its rook's home square is
   * the origin or destination, or its king's home square is the origin.
   */
  function RemainingRights(rights: Rights, mv: Mv): (r: Rights)
  {
    [rights[0] && mv.from != H1 && mv.to != H1 && mv.from != E1,
     rights[1] && mv.from != A1 && mv.to != A1 && mv.from != E1,
     rights[2] && mv.from != H8 && mv.to != H8 && mv.from != E8,
     rights[3] && mv.from != A8 && mv.to != A8 && mv.from != E8]
  }

  /** The four castling moves of the king, and the rook each one takes along. */
  predicate IsCastle(piece: Piece, mv: Mv)
  {
    piece == King &&
    ((mv.from == E1 && (mv.to == G1 || mv.to == C1)) ||
     (mv.from == E8 && (mv.to == G8 || mv.to == C8)))
  }

  /** The home square of the rook a castling move relocates. */
  function RookFrom(mv: Mv): (sq: Square)
  {
    if mv.to == G1 then H1
    else if mv.to == C1 then A1
    else if mv.to == G8 then H8
    else A8
  }

  /** The square the rook of a castling move lands on. */
  function RookTo(mv: Mv): (sq: Square)
  {
    if mv.to == G1 then F1
    else if mv.to == C1 then D1
    else if mv.to == G8 then F8
    else D8
  }

  /** The side whose back rank a castling move is on. */
  function CastleSide(mv: Mv): Side
  {
    if mv.from == E1 then White else Black
  }

  /** The rook step of castling: the rook's home square cleared and the rook placed beside the king. */
  function CastleRook(v: PositionValue, piece: Piece, mv: Mv): (w: PositionValue)
    ensures w.turn == v.turn && w.halfmoves == v.halfmoves && w.fullmoves == v.fullmoves
    ensures w.ep == v.ep && w.castling == v.castling
  {
    if IsCastle(piece, mv) then Placed(Cleared(v, RookFrom(mv)), RookTo(mv), CastleSide(mv), Rook) else v
  }

  /**
   * What `makemove` needs not to panic before its last step: a piece on the origin, both
   * squares inside the bitboard, room to increment the halfmove counter, and an en-passant
   * victim square inside the bitboard.
   */
  predicate CanApply(v: PositionValue, mv: Mv)
  {
    Indexable(mv.from) && Indexable(mv.to) && PieceOn(v, mv.from).Some? && v.halfmoves < 255 &&
    (EnPassant(v, mv, PieceOn(v, mv.from).value) ==>
      VictimInRange(v.turn, mv.to) && Indexable(EpVictim(v.turn, mv.to)))
  }

  /** The piece on the origin: `get_piece_on(mv.from)`, which must be there. */
  function Mover(v: PositionValue, mv: Mv): (piece: Piece)
    requires Indexable(mv.from) && PieceOn(v, mv.from).Some?
  {
    PieceOn(v, mv.from).value
  }

  /** The bitboards after the piece has moved and a pawn taken en passant has been removed. */
  function Captured(v: PositionValue, mv: Mv): (w: PositionValue)
    requires CanApply(v, mv)
  {
    var moved := Placed(Cleared(Cleared(v, mv.from), mv.to), mv.to, v.turn, Mover(v, mv));
    if EnPassant(v, mv, Mover(v, mv)) then Cleared(moved, EpVictim(v.turn, mv.to)) else moved
  }

  /** The halfmove clock after the move: reset by a pawn move or a capture, else one more. */
  function Clock(v: PositionValue, mv: Mv): (n: u8)
    requires CanApply(v, mv)
  {
    var piece := Mover(v, mv);
    if piece == Pawn || PieceOn(v, mv.to).Some? || EnPassant(v, mv, piece) then 0 else v.halfmoves + 1
  }

  /** The promotion step, when the move has a promotion piece. */
  function Promoted(v: PositionValue, mv: Mv): (w: PositionValue)
    requires Indexable(mv.to)
  {
    if mv.promo.Some? then Promote(v, mv.to, mv.promo.value) else v
  }

  /** The position after the move: every update of `makemove`, with the side to move flipped. */
  function Apply(v: PositionValue, mv: Mv): (w: PositionValue)
    requires CanApply(v, mv)
  {
    var piece := Mover(v, mv);
    CastleRook(Promoted(Captured(v, mv), mv), piece, mv).(
      halfmoves := Clock(v, mv),
      ep := DoublePushTarget(piece, mv),
      castling := RemainingRights(v.castling, mv),
      turn := Opponent(v.turn))
  }

  /** The mover's king is still on the board afterwards, so the legality test can find it. */
  predicate CanMake(v: PositionValue, mv: Mv)
  {
    CanApply(v, mv) && HasKing(Apply(v, mv), v.turn)
  }

  /** The answer of `makemove`: the mover's king is not attacked by the side now to move. */
  function Legal(v: PositionValue, mv: Mv): (r: bool)
    requires CanMake(v, mv)
  {
    var w := Apply(v, mv);
    !IsAttacked(w, KingSquare(w, v.turn), w.turn)
  }

  /** Steps 2 to 4 of `makemove`: the origin and destination cleared and the mover placed on the destination. */
  method MovePiece(pos: Position, mv: Mv, piece: Piece)
    requires Indexable(mv.from) && Indexable(mv.to)
    modifies pos
    ensures pos.State() == Placed(Cleared(Cleared(old(pos.State()), mv.from), mv.to), mv.to, old(pos.turn), piece)
  {
    pos.ClearSquare(mv.from);
    pos.ClearSquare(mv.to);
    pos.SetPiece(mv.to, pos.turn, piece);
  }

  /** The promotion step of `makemove`: the pawn bit of `to` removed and the promoted piece's bit set. */
  method PromoteOn(pos: Position, to: Square, promo: Option<PromoPiece>)
    requires Indexable(to)
    modifies pos
    ensures pos.State() == if promo.Some? then Promote(old(pos.State()), to, promo.value) else old(pos.State())
  {
    match promo {
      case Some(p) =>
        pos.pieces := pos.pieces[PieceIndex(Pawn) := Unset(pos.pieces[PieceIndex(Pawn)], to)];
        pos.pieces := pos.pieces[PieceIndex(PromotedPiece(p)) := Set(pos.pieces[PieceIndex(PromotedPiece(p))], to)];
      case None =>
    }
  }

  /** The castling-rights step of `makemove`: each of the six tests clears the rights it names. */
  method ClearRights(pos: Position, mv: Mv)
    modifies pos
    ensures pos.State() == old(pos.State()).(castling := RemainingRights(old(pos.castling), mv))
  {
    ClearWhiteRights(pos, mv);
    ClearBlackRights(pos, mv);
  }

  /** The three tests for White's rook and king squares. */
  method ClearWhiteRights(pos: Position, mv: Mv)
    modifies pos
    ensures pos.castling == RemainingRights(old(pos.castling), mv)[2 := old(pos.castling)[2]][3 := old(pos.castling)[3]]
    ensures pos.colours == old(pos.colours) && pos.pieces == old(pos.pieces) && pos.turn == old(pos.turn)
    ensures pos.halfmoves == old(pos.halfmoves) && pos.fullmoves == old(pos.fullmoves) && pos.ep == old(pos.ep)
  {
    if mv.from == H1 || mv.to == H1 {
      pos.castling := pos.castling[CastlingIndex(WKS) := false];
    }
    if mv.from == A1 || mv.to == A1 {
      pos.castling := pos.castling[CastlingIndex(WQS) := false];
    }
    if mv.from == E1 {
      pos.castling := pos.castling[CastlingIndex(WKS) := false];
      pos.castling := pos.castling[CastlingIndex(WQS) := false];
    }
  }

  /** The three tests for Black's rook and king squares. */
  method ClearBlackRights(pos: Position, mv: Mv)
    modifies pos
    ensures pos.castling == RemainingRights(old(pos.castling), mv)[0 := old(pos.castling)[0]][1 := old(pos.castling)[1]]
    ensures pos.colours == old(pos.colours) && pos.pieces == old(pos.pieces) && pos.turn == old(pos.turn)
    ensures pos.halfmoves == old(pos.halfmoves) && pos.fullmoves == old(pos.fullmoves) && pos.ep == old(pos.ep)
  {
    if mv.from == H8 || mv.to == H8 {
      pos.castling := pos.castling[CastlingIndex(BKS) := false];
    }
    if mv.from == A8 || mv.to == A8 {
      pos.castling := pos.castling[CastlingIndex(BQS) := false];
    }
    if mv.from == E8 {
      pos.castling := pos.castling[CastlingIndex(BKS) := false];
      pos.castling := pos.castling[CastlingIndex(BQS) := false];
    }
  }

  /** The rook step of `makemove`: each of the four castling moves relocates its rook. */
  method MoveCastlingRook(pos: Position, piece: Piece, mv: Mv)
    modifies pos
    ensures pos.State() == CastleRook(old(pos.State()), piece, mv)
  {
    if piece == King && mv.from == E1 && mv.to == G1 {
      pos.ClearSquare(H1);
      pos.SetPiece(F1, White, Rook);
    }
    if piece == King && mv.from == E1 && mv.to == C1 {
      pos.ClearSquare(A1);
      pos.SetPiece(D1, White, Rook);
    }
    if piece == King && mv.from == E8 && mv.to == G8 {
      pos.ClearSquare(H8);
      pos.SetPiece(F8, Black, Rook);
    }
    if piece == King && mv.from == E8 && mv.to == C8 {
      pos.ClearSquare(A8);
      pos.SetPiece(D8, Black, Rook);
    }
  }

  /** The promotion step touches only the bitboards. */
  lemma PromotedBoard(w: PositionValue, mv: Mv, halfmoves: u8, ep: Option<Square>)
    requires Indexable(mv.to)
    ensures Promoted(w.(halfmoves := halfmoves, ep := ep), mv) == Promoted(w, mv).(halfmoves := halfmoves, ep := ep)
  {
  }

  /** The rook step touches only the bitboards. */
  lemma CastleRookBoard(w: PositionValue, piece: Piece, mv: Mv, halfmoves: u8, ep: Option<Square>, rights: Rights)
    ensures CastleRook(w.(halfmoves := halfmoves, ep := ep, castling := rights), piece, mv) ==
      CastleRook(w, piece, mv).(halfmoves := halfmoves, ep := ep, castling := rights)
  {
  }

  /** The en-passant step of `makemove`: a pawn landing on the target removes the pawn behind it and resets the clock. */
  method CaptureEnPassant(pos: Position, mv: Mv, piece: Piece)
    requires EnPassant(pos.State(), mv, piece) ==>
      VictimInRange(pos.turn, mv.to) && Indexable(EpVictim(pos.turn, mv.to))
    modifies pos
    ensures pos.State() ==
      if EnPassant(old(pos.State()), mv, piece)
      then Cleared(old(pos.State()), EpVictim(old(pos.turn), mv.to)).(halfmoves := 0)
      else old(pos.State())
  {
    if pos.ep == Some(mv.to) && piece == Pawn {
      if pos.turn == White {
        pos.ClearSquare(Square(mv.to.x, mv.to.y - 1));
      } else {
        pos.ClearSquare(Square(mv.to.x, mv.to.y + 1));
      }
      pos.halfmoves := 0;
    }
  }

  /** The en-passant target step of `makemove`: cleared, then set by a pawn's double step. */
  method SetEnPassant(pos: Position, mv: Mv, piece: Piece)
    modifies pos
    ensures pos.State() == old(pos.State()).(ep := DoublePushTarget(piece, mv))
  {
    pos.ep := None;
    if piece == Pawn && mv.from.y == 1 && mv.to.y == 3 {
      pos.ep := Some(Square(mv.from.x, 2));
    }
    if piece == Pawn && mv.from.y == 6 && mv.to.y == 4 {
      pos.ep := Some(Square(mv.from.x, 5));
    }
  }

  /**
   * Steps 1 to 6 of `makemove`: the clock incremented, the piece moved, the clock reset by a
   * pawn move or a capture, and a pawn taken en passant removed.
   */
  method MoveAndCapture(pos: Position, mv: Mv, piece: Piece)
    requires CanApply(pos.State(), mv) && piece == Mover(pos.State(), mv)
    modifies pos
    ensures pos.State() == Captured(old(pos.State()), mv).(halfmoves := Clock(old(pos.State()), mv))
  {
    ghost var v := pos.State();
    var captured := PieceOn(pos.State(), mv.to);
    pos.halfmoves := pos.halfmoves + 1;
    MovePiece(pos, mv, piece);
    if piece == Pawn {
      pos.halfmoves := 0;
    }
    if captured.Some? {
      pos.halfmoves := 0;
    }
    CaptureEnPassant(pos, mv, piece);
  }

  /** The last step of `makemove`: whether the side that just moved has its king out of attack. */
  method KingSafe(pos: Position) returns (safe: bool)
    requires HasKing(pos.State(), Opponent(pos.turn))
    ensures safe == !IsAttacked(pos.State(), KingSquare(pos.State(), Opponent(pos.turn)), pos.turn)
  {
    var ksq, _ := PopLsb(BitAnd(pos.colours[SideIndex(Opponent(pos.turn))], pos.pieces[PieceIndex(King)]));
    safe := !IsAttacked(pos.State(), ksq, pos.turn);
  }

  /** The side-to-move step of `makemove`. */
  method PassTurn(pos: Position)
    modifies pos
    ensures pos.State() == old(pos.State()).(turn := Opponent(old(pos.turn)))
  {
    pos.turn := Opponent(pos.turn);
  }

  /**
   * `makemove`: moves the piece, resets or increments the halfmove clock, removes a pawn taken
   * en passant, sets the en-passant target, promotes, clears castling rights, moves the rook of a
   * castling move and passes the turn, then reports whether the mover's king is safe.
   */
  method MakeMove(pos: Position, mv: Mv) returns (legal: bool)
    requires CanMake(pos.State(), mv)
    modifies pos
    ensures pos.State() == Apply(old(pos.State()), mv)
    ensures legal == Legal(old(pos.State()), mv)
  {
    ghost var v := pos.State();
    var piece := PieceOn(pos.State(), mv.from).value;
    MoveAndCapture(pos, mv, piece);
    SetEnPassant(pos, mv, piece);
    PromoteOn(pos, mv.to, mv.promo);
    PromotedBoard(Captured(v, mv), mv, Clock(v, mv), DoublePushTarget(piece, mv));
    ghost var promoted := Promoted(Captured(v, mv), mv);
    assert pos.State() == promoted.(halfmoves := Clock(v, mv), ep := DoublePushTarget(piece, mv));
    ClearRights(pos, mv);
    ghost var rights := RemainingRights(v.castling, mv);
    assert pos.State() == promoted.(halfmoves := Clock(v, mv), ep := DoublePushTarget(piece, mv), castling := rights);
    MoveCastlingRook(pos, piece, mv);
    CastleRookBoard(promoted, piece, mv, Clock(v, mv), DoublePushTarget(piece, mv), rights);
    PassTurn(pos);
    OpponentInvolution(v.turn);
    ghost var after := CastleRook(promoted, piece, mv).(halfmoves := Clock(v, mv),
      ep := DoublePushTarget(piece, mv), castling := rights, turn := Opponent(v.turn));
    assert pos.State() == after;
    assert after == Apply(v, mv);
    legal := KingSafe(pos);
  }

  // ---------------------------------------------------------------- properties of a move

  /** No bitboard has the square. */
  ghost predicate EmptyAt(v: PositionValue, i: int)
    requires 0 <= i < 64
  {
    (forall c | 0 <= c < 2 :: !v.colours[c][i]) && (forall p | 0 <= p < 6 :: !v.pieces[p][i])
  }

  /** The squares a move may change: origin, destination, en-passant victim and castling rook squares. */
  ghost predicate Touched(v: PositionValue, mv: Mv, i: int)
    requires CanApply(v, mv)
  {
    var piece := Mover(v, mv);
    i == GetIndex(mv.from) || i == GetIndex(mv.to) ||
    (EnPassant(v, mv, piece) && i == GetIndex(EpVictim(v.turn, mv.to))) ||
    (IsCastle(piece, mv) && (i == GetIndex(RookFrom(mv)) || i == GetIndex(RookTo(mv))))
  }

  /** The promotion step changes only the destination's piece bits. */
  lemma PromoteBits(v: PositionValue, to: Square, p: PromoPiece)
    requires Indexable(to)
    ensures var w := Promote(v, to, p);
      w.colours == v.colours &&
      (forall q | 0 <= q < 6 :: w.pieces[q][GetIndex(to)] ==
        if q == PieceIndex(PromotedPiece(p)) then true
        else if q == PieceIndex(Pawn) then false
        else v.pieces[q][GetIndex(to)])
  {
  }

  /** Clearing a square leaves every other square as it was. */
  lemma ClearedSame(v: PositionValue, sq: Square, i: int)
    requires Indexable(sq) && 0 <= i < 64 && i != GetIndex(sq)
    ensures SameAt(Cleared(v, sq), v, i)
  {
  }

  /** Clearing a square empties it. */
  lemma ClearedEmpty(v: PositionValue, sq: Square)
    requires Indexable(sq)
    ensures EmptyAt(Cleared(v, sq), GetIndex(sq))
  {
  }

  /** Placing a piece leaves every other square as it was. */
  lemma PlacedSame(v: PositionValue, sq: Square, side: Side, piece: Piece, i: int)
    requires Indexable(sq) && 0 <= i < 64 && i != GetIndex(sq)
    ensures SameAt(Placed(v, sq, side, piece), v, i)
  {
  }

  /** Promoting leaves every other square as it was. */
  lemma PromoteSame(v: PositionValue, to: Square, p: PromoPiece, i: int)
    requires Indexable(to) && 0 <= i < 64 && i != GetIndex(to)
    ensures SameAt(Promote(v, to, p), v, i)
  {
  }

  /** The rook step changes only the two rook squares. */
  lemma CastleRookSame(v: PositionValue, piece: Piece, mv: Mv, i: int)
    requires 0 <= i < 64
    requires IsCastle(piece, mv) ==> i != GetIndex(RookFrom(mv)) && i != GetIndex(RookTo(mv))
    ensures SameAt(CastleRook(v, piece, mv), v, i)
  {
    if IsCastle(piece, mv) {
      ClearedSame(v, RookFrom(mv), i);
      PlacedSame(Cleared(v, RookFrom(mv)), RookTo(mv), CastleSide(mv), Rook, i);
    }
  }

  /** The board of `Apply` is the board the rook step leaves. */
  lemma ApplyBoard(v: PositionValue, mv: Mv, i: int)
    requires CanApply(v, mv) && 0 <= i < 64
    ensures SameAt(Apply(v, mv), CastleRook(Promoted(Captured(v, mv), mv), Mover(v, mv), mv), i)
  {
  }

  /** The first steps (the move and an en-passant capture) leave untouched squares as they were. */
  lemma CapturedSame(v: PositionValue, mv: Mv, i: int)
    requires CanApply(v, mv) && 0 <= i < 64
    requires i != GetIndex(mv.from) && i != GetIndex(mv.to)
    requires EnPassant(v, mv, Mover(v, mv)) ==> i != GetIndex(EpVictim(v.turn, mv.to))
    ensures SameAt(Captured(v, mv), v, i)
  {
    var piece := Mover(v, mv);
    var a := Cleared(v, mv.from);
    var b := Cleared(a, mv.to);
    var c := Placed(b, mv.to, v.turn, piece);
    ClearedSame(v, mv.from, i);
    ClearedSame(a, mv.to, i);
    PlacedSame(b, mv.to, v.turn, piece, i);
    if EnPassant(v, mv, piece) {
      ClearedSame(c, EpVictim(v.turn, mv.to), i);
    }
  }

  /** Every square outside the origin, destination, en-passant victim and rook squares keeps its bits. */
  lemma ApplyFrame(v: PositionValue, mv: Mv, i: int)
    requires CanApply(v, mv) && 0 <= i < 64 && !Touched(v, mv, i)
    ensures SameAt(Apply(v, mv), v, i)
  {
    var piece := Mover(v, mv);
    var d := Captured(v, mv);
    CapturedSame(v, mv, i);
    var e := Promoted(d, mv);
    if mv.promo.Some? {
      PromoteSame(d, mv.to, mv.promo.value, i);
    }
    CastleRookSame(e, piece, mv, i);
    ApplyBoard(v, mv, i);
  }

  /** The bits of the destination after the first steps: the mover's side and piece, and nothing else. */
  lemma MovedTo(v: PositionValue, mv: Mv)
    requires CanApply(v, mv)
    ensures var w := Captured(v, mv);
      (forall c | 0 <= c < 2 :: w.colours[c][GetIndex(mv.to)] == (c == SideIndex(v.turn))) &&
      (forall p | 0 <= p < 6 :: w.pieces[p][GetIndex(mv.to)] == (p == PieceIndex(Mover(v, mv))))
  {
    var piece := Mover(v, mv);
    var b := Cleared(Cleared(v, mv.from), mv.to);
    var c := Placed(b, mv.to, v.turn, piece);
    ClearedEmpty(Cleared(v, mv.from), mv.to);
    assert forall p | 0 <= p < 6 :: c.pieces[p][GetIndex(mv.to)] == (p == PieceIndex(piece));
    assert forall k | 0 <= k < 2 :: c.colours[k][GetIndex(mv.to)] == (k == SideIndex(v.turn));
    if EnPassant(v, mv, piece) {
      ClearedSame(c, EpVictim(v.turn, mv.to), GetIndex(mv.to));
    }
  }

  /** The piece that ends on the destination: the promotion piece, if any, else the mover. */
  function Landed(v: PositionValue, mv: Mv): (piece: Piece)
    requires CanApply(v, mv)
  {
    if mv.promo.Some? then PromotedPiece(mv.promo.value) else Mover(v, mv)
  }

  /** The destination's bits before the rook step: the mover's side and the landed piece. */
  lemma PromotedTo(v: PositionValue, mv: Mv)
    requires CanApply(v, mv) && (mv.promo.Some? ==> Mover(v, mv) == Pawn)
    ensures var e := Promoted(Captured(v, mv), mv);
      (forall c | 0 <= c < 2 :: e.colours[c][GetIndex(mv.to)] == (c == SideIndex(v.turn))) &&
      (forall p | 0 <= p < 6 :: e.pieces[p][GetIndex(mv.to)] == (p == PieceIndex(Landed(v, mv))))
  {
    var d := Captured(v, mv);
    MovedTo(v, mv);
    if mv.promo.Some? {
      PromoteBits(d, mv.to, mv.promo.value);
    }
  }

  /** A square in exactly one colour and one piece bitboard is reported with that colour and piece. */
  lemma OnlyOccupant(v: PositionValue, sq: Square, side: Side, piece: Piece)
    requires Indexable(sq)
    requires forall c | 0 <= c < 2 :: v.colours[c][GetIndex(sq)] == (c == SideIndex(side))
    requires forall p | 0 <= p < 6 :: v.pieces[p][GetIndex(sq)] == (p == PieceIndex(piece))
    ensures ColourOn(v, sq) == Some(side) && PieceOn(v, sq) == Some(piece)
  {
    PieceIndexBijective(PieceOn(v, sq).value, piece);
  }

  /**
   * After a move whose promotion, if any, is made by a pawn, the destination holds exactly the
   * mover's side and the mover's piece or its promotion piece: whatever stood there is gone
   * from every bitboard.
   */
  lemma ApplyTo(v: PositionValue, mv: Mv)
    requires CanApply(v, mv) && (mv.promo.Some? ==> Mover(v, mv) == Pawn)
    ensures var w := Apply(v, mv);
      (forall c | 0 <= c < 2 :: w.colours[c][GetIndex(mv.to)] == (c == SideIndex(v.turn))) &&
      (forall p | 0 <= p < 6 :: w.pieces[p][GetIndex(mv.to)] == (p == PieceIndex(Landed(v, mv)))) &&
      ColourOn(w, mv.to) == Some(v.turn) && PieceOn(w, mv.to) == Some(Landed(v, mv))
  {
    var i := GetIndex(mv.to);
    var e := Promoted(Captured(v, mv), mv);
    PromotedTo(v, mv);
    CastleRookSame(e, Mover(v, mv), mv, i);
    ApplyBoard(v, mv, i);
    OnlyOccupant(Apply(v, mv), mv.to, v.turn, Landed(v, mv));
  }

  /** Before the rook step, the origin of a move to a different square is empty. */
  lemma PromotedFrom(v: PositionValue, mv: Mv)
    requires CanApply(v, mv) && GetIndex(mv.from) != GetIndex(mv.to)
    ensures EmptyAt(Promoted(Captured(v, mv), mv), GetIndex(mv.from))
  {
    var piece := Mover(v, mv);
    var i := GetIndex(mv.from);
    var a := Cleared(v, mv.from);
    var b := Cleared(a, mv.to);
    ClearedEmpty(v, mv.from);
    ClearedSame(a, mv.to, i);
    PlacedSame(b, mv.to, v.turn, piece, i);
    var c := Placed(b, mv.to, v.turn, piece);
    assert EmptyAt(c, i);
    var d := Captured(v, mv);
    if EnPassant(v, mv, piece) {
      ClearedBits(c, EpVictim(v.turn, mv.to));
    }
    assert EmptyAt(d, i);
    if mv.promo.Some? {
      PromoteSame(d, mv.to, mv.promo.value, i);
    }
  }

  /** After a move to a different square, the origin is empty. */
  lemma ApplyFrom(v: PositionValue, mv: Mv)
    requires CanApply(v, mv) && GetIndex(mv.from) != GetIndex(mv.to)
    ensures EmptyAt(Apply(v, mv), GetIndex(mv.from))
    ensures IsEmptyOn(Apply(v, mv), mv.from) && PieceOn(Apply(v, mv), mv.from) == None
  {
    var i := GetIndex(mv.from);
    var e := Promoted(Captured(v, mv), mv);
    var w := Apply(v, mv);
    PromotedFrom(v, mv);
    CastleRookSame(e, Mover(v, mv), mv, i);
    ApplyBoard(v, mv, i);
    assert SameAt(w, e, i);
    assert EmptyAt(w, i);
    assert forall p | 0 <= p < 6 :: !w.pieces[p][GetIndex(mv.from)];
  }

  /**
   * The halfmove clock restarts exactly on a pawn move or a capture (an en-passant capture is a
   * pawn move); otherwise it counts one more.
   */
  lemma HalfmoveRule(v: PositionValue, mv: Mv)
    requires CanApply(v, mv)
    ensures Apply(v, mv).halfmoves == 0 <==> Mover(v, mv) == Pawn || PieceOn(v, mv.to).Some?
    ensures Apply(v, mv).halfmoves != 0 ==> Apply(v, mv).halfmoves == v.halfmoves + 1
    ensures Apply(v, mv).turn == Opponent(v.turn) && Apply(v, mv).fullmoves == v.fullmoves
  {
  }

  /**
   * A pawn landing on the en-passant target removes the pawn one rank behind it (below for
   * White, above for Black); that square is empty afterwards.
   */
  lemma EnPassantRemoves(v: PositionValue, mv: Mv)
    requires CanApply(v, mv) && EnPassant(v, mv, Mover(v, mv))
    ensures var victim := EpVictim(v.turn, mv.to);
      victim.x == mv.to.x && victim.y == (if v.turn == White then mv.to.y - 1 else mv.to.y + 1) &&
      EmptyAt(Apply(v, mv), GetIndex(victim)) && IsEmptyOn(Apply(v, mv), victim)
  {
    var piece := Mover(v, mv);
    var victim := EpVictim(v.turn, mv.to);
    var i := GetIndex(victim);
    var c := Placed(Cleared(Cleared(v, mv.from), mv.to), mv.to, v.turn, piece);
    ClearedEmpty(c, victim);
    var d := Captured(v, mv);
    var e := Promoted(d, mv);
    if mv.promo.Some? {
      PromoteSame(d, mv.to, mv.promo.value, i);
    }
    assert EmptyAt(e, i);
    CastleRookSame(e, piece, mv, i);
    ApplyBoard(v, mv, i);
  }

  /**
   * The new en-passant target is set exactly by a pawn's double step from its home rank, and
   * is then the square the pawn passed over.
   */
  lemma EnPassantTarget(v: PositionValue, mv: Mv)
    requires CanApply(v, mv)
    ensures Apply(v, mv).ep.Some? <==>
      Mover(v, mv) == Pawn && ((mv.from.y == 1 && mv.to.y == 3) || (mv.from.y == 6 && mv.to.y == 4))
    ensures Apply(v, mv).ep.Some? ==>
      Apply(v, mv).ep.value == Square(mv.from.x, (mv.from.y + mv.to.y) / 2)
  {
  }

  /**
   * Castling rights are only ever cleared: a rook's right goes when its corner is the origin or
   * the destination, and both of a side's rights go when its king's square is the origin.
   */
  lemma RightsOnlyCleared(rights: Rights, mv: Mv)
    ensures forall i | 0 <= i < 4 :: RemainingRights(rights, mv)[i] ==> rights[i]
    ensures var r := RemainingRights(rights, mv);
      (r[CastlingIndex(WKS)] <==> rights[CastlingIndex(WKS)] && mv.from != H1 && mv.to != H1 && mv.from != E1) &&
      (r[CastlingIndex(WQS)] <==> rights[CastlingIndex(WQS)] && mv.from != A1 && mv.to != A1 && mv.from != E1) &&
      (r[CastlingIndex(BKS)] <==> rights[CastlingIndex(BKS)] && mv.from != H8 && mv.to != H8 && mv.from != E8) &&
      (r[CastlingIndex(BQS)] <==> rights[CastlingIndex(BQS)] && mv.from != A8 && mv.to != A8 && mv.from != E8)
  {
  }

  /**
   * A king's castling move from e1 or e8 to the g or c file also moves the rook: h1 to f1, a1
   * to d1, h8 to f8, a8 to d8. The rook's corner is empty afterwards and the square beside the
   * king holds a rook of the castling side.
   */
  lemma CastlingMovesRook(v: PositionValue, mv: Mv)
    requires CanApply(v, mv) && IsCastle(Mover(v, mv), mv)
    ensures mv.to == G1 ==> RookFrom(mv) == H1 && RookTo(mv) == F1 && CastleSide(mv) == White
    ensures mv.to == C1 ==> RookFrom(mv) == A1 && RookTo(mv) == D1 && CastleSide(mv) == White
    ensures mv.to == G8 ==> RookFrom(mv) == H8 && RookTo(mv) == F8 && CastleSide(mv) == Black
    ensures mv.to == C8 ==> RookFrom(mv) == A8 && RookTo(mv) == D8 && CastleSide(mv) == Black
    ensures EmptyAt(Apply(v, mv), GetIndex(RookFrom(mv)))
    ensures Has(Apply(v, mv), CastleSide(mv), Rook, GetIndex(RookTo(mv)))
  {
    var e := Promoted(Captured(v, mv), mv);
    ClearedEmpty(e, RookFrom(mv));
    PlacedSame(Cleared(e, RookFrom(mv)), RookTo(mv), CastleSide(mv), Rook, GetIndex(RookFrom(mv)));
    PlacedBits(Cleared(e, RookFrom(mv)), RookTo(mv), CastleSide(mv), Rook);
    ApplyBoard(v, mv, GetIndex(RookFrom(mv)));
    ApplyBoard(v, mv, GetIndex(RookTo(mv)));
  }

  /** The promotion step keeps a board consistent when the destination holds a pawn. */
  lemma PromoteConsistent(v: PositionValue, to: Square, p: PromoPiece)
    requires Indexable(to) && Consistent(v) && v.pieces[PieceIndex(Pawn)][GetIndex(to)]
    ensures Consistent(Promote(v, to, p))
  {
    var w := Promote(v, to, p);
    PromoteBits(v, to, p);
    forall i | 0 <= i < 64 ensures ConsistentAt(w, i) {
      assert ConsistentAt(v, i);
      if i == GetIndex(to) {
        assert forall q | 0 <= q < 6 && q != 0 :: !v.pieces[q][i];
        assert w.pieces[PieceIndex(PromotedPiece(p))][i];
      } else {
        PromoteSame(v, to, p, i);
      }
    }
  }

  /** Consistency depends on the bitboards alone. */
  lemma ConsistentBoard(v: PositionValue, w: PositionValue)
    requires v.colours == w.colours && v.pieces == w.pieces && Consistent(v)
    ensures Consistent(w)
  {
    forall i | 0 <= i < 64 ensures ConsistentAt(w, i) {
      assert ConsistentAt(v, i);
    }
  }

  /** The first steps keep a board consistent. */
  lemma CapturedConsistent(v: PositionValue, mv: Mv)
    requires CanApply(v, mv) && Consistent(v)
    ensures Consistent(Captured(v, mv))
  {
    var piece := Mover(v, mv);
    var a := Cleared(v, mv.from);
    ClearedConsistent(v, mv.from);
    var b := Cleared(a, mv.to);
    ClearedConsistent(a, mv.to);
    ClearSquareEmpties(a, mv.to);
    PlacedConsistent(b, mv.to, v.turn, piece);
    var c := Placed(b, mv.to, v.turn, piece);
    if EnPassant(v, mv, piece) {
      ClearedConsistent(c, EpVictim(v.turn, mv.to));
    }
  }

  /** The rook step keeps a board consistent when the rook lands on an empty square. */
  lemma CastleRookConsistent(v: PositionValue, piece: Piece, mv: Mv)
    requires Consistent(v) && (IsCastle(piece, mv) ==> IsEmptyOn(v, RookTo(mv)))
    ensures Consistent(CastleRook(v, piece, mv))
  {
    if IsCastle(piece, mv) {
      ClearedConsistent(v, RookFrom(mv));
      ClearedSame(v, RookFrom(mv), GetIndex(RookTo(mv)));
      PlacedConsistent(Cleared(v, RookFrom(mv)), RookTo(mv), CastleSide(mv), Rook);
    }
  }

  /** Before the rook step, the square a castling rook lands on is as it was. */
  lemma RookToUntouched(v: PositionValue, mv: Mv)
    requires CanApply(v, mv) && IsCastle(Mover(v, mv), mv)
    ensures SameAt(Promoted(Captured(v, mv), mv), v, GetIndex(RookTo(mv)))
  {
    var i := GetIndex(RookTo(mv));
    var d := Captured(v, mv);
    CapturedSame(v, mv, i);
    if mv.promo.Some? {
      PromoteSame(d, mv.to, mv.promo.value, i);
    }
  }

  /**
   * What `makemove` takes on trust without checking: a promotion is made by a pawn, and a
   * castling rook lands on an empty square.
   */
  predicate Trusted(v: PositionValue, mv: Mv)
    requires CanApply(v, mv)
  {
    (mv.promo.Some? ==> Mover(v, mv) == Pawn) && (IsCastle(Mover(v, mv), mv) ==> IsEmptyOn(v, RookTo(mv)))
  }

  /**
   * A move keeps board consistency when a promotion is made by a pawn and a castling rook lands
   * on an empty square.
   */
  lemma ApplyConsistent(v: PositionValue, mv: Mv)
    requires CanApply(v, mv) && Consistent(v) && Trusted(v, mv)
    ensures Consistent(Apply(v, mv))
  {
    var piece := Mover(v, mv);
    var d := Captured(v, mv);
    CapturedConsistent(v, mv);
    var e := Promoted(d, mv);
    if mv.promo.Some? {
      MovedTo(v, mv);
      PromoteConsistent(d, mv.to, mv.promo.value);
    }
    if IsCastle(piece, mv) {
      RookToUntouched(v, mv);
    }
    CastleRookConsistent(e, piece, mv);
    ConsistentBoard(CastleRook(e, piece, mv), Apply(v, mv));
  }

  /** A square in two piece bitboards breaks consistency. */
  lemma TwoPieces(w: PositionValue, i: int, p: int, q: int)
    requires 0 <= i < 64 && 0 <= p < 6 && 0 <= q < 6 && p != q && w.pieces[p][i] && w.pieces[q][i]
    ensures !ConsistentAt(w, i)
  {
    if p > q {
      assert !ConsistentAt(w, i) by {
        assert w.pieces[q][i] && w.pieces[p][i];
      }
    }
  }

  /**
   * `makemove` does not check that a promotion is made by a pawn: a move of any other piece
   * that names a different promotion piece leaves two piece bitboards set on the destination.
   */
  lemma NonPawnPromotionBreaks(v: PositionValue, mv: Mv)
    requires CanApply(v, mv) && mv.promo.Some?
    requires Mover(v, mv) != Pawn && PromotedPiece(mv.promo.value) != Mover(v, mv)
    ensures !Consistent(Apply(v, mv))
  {
    hide Apply, Captured, Promoted, CastleRook;
    var piece := Mover(v, mv);
    var promoted := PromotedPiece(mv.promo.value);
    PromotedBoth(v, mv);
    ApplyKeepsTo(v, mv);
    var i := GetIndex(mv.to);
    assert SameAt(Apply(v, mv), Promoted(Captured(v, mv), mv), i);
    PieceIndexBijective(piece, promoted);
    TwoPieces(Apply(v, mv), i, PieceIndex(piece), PieceIndex(promoted));
  }

  /** The rook step leaves the destination of the king's move as it was. */
  lemma ApplyKeepsTo(v: PositionValue, mv: Mv)
    requires CanApply(v, mv)
    ensures SameAt(Apply(v, mv), Promoted(Captured(v, mv), mv), GetIndex(mv.to))
  {
    hide Captured, Promoted, CastleRook;
    var e := Promoted(Captured(v, mv), mv);
    CastleRookKeepsTo(e, Mover(v, mv), mv);
    ApplyBoard(v, mv, GetIndex(mv.to));
  }

  /** The rook step never touches the king's destination. */
  lemma CastleRookKeepsTo(e: PositionValue, piece: Piece, mv: Mv)
    requires Indexable(mv.to)
    ensures SameAt(CastleRook(e, piece, mv), e, GetIndex(mv.to))
  {
    hide CastleRook, SameAt, Cleared, Placed;
    CastleRookSame(e, piece, mv, GetIndex(mv.to));
  }

  /** Before the rook step, a promotion by another piece leaves both it and the promotion piece on the destination. */
  lemma PromotedBoth(v: PositionValue, mv: Mv)
    requires CanApply(v, mv) && mv.promo.Some? && Mover(v, mv) != Pawn
    ensures var e := Promoted(Captured(v, mv), mv);
      e.pieces[PieceIndex(Mover(v, mv))][GetIndex(mv.to)] &&
      e.pieces[PieceIndex(PromotedPiece(mv.promo.value))][GetIndex(mv.to)]
  {
    hide Captured, Promote, Placed, Cleared;
    var d := Captured(v, mv);
    MovedTo(v, mv);
    PromoteBits(d, mv.to, mv.promo.value);
    PieceIndexBijective(Mover(v, mv), Pawn);
  }

  /**
   * `makemove` does not check the square a castling rook lands on: when it holds anything but
   * a rook of the castling side, that square ends up with two colours or two pieces.
   */
  lemma CastleOntoOccupiedBreaks(v: PositionValue, mv: Mv, side: Side, piece: Piece)
    requires CanApply(v, mv) && IsCastle(Mover(v, mv), mv)
    requires Has(v, side, piece, GetIndex(RookTo(mv))) && (side != CastleSide(mv) || piece != Rook)
    ensures !Consistent(Apply(v, mv))
  {
    hide Apply, Captured, Promoted, CastleRook;
    var j := GetIndex(RookTo(mv));
    RookSquareJoined(v, mv, side, piece);
    var w := Apply(v, mv);
    PieceIndexBijective(piece, Rook);
    if side == CastleSide(mv) {
      TwoPieces(w, j, PieceIndex(piece), PieceIndex(Rook));
    } else {
      assert w.colours[0][j] && w.colours[1][j];
      assert !ConsistentAt(w, j);
    }
  }

  /** After castling, the rook's square holds both its previous occupant and the castling rook. */
  lemma RookSquareJoined(v: PositionValue, mv: Mv, side: Side, piece: Piece)
    requires CanApply(v, mv) && IsCastle(Mover(v, mv), mv) && Has(v, side, piece, GetIndex(RookTo(mv)))
    ensures Has(Apply(v, mv), side, piece, GetIndex(RookTo(mv)))
    ensures Has(Apply(v, mv), CastleSide(mv), Rook, GetIndex(RookTo(mv)))
  {
    hide Apply, Captured, Promoted, CastleRook;
    var j := GetIndex(RookTo(mv));
    var e := Promoted(Captured(v, mv), mv);
    RookToUntouched(v, mv);
    assert Has(e, side, piece, j);
    CastleRookOnto(e, Mover(v, mv), mv, side, piece);
    ApplyBoard(v, mv, j);
  }

  /** The two squares of a castling rook are distinct squares of the board. */
  lemma RookSquaresDiffer(king: Piece, mv: Mv)
    requires IsCastle(king, mv)
    ensures OnBoard(RookFrom(mv)) && OnBoard(RookTo(mv)) && GetIndex(RookFrom(mv)) != GetIndex(RookTo(mv))
  {
  }

  /** The rook step adds a rook of the castling side to its square and keeps what stood there. */
  lemma CastleRookOnto(e: PositionValue, king: Piece, mv: Mv, side: Side, piece: Piece)
    requires IsCastle(king, mv) && Has(e, side, piece, GetIndex(RookTo(mv)))
    ensures Has(CastleRook(e, king, mv), side, piece, GetIndex(RookTo(mv)))
    ensures Has(CastleRook(e, king, mv), CastleSide(mv), Rook, GetIndex(RookTo(mv)))
  {
    RookSquaresDiffer(king, mv);
    hide Placed, Cleared, IsCastle, RookFrom, RookTo;
    var j := GetIndex(RookTo(mv));
    ClearedSame(e, RookFrom(mv), j);
    PlacedBits(Cleared(e, RookFrom(mv)), RookTo(mv), CastleSide(mv), Rook);
  }

  /**
   * `makemove` answers true exactly when, in the position after the move, no piece of the side
   * now to move attacks the mover's king.
   */
  lemma LegalMeansKingSafe(v: PositionValue, mv: Mv)
    requires CanMake(v, mv)
    ensures var w := Apply(v, mv);
      var ksq := KingSquare(w, v.turn);
      Legal(v, mv) <==> !Attacked(w, ksq.x, ksq.y, Opponent(v.turn))
  {
    var w := Apply(v, mv);
    IsAttackedReference(w, KingSquare(w, v.turn), w.turn);
  }
}
