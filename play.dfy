/**
 * Play: `makemove` applied to the moves `pseudolegal_moves` lists. `makemove` itself checks
 * neither that a promotion is made by a pawn nor that a castling rook lands on an empty
 * square; the generator never lists such a move, so board consistency survives any sequence
 * of generated moves.
 */
module Play {
  import opened Types
  import opened Squares
  import opened Positions
  import opened Attacks
  import opened Moves
  import opened MoveGen
  import opened MoveRules
  import opened MakeMoves

  /** A pawn move of the rules is made by the pawn on its origin and is never a castling move. */
  lemma PawnTrusted(v: PositionValue, mv: Mv)
    requires CanApply(v, mv) && (SinglePush(v, mv) || DoublePush(v, mv) || PawnCapture(v, mv))
    ensures OwnPawnOn(v, mv.from) && Mover(v, mv) == Pawn && Trusted(v, mv)
  {
  }

  /** A move of a piece other than a pawn names no promotion and is never a castling move. */
  lemma PieceTrusted(v: PositionValue, mv: Mv, piece: Piece)
    requires Consistent(v) && CanApply(v, mv) && PieceMove(v, mv, piece)
    ensures mv.promo.None? && Mover(v, mv) == piece && Trusted(v, mv)
  {
    OccupantExact(v, mv.from, v.turn, piece);
  }

  /** A castling move the rules allow lands its rook on a square of the vacant gap. */
  lemma CastleTrusted(v: PositionValue, mv: Mv)
    requires CanGenerate(v) && CanApply(v, mv) && CastleMove(v, mv)
    ensures mv.promo.None? && IsEmptyOn(v, RookTo(mv)) && Trusted(v, mv)
  {
    hide Attacked, Unattacked, KingSquare, CanApply, Mover;
    var right :| mv == CastlingMove(right) && CastleAllowed(v, right);
    assert RookTo(mv) in CastleGap(right);
  }

  /** Every move the rules allow promotes only with a pawn and castles only onto an empty rook square. */
  lemma RulesTrusted(v: PositionValue, mv: Mv)
    requires Consistent(v) && CanGenerate(v) && CanApply(v, mv) && PseudoLegal(v, mv)
    ensures Trusted(v, mv)
  {
    hide Consistent, CanGenerate, CanApply, Trusted, SinglePush, DoublePush, PawnCapture, PieceMove, CastleMove;
    if SinglePush(v, mv) || DoublePush(v, mv) || PawnCapture(v, mv) {
      PawnTrusted(v, mv);
    } else if PieceMove(v, mv, Knight) {
      PieceTrusted(v, mv, Knight);
    } else if PieceMove(v, mv, Bishop) {
      PieceTrusted(v, mv, Bishop);
    } else if PieceMove(v, mv, Rook) {
      PieceTrusted(v, mv, Rook);
    } else if PieceMove(v, mv, Queen) {
      PieceTrusted(v, mv, Queen);
    } else if PieceMove(v, mv, King) {
      PieceTrusted(v, mv, King);
    } else {
      CastleTrusted(v, mv);
    }
  }

  /**
   * A generated move promotes only with a pawn and castles only onto an empty rook square, so
   * applying it keeps a consistent board consistent.
   */
  lemma GeneratedMoveConsistent(v: PositionValue, mv: Mv)
    requires Consistent(v) && CanGenerate(v) && CanApply(v, mv) && mv in Pseudolegal(v)
    ensures Trusted(v, mv) && Consistent(Apply(v, mv))
  {
    hide *;
    PseudolegalMembers(v, mv);
    RulesTrusted(v, mv);
    ApplyConsistent(v, mv);
  }

  /**
   * Each move is listed by `pseudolegal_moves` in the position the moves before it lead to,
   * and `makemove` can apply it there.
   */
  ghost predicate Playable(v: PositionValue, moves: seq<Mv>)
    decreases |moves|
  {
    moves == [] ||
    (CanGenerate(v) && CanApply(v, moves[0]) && moves[0] in Pseudolegal(v) &&
     Playable(Apply(v, moves[0]), moves[1..]))
  }

  /** The position after `makemove` has applied each move in turn. */
  function Played(v: PositionValue, moves: seq<Mv>): PositionValue
    requires Playable(v, moves)
    decreases |moves|
  {
    if moves == [] then v else Played(Apply(v, moves[0]), moves[1..])
  }

  /** Board consistency holds after any sequence of generated moves applied by `makemove`. */
  lemma {:induction false} PlayedConsistent(v: PositionValue, moves: seq<Mv>)
    requires Consistent(v) && Playable(v, moves)
    ensures Consistent(Played(v, moves))
    decreases |moves|
  {
    if moves != [] {
      GeneratedMoveConsistent(v, moves[0]);
      PlayedConsistent(Apply(v, moves[0]), moves[1..]);
    }
  }
}
