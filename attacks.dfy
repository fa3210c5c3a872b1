/**
 * Attack detection: whether a side has a piece that could capture on a square in one move,
 * whoever is to move and ignoring pins. It is the legality oracle of move generation
 * (castling) and of move application (king safety).
 */
module Attacks {
  import opened Wrappers
  import opened Types
  import opened Squares
  import opened Bitboards
  import opened Masks
  import opened Positions

  /** The bits of `m` that hold a piece of that kind and side: `m & pieces[piece] & colours[side]`. */
  function Hits(v: PositionValue, m: Bitboard, side: Side, piece: Piece): (r: Bitboard)
    ensures forall i | 0 <= i < 64 :: r[i] == (m[i] && Has(v, side, piece, i))
  {
    BitAnd(BitAnd(m, v.pieces[PieceIndex(piece)]), v.colours[SideIndex(side)])
  }

  /**
   * `is_attacked`: the pawn tests (for White, from the squares south-east and south-west of
   * `sq`; for Black, north-east and north-west), then the knight, bishop, rook, queen and king
   * masks from `sq` against all occupied squares, returning at the first that finds a piece
   * of `side`.
   */
  function IsAttacked(v: PositionValue, sq: Square, side: Side): (r: bool)
    requires Indexable(sq)
  {
    var bb := FromSquare(sq);
    var blockers := BitOr(v.colours[0], v.colours[1]);
    if side == White && IsOccupied(Hits(v, East(South(bb)), White, Pawn)) then true
    else if side == White && IsOccupied(Hits(v, West(South(bb)), White, Pawn)) then true
    else if side == Black && IsOccupied(Hits(v, East(North(bb)), Black, Pawn)) then true
    else if side == Black && IsOccupied(Hits(v, West(North(bb)), Black, Pawn)) then true
    else if IsOccupied(Hits(v, MaskKnight(sq, blockers), side, Knight)) then true
    else if IsOccupied(Hits(v, MaskBishop(sq, blockers), side, Bishop)) then true
    else if IsOccupied(Hits(v, MaskRook(sq, blockers), side, Rook)) then true
    else if IsOccupied(Hits(v, MaskQueen(sq, blockers), side, Queen)) then true
    else if IsOccupied(Hits(v, MaskKing(sq, blockers), side, King)) then true
    else false
  }

  // ---------------------------------------------------------------- the reference definition

  /** The rank step a side's pawns advance by. */
  function Forward(side: Side): int
  {
    if side == White then 1 else -1
  }

  /** A piece of `side` and kind `piece` stands on file `x`, rank `y` of the board. */
  predicate PieceAt(v: PositionValue, side: Side, piece: Piece, x: int, y: int)
  {
    InBoard(x, y) && Has(v, side, piece, Index(x, y))
  }

  /** A pawn of `side` stands one file to either side of (x, y) and one rank behind it. */
  predicate PawnAttack(v: PositionValue, x: int, y: int, side: Side)
  {
    PieceAt(v, side, Pawn, x - 1, y - Forward(side)) || PieceAt(v, side, Pawn, x + 1, y - Forward(side))
  }

  /** A knight of `side` stands a knight's jump from (x, y). */
  ghost predicate KnightAttack(v: PositionValue, x: int, y: int, side: Side)
  {
    exists u, w | InBoard(u, w) && KnightJump(u - x, w - y) :: PieceAt(v, side, Knight, u, w)
  }

  /** A king of `side` stands one step from (x, y). */
  ghost predicate KingAttack(v: PositionValue, x: int, y: int, side: Side)
  {
    exists u, w | InBoard(u, w) && KingStep(u - x, w - y) :: PieceAt(v, side, King, u, w)
  }

  /** Some diagonal walk from (x, y) over the occupied squares reaches (u, w). */
  predicate DiagonalReach(v: PositionValue, x: int, y: int, u: int, w: int)
  {
    var occupied := Occupied(v);
    InRay(x, y, NE, occupied, u, w, 7) || InRay(x, y, NW, occupied, u, w, 7) ||
    InRay(x, y, SE, occupied, u, w, 7) || InRay(x, y, SW, occupied, u, w, 7)
  }

  /** Some rank or file walk from (x, y) over the occupied squares reaches (u, w). */
  predicate StraightReach(v: PositionValue, x: int, y: int, u: int, w: int)
  {
    var occupied := Occupied(v);
    InRay(x, y, N, occupied, u, w, 7) || InRay(x, y, E, occupied, u, w, 7) ||
    InRay(x, y, S, occupied, u, w, 7) || InRay(x, y, W, occupied, u, w, 7)
  }

  /** A bishop of `side` is the first piece on some diagonal from (x, y). */
  ghost predicate BishopAttack(v: PositionValue, x: int, y: int, side: Side)
  {
    exists u, w | InBoard(u, w) && DiagonalReach(v, x, y, u, w) :: PieceAt(v, side, Bishop, u, w)
  }

  /** A rook of `side` is the first piece on some rank or file from (x, y). */
  ghost predicate RookAttack(v: PositionValue, x: int, y: int, side: Side)
  {
    exists u, w | InBoard(u, w) && StraightReach(v, x, y, u, w) :: PieceAt(v, side, Rook, u, w)
  }

  /** A queen of `side` is the first piece on some line from (x, y). */
  ghost predicate QueenAttack(v: PositionValue, x: int, y: int, side: Side)
  {
    exists u, w | InBoard(u, w) && (DiagonalReach(v, x, y, u, w) || StraightReach(v, x, y, u, w)) ::
      PieceAt(v, side, Queen, u, w)
  }

  /** The reference: `side` attacks (x, y) with a pawn, knight, bishop, rook, queen or king. */
  ghost predicate Attacked(v: PositionValue, x: int, y: int, side: Side)
  {
    PawnAttack(v, x, y, side) || KnightAttack(v, x, y, side) || BishopAttack(v, x, y, side) ||
    RookAttack(v, x, y, side) || QueenAttack(v, x, y, side) || KingAttack(v, x, y, side)
  }

  // ---------------------------------------------------------------- the bitboard tests against the reference

  /** A masked test finds a piece exactly when some square of the mask holds one. */
  lemma HitsSquares(v: PositionValue, m: Bitboard, side: Side, piece: Piece)
    ensures IsOccupied(Hits(v, m, side, piece)) <==>
      exists x, y | InBoard(x, y) && m[Index(x, y)] :: PieceAt(v, side, piece, x, y)
  {
    if IsOccupied(Hits(v, m, side, piece)) {
      var i :| 0 <= i < 64 && Hits(v, m, side, piece)[i];
      IndexCoords(i);
      assert PieceAt(v, side, piece, i % 8, i / 8);
    }
  }

  /** The pawn test of one diagonal looks at exactly one square, or none off the board. */
  lemma PawnSquare(v: PositionValue, sq: Square, d: Dir, side: Side)
    requires OnBoard(sq) && (d == SE || d == SW || d == NE || d == NW)
    ensures IsOccupied(Hits(v, Step(FromSquare(sq), d), side, Pawn)) <==>
      PieceAt(v, side, Pawn, sq.x + DX(d), sq.y + DY(d))
  {
    SingleFromSquare(sq);
    StepSingle(FromSquare(sq), d, sq.x, sq.y);
    HitsSquares(v, Step(FromSquare(sq), d), side, Pawn);
    var x, y := sq.x + DX(d), sq.y + DY(d);
    if PieceAt(v, side, Pawn, x, y) {
      assert Step(FromSquare(sq), d)[Index(x, y)];
    }
  }

  /** The two pawn tests find a pawn exactly when the reference pawn attack holds. */
  lemma PawnTests(v: PositionValue, sq: Square, side: Side)
    requires OnBoard(sq)
    ensures var bb := FromSquare(sq);
      (if side == White
       then IsOccupied(Hits(v, East(South(bb)), White, Pawn)) || IsOccupied(Hits(v, West(South(bb)), White, Pawn))
       else IsOccupied(Hits(v, East(North(bb)), Black, Pawn)) || IsOccupied(Hits(v, West(North(bb)), Black, Pawn)))
      <==> PawnAttack(v, sq.x, sq.y, side)
  {
    hide Hits, IsOccupied, PieceAt, FromSquare, East, West, North, South;
    if side == White {
      PawnSquare(v, sq, SE, White);
      PawnSquare(v, sq, SW, White);
    } else {
      PawnSquare(v, sq, NE, Black);
      PawnSquare(v, sq, NW, Black);
    }
  }

  /** The knight test finds a knight exactly when one stands a knight's jump away. */
  lemma KnightTest(v: PositionValue, sq: Square, side: Side)
    requires OnBoard(sq)
    ensures IsOccupied(Hits(v, MaskKnight(sq, Occupied(v)), side, Knight)) <==> KnightAttack(v, sq.x, sq.y, side)
  {
    var m := MaskKnight(sq, Occupied(v));
    HitsSquares(v, m, side, Knight);
    forall x, y | InBoard(x, y) ensures m[Index(x, y)] <==> KnightJump(x - sq.x, y - sq.y) {
      KnightMaskSquares(sq, Occupied(v), x, y);
    }
  }

  /** The king test finds a king exactly when one stands a step away. */
  lemma KingTest(v: PositionValue, sq: Square, side: Side)
    requires OnBoard(sq)
    ensures IsOccupied(Hits(v, MaskKing(sq, Occupied(v)), side, King)) <==> KingAttack(v, sq.x, sq.y, side)
  {
    var m := MaskKing(sq, Occupied(v));
    HitsSquares(v, m, side, King);
    forall x, y | InBoard(x, y) ensures m[Index(x, y)] <==> KingStep(x - sq.x, y - sq.y) {
      KingMaskSquares(sq, Occupied(v), x, y);
    }
  }

  /** The bishop test finds a bishop exactly when one is the first piece on a diagonal. */
  lemma BishopTest(v: PositionValue, sq: Square, side: Side)
    requires OnBoard(sq)
    ensures IsOccupied(Hits(v, MaskBishop(sq, Occupied(v)), side, Bishop)) <==> BishopAttack(v, sq.x, sq.y, side)
  {
    var m := MaskBishop(sq, Occupied(v));
    HitsSquares(v, m, side, Bishop);
    forall x, y | InBoard(x, y) ensures m[Index(x, y)] <==> DiagonalReach(v, sq.x, sq.y, x, y) {
      BishopMaskSquares(sq, Occupied(v), x, y);
    }
  }

  /** The rook test finds a rook exactly when one is the first piece on a rank or file. */
  lemma RookTest(v: PositionValue, sq: Square, side: Side)
    requires OnBoard(sq)
    ensures IsOccupied(Hits(v, MaskRook(sq, Occupied(v)), side, Rook)) <==> RookAttack(v, sq.x, sq.y, side)
  {
    var m := MaskRook(sq, Occupied(v));
    HitsSquares(v, m, side, Rook);
    forall x, y | InBoard(x, y) ensures m[Index(x, y)] <==> StraightReach(v, sq.x, sq.y, x, y) {
      RookMaskSquares(sq, Occupied(v), x, y);
    }
  }

  /** The queen test finds a queen exactly when one is the first piece on any line. */
  lemma QueenTest(v: PositionValue, sq: Square, side: Side)
    requires OnBoard(sq)
    ensures IsOccupied(Hits(v, MaskQueen(sq, Occupied(v)), side, Queen)) <==> QueenAttack(v, sq.x, sq.y, side)
  {
    var m := MaskQueen(sq, Occupied(v));
    HitsSquares(v, m, side, Queen);
    forall x, y | InBoard(x, y)
      ensures m[Index(x, y)] <==> DiagonalReach(v, sq.x, sq.y, x, y) || StraightReach(v, sq.x, sq.y, x, y)
    {
      QueenSquare(v, sq, x, y);
    }
  }

  /** One square of the queen mask: reached along a diagonal or along a rank or file. */
  lemma QueenSquare(v: PositionValue, sq: Square, x: int, y: int)
    requires OnBoard(sq) && InBoard(x, y)
    ensures MaskQueen(sq, Occupied(v))[Index(x, y)] <==>
      DiagonalReach(v, sq.x, sq.y, x, y) || StraightReach(v, sq.x, sq.y, x, y)
  {
    BishopMaskSquares(sq, Occupied(v), x, y);
    RookMaskSquares(sq, Occupied(v), x, y);
  }

  /**
   * `is_attacked` agrees with the reference on every square of the board: the early returns
   * make it the disjunction of the six per-piece tests, and each test finds exactly the pieces
   * that attack the square.
   */
  lemma IsAttackedReference(v: PositionValue, sq: Square, side: Side)
    requires OnBoard(sq)
    ensures IsAttacked(v, sq, side) <==> Attacked(v, sq.x, sq.y, side)
  {
    assert BitOr(v.colours[0], v.colours[1]) == Occupied(v);
    PawnTests(v, sq, side);
    KnightTest(v, sq, side);
    BishopTest(v, sq, side);
    RookTest(v, sq, side);
    QueenTest(v, sq, side);
    KingTest(v, sq, side);
  }

  /**
   * White pawns attack a square only from the two squares diagonally one rank below it, and
   * Black pawns only from the two squares one rank above.
   */
  lemma PawnAttackSquares(v: PositionValue, sq: Square, side: Side)
    requires OnBoard(sq)
    ensures PawnAttack(v, sq.x, sq.y, side) <==>
      exists u, w | InBoard(u, w) && (u == sq.x - 1 || u == sq.x + 1) &&
        w == (if side == White then sq.y - 1 else sq.y + 1) :: Has(v, side, Pawn, Index(u, w))
  {
    var w := if side == White then sq.y - 1 else sq.y + 1;
    if PawnAttack(v, sq.x, sq.y, side) {
      if PieceAt(v, side, Pawn, sq.x - 1, w) {
        assert Has(v, side, Pawn, Index(sq.x - 1, w));
      } else {
        assert Has(v, side, Pawn, Index(sq.x + 1, w));
      }
    }
  }

  /**
   * Only the bitboards matter: the side to move, the counters, the en-passant square and the
   * castling flags do not change whether a square is attacked.
   */
  lemma AttackIgnoresState(v: PositionValue, w: PositionValue, sq: Square, side: Side)
    requires Indexable(sq) && v.colours == w.colours && v.pieces == w.pieces
    ensures IsAttacked(v, sq, side) == IsAttacked(w, sq, side)
  {
    hide FromSquare, East, West, North, South, MaskKnight, MaskBishop, MaskRook, MaskQueen, MaskKing, IsOccupied, BitOr, BitAnd;
  }

  /**
   * A slider stops at the first occupied square, whatever its colour: a piece standing further
   * along the same line than an occupied square of that line is not reached from `sq`.
   */
  lemma BlockedSliderMisses(v: PositionValue, sq: Square, d: Dir, cx: int, cy: int, x: int, y: int)
    requires OnBoard(sq) && InBoard(cx, cy) && Occupied(v)[Index(cx, cy)]
    requires InRay(sq.x, sq.y, d, FromEmpty(), cx, cy, 7)
    requires InRay(sq.x, sq.y, d, FromEmpty(), x, y, 7) && Along(d, x, y) > Along(d, cx, cy)
    ensures !InRay(sq.x, sq.y, d, Occupied(v), x, y, 7)
  {
    InRayExactly(sq.x, sq.y, d, Occupied(v), x, y, 7);
  }

  // ---------------------------------------------------------------- attack symmetry

  /** Reaching along a line is symmetric: the walks from (u, w) reach (x, y) just as those from (x, y) reach (u, w). */
  lemma ReachReversed(v: PositionValue, x: int, y: int, u: int, w: int)
    requires InBoard(x, y) && InBoard(u, w)
    ensures DiagonalReach(v, x, y, u, w) <==> DiagonalReach(v, u, w, x, y)
    ensures StraightReach(v, x, y, u, w) <==> StraightReach(v, u, w, x, y)
  {
    hide InRay;
    var occupied := Occupied(v);
    InRayReversed(x, y, NE, occupied, u, w, 7);
    InRayReversed(x, y, NW, occupied, u, w, 7);
    InRayReversed(x, y, SE, occupied, u, w, 7);
    InRayReversed(x, y, SW, occupied, u, w, 7);
    InRayReversed(x, y, N, occupied, u, w, 7);
    InRayReversed(x, y, E, occupied, u, w, 7);
    InRayReversed(x, y, S, occupied, u, w, 7);
    InRayReversed(x, y, W, occupied, u, w, 7);
  }

  /** The sliding mask `is_attacked` casts for a bishop, rook or queen; no mask for the other pieces. */
  function SliderMask(piece: Piece, sq: Square, blockers: Bitboard): Bitboard
    requires Indexable(sq)
  {
    match piece
    case Bishop => MaskBishop(sq, blockers)
    case Rook => MaskRook(sq, blockers)
    case Queen => MaskQueen(sq, blockers)
    case _ => FromEmpty()
  }

  /**
   * The attack seen from the attacker's side: some piece of `side` and kind `piece` casts its
   * own mask over the occupied squares and finds `sq` in it.
   */
  ghost predicate AttackedFrom(v: PositionValue, sq: Square, side: Side, piece: Piece)
    requires OnBoard(sq)
  {
    exists a: Square | OnBoard(a) && Has(v, side, piece, GetIndex(a)) :: SliderMask(piece, a, Occupied(v))[GetIndex(sq)]
  }

  /** A sliding mask cast from `a` holds `b` exactly when the one cast from `b` holds `a`. */
  lemma SliderMaskSymmetric(piece: Piece, a: Square, b: Square, blockers: Bitboard)
    requires OnBoard(a) && OnBoard(b) && (piece == Bishop || piece == Rook || piece == Queen)
    ensures SliderMask(piece, a, blockers)[GetIndex(b)] <==> SliderMask(piece, b, blockers)[GetIndex(a)]
  {
    match piece
    case Bishop => BishopMaskSymmetric(a, b, blockers);
    case Rook => RookMaskSymmetric(a, b, blockers);
    case Queen => QueenMaskSymmetric(a, b, blockers);
  }

  /**
   * Attack symmetry for the sliding pieces: the bishop, rook and queen tests of `is_attacked`,
   * which cast the mask outward from the target square, find a piece exactly when some piece
   * of that kind and side, casting its mask from its own square, reaches the target.
   */
  lemma SliderSymmetry(v: PositionValue, sq: Square, side: Side, piece: Piece)
    requires OnBoard(sq) && (piece == Bishop || piece == Rook || piece == Queen)
    ensures IsOccupied(Hits(v, SliderMask(piece, sq, Occupied(v)), side, piece)) <==> AttackedFrom(v, sq, side, piece)
  {
    hide SliderMask, Hits, IsOccupied, MaskBishop, MaskRook, MaskQueen;
    var occupied := Occupied(v);
    var m := SliderMask(piece, sq, occupied);
    HitsSquares(v, m, side, piece);
    if IsOccupied(Hits(v, m, side, piece)) {
      var x, y :| InBoard(x, y) && m[Index(x, y)] && PieceAt(v, side, piece, x, y);
      var a := Square(x as u8, y as u8);
      assert GetIndex(a) == Index(x, y);
      SliderMaskSymmetric(piece, sq, a, occupied);
      assert OnBoard(a) && Has(v, side, piece, GetIndex(a)) && SliderMask(piece, a, occupied)[GetIndex(sq)];
    }
    if AttackedFrom(v, sq, side, piece) {
      var a :| OnBoard(a) && Has(v, side, piece, GetIndex(a)) && SliderMask(piece, a, occupied)[GetIndex(sq)];
      SliderMaskSymmetric(piece, a, sq, occupied);
      assert GetIndex(a) == Index(a.x as int, a.y as int);
      assert m[Index(a.x as int, a.y as int)] && PieceAt(v, side, piece, a.x as int, a.y as int);
    }
  }

  // ---------------------------------------------------------------- the king square

  /** The side's king bitboard, `colours[side] & pieces[King]`. */
  function Kings(v: PositionValue, side: Side): (r: Bitboard)
    ensures forall i | 0 <= i < 64 :: r[i] == Has(v, side, King, i)
  {
    BitAnd(v.colours[SideIndex(side)], v.pieces[PieceIndex(King)])
  }

  /** The side has a king on the board, so `pop_lsb` on its king bitboard does not overflow. */
  predicate HasKing(v: PositionValue, side: Side)
  {
    IsOccupied(Kings(v, side))
  }

  /**
   * The square `pop_lsb` returns for the side's king bitboard: a square holding a king of that
   * side, and the lowest-indexed one if there are several.
   */
  function KingSquare(v: PositionValue, side: Side): (sq: Square)
    requires HasKing(v, side)
    ensures OnBoard(sq) && Has(v, side, King, GetIndex(sq))
    ensures forall j | 0 <= j < GetIndex(sq) :: !Has(v, side, King, j)
  {
    LowestSquare(Kings(v, side))
  }
}
