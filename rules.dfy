/**
 * The rules `pseudolegal_moves` implements, stated on files and ranks rather than on
 * bitboards: pawn pushes and captures, the moves of the other pieces along their attack
 * patterns, and castling guarded by vacant and unattacked squares. The main lemma says the
 * generated list holds exactly the moves these rules allow.
 */
module MoveRules {
  import opened Wrappers
  import opened Types
  import opened Squares
  import opened Bitboards
  import opened Masks
  import opened Positions
  import opened Attacks
  import opened Moves
  import opened MoveGen

  // ---------------------------------------------------------------- the rules

  /** A pawn of the side to move stands on `sq`. */
  predicate OwnPawnOn(v: PositionValue, sq: Square)
  {
    OnBoard(sq) && Has(v, v.turn, Pawn, GetIndex(sq))
  }

  /** A pawn move names a promotion piece exactly when it reaches the last rank. */
  predicate PromotionChosen(side: Side, m: Mv)
  {
    if m.to.y as int == PromotionRank(side) then m.promo.Some? else m.promo.None?
  }

  /** The rank a pawn of the side starts on: rank 2 for White, rank 7 for Black. */
  function HomeRank(side: Side): int
  {
    if side == White then 1 else 6
  }

  /** A pawn steps one rank forward onto a vacant square. */
  predicate SinglePush(v: PositionValue, m: Mv)
  {
    OwnPawnOn(v, m.from) && OnBoard(m.to) &&
    m.to.x == m.from.x && m.to.y as int == m.from.y as int + Forward(v.turn) &&
    !Occupied(v)[GetIndex(m.to)] && PromotionChosen(v.turn, m)
  }

  /** A pawn on its home rank steps two ranks forward, over a vacant square onto a vacant square. */
  predicate DoublePush(v: PositionValue, m: Mv)
  {
    OwnPawnOn(v, m.from) && OnBoard(m.to) && m.from.y as int == HomeRank(v.turn) &&
    m.to.x == m.from.x && m.to.y as int == m.from.y as int + 2 * Forward(v.turn) &&
    !Occupied(v)[Index(m.from.x as int, m.from.y as int + Forward(v.turn))] &&
    !Occupied(v)[GetIndex(m.to)] && m.promo.None?
  }

  /**
   * The en-passant square has the index of `sq`. The test is on bits, so an en-passant
   * square off the board counts for the on-board square with its index.
   */
  predicate EpAt(v: PositionValue, sq: Square)
  {
    v.ep.Some? && GetIndex(v.ep.value) == GetIndex(sq)
  }

  /** A pawn steps diagonally forward onto a piece of the other side or onto the en-passant square. */
  predicate PawnCapture(v: PositionValue, m: Mv)
  {
    OwnPawnOn(v, m.from) && OnBoard(m.to) &&
    (m.to.x as int == m.from.x as int + 1 || m.to.x as int == m.from.x as int - 1) &&
    m.to.y as int == m.from.y as int + Forward(v.turn) &&
    (Them(v)[GetIndex(m.to)] || EpAt(v, m.to)) && PromotionChosen(v.turn, m)
  }

  /**
   * A piece other than a pawn on (x, y) reaches (u, w): a knight's jump, a king's step, or
   * the first occupied square or any square before it along a diagonal (bishop), a rank or
   * file (rook), or either (queen).
   */
  predicate Reaches(v: PositionValue, piece: Piece, x: int, y: int, u: int, w: int)
  {
    match piece
    case Pawn => false
    case Knight => KnightJump(u - x, w - y)
    case Bishop => DiagonalReach(v, x, y, u, w)
    case Rook => StraightReach(v, x, y, u, w)
    case Queen => DiagonalReach(v, x, y, u, w) || StraightReach(v, x, y, u, w)
    case King => KingStep(u - x, w - y)
  }

  /** A piece of the side to move goes to a square it reaches that its own side does not occupy. */
  predicate PieceMove(v: PositionValue, m: Mv, piece: Piece)
  {
    OnBoard(m.from) && Has(v, v.turn, piece, GetIndex(m.from)) && OnBoard(m.to) &&
    !Us(v)[GetIndex(m.to)] && m.promo.None? &&
    Reaches(v, piece, m.from.x as int, m.from.y as int, m.to.x as int, m.to.y as int)
  }

  /** The side a castling right belongs to. */
  function Owner(right: Castling): Side
  {
    if right == WKS || right == WQS then White else Black
  }

  /** The squares between king and rook, which must be vacant. */
  function CastleGap(right: Castling): (r: set<Square>)
    ensures forall sq | sq in r :: OnBoard(sq)
  {
    match right
    case WKS => {F1, G1}
    case WQS => {B1, C1, D1}
    case BKS => {F8, G8}
    case BQS => {B8, C8, D8}
  }

  /** The squares the king crosses or lands on, which must not be attacked; b1 and b8 are not among them. */
  function CastlePath(right: Castling): (r: set<Square>)
    ensures forall sq | sq in r :: OnBoard(sq)
  {
    match right
    case WKS => {F1, G1}
    case WQS => {C1, D1}
    case BKS => {F8, G8}
    case BQS => {C8, D8}
  }

  /**
   * Castling is allowed: the right belongs to the side to move and is still held, its king is
   * not attacked, the gap is vacant and no square of the king's path is attacked.
   */
  ghost predicate CastleAllowed(v: PositionValue, right: Castling)
    requires HasKing(v, v.turn)
  {
    var them := Opponent(v.turn);
    var k := KingSquare(v, v.turn);
    Owner(right) == v.turn && v.castling[CastlingIndex(right)] &&
    !Attacked(v, k.x as int, k.y as int, them) &&
    GapClear(v, CastleGap(right)) && Unattacked(v, CastlePath(right), them)
  }

  /** No piece stands on any of the squares. */
  predicate GapClear(v: PositionValue, squares: set<Square>)
    requires forall sq | sq in squares :: OnBoard(sq)
  {
    forall sq | sq in squares :: !Occupied(v)[GetIndex(sq)]
  }

  /** `side` attacks none of the squares. */
  ghost predicate Unattacked(v: PositionValue, squares: set<Square>, side: Side)
  {
    forall sq | sq in squares :: !Attacked(v, sq.x as int, sq.y as int, side)
  }

  /** The move is the king's move of an allowed castling. */
  ghost predicate CastleMove(v: PositionValue, m: Mv)
    requires HasKing(v, v.turn)
  {
    exists right :: m == CastlingMove(right) && CastleAllowed(v, right)
  }

  /** A pseudolegal move: a pawn move, a move of another piece, or castling. */
  ghost predicate PseudoLegal(v: PositionValue, m: Mv)
    requires HasKing(v, v.turn)
  {
    SinglePush(v, m) || DoublePush(v, m) || PawnCapture(v, m) ||
    PieceMove(v, m, Knight) || PieceMove(v, m, Bishop) || PieceMove(v, m, Rook) ||
    PieceMove(v, m, Queen) || PieceMove(v, m, King) || CastleMove(v, m)
  }

  // ---------------------------------------------------------------- the pawn target bitboards, square by square

  /** One rank forward takes every square one rank further for the side and drops the squares leaving the board. */
  lemma AheadSquare(b: Bitboard, side: Side, x: int, y: int)
    requires InBoard(x, y)
    ensures Advance(b, side)[Index(x, y)] == (InBoard(x, y - Forward(side)) && b[Index(x, y - Forward(side))])
  {
    ShiftSquares(b, x, y);
  }

  /** The square of index `i` is vacant exactly when neither side occupies it. */
  lemma VacantSquare(v: PositionValue, i: int)
    requires 0 <= i < 64
    ensures Vacant(v)[i] == !Occupied(v)[i]
    ensures BitAnd(Us(v), v.pieces[PieceIndex(Pawn)])[i] == Has(v, v.turn, Pawn, i)
  {
  }

  /** The single-push targets: vacant squares with a pawn of the side to move one rank behind. */
  lemma SinglesSquare(v: PositionValue, x: int, y: int)
    requires InBoard(x, y)
    ensures var f := Forward(v.turn);
      Singles(v)[Index(x, y)] ==
      (InBoard(x, y - f) && Has(v, v.turn, Pawn, Index(x, y - f)) && !Occupied(v)[Index(x, y)])
  {
    AheadSquare(Own(v, Pawn), v.turn, x, y);
    VacantSquare(v, Index(x, y));
    if InBoard(x, y - Forward(v.turn)) {
      VacantSquare(v, Index(x, y - Forward(v.turn)));
    }
  }

  /** The double-push targets: vacant squares two ranks ahead of a home-rank pawn, over a vacant square. */
  lemma DoublesSquare(v: PositionValue, x: int, y: int)
    requires InBoard(x, y)
    ensures var f := Forward(v.turn);
      Doubles(v)[Index(x, y)] ==
      (InBoard(x, y - 2 * f) && y - 2 * f == HomeRank(v.turn) && Has(v, v.turn, Pawn, Index(x, y - 2 * f)) &&
       !Occupied(v)[Index(x, y - f)] && !Occupied(v)[Index(x, y)])
  {
    var f := Forward(v.turn);
    var home := if v.turn == White then Rank(1) else Rank(6);
    var once := BitAnd(Advance(BitAnd(Own(v, Pawn), home), v.turn), Vacant(v));
    AheadSquare(once, v.turn, x, y);
    VacantSquare(v, Index(x, y));
    if InBoard(x, y - f) {
      VacantSquare(v, Index(x, y - f));
      AheadSquare(BitAnd(Own(v, Pawn), home), v.turn, x, y - f);
      if InBoard(x, y - 2 * f) {
        VacantSquare(v, Index(x, y - 2 * f));
        assert Index(x, y - 2 * f) / 8 == y - 2 * f;
      }
    }
  }

  /** A square the pawn captures may land on: the other side's pieces and the en-passant square. */
  lemma CaptureSquare(v: PositionValue, x: int, y: int)
    requires InBoard(x, y) && (v.ep.Some? ==> Indexable(v.ep.value))
    ensures BitOr(Them(v), EpBoard(v))[Index(x, y)] == (Them(v)[Index(x, y)] || EpAt(v, Square(x, y)))
  {
  }

  /** The capture targets towards file h: a pawn one file to the left and one rank behind. */
  lemma EastSquare(v: PositionValue, x: int, y: int)
    requires InBoard(x, y) && (v.ep.Some? ==> Indexable(v.ep.value))
    ensures var f := Forward(v.turn);
      EastCaptures(v)[Index(x, y)] ==
      (InBoard(x - 1, y - f) && Has(v, v.turn, Pawn, Index(x - 1, y - f)) &&
       (Them(v)[Index(x, y)] || EpAt(v, Square(x, y))))
  {
    ShiftSquares(Advance(Own(v, Pawn), v.turn), x, y);
    CaptureSquare(v, x, y);
    if x >= 1 {
      AheadSquare(Own(v, Pawn), v.turn, x - 1, y);
      if InBoard(x - 1, y - Forward(v.turn)) {
        VacantSquare(v, Index(x - 1, y - Forward(v.turn)));
      }
    }
  }

  /** The capture targets towards file a: a pawn one file to the right and one rank behind. */
  lemma WestSquare(v: PositionValue, x: int, y: int)
    requires InBoard(x, y) && (v.ep.Some? ==> Indexable(v.ep.value))
    ensures var f := Forward(v.turn);
      WestCaptures(v)[Index(x, y)] ==
      (InBoard(x + 1, y - f) && Has(v, v.turn, Pawn, Index(x + 1, y - f)) &&
       (Them(v)[Index(x, y)] || EpAt(v, Square(x, y))))
  {
    ShiftSquares(Advance(Own(v, Pawn), v.turn), x, y);
    CaptureSquare(v, x, y);
    if x <= 6 {
      AheadSquare(Own(v, Pawn), v.turn, x + 1, y);
      if InBoard(x + 1, y - Forward(v.turn)) {
        VacantSquare(v, Index(x + 1, y - Forward(v.turn)));
      }
    }
  }

  /** File and rank are read back from an index by `% 8` and `/ 8`. */
  lemma IndexSplit(y: int, x: int)
    requires 0 <= y && 0 <= x < 8
    ensures (8 * y + x) % 8 == x && (8 * y + x) / 8 == y
  {
  }

  /** The square `dx` files and `dy` ranks from `to` is the one `from_index` gives for the index moved by `offset`. */
  lemma Origin(to: Square, dx: int, dy: int, offset: int)
    requires OnBoard(to) && InBoard(to.x as int + dx, to.y as int + dy) && offset == dx + 8 * dy
    ensures 0 <= GetIndex(to) + offset < 64
    ensures FromIndex(GetIndex(to) + offset) == Square(to.x as int + dx, to.y as int + dy)
  {
    var x, y := to.x as int + dx, to.y as int + dy;
    var j := GetIndex(to) + offset;
    assert j == 8 * y + x;
    IndexSplit(y, x);
    assert FromIndex(j) == Square(j % 8, j / 8);
  }

  // ---------------------------------------------------------------- the generated lists against the rules

  /** A move of a pawn loop over `b`: to a target, from the square `dx` files and `dy` ranks away. */
  predicate LoopMove(b: Bitboard, dx: int, dy: int, promotion: Option<int>, m: Mv)
  {
    OnBoard(m.to) && b[GetIndex(m.to)] &&
    m.from.x as int == m.to.x as int + dx && m.from.y as int == m.to.y as int + dy && PromotesAs(promotion, m)
  }

  /**
   * A pawn loop over targets whose pawns stand `dx` files and `dy` ranks away lists exactly
   * the moves from that square to a target, with the promotion the target's rank calls for.
   */
  lemma PawnLoopMembers(b: Bitboard, offset: int, dx: int, dy: int, promotion: Option<int>, m: Mv)
    requires Shiftable(SquaresOf(b), offset) && offset == dx + 8 * dy
    requires forall x, y | InBoard(x, y) && b[Index(x, y)] :: InBoard(x + dx, y + dy)
    ensures m in PawnList(SquaresOf(b), offset, promotion) <==>
      OnBoard(m.to) && b[GetIndex(m.to)] &&
      m.from.x as int == m.to.x as int + dx && m.from.y as int == m.to.y as int + dy && PromotesAs(promotion, m)
  {
    hide PawnList, SquaresOf, PromotesAs;
    var to := m.to;
    assert m in PawnList(SquaresOf(b), offset, promotion) <==>
      to in SquaresOf(b) && m.from == FromIndex(GetIndex(to) + offset) && PromotesAs(promotion, m)
    by {
      PawnListMembers(SquaresOf(b), offset, promotion, m);
    }
    assert to in SquaresOf(b) <==> OnBoard(to) && b[GetIndex(to)] by {
      SquaresOfMembers(b, to);
    }
    if OnBoard(to) && b[GetIndex(to)] {
      assert m.from == FromIndex(GetIndex(to) + offset) <==>
        m.from.x as int == to.x as int + dx && m.from.y as int == to.y as int + dy
      by {
        LoopOrigin(b, offset, dx, dy, to);
      }
    }
  }

  /** A target of a pawn loop has its pawn on the board, `dx` files and `dy` ranks away. */
  lemma LoopOrigin(b: Bitboard, offset: int, dx: int, dy: int, to: Square)
    requires offset == dx + 8 * dy && OnBoard(to) && b[GetIndex(to)]
    requires forall x, y | InBoard(x, y) && b[Index(x, y)] :: InBoard(x + dx, y + dy)
    ensures InBoard(to.x as int + dx, to.y as int + dy) && 0 <= GetIndex(to) + offset < 64
    ensures FromIndex(GetIndex(to) + offset) == Square(to.x as int + dx, to.y as int + dy)
  {
    assert b[Index(to.x as int, to.y as int)];
    Origin(to, dx, dy, offset);
  }

  /** The single-push loop moves each target's pawn from one rank behind. */
  lemma SinglesLoop(v: PositionValue, m: Mv)
    requires v.ep.Some? ==> Indexable(v.ep.value)
    ensures m in SinglesPart(v) <==> LoopMove(Singles(v), 0, -Forward(v.turn), Some(PromotionRank(v.turn)), m)
  {
    hide PawnList, SquaresOf, PromotesAs, Shiftable, Singles, Doubles, WestCaptures, EastCaptures, Advance, Own, Vacant, BitAnd, BitOr, West, East;
    var f := Forward(v.turn);
    forall x, y | InBoard(x, y) && Singles(v)[Index(x, y)]
      ensures InBoard(x, y - f)
    {
      SinglesSquare(v, x, y);
    }
    PawnTargetsShiftable(v);
    PawnLoopMembers(Singles(v), SingleOffset(v.turn), 0, -f, Some(PromotionRank(v.turn)), m);
  }

  /** The single-push loop's moves are the single pushes. */
  lemma SinglesRule(v: PositionValue, m: Mv)
    ensures LoopMove(Singles(v), 0, -Forward(v.turn), Some(PromotionRank(v.turn)), m) <==> SinglePush(v, m)
  {
    if OnBoard(m.to) {
      SinglesSquare(v, m.to.x as int, m.to.y as int);
    }
  }

  /** The single-push loop lists exactly the single pushes. */
  lemma SinglesMembers(v: PositionValue, m: Mv)
    requires v.ep.Some? ==> Indexable(v.ep.value)
    ensures m in SinglesPart(v) <==> SinglePush(v, m)
  {
    SinglesLoop(v, m);
    SinglesRule(v, m);
  }

  /** The double-push loop moves each target's pawn from two ranks behind. */
  lemma DoublesLoop(v: PositionValue, m: Mv)
    requires v.ep.Some? ==> Indexable(v.ep.value)
    ensures m in DoublesPart(v) <==> LoopMove(Doubles(v), 0, -2 * Forward(v.turn), None, m)
  {
    hide PawnList, SquaresOf, PromotesAs, Shiftable, Singles, Doubles, WestCaptures, EastCaptures, Advance, Own, Vacant, BitAnd, BitOr, West, East;
    var f := Forward(v.turn);
    forall x, y | InBoard(x, y) && Doubles(v)[Index(x, y)]
      ensures InBoard(x, y - 2 * f)
    {
      DoublesSquare(v, x, y);
    }
    PawnTargetsShiftable(v);
    PawnLoopMembers(Doubles(v), DoubleOffset(v.turn), 0, -2 * f, None, m);
  }

  /** The double-push loop's moves are the double pushes. */
  lemma DoublesRule(v: PositionValue, m: Mv)
    ensures LoopMove(Doubles(v), 0, -2 * Forward(v.turn), None, m) <==> DoublePush(v, m)
  {
    if OnBoard(m.to) {
      DoublesSquare(v, m.to.x as int, m.to.y as int);
    }
  }

  /** The double-push loop lists exactly the double pushes. */
  lemma DoublesMembers(v: PositionValue, m: Mv)
    requires v.ep.Some? ==> Indexable(v.ep.value)
    ensures m in DoublesPart(v) <==> DoublePush(v, m)
  {
    DoublesLoop(v, m);
    DoublesRule(v, m);
  }

  /** The capture loop towards file h moves each target's pawn from one file left and one rank behind. */
  lemma EastLoop(v: PositionValue, m: Mv)
    requires v.ep.Some? ==> Indexable(v.ep.value)
    ensures m in EastPart(v) <==> LoopMove(EastCaptures(v), -1, -Forward(v.turn), Some(PromotionRank(v.turn)), m)
  {
    hide PawnList, SquaresOf, PromotesAs, Shiftable, Singles, Doubles, WestCaptures, EastCaptures, Advance, Own, Vacant, BitAnd, BitOr, West, East;
    var f := Forward(v.turn);
    forall x, y | InBoard(x, y) && EastCaptures(v)[Index(x, y)]
      ensures InBoard(x - 1, y - f)
    {
      EastSquare(v, x, y);
    }
    PawnTargetsShiftable(v);
    PawnLoopMembers(EastCaptures(v), EastOffset(v.turn), -1, -f, Some(PromotionRank(v.turn)), m);
  }

  /** The capture loop towards file h's moves are the captures towards file h. */
  lemma EastRule(v: PositionValue, m: Mv)
    requires v.ep.Some? ==> Indexable(v.ep.value)
    ensures LoopMove(EastCaptures(v), -1, -Forward(v.turn), Some(PromotionRank(v.turn)), m) <==>
      PawnCapture(v, m) && m.to.x as int == m.from.x as int + 1
  {
    if OnBoard(m.to) {
      EastSquare(v, m.to.x as int, m.to.y as int);
    }
  }

  /** The capture loop towards file a moves each target's pawn from one file right and one rank behind. */
  lemma WestLoop(v: PositionValue, m: Mv)
    requires v.ep.Some? ==> Indexable(v.ep.value)
    ensures m in WestPart(v) <==> LoopMove(WestCaptures(v), 1, -Forward(v.turn), Some(PromotionRank(v.turn)), m)
  {
    hide PawnList, SquaresOf, PromotesAs, Shiftable, Singles, Doubles, WestCaptures, EastCaptures, Advance, Own, Vacant, BitAnd, BitOr, West, East;
    var f := Forward(v.turn);
    forall x, y | InBoard(x, y) && WestCaptures(v)[Index(x, y)]
      ensures InBoard(x + 1, y - f)
    {
      WestSquare(v, x, y);
    }
    PawnTargetsShiftable(v);
    PawnLoopMembers(WestCaptures(v), WestOffset(v.turn), 1, -f, Some(PromotionRank(v.turn)), m);
  }

  /** The capture loop towards file a's moves are the captures towards file a. */
  lemma WestRule(v: PositionValue, m: Mv)
    requires v.ep.Some? ==> Indexable(v.ep.value)
    ensures LoopMove(WestCaptures(v), 1, -Forward(v.turn), Some(PromotionRank(v.turn)), m) <==>
      PawnCapture(v, m) && m.to.x as int == m.from.x as int - 1
  {
    if OnBoard(m.to) {
      WestSquare(v, m.to.x as int, m.to.y as int);
    }
  }

  /** The two capture loops list exactly the pawn captures. */
  lemma CapturesMembers(v: PositionValue, m: Mv)
    requires v.ep.Some? ==> Indexable(v.ep.value)
    ensures m in EastPart(v) + WestPart(v) <==> PawnCapture(v, m)
  {
    EastLoop(v, m);
    EastRule(v, m);
    WestLoop(v, m);
    WestRule(v, m);
  }

  /** The blockers `generate_moves` passes, `us | them`, are the occupied squares. */
  lemma UsThemOccupied(v: PositionValue)
    ensures BitOr(Us(v), Them(v)) == Occupied(v)
  {
    assert forall i | 0 <= i < 64 :: BitOr(Us(v), Them(v))[i] == Occupied(v)[i];
  }

  /** The mask of a piece over the occupied squares holds exactly the squares it reaches. */
  lemma MaskReaches(v: PositionValue, piece: Piece, from: Square, x: int, y: int)
    requires piece != Pawn && OnBoard(from) && InBoard(x, y)
    ensures Mask(piece, from, Occupied(v))[Index(x, y)] <==> Reaches(v, piece, from.x as int, from.y as int, x, y)
  {
    match piece
    case Knight => KnightMaskSquares(from, Occupied(v), x, y);
    case Bishop => BishopMaskSquares(from, Occupied(v), x, y);
    case Rook => RookMaskSquares(from, Occupied(v), x, y);
    case Queen => QueenSquare(v, from, x, y);
    case King => KingMaskSquares(from, Occupied(v), x, y);
  }

  /** A move `generate_moves` lists for a piece: from one of its squares to one of its destinations. */
  predicate PieceTarget(v: PositionValue, piece: Piece, m: Mv)
    requires piece != Pawn
  {
    OnBoard(m.from) && Own(v, piece)[GetIndex(m.from)] && m.promo.None? && OnBoard(m.to) &&
    Destinations(piece, m.from, Us(v), Them(v))[GetIndex(m.to)]
  }

  /** `generate_moves` for one kind of piece lists each destination of each of its squares. */
  lemma PieceListed(v: PositionValue, piece: Piece, m: Mv)
    requires piece != Pawn
    ensures m in PieceMoves(v, piece) <==> PieceTarget(v, piece, m)
  {
    PieceListMembers(SquaresOf(Own(v, piece)), piece, Us(v), Them(v), m);
    SquaresOfMembers(Own(v, piece), m.from);
  }

  /** A destination of a piece is a square it reaches that its own side does not occupy. */
  lemma DestinationSquare(v: PositionValue, piece: Piece, from: Square, to: Square)
    requires piece != Pawn && OnBoard(from) && OnBoard(to)
    ensures Destinations(piece, from, Us(v), Them(v))[GetIndex(to)] <==>
      !Us(v)[GetIndex(to)] && Reaches(v, piece, from.x as int, from.y as int, to.x as int, to.y as int)
  {
    UsThemOccupied(v);
    assert GetIndex(to) == Index(to.x as int, to.y as int);
    MaskReaches(v, piece, from, to.x as int, to.y as int);
  }

  /** A square of the side to move's pieces of one kind holds such a piece. */
  lemma OwnSquare(v: PositionValue, piece: Piece, i: int)
    requires 0 <= i < 64
    ensures Own(v, piece)[i] <==> Has(v, v.turn, piece, i)
  {
  }

  /** The propositional step from a listed destination to the rule for a piece move. */
  lemma PieceLogic(target: bool, move: bool, fromOn: bool, own: bool, has: bool, plain: bool, toOn: bool,
    dest: bool, free: bool, reach: bool)
    requires target <==> fromOn && own && plain && toOn && dest
    requires move <==> fromOn && has && toOn && free && plain && reach
    requires fromOn ==> (own <==> has)
    requires fromOn && toOn ==> (dest <==> free && reach)
    ensures target <==> move
  {
  }

  /** The destinations of a piece are the squares it reaches that its own side does not occupy. */
  lemma PieceRule(v: PositionValue, piece: Piece, m: Mv)
    requires piece != Pawn
    ensures PieceTarget(v, piece, m) <==> PieceMove(v, m, piece)
  {
    if OnBoard(m.from) && OnBoard(m.to) {
      OwnSquare(v, piece, GetIndex(m.from));
      DestinationSquare(v, piece, m.from, m.to);
      PieceLogic(PieceTarget(v, piece, m), PieceMove(v, m, piece), OnBoard(m.from),
        Own(v, piece)[GetIndex(m.from)], Has(v, v.turn, piece, GetIndex(m.from)), m.promo.None?, OnBoard(m.to),
        Destinations(piece, m.from, Us(v), Them(v))[GetIndex(m.to)], !Us(v)[GetIndex(m.to)],
        Reaches(v, piece, m.from.x as int, m.from.y as int, m.to.x as int, m.to.y as int));
    }
  }

  /** `generate_moves` for one kind of piece lists exactly that piece's moves. */
  lemma PieceMembers(v: PositionValue, piece: Piece, m: Mv)
    requires piece != Pawn
    ensures m in PieceMoves(v, piece) <==> PieceMove(v, m, piece)
  {
    PieceListed(v, piece, m);
    PieceRule(v, piece, m);
  }

  /** The side to move is in check exactly when its king's square is attacked. */
  lemma InCheckAttacked(v: PositionValue)
    requires HasKing(v, v.turn)
    ensures InCheck(v) <==>
      Attacked(v, KingSquare(v, v.turn).x as int, KingSquare(v, v.turn).y as int, Opponent(v.turn))
  {
    IsAttackedReference(v, KingSquare(v, v.turn), Opponent(v.turn));
  }

  /** A castling path of two squares is safe exactly when neither square is attacked. */
  lemma PathSafe(v: PositionValue, path: set<Square>, a: Square, b: Square, them: Side)
    requires path == {a, b} && OnBoard(a) && OnBoard(b)
    ensures Unattacked(v, path, them) <==> !IsAttacked(v, a, them) && !IsAttacked(v, b, them)
  {
    PathUnattacked(v, path, a, b, them);
    IsAttackedReference(v, a, them);
    IsAttackedReference(v, b, them);
  }

  /** No square of a two-square path is attacked exactly when neither of the two is. */
  lemma PathUnattacked(v: PositionValue, path: set<Square>, a: Square, b: Square, them: Side)
    requires path == {a, b}
    ensures Unattacked(v, path, them) <==>
      !Attacked(v, a.x as int, a.y as int, them) && !Attacked(v, b.x as int, b.y as int, them)
  {
  }

  /** A castling gap of two squares is vacant exactly when both squares are empty. */
  lemma GapVacant2(v: PositionValue, gap: set<Square>, a: Square, b: Square)
    requires gap == {a, b} && OnBoard(a) && OnBoard(b)
    ensures GapClear(v, gap) <==> IsEmptyOn(v, a) && IsEmptyOn(v, b)
  {
  }

  /** A castling gap of three squares is vacant exactly when all three squares are empty. */
  lemma GapVacant3(v: PositionValue, gap: set<Square>, a: Square, b: Square, c: Square)
    requires gap == {a, b, c} && OnBoard(a) && OnBoard(b) && OnBoard(c)
    ensures GapClear(v, gap) <==> IsEmptyOn(v, a) && IsEmptyOn(v, b) && IsEmptyOn(v, c)
  {
  }

  /** The rule for castling, part by part. */
  lemma AllowedParts(v: PositionValue, right: Castling)
    requires HasKing(v, v.turn)
    ensures CastleAllowed(v, right) <==>
      Owner(right) == v.turn && v.castling[CastlingIndex(right)] &&
      !Attacked(v, KingSquare(v, v.turn).x as int, KingSquare(v, v.turn).y as int, Opponent(v.turn)) &&
      GapClear(v, CastleGap(right)) && Unattacked(v, CastlePath(right), Opponent(v.turn))
  {
  }

  /** The squares of each castling's gap and path, and the side each right belongs to. */
  lemma CastleSquares()
    ensures Owner(WKS) == White && CastleGap(WKS) == {F1, G1} && CastlePath(WKS) == {F1, G1}
    ensures Owner(WQS) == White && CastleGap(WQS) == {D1, C1, B1} && CastlePath(WQS) == {D1, C1}
    ensures Owner(BKS) == Black && CastleGap(BKS) == {F8, G8} && CastlePath(BKS) == {F8, G8}
    ensures Owner(BQS) == Black && CastleGap(BQS) == {D8, C8, B8} && CastlePath(BQS) == {D8, C8}
  {
  }

  /** The generator's conditions for White's king-side castling: the right, the turn, the gap and the path. */
  lemma ConditionsWKS(v: PositionValue)
    ensures CastleConditions(v, WKS) <==>
      v.castling[CastlingIndex(WKS)] && v.turn == White &&
      GapClear(v, CastleGap(WKS)) && Unattacked(v, CastlePath(WKS), Opponent(v.turn))
  {
    hide IsAttacked;
    CastleSquares();
    PathSafe(v, CastlePath(WKS), F1, G1, Opponent(v.turn));
    GapVacant2(v, CastleGap(WKS), F1, G1);
  }

  /** The generator's conditions for White's queen-side castling: the right, the turn, the gap and the path. */
  lemma ConditionsWQS(v: PositionValue)
    ensures CastleConditions(v, WQS) <==>
      v.castling[CastlingIndex(WQS)] && v.turn == White &&
      GapClear(v, CastleGap(WQS)) && Unattacked(v, CastlePath(WQS), Opponent(v.turn))
  {
    hide IsAttacked;
    CastleSquares();
    PathSafe(v, CastlePath(WQS), D1, C1, Opponent(v.turn));
    GapVacant3(v, CastleGap(WQS), D1, C1, B1);
  }

  /** The generator's conditions for Black's king-side castling: the right, the turn, the gap and the path. */
  lemma ConditionsBKS(v: PositionValue)
    ensures CastleConditions(v, BKS) <==>
      v.castling[CastlingIndex(BKS)] && v.turn == Black &&
      GapClear(v, CastleGap(BKS)) && Unattacked(v, CastlePath(BKS), Opponent(v.turn))
  {
    hide IsAttacked;
    CastleSquares();
    PathSafe(v, CastlePath(BKS), F8, G8, Opponent(v.turn));
    GapVacant2(v, CastleGap(BKS), F8, G8);
  }

  /** The generator's conditions for Black's queen-side castling: the right, the turn, the gap and the path. */
  lemma ConditionsBQS(v: PositionValue)
    ensures CastleConditions(v, BQS) <==>
      v.castling[CastlingIndex(BQS)] && v.turn == Black &&
      GapClear(v, CastleGap(BQS)) && Unattacked(v, CastlePath(BQS), Opponent(v.turn))
  {
    hide IsAttacked;
    CastleSquares();
    PathSafe(v, CastlePath(BQS), D8, C8, Opponent(v.turn));
    GapVacant3(v, CastleGap(BQS), D8, C8, B8);
  }

  /** The generator's test of a castling, including the king not being in check, is its rule. */
  lemma CastleTestAllowed(v: PositionValue, right: Castling)
    requires HasKing(v, v.turn)
    ensures !InCheck(v) && CastleConditions(v, right) <==> CastleAllowed(v, right)
  {
    hide IsAttacked;
    CastleSquares();
    AllowedParts(v, right);
    InCheckAttacked(v);
    match right
    case WKS => ConditionsWKS(v);
    case WQS => ConditionsWQS(v);
    case BKS => ConditionsBKS(v);
    case BQS => ConditionsBQS(v);
  }

  /** Each castling test lists its move exactly when the test passes. */
  lemma CastleIfShape(v: PositionValue, right: Castling, m: Mv)
    requires HasKing(v, v.turn)
    ensures m in CastleIf(v, right) <==> m == CastlingMove(right) && (!InCheck(v) && CastleConditions(v, right))
  {
    hide IsAttacked;
    ListedIf(!InCheck(v) && CastleConditions(v, right), CastlingMove(right), m);
  }

  /** A list holding one move exactly when a test passes holds `m` exactly when `m` is that move and the test passes. */
  lemma ListedIf(test: bool, mv: Mv, m: Mv)
    ensures m in (if test then [mv] else []) <==> m == mv && test
  {
  }

  /** Replacing one side of a conjunction by an equivalent one. */
  lemma ChainIff(listed: bool, isMove: bool, test: bool, allowed: bool)
    requires listed <==> isMove && test
    requires test <==> allowed
    ensures listed <==> isMove && allowed
  {
  }

  /** Each castling test lists exactly its move, when that castling is allowed. */
  lemma CastleIfMembers(v: PositionValue, right: Castling, m: Mv)
    requires HasKing(v, v.turn)
    ensures m in CastleIf(v, right) <==> m == CastlingMove(right) && CastleAllowed(v, right)
  {
    hide IsAttacked;
    CastleIfShape(v, right, m);
    CastleTestAllowed(v, right);
    ChainIff(m in CastleIf(v, right), m == CastlingMove(right), !InCheck(v) && CastleConditions(v, right),
      CastleAllowed(v, right));
  }

  /** The castling tests list exactly the allowed castling moves. */
  lemma CastleMembers(v: PositionValue, m: Mv)
    requires HasKing(v, v.turn)
    ensures m in CastlePart(v) <==> CastleMove(v, m)
  {
    hide IsAttacked;
    assert m in CastlePart(v) <==>
      m in CastleIf(v, WKS) || m in CastleIf(v, WQS) || m in CastleIf(v, BKS) || m in CastleIf(v, BQS);
    CastleIfMembers(v, WKS, m);
    CastleIfMembers(v, WQS, m);
    CastleIfMembers(v, BKS, m);
    CastleIfMembers(v, BQS, m);
    if CastleMove(v, m) {
      var right :| m == CastlingMove(right) && CastleAllowed(v, right);
      assert right == WKS || right == WQS || right == BKS || right == BQS;
    }
  }

  /** The four pawn loops list exactly the pawn moves. */
  lemma PawnPartMembers(v: PositionValue, m: Mv)
    requires v.ep.Some? ==> Indexable(v.ep.value)
    ensures m in PawnPart(v) <==> SinglePush(v, m) || DoublePush(v, m) || PawnCapture(v, m)
  {
    SinglesMembers(v, m);
    DoublesMembers(v, m);
    CapturesMembers(v, m);
    InFour(SinglesPart(v), DoublesPart(v), EastPart(v), WestPart(v), m);
  }

  /** A move is in four lists one after another exactly when it is in the first, the second, or the last two. */
  lemma InFour(a: seq<Mv>, b: seq<Mv>, c: seq<Mv>, d: seq<Mv>, m: Mv)
    ensures m in a + b + c + d <==> m in a || m in b || m in c + d
  {
  }

  /** The five piece loops list exactly the moves of knights, bishops, rooks, queens and the king. */
  lemma PiecePartMembers(v: PositionValue, m: Mv)
    ensures m in PiecePart(v) <==>
      PieceMove(v, m, Knight) || PieceMove(v, m, Bishop) || PieceMove(v, m, Rook) ||
      PieceMove(v, m, Queen) || PieceMove(v, m, King)
  {
    PieceMembers(v, Knight, m);
    PieceMembers(v, Bishop, m);
    PieceMembers(v, Rook, m);
    PieceMembers(v, Queen, m);
    PieceMembers(v, King, m);
  }

  /** `pseudolegal_moves` lists a move exactly when the rules allow it. */
  lemma PseudolegalMembers(v: PositionValue, m: Mv)
    requires CanGenerate(v)
    ensures m in Pseudolegal(v) <==> PseudoLegal(v, m)
  {
    PawnPartMembers(v, m);
    PiecePartMembers(v, m);
    CastleMembers(v, m);
  }
}
