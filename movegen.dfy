/**
 * Pseudolegal move generation: pawn pushes, double pushes and captures (with the four
 * promotions on the last rank), knight, bishop, rook, queen and king moves from their masks,
 * and the four castling moves. Moves that leave the king in check are included.
 */
module MoveGen {
  import opened Wrappers
  import opened Types
  import opened Squares
  import opened Bitboards
  import opened Masks
  import opened Positions
  import opened Attacks
  import opened Moves

  // ---------------------------------------------------------------- the squares of a bitboard in pop_lsb order

  /** The squares of the set bits at index `i` and above, lowest first. */
  function SquaresFrom(b: Bitboard, i: nat): (s: seq<Square>)
    requires i <= 64
    ensures forall sq | sq in s :: OnBoard(sq) && i <= GetIndex(sq) && b[GetIndex(sq)]
    decreases 64 - i
  {
    if i == 64 then []
    else (if b[i] then [Square(i % 8, i / 8)] else []) + SquaresFrom(b, i + 1)
  }

  /** The squares of a bitboard in the order repeated `pop_lsb` returns them. */
  function SquaresOf(b: Bitboard): (s: seq<Square>)
  {
    SquaresFrom(b, 0)
  }

  /** Every set bit at or above `i` has its square in the list. */
  lemma {:induction false} SquaresFromComplete(b: Bitboard, i: nat, sq: Square)
    requires i <= 64 && OnBoard(sq) && i <= GetIndex(sq) && b[GetIndex(sq)]
    ensures sq in SquaresFrom(b, i)
    decreases 64 - i
  {
    if i < GetIndex(sq) {
      SquaresFromComplete(b, i + 1, sq);
    } else {
      assert Square(i % 8, i / 8) == sq;
    }
  }

  /** A square is listed exactly when it is on the board and its bit is set. */
  lemma SquaresOfMembers(b: Bitboard, sq: Square)
    ensures sq in SquaresOf(b) <==> OnBoard(sq) && b[GetIndex(sq)]
  {
    if OnBoard(sq) && b[GetIndex(sq)] {
      SquaresFromComplete(b, 0, sq);
    }
  }

  /** Two bitboards that agree from `i` upwards list the same squares from `i`. */
  lemma {:induction false} SquaresFromAgree(b: Bitboard, c: Bitboard, i: nat)
    requires i <= 64 && forall j | i <= j < 64 :: b[j] == c[j]
    ensures SquaresFrom(b, i) == SquaresFrom(c, i)
    decreases 64 - i
  {
    if i < 64 {
      SquaresFromAgree(b, c, i + 1);
    }
  }

  /** Clear bits below `k` add nothing to the list. */
  lemma {:induction false} SquaresFromSkip(b: Bitboard, i: nat, k: nat)
    requires i <= k <= 64 && forall j | i <= j < k :: !b[j]
    ensures SquaresFrom(b, i) == SquaresFrom(b, k)
    decreases k - i
  {
    if i < k {
      SquaresFromSkip(b, i + 1, k);
    }
  }

  /** A set bit at `i` puts its square at the head of the list from `i`. */
  lemma SquaresFromHead(b: Bitboard, sq: Square)
    requires OnBoard(sq) && b[GetIndex(sq)]
    ensures SquaresFrom(b, GetIndex(sq)) == [sq] + SquaresFrom(b, GetIndex(sq) + 1)
  {
    var k := GetIndex(sq);
    assert Square(k % 8, k / 8) == sq;
  }

  /** `pop_lsb` takes the head of the list and leaves the bitboard of its tail. */
  lemma PopSquares(b: Bitboard, sq: Square, rest: Bitboard)
    requires IsOccupied(b) && sq == LowestSquare(b)
    requires forall i | 0 <= i < 64 :: rest[i] == (b[i] && i != GetIndex(sq))
    ensures SquaresOf(b) == [sq] + SquaresOf(rest)
  {
    PopHead(b, sq);
    PopTail(b, sq, rest);
  }

  /** The lowest set bit's square heads the list, followed by the squares above it. */
  lemma PopHead(b: Bitboard, sq: Square)
    requires IsOccupied(b) && sq == LowestSquare(b)
    ensures SquaresOf(b) == [sq] + SquaresFrom(b, GetIndex(sq) + 1)
  {
    SquaresFromSkip(b, 0, GetIndex(sq));
    SquaresFromHead(b, sq);
  }

  /** With the lowest bit cleared, the list is the squares above that bit. */
  lemma PopTail(b: Bitboard, sq: Square, rest: Bitboard)
    requires IsOccupied(b) && sq == LowestSquare(b)
    requires forall i | 0 <= i < 64 :: rest[i] == (b[i] && i != GetIndex(sq))
    ensures SquaresOf(rest) == SquaresFrom(b, GetIndex(sq) + 1)
  {
    PopAbove(b, sq, rest);
    PopBelow(b, sq, rest);
  }

  /** Above the lowest bit, the board and the board without that bit list the same squares. */
  lemma PopAbove(b: Bitboard, sq: Square, rest: Bitboard)
    requires IsOccupied(b) && sq == LowestSquare(b)
    requires forall i | 0 <= i < 64 :: rest[i] == (b[i] && i != GetIndex(sq))
    ensures SquaresFrom(rest, GetIndex(sq) + 1) == SquaresFrom(b, GetIndex(sq) + 1)
  {
    SquaresFromAgree(b, rest, GetIndex(sq) + 1);
  }

  /** Without the lowest bit, no bit is set up to and including its index. */
  lemma PopBelow(b: Bitboard, sq: Square, rest: Bitboard)
    requires IsOccupied(b) && sq == LowestSquare(b)
    requires forall i | 0 <= i < 64 :: rest[i] == (b[i] && i != GetIndex(sq))
    ensures SquaresOf(rest) == SquaresFrom(rest, GetIndex(sq) + 1)
  {
    SquaresFromSkip(rest, 0, GetIndex(sq) + 1);
  }

  /** An empty bitboard lists no square. */
  lemma EmptySquares(b: Bitboard)
    requires !IsOccupied(b)
    ensures SquaresOf(b) == []
  {
    SquaresFromSkip(b, 0, 64);
  }

  // ---------------------------------------------------------------- the move lists, as values

  /** `push_promotions`: the four promotions of one pawn move, in the order queen, rook, bishop, knight. */
  function Promotions(from: Square, to: Square): (r: seq<Mv>)
    ensures |r| == 4
    ensures forall m | m in r :: m.from == from && m.to == to && m.promo.Some?
  {
    [Mv(from, to, Some(PromoQueen)), Mv(from, to, Some(PromoRook)),
     Mv(from, to, Some(PromoBishop)), Mv(from, to, Some(PromoKnight))]
  }

  /** Each of the four promotions is listed exactly once. */
  lemma PromotionsComplete(from: Square, to: Square, p: PromoPiece)
    ensures Mv(from, to, Some(p)) in Promotions(from, to)
    ensures multiset(Promotions(from, to))[Mv(from, to, Some(p))] == 1
  {
    var r := Promotions(from, to);
    assert r == [r[0], r[1], r[2], r[3]];
    assert multiset(r) == multiset{r[0], r[1], r[2], r[3]};
  }

  /**
   * The moves of one pawn from `from` to `to`: the four promotions when `to` is on the
   * promotion rank, else the plain move. Double pushes have no promotion rank.
   */
  function PawnMoves(from: Square, to: Square, promotion: Option<int>): seq<Mv>
  {
    if promotion.Some? && to.y as int == promotion.value then Promotions(from, to) else [Mv(from, to, None)]
  }

  /** Every listed square's index, moved by `offset`, is still a byte. */
  predicate Shiftable(tos: seq<Square>, offset: int)
  {
    forall sq | sq in tos :: 0 <= GetIndex(sq) + offset < 256
  }

  /** The moves of one pawn loop: for each target `to`, the pawn on the square `offset` indices away. */
  function PawnList(tos: seq<Square>, offset: int, promotion: Option<int>): seq<Mv>
    requires Shiftable(tos, offset)
  {
    if tos == [] then []
    else PawnMoves(FromIndex(GetIndex(tos[0]) + offset), tos[0], promotion) + PawnList(tos[1..], offset, promotion)
  }

  /** The attack mask `generate_moves` is called with for a piece. */
  function Mask(piece: Piece, sq: Square, blockers: Bitboard): Bitboard
    requires Indexable(sq) && piece != Pawn
  {
    if piece == Knight then MaskKnight(sq, blockers)
    else if piece == Bishop then MaskBishop(sq, blockers)
    else if piece == Rook then MaskRook(sq, blockers)
    else if piece == Queen then MaskQueen(sq, blockers)
    else MaskKing(sq, blockers)
  }

  /** The plain moves from `from` to each listed square, in order. */
  function Targets(from: Square, tos: seq<Square>): seq<Mv>
  {
    if tos == [] then [] else [Mv(from, tos[0], None)] + Targets(from, tos[1..])
  }

  /** The squares a piece on `from` may move to: its mask over all pieces, minus its own side's squares. */
  function Destinations(piece: Piece, from: Square, us: Bitboard, them: Bitboard): Bitboard
    requires Indexable(from) && piece != Pawn
  {
    BitAnd(Mask(piece, from, BitOr(us, them)), BitNot(us))
  }

  /** The moves `generate_moves` lists for the pieces on the listed squares. */
  function PieceList(froms: seq<Square>, piece: Piece, us: Bitboard, them: Bitboard): seq<Mv>
    requires piece != Pawn && forall sq | sq in froms :: OnBoard(sq)
  {
    if froms == [] then []
    else Targets(froms[0], SquaresOf(Destinations(piece, froms[0], us, them))) + PieceList(froms[1..], piece, us, them)
  }

  // ---------------------------------------------------------------- the loops

  /** Concatenation is associative. */
  lemma Associate(a: seq<Mv>, b: seq<Mv>, c: seq<Mv>)
    ensures a + (b + c) == (a + b) + c
  {
  }

  /** Appending four lists one by one appends their concatenation. */
  lemma Associate4(m: seq<Mv>, a: seq<Mv>, b: seq<Mv>, c: seq<Mv>, d: seq<Mv>)
    ensures m + a + b + c + d == m + (a + b + c + d)
  {
  }

  /** Appending five lists one by one appends their concatenation. */
  lemma Associate5(m: seq<Mv>, a: seq<Mv>, b: seq<Mv>, c: seq<Mv>, d: seq<Mv>, e: seq<Mv>)
    ensures m + a + b + c + d + e == m + (a + b + c + d + e)
  {
  }

  /** Popping the lowest target splits a pawn loop's list into that target's moves and the rest's list. */
  lemma PawnStep(b: Bitboard, to: Square, rest: Bitboard, offset: int)
    requires IsOccupied(b) && to == LowestSquare(b)
    requires forall i | 0 <= i < 64 :: rest[i] == (b[i] && i != GetIndex(to))
    requires Shiftable(SquaresOf(b), offset)
    ensures 0 <= GetIndex(to) + offset < 256 && Shiftable(SquaresOf(rest), offset)
    ensures SquaresOf(b) == [to] + SquaresOf(rest)
  {
    PopSquares(b, to, rest);
    ShiftableCons(to, SquaresOf(rest), offset);
  }

  /** A shiftable list's head is shiftable, and so is its tail. */
  lemma ShiftableCons(to: Square, tos: seq<Square>, offset: int)
    requires Shiftable([to] + tos, offset)
    ensures 0 <= GetIndex(to) + offset < 256 && Shiftable(tos, offset)
  {
    assert to in [to] + tos;
    assert forall sq | sq in tos :: sq in [to] + tos;
  }

  /** A pawn loop's list, split at the target its loop pops first. */
  lemma PawnListStep(b: Bitboard, to: Square, rest: Bitboard, offset: int, promotion: Option<int>)
    requires 0 <= GetIndex(to) + offset < 256 && Shiftable(SquaresOf(rest), offset)
    requires SquaresOf(b) == [to] + SquaresOf(rest)
    ensures PawnList(SquaresOf(b), offset, promotion) ==
      PawnMoves(FromIndex(GetIndex(to) + offset), to, promotion) + PawnList(SquaresOf(rest), offset, promotion)
  {
    assert Shiftable(SquaresOf(b), offset);
    PawnListCons(to, SquaresOf(rest), offset, promotion);
  }

  /** A pawn loop's list for a target in front of others. */
  lemma PawnListCons(to: Square, tos: seq<Square>, offset: int, promotion: Option<int>)
    requires Shiftable([to] + tos, offset)
    ensures 0 <= GetIndex(to) + offset < 256 && Shiftable(tos, offset)
    ensures PawnList([to] + tos, offset, promotion) ==
      PawnMoves(FromIndex(GetIndex(to) + offset), to, promotion) + PawnList(tos, offset, promotion)
  {
    assert ([to] + tos)[0] == to && ([to] + tos)[1..] == tos;
    assert forall sq | sq in tos :: sq in [to] + tos;
  }

  /** The plain moves for a destination in front of others. */
  lemma TargetsCons(from: Square, to: Square, tos: seq<Square>)
    ensures Targets(from, [to] + tos) == [Mv(from, to, None)] + Targets(from, tos)
  {
    assert ([to] + tos)[0] == to && ([to] + tos)[1..] == tos;
  }

  /** The piece moves for a piece in front of others. */
  lemma PieceListCons(from: Square, froms: seq<Square>, piece: Piece, us: Bitboard, them: Bitboard)
    requires piece != Pawn && OnBoard(from) && forall sq | sq in froms :: OnBoard(sq)
    ensures PieceList([from] + froms, piece, us, them) ==
      Targets(from, SquaresOf(Destinations(piece, from, us, them))) + PieceList(froms, piece, us, them)
  {
    assert ([from] + froms)[0] == from && ([from] + froms)[1..] == froms;
  }

  /** Push one pawn move, or its four promotions when `to` is on the promotion rank. */
  method PushPawnMoves(movelist: seq<Mv>, from: Square, to: Square, promotion: Option<int>) returns (r: seq<Mv>)
    ensures r == movelist + PawnMoves(from, to, promotion)
  {
    if promotion.Some? && to.y as int == promotion.value {
      r := movelist + Promotions(from, to);
    } else {
      r := movelist + [Mv(from, to, None)];
    }
  }

  /**
   * One pawn loop of `pseudolegal_moves`: pop each target, find the pawn `offset` indices away
   * and push its moves.
   */
  method PawnLoop(movelist: seq<Mv>, targets: Bitboard, offset: int, promotion: Option<int>) returns (r: seq<Mv>)
    requires Shiftable(SquaresOf(targets), offset)
    ensures r == movelist + PawnList(SquaresOf(targets), offset, promotion)
  {
    r := movelist;
    var b := targets;
    while IsOccupied(b)
      invariant Shiftable(SquaresOf(b), offset)
      invariant r + PawnList(SquaresOf(b), offset, promotion) == movelist + PawnList(SquaresOf(targets), offset, promotion)
      decreases Count(b)
    {
      var to, rest := PopLsb(b);
      assert 0 <= GetIndex(to) + offset < 256 && Shiftable(SquaresOf(rest), offset) &&
        PawnList(SquaresOf(b), offset, promotion) ==
          PawnMoves(FromIndex(GetIndex(to) + offset), to, promotion) + PawnList(SquaresOf(rest), offset, promotion) by {
        PawnStep(b, to, rest, offset);
        PawnListStep(b, to, rest, offset, promotion);
      }
      var from := FromIndex(GetIndex(to) + offset);
      ghost var before := r;
      r := PushPawnMoves(r, from, to, promotion);
      Associate(before, PawnMoves(from, to, promotion), PawnList(SquaresOf(rest), offset, promotion));
      b := rest;
    }
    EmptySquares(b);
  }

  /** The inner loop of `generate_moves`: pop each destination and push the plain move to it. */
  method PushTargets(movelist: seq<Mv>, from: Square, moves: Bitboard) returns (r: seq<Mv>)
    ensures r == movelist + Targets(from, SquaresOf(moves))
  {
    r := movelist;
    var b := moves;
    while IsOccupied(b)
      invariant r + Targets(from, SquaresOf(b)) == movelist + Targets(from, SquaresOf(moves))
      decreases Count(b)
    {
      var to, rest := PopLsb(b);
      PopSquares(b, to, rest);
      TargetsCons(from, to, SquaresOf(rest));
      Associate(r, [Mv(from, to, None)], Targets(from, SquaresOf(rest)));
      r := r + [Mv(from, to, None)];
      b := rest;
    }
    EmptySquares(b);
  }

  /**
   * `generate_moves`: pop each piece, and for each pops every square of its mask over all
   * pieces that is not one of its own side's, pushing the plain move.
   */
  method GenerateMoves(movelist: seq<Mv>, pieces: Bitboard, us: Bitboard, them: Bitboard, piece: Piece) returns (r: seq<Mv>)
    requires piece != Pawn
    ensures r == movelist + PieceList(SquaresOf(pieces), piece, us, them)
  {
    r := movelist;
    var b := pieces;
    while IsOccupied(b)
      invariant r + PieceList(SquaresOf(b), piece, us, them) == movelist + PieceList(SquaresOf(pieces), piece, us, them)
      decreases Count(b)
    {
      var from, rest := PopLsb(b);
      PopSquares(b, from, rest);
      PieceListCons(from, SquaresOf(rest), piece, us, them);
      ghost var start := r;
      r := PushTargets(r, from, Destinations(piece, from, us, them));
      ghost var listed := Targets(from, SquaresOf(Destinations(piece, from, us, them)));
      ghost var tail := PieceList(SquaresOf(rest), piece, us, them);
      assert r == start + listed;
      assert PieceList(SquaresOf(b), piece, us, them) == listed + tail;
      Associate(start, listed, tail);
      b := rest;
    }
    EmptySquares(b);
  }

  // ---------------------------------------------------------------- what the lists hold

  /** The plain moves to a list of squares are the moves from `from`, without promotion, to a listed square. */
  lemma {:induction false} TargetsMembers(from: Square, tos: seq<Square>, m: Mv)
    ensures m in Targets(from, tos) <==> m.from == from && m.promo.None? && m.to in tos
    decreases |tos|
  {
    if tos != [] {
      TargetsMembers(from, tos[1..], m);
      assert tos == [tos[0]] + tos[1..];
    }
  }

  /** The promotion a pawn move carries: some piece on the promotion rank, none elsewhere. */
  predicate PromotesAs(promotion: Option<int>, m: Mv)
  {
    if promotion.Some? && m.to.y as int == promotion.value then m.promo.Some? else m.promo.None?
  }

  /** The moves of one pawn are its moves from `from` to `to` with the promotion its rank calls for. */
  lemma PawnMovesMembers(from: Square, to: Square, promotion: Option<int>, m: Mv)
    ensures m in PawnMoves(from, to, promotion) <==> m.from == from && m.to == to && PromotesAs(promotion, m)
  {
    if m.from == from && m.to == to && m.promo.Some? {
      PromotionsComplete(from, to, m.promo.value);
    }
  }

  /**
   * A pawn loop lists exactly the moves to a listed square from the square `offset` indices
   * away, with the promotion the target's rank calls for.
   */
  lemma {:induction false} PawnListMembers(tos: seq<Square>, offset: int, promotion: Option<int>, m: Mv)
    requires Shiftable(tos, offset)
    ensures m in PawnList(tos, offset, promotion) <==>
      m.to in tos && m.from == FromIndex(GetIndex(m.to) + offset) && PromotesAs(promotion, m)
    decreases |tos|
  {
    if tos != [] {
      assert tos == [tos[0]] + tos[1..];
      PawnListCons(tos[0], tos[1..], offset, promotion);
      PawnListMembers(tos[1..], offset, promotion, m);
      PawnMovesMembers(FromIndex(GetIndex(tos[0]) + offset), tos[0], promotion, m);
    }
  }

  /**
   * `generate_moves` lists exactly the moves, without promotion, from a listed square to a
   * square of that piece's destinations.
   */
  lemma {:induction false} PieceListMembers(froms: seq<Square>, piece: Piece, us: Bitboard, them: Bitboard, m: Mv)
    requires piece != Pawn && forall sq | sq in froms :: OnBoard(sq)
    ensures m in PieceList(froms, piece, us, them) <==>
      m.from in froms && m.promo.None? && OnBoard(m.to) && Destinations(piece, m.from, us, them)[GetIndex(m.to)]
    decreases |froms|
  {
    if froms != [] {
      var from := froms[0];
      assert froms == [from] + froms[1..];
      PieceListCons(from, froms[1..], piece, us, them);
      PieceListMembers(froms[1..], piece, us, them, m);
      TargetsMembers(from, SquaresOf(Destinations(piece, from, us, them)), m);
      SquaresOfMembers(Destinations(piece, from, us, them), m.to);
    }
  }

  // ---------------------------------------------------------------- pseudolegal_moves

  /**
   * What `pseudolegal_moves` needs not to panic: a king of the side to move for `pop_lsb`, and
   * an en-passant square inside the bitboard for `from_square`.
   */
  predicate CanGenerate(v: PositionValue)
  {
    HasKing(v, v.turn) && (v.ep.Some? ==> Indexable(v.ep.value))
  }

  /** The squares of the side to move. */
  function Us(v: PositionValue): Bitboard
  {
    v.colours[SideIndex(v.turn)]
  }

  /** The squares of the other side. */
  function Them(v: PositionValue): Bitboard
  {
    v.colours[SideIndex(Opponent(v.turn))]
  }

  /** The side to move's pieces of one kind. */
  function Own(v: PositionValue, piece: Piece): Bitboard
  {
    BitAnd(Us(v), v.pieces[PieceIndex(piece)])
  }

  /** `ep_bb`: the en-passant square, or nothing. */
  function EpBoard(v: PositionValue): (r: Bitboard)
    requires v.ep.Some? ==> Indexable(v.ep.value)
    ensures forall i | 0 <= i < 64 :: r[i] == (v.ep.Some? && i == GetIndex(v.ep.value))
  {
    if v.ep.Some? then FromSquare(v.ep.value) else FromEmpty()
  }

  /** The squares neither side occupies: `!(us | them)`. */
  function Vacant(v: PositionValue): Bitboard
  {
    BitNot(BitOr(Us(v), Them(v)))
  }

  /** One rank forward for the side: `north` for White, `south` for Black. */
  function Advance(b: Bitboard, side: Side): Bitboard
  {
    if side == White then North(b) else South(b)
  }

  /** The squares a pawn reaches by a single push. */
  function Singles(v: PositionValue): Bitboard
  {
    BitAnd(Advance(Own(v, Pawn), v.turn), Vacant(v))
  }

  /** The squares a pawn reaches by a double push from its home rank, both squares vacant. */
  function Doubles(v: PositionValue): Bitboard
  {
    var home := if v.turn == White then Rank(1) else Rank(6);
    BitAnd(Advance(BitAnd(Advance(BitAnd(Own(v, Pawn), home), v.turn), Vacant(v)), v.turn), Vacant(v))
  }

  /** The squares a pawn captures on towards file h: the other side's pieces and the en-passant square. */
  function EastCaptures(v: PositionValue): Bitboard
    requires v.ep.Some? ==> Indexable(v.ep.value)
  {
    BitAnd(East(Advance(Own(v, Pawn), v.turn)), BitOr(Them(v), EpBoard(v)))
  }

  /** The squares a pawn captures on towards file a. */
  function WestCaptures(v: PositionValue): Bitboard
    requires v.ep.Some? ==> Indexable(v.ep.value)
  {
    BitAnd(West(Advance(Own(v, Pawn), v.turn)), BitOr(Them(v), EpBoard(v)))
  }

  /** The index step back from a single push's target to its pawn. */
  function SingleOffset(side: Side): int
  {
    if side == White then -8 else 8
  }

  /** The index step back from a double push's target to its pawn. */
  function DoubleOffset(side: Side): int
  {
    if side == White then -16 else 16
  }

  /** The index step back from a capture towards file h to its pawn. */
  function EastOffset(side: Side): int
  {
    if side == White then -9 else 7
  }

  /** The index step back from a capture towards file a to its pawn. */
  function WestOffset(side: Side): int
  {
    if side == White then -7 else 9
  }

  /** The rank on which a pawn of the side promotes. */
  function PromotionRank(side: Side): int
  {
    if side == White then 7 else 0
  }

  /** A bitboard whose set indices stay bytes when moved by `offset` lists shiftable squares. */
  lemma ShiftableOf(b: Bitboard, offset: int)
    requires forall i | 0 <= i < 64 && b[i] :: 0 <= i + offset < 256
    ensures Shiftable(SquaresOf(b), offset)
  {
  }

  /** The pawn on the square behind every pawn target has a byte index. */
  lemma PawnTargetsShiftable(v: PositionValue)
    requires v.ep.Some? ==> Indexable(v.ep.value)
    ensures Shiftable(SquaresOf(Singles(v)), SingleOffset(v.turn))
    ensures Shiftable(SquaresOf(Doubles(v)), DoubleOffset(v.turn))
    ensures Shiftable(SquaresOf(EastCaptures(v)), EastOffset(v.turn))
    ensures Shiftable(SquaresOf(WestCaptures(v)), WestOffset(v.turn))
  {
    ShiftableOf(Singles(v), SingleOffset(v.turn));
    ShiftableOf(Doubles(v), DoubleOffset(v.turn));
    ShiftableOf(EastCaptures(v), EastOffset(v.turn));
    ShiftableOf(WestCaptures(v), WestOffset(v.turn));
  }

  /** The moves of the single-push loop. */
  function SinglesPart(v: PositionValue): seq<Mv>
    requires v.ep.Some? ==> Indexable(v.ep.value)
  {
    PawnTargetsShiftable(v);
    PawnList(SquaresOf(Singles(v)), SingleOffset(v.turn), Some(PromotionRank(v.turn)))
  }

  /** The moves of the double-push loop, none of which promotes. */
  function DoublesPart(v: PositionValue): seq<Mv>
    requires v.ep.Some? ==> Indexable(v.ep.value)
  {
    PawnTargetsShiftable(v);
    PawnList(SquaresOf(Doubles(v)), DoubleOffset(v.turn), None)
  }

  /** The moves of the loop capturing towards file h. */
  function EastPart(v: PositionValue): seq<Mv>
    requires v.ep.Some? ==> Indexable(v.ep.value)
  {
    PawnTargetsShiftable(v);
    PawnList(SquaresOf(EastCaptures(v)), EastOffset(v.turn), Some(PromotionRank(v.turn)))
  }

  /** The moves of the loop capturing towards file a. */
  function WestPart(v: PositionValue): seq<Mv>
    requires v.ep.Some? ==> Indexable(v.ep.value)
  {
    PawnTargetsShiftable(v);
    PawnList(SquaresOf(WestCaptures(v)), WestOffset(v.turn), Some(PromotionRank(v.turn)))
  }

  /** The pawn moves, in the order of the four pawn loops. */
  function PawnPart(v: PositionValue): seq<Mv>
    requires v.ep.Some? ==> Indexable(v.ep.value)
  {
    SinglesPart(v) + DoublesPart(v) + EastPart(v) + WestPart(v)
  }

  /** The moves of one kind of piece of the side to move. */
  function PieceMoves(v: PositionValue, piece: Piece): seq<Mv>
    requires piece != Pawn
  {
    PieceList(SquaresOf(Own(v, piece)), piece, Us(v), Them(v))
  }

  /** The knight, bishop, rook, queen and king moves, in that order. */
  function PiecePart(v: PositionValue): seq<Mv>
  {
    PieceMoves(v, Knight) + PieceMoves(v, Bishop) + PieceMoves(v, Rook) + PieceMoves(v, Queen) + PieceMoves(v, King)
  }

  /** The side to move's king is attacked. */
  function InCheck(v: PositionValue): bool
    requires HasKing(v, v.turn)
  {
    IsAttacked(v, KingSquare(v, v.turn), Opponent(v.turn))
  }

  /**
   * The conditions of a castling move besides the king not being in check: the side to move
   * owns it, the right is still held, the squares between king and rook are vacant, and the
   * squares the king passes over are not attacked.
   */
  predicate CastleConditions(v: PositionValue, right: Castling)
  {
    var them := Opponent(v.turn);
    v.castling[CastlingIndex(right)] &&
    match right
    case WKS => v.turn == White && IsEmptyOn(v, F1) && IsEmptyOn(v, G1) &&
      !IsAttacked(v, F1, them) && !IsAttacked(v, G1, them)
    case WQS => v.turn == White && IsEmptyOn(v, D1) && IsEmptyOn(v, C1) && IsEmptyOn(v, B1) &&
      !IsAttacked(v, D1, them) && !IsAttacked(v, C1, them)
    case BKS => v.turn == Black && IsEmptyOn(v, F8) && IsEmptyOn(v, G8) &&
      !IsAttacked(v, F8, them) && !IsAttacked(v, G8, them)
    case BQS => (v.turn == Black && IsEmptyOn(v, D8) && IsEmptyOn(v, C8) && IsEmptyOn(v, B8) &&
      !IsAttacked(v, D8, them) && !IsAttacked(v, C8, them))
  }

  /** The king's move of each castling: e1 to g1 or c1, e8 to g8 or c8. */
  function CastlingMove(right: Castling): Mv
  {
    match right
    case WKS => Mv(E1, G1, None)
    case WQS => Mv(E1, C1, None)
    case BKS => Mv(E8, G8, None)
    case BQS => Mv(E8, C8, None)
  }

  /** One castling move, if it is allowed. */
  function CastleIf(v: PositionValue, right: Castling): seq<Mv>
    requires HasKing(v, v.turn)
  {
    if !InCheck(v) && CastleConditions(v, right) then [CastlingMove(right)] else []
  }

  /** The castling moves, in the order white king side, white queen side, black king side, black queen side. */
  function CastlePart(v: PositionValue): seq<Mv>
    requires HasKing(v, v.turn)
  {
    CastleIf(v, WKS) + CastleIf(v, WQS) + CastleIf(v, BKS) + CastleIf(v, BQS)
  }

  /** The list `pseudolegal_moves` returns: pawn moves, then piece moves, then castling moves. */
  function Pseudolegal(v: PositionValue): seq<Mv>
    requires CanGenerate(v)
  {
    PawnPart(v) + PiecePart(v) + CastlePart(v)
  }

  /**
   * The four pawn loops of `pseudolegal_moves` for the side to move: single pushes, double
   * pushes, captures towards file h, captures towards file a. White's pawns are found 8, 16,
   * 9 and 7 indices below the target and promote on rank 8; Black's 8, 16, 7 and 9 above,
   * promoting on rank 1.
   */
  method PawnLoops(v: PositionValue, movelist: seq<Mv>) returns (r: seq<Mv>)
    requires v.ep.Some? ==> Indexable(v.ep.value)
    ensures r == movelist + PawnPart(v)
  {
    PawnTargetsShiftable(v);
    ghost var singles, doubles, east, west := SinglesPart(v), DoublesPart(v), EastPart(v), WestPart(v);
    r := movelist;
    if v.turn == White {
      r := PawnLoop(r, Singles(v), -8, Some(7));
      r := PawnLoop(r, Doubles(v), -16, None);
      r := PawnLoop(r, EastCaptures(v), -9, Some(7));
      r := PawnLoop(r, WestCaptures(v), -7, Some(7));
    } else {
      r := PawnLoop(r, Singles(v), 8, Some(0));
      r := PawnLoop(r, Doubles(v), 16, None);
      r := PawnLoop(r, EastCaptures(v), 7, Some(0));
      r := PawnLoop(r, WestCaptures(v), 9, Some(0));
    }
    assert r == movelist + singles + doubles + east + west;
    Associate4(movelist, singles, doubles, east, west);
  }

  /** One castling test of `pseudolegal_moves`: push the king's move when its conditions hold. */
  method TryCastle(v: PositionValue, inCheck: bool, right: Castling, movelist: seq<Mv>) returns (r: seq<Mv>)
    requires HasKing(v, v.turn) && inCheck == InCheck(v)
    ensures r == movelist + CastleIf(v, right)
  {
    if !inCheck && CastleConditions(v, right) {
      r := movelist + [CastlingMove(right)];
    } else {
      r := movelist;
    }
  }

  /** The castling tests of `pseudolegal_moves`, after finding the king's square and whether it is attacked. */
  method CastleMoves(v: PositionValue, movelist: seq<Mv>) returns (r: seq<Mv>)
    requires HasKing(v, v.turn)
    ensures r == movelist + CastlePart(v)
  {
    var ksq, _ := PopLsb(BitAnd(v.colours[SideIndex(v.turn)], v.pieces[PieceIndex(King)]));
    var inCheck := IsAttacked(v, ksq, Opponent(v.turn));
    assert inCheck == InCheck(v);
    ghost var wks, wqs, bks, bqs := CastleIf(v, WKS), CastleIf(v, WQS), CastleIf(v, BKS), CastleIf(v, BQS);
    r := TryCastle(v, inCheck, WKS, movelist);
    r := TryCastle(v, inCheck, WQS, r);
    r := TryCastle(v, inCheck, BKS, r);
    r := TryCastle(v, inCheck, BQS, r);
    Associate4(movelist, wks, wqs, bks, bqs);
  }

  /** The five `generate_moves` calls of `pseudolegal_moves`: knights, bishops, rooks, queens, king. */
  method PieceLoops(v: PositionValue, movelist: seq<Mv>) returns (r: seq<Mv>)
    ensures r == movelist + PiecePart(v)
  {
    r := GenerateMoves(movelist, Own(v, Knight), Us(v), Them(v), Knight);
    r := GenerateMoves(r, Own(v, Bishop), Us(v), Them(v), Bishop);
    r := GenerateMoves(r, Own(v, Rook), Us(v), Them(v), Rook);
    r := GenerateMoves(r, Own(v, Queen), Us(v), Them(v), Queen);
    r := GenerateMoves(r, Own(v, King), Us(v), Them(v), King);
    Associate5(movelist, PieceMoves(v, Knight), PieceMoves(v, Bishop), PieceMoves(v, Rook),
      PieceMoves(v, Queen), PieceMoves(v, King));
  }

  /**
   * `pseudolegal_moves`: the pawn loops of the side to move, `generate_moves` for knights,
   * bishops, rooks, queens and the king, then each castling move whose conditions hold. The
   * position is not changed.
   */
  method PseudolegalMoves(pos: Position) returns (movelist: seq<Mv>)
    requires CanGenerate(pos.State())
    ensures movelist == Pseudolegal(pos.State())
  {
    var v := pos.State();
    movelist := PawnLoops(v, []);
    assert movelist == PawnPart(v);
    movelist := PieceLoops(v, movelist);
    movelist := CastleMoves(v, movelist);
  }
}
