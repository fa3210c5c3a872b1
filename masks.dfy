/**
 * Attack masks: the squares a piece on `sq` attacks, given the occupied squares
 * (`blockers`). Knight and king masks are fixed patterns; bishop, rook and queen masks are
 * rays that stop at, and include, the first blocker.
 */
module Masks {
  import opened Squares
  import opened Bitboards

  /** File and rank both within 0..7. */
  predicate InBoard(x: int, y: int)
  {
    0 <= x < 8 && 0 <= y < 8
  }

  /** The bit index of file `x`, rank `y`. */
  function Index(x: int, y: int): int
  {
    8 * y + x
  }

  /** Every index below 64 is the index of its own file and rank, and on-board squares index distinctly. */
  lemma IndexCoords(i: int)
    requires 0 <= i < 64
    ensures InBoard(i % 8, i / 8) && Index(i % 8, i / 8) == i
  {
  }

  /** The set holds the square (x, y) and nothing else, or nothing when (x, y) is off the board. */
  ghost predicate Single(b: Bitboard, x: int, y: int)
  {
    forall i | 0 <= i < 64 :: b[i] <==> (InBoard(x, y) && i == Index(x, y))
  }

  /** The eight directions a bitboard can be shifted in. */
  datatype Dir = N | S | E | W | NE | NW | SE | SW

  /** The file step of a direction. */
  function DX(d: Dir): int
  {
    match d
    case E | NE | SE => 1
    case W | NW | SW => -1
    case N | S => 0
  }

  /** The rank step of a direction. */
  function DY(d: Dir): int
  {
    match d
    case N | NE | NW => 1
    case S | SE | SW => -1
    case E | W => 0
  }

  /** One step along `d`, composed from the four one-square shifts as the source writes it. */
  function Step(b: Bitboard, d: Dir): (r: Bitboard)
  {
    match d
    case N => North(b)
    case S => South(b)
    case E => East(b)
    case W => West(b)
    case NE => East(North(b))
    case NW => West(North(b))
    case SE => East(South(b))
    case SW => West(South(b))
  }

  /** A step along `d` moves every square by (DX(d), DY(d)) and drops the squares that would leave the board. */
  lemma StepSquare(b: Bitboard, d: Dir, x: int, y: int)
    requires InBoard(x, y)
    ensures Step(b, d)[Index(x, y)] ==
      (InBoard(x - DX(d), y - DY(d)) && b[Index(x - DX(d), y - DY(d))])
  {
    match d
    case N => ShiftSquares(b, x, y);
    case S => ShiftSquares(b, x, y);
    case E => ShiftSquares(b, x, y);
    case W => ShiftSquares(b, x, y);
    case NE => DiagonalSquare(b, x, y);
    case NW => DiagonalSquare(b, x, y);
    case SE => DiagonalSquare(b, x, y);
    case SW => DiagonalSquare(b, x, y);
  }

  /** The diagonal steps compose a rank shift with a file shift. */
  lemma DiagonalSquare(b: Bitboard, x: int, y: int)
    requires InBoard(x, y)
    ensures East(North(b))[8 * y + x] == (x >= 1 && y >= 1 && b[8 * (y - 1) + x - 1])
    ensures West(North(b))[8 * y + x] == (x <= 6 && y >= 1 && b[8 * (y - 1) + x + 1])
    ensures East(South(b))[8 * y + x] == (x >= 1 && y <= 6 && b[8 * (y + 1) + x - 1])
    ensures West(South(b))[8 * y + x] == (x <= 6 && y <= 6 && b[8 * (y + 1) + x + 1])
  {
    ShiftSquares(North(b), x, y);
    ShiftSquares(South(b), x, y);
    if x >= 1 { ShiftSquares(b, x - 1, y); }
    if x <= 6 { ShiftSquares(b, x + 1, y); }
  }

  /** Stepping a one-square set moves its square, or empties it when the square leaves the board. */
  lemma StepSingle(b: Bitboard, d: Dir, x: int, y: int)
    requires Single(b, x, y)
    requires !InBoard(x, y) ==> !InBoard(x + DX(d), y + DY(d))
    ensures Single(Step(b, d), x + DX(d), y + DY(d))
  {
    var dx, dy := DX(d), DY(d);
    forall i | 0 <= i < 64
      ensures Step(b, d)[i] <==> (InBoard(x + dx, y + dy) && i == Index(x + dx, y + dy))
    {
      var xi, yi := i % 8, i / 8;
      IndexCoords(i);
      StepSquare(b, d, xi, yi);
      if InBoard(xi - dx, yi - dy) {
        SameIndex(xi - dx, yi - dy, x, y);
        SameIndex(xi, yi, x + dx, y + dy);
      } else {
        assert !(InBoard(x + dx, y + dy) && i == Index(x + dx, y + dy)) by {
          if InBoard(x + dx, y + dy) && i == Index(x + dx, y + dy) {
            SameIndex(xi, yi, x + dx, y + dy);
          }
        }
      }
    }
  }

  /** On the board, two squares share an index only if they are the same square. */
  lemma SameIndex(x: int, y: int, u: int, v: int)
    requires InBoard(x, y)
    ensures InBoard(u, v) && Index(x, y) == Index(u, v) <==> x == u && y == v && InBoard(u, v)
  {
  }

  /** `from_square(sq)` holds exactly the square. */
  lemma SingleFromSquare(sq: Square)
    requires OnBoard(sq)
    ensures Single(FromSquare(sq), sq.x, sq.y)
  {
  }

  // ---------------------------------------------------------------- knight and king

  /** The file and rank offsets of a knight's jump. */
  predicate KnightJump(dx: int, dy: int)
  {
    ((dx == 1 || dx == -1) && (dy == 2 || dy == -2)) ||
    ((dx == 2 || dx == -2) && (dy == 1 || dy == -1))
  }

  /** The file and rank offsets of a king's step. */
  predicate KingStep(dx: int, dy: int)
  {
    -1 <= dx <= 1 && -1 <= dy <= 1 && (dx != 0 || dy != 0)
  }

  /**
   * `mask_knight`: the union of the eight two-then-one shift chains. The blocker argument is
   * ignored.
   */
  function MaskKnight(sq: Square, blockers: Bitboard): (r: Bitboard)
    requires Indexable(sq)
  {
    var bb := FromSquare(sq);
    BitOr(BitOr(BitOr(BitOr(BitOr(BitOr(BitOr(
      East(North(North(bb))),
      West(North(North(bb)))),
      East(South(South(bb)))),
      West(South(South(bb)))),
      North(East(East(bb)))),
      South(East(East(bb)))),
      North(West(West(bb)))),
      South(West(West(bb))))
  }

  /** A rank or file direction. */
  predicate Orthogonal(d: Dir)
  {
    d == N || d == S || d == E || d == W
  }

  /** Two steps along `d` then one along a perpendicular `e` move a single square by a knight's jump. */
  lemma KnightChain(b: Bitboard, x: int, y: int, d: Dir, e: Dir)
    requires Single(b, x, y) && InBoard(x, y)
    requires Orthogonal(d) && Orthogonal(e) && (DX(d) == 0) != (DX(e) == 0)
    ensures Single(Step(Step(Step(b, d), d), e), x + 2 * DX(d) + DX(e), y + 2 * DY(d) + DY(e))
  {
    StepSingle(b, d, x, y);
    StepSingle(Step(b, d), d, x + DX(d), y + DY(d));
    StepSingle(Step(Step(b, d), d), e, x + 2 * DX(d), y + 2 * DY(d));
  }

  /** Queried at one square, a knight chain from `sq` holds exactly its landing square. */
  lemma KnightChainAt(sq: Square, d: Dir, e: Dir, x: int, y: int)
    requires OnBoard(sq) && InBoard(x, y)
    requires Orthogonal(d) && Orthogonal(e) && (DX(d) == 0) != (DX(e) == 0)
    ensures Step(Step(Step(FromSquare(sq), d), d), e)[Index(x, y)] <==>
      (x == sq.x + 2 * DX(d) + DX(e) && y == sq.y + 2 * DY(d) + DY(e))
  {
    SingleFromSquare(sq);
    KnightChain(FromSquare(sq), sq.x, sq.y, d, e);
    SameIndex(x, y, sq.x + 2 * DX(d) + DX(e), sq.y + 2 * DY(d) + DY(e));
  }

  /** The knight mask holds exactly the on-board squares a knight's jump away from `sq`. */
  lemma KnightMaskSquares(sq: Square, blockers: Bitboard, x: int, y: int)
    requires OnBoard(sq) && InBoard(x, y)
    ensures MaskKnight(sq, blockers)[Index(x, y)] <==> KnightJump(x - sq.x, y - sq.y)
  {
    KnightChainAt(sq, N, E, x, y);
    KnightChainAt(sq, N, W, x, y);
    KnightChainAt(sq, S, E, x, y);
    KnightChainAt(sq, S, W, x, y);
    KnightChainAt(sq, E, N, x, y);
    KnightChainAt(sq, E, S, x, y);
    KnightChainAt(sq, W, N, x, y);
    KnightChainAt(sq, W, S, x, y);
  }

  /** The knight mask never holds `sq` itself and never more than eight squares. */
  lemma KnightMaskCount(sq: Square, blockers: Bitboard)
    requires OnBoard(sq)
    ensures !MaskKnight(sq, blockers)[GetIndex(sq)]
    ensures Count(MaskKnight(sq, blockers)) <= 8
  {
    KnightMaskSquares(sq, blockers, sq.x, sq.y);
    var bb := FromSquare(sq);
    ChainCount(sq, N, E);
    ChainCount(sq, N, W);
    ChainCount(sq, S, E);
    ChainCount(sq, S, W);
    ChainCount(sq, E, N);
    ChainCount(sq, E, S);
    ChainCount(sq, W, N);
    ChainCount(sq, W, S);
    var c0, c1, c2, c3 := East(North(North(bb))), West(North(North(bb))), East(South(South(bb))), West(South(South(bb)));
    var c4, c5, c6, c7 := North(East(East(bb))), South(East(East(bb))), North(West(West(bb))), South(West(West(bb)));
    var u1 := BitOr(c0, c1);
    var u2 := BitOr(u1, c2);
    var u3 := BitOr(u2, c3);
    var u4 := BitOr(u3, c4);
    var u5 := BitOr(u4, c5);
    var u6 := BitOr(u5, c6);
    CountUnion(c0, c1, u1);
    CountUnion(u1, c2, u2);
    CountUnion(u2, c3, u3);
    CountUnion(u3, c4, u4);
    CountUnion(u4, c5, u5);
    CountUnion(u5, c6, u6);
    CountUnion(u6, c7, BitOr(u6, c7));
  }

  /** A knight chain from `sq` holds at most one square. */
  lemma ChainCount(sq: Square, d: Dir, e: Dir)
    requires OnBoard(sq)
    requires Orthogonal(d) && Orthogonal(e) && (DX(d) == 0) != (DX(e) == 0)
    ensures Count(Step(Step(Step(FromSquare(sq), d), d), e)) <= 1
  {
    SingleFromSquare(sq);
    KnightChain(FromSquare(sq), sq.x, sq.y, d, e);
    SingleCount(Step(Step(Step(FromSquare(sq), d), d), e), sq.x + 2 * DX(d) + DX(e), sq.y + 2 * DY(d) + DY(e));
  }

  /** A set with at most one square counts at most one. */
  lemma SingleCount(b: Bitboard, x: int, y: int)
    requires Single(b, x, y)
    ensures Count(b) <= 1
  {
    AtMostOne(b, Index(x, y));
  }

  /**
   * `mask_king`: the raw shifts by 8 (north and south), by 7, 9 and 1 towards file a (masked
   * to clear file h) and by 7, 9 and 1 towards file h (masked to clear file a). The blocker
   * argument is ignored.
   */
  function MaskKing(sq: Square, blockers: Bitboard): (r: Bitboard)
    requires Indexable(sq)
  {
    var bb := FromSquare(sq);
    BitOr(BitOr(BitOr(
      Shl(bb, 8),
      Shr(bb, 8)),
      BitAnd(BitOr(BitOr(Shl(bb, 7), Shr(bb, 9)), Shr(bb, 1)), NotFileH())),
      BitAnd(BitOr(BitOr(Shr(bb, 7), Shl(bb, 9)), Shl(bb, 1)), NotFileA()))
  }

  /** Bit `i` of the king mask, spelled out as index offsets of `sq`'s index and file masks. */
  lemma KingBits(sq: Square, blockers: Bitboard, i: int)
    requires OnBoard(sq) && 0 <= i < 64
    ensures
      var j := GetIndex(sq);
      MaskKing(sq, blockers)[i] <==>
      (i == j + 8 || i == j - 8 ||
       (i % 8 != 7 && (i == j + 7 || i == j - 9 || i == j - 1)) ||
       (i % 8 != 0 && (i == j - 7 || i == j + 9 || i == j + 1)))
  {
  }

  /**
   * On the board, the index offsets of the king mask, together with the file masks, pick out
   * exactly the squares one king step away.
   */
  lemma KingOffsets(sx: int, sy: int, x: int, y: int)
    requires InBoard(sx, sy) && InBoard(x, y)
    ensures
      var i, j := Index(x, y), Index(sx, sy);
      (i == j + 8 || i == j - 8 ||
       (x != 7 && (i == j + 7 || i == j - 9 || i == j - 1)) ||
       (x != 0 && (i == j - 7 || i == j + 9 || i == j + 1)))
      <==> KingStep(x - sx, y - sy)
  {
    if y == sy {
    } else if y == sy + 1 {
    } else if y == sy - 1 {
    } else if y == sy + 2 {
    } else if y == sy - 2 {
    } else if y > sy + 2 {
      assert Index(x, y) >= Index(sx, sy) + 17;
    } else {
      assert Index(x, y) <= Index(sx, sy) - 17;
    }
  }

  /** The king mask holds exactly the on-board squares one king step away from `sq`, so never `sq`. */
  lemma KingMaskSquares(sq: Square, blockers: Bitboard, x: int, y: int)
    requires OnBoard(sq) && InBoard(x, y)
    ensures MaskKing(sq, blockers)[Index(x, y)] <==> KingStep(x - sq.x, y - sq.y)
    ensures !MaskKing(sq, blockers)[GetIndex(sq)]
  {
    assert Index(x, y) % 8 == x;
    assert GetIndex(sq) % 8 == sq.x;
    KingBits(sq, blockers, Index(x, y));
    KingBits(sq, blockers, GetIndex(sq));
    KingOffsets(sq.x, sq.y, x, y);
  }

  /** Every bit of `a` is a bit of `b`, so `a` counts no more than `b`. */
  lemma {:induction false} CountSubset(a: seq<bool>, b: seq<bool>)
    requires |a| == |b|
    requires forall i | 0 <= i < |a| :: a[i] ==> b[i]
    ensures Count(a) <= Count(b)
  {
    if |a| > 0 {
      CountSubset(a[1..], b[1..]);
    }
  }

  /** A raw shift of a one-square set counts at most one. */
  lemma ShiftCount(sq: Square, k: nat)
    requires OnBoard(sq)
    ensures Count(Shl(FromSquare(sq), k)) <= 1 && Count(Shr(FromSquare(sq), k)) <= 1
  {
    AtMostOne(Shl(FromSquare(sq), k), GetIndex(sq) + k);
    AtMostOne(Shr(FromSquare(sq), k), GetIndex(sq) - k);
  }

  /** The king mask never has more than eight squares. */
  lemma KingMaskCount(sq: Square, blockers: Bitboard)
    requires OnBoard(sq)
    ensures Count(MaskKing(sq, blockers)) <= 8
  {
    var bb := FromSquare(sq);
    ShiftCount(sq, 8);
    ShiftCount(sq, 7);
    ShiftCount(sq, 9);
    ShiftCount(sq, 1);
    var u0 := BitOr(Shl(bb, 8), Shr(bb, 8));
    var w0 := BitOr(Shl(bb, 7), Shr(bb, 9));
    var w1 := BitOr(w0, Shr(bb, 1));
    var e0 := BitOr(Shr(bb, 7), Shl(bb, 9));
    var e1 := BitOr(e0, Shl(bb, 1));
    CountUnion(Shl(bb, 8), Shr(bb, 8), u0);
    CountUnion(Shl(bb, 7), Shr(bb, 9), w0);
    CountUnion(w0, Shr(bb, 1), w1);
    CountUnion(Shr(bb, 7), Shl(bb, 9), e0);
    CountUnion(e0, Shl(bb, 1), e1);
    var wm, em := BitAnd(w1, NotFileH()), BitAnd(e1, NotFileA());
    CountSubset(wm, w1);
    CountSubset(em, e1);
    var u1 := BitOr(u0, wm);
    CountUnion(u0, wm, u1);
    CountUnion(u1, em, BitOr(u1, em));
  }

  // ---------------------------------------------------------------- sliding pieces

  /**
   * The reference definition of a ray: walking from (x, y) along `d` for at most `n` squares,
   * the walk reaches (tx, ty) if it lands there before stepping off the board or past an
   * occupied square. The occupied square that stops the walk is itself reached.
   */
  predicate InRay(x: int, y: int, d: Dir, blockers: Bitboard, tx: int, ty: int, n: nat)
    decreases n
  {
    var nx, ny := x + DX(d), y + DY(d);
    n > 0 && InBoard(nx, ny) &&
    ((tx == nx && ty == ny) || (!blockers[Index(nx, ny)] && InRay(nx, ny, d, blockers, tx, ty, n - 1)))
  }

  /** One round of the source's ray loop body: `ray |= (ray & !blockers).<step>()`. */
  function Spread(ray: Bitboard, d: Dir, blockers: Bitboard): (r: Bitboard)
  {
    BitOr(ray, Step(BitAnd(ray, BitNot(blockers)), d))
  }

  /** `k` rounds of `Spread`. */
  function Spreads(ray: Bitboard, d: Dir, blockers: Bitboard, k: nat): (r: Bitboard)
    decreases k
  {
    if k == 0 then ray else Spreads(Spread(ray, d, blockers), d, blockers, k - 1)
  }

  /** One ray of `mask_bishop` or `mask_rook`: one step from `sq`, then six rounds of `Spread`. */
  function Ray(sq: Square, d: Dir, blockers: Bitboard): (r: Bitboard)
    requires Indexable(sq)
  {
    Spreads(Step(FromSquare(sq), d), d, blockers, 6)
  }

  /** `mask_bishop`: the union of the north-east, north-west, south-east and south-west rays. */
  function MaskBishop(sq: Square, blockers: Bitboard): (r: Bitboard)
    requires Indexable(sq)
  {
    BitOr(BitOr(BitOr(Ray(sq, NE, blockers), Ray(sq, NW, blockers)), Ray(sq, SE, blockers)), Ray(sq, SW, blockers))
  }

  /** `mask_rook`: the union of the north, east, south and west rays. */
  function MaskRook(sq: Square, blockers: Bitboard): (r: Bitboard)
    requires Indexable(sq)
  {
    BitOr(BitOr(BitOr(Ray(sq, N, blockers), Ray(sq, E, blockers)), Ray(sq, S, blockers)), Ray(sq, W, blockers))
  }

  /** `mask_queen`: the bishop mask joined with the rook mask. */
  function MaskQueen(sq: Square, blockers: Bitboard): (r: Bitboard)
    requires Indexable(sq)
  {
    BitOr(MaskBishop(sq, blockers), MaskRook(sq, blockers))
  }

  /** A walk reaches a square iff it reaches the square just before it and may pass through it. */
  lemma {:induction false} InRayLast(x: int, y: int, d: Dir, blockers: Bitboard, tx: int, ty: int, n: nat)
    requires InBoard(x, y)
    ensures
      var px, py := tx - DX(d), ty - DY(d);
      InRay(x, y, d, blockers, tx, ty, n + 1) <==>
      (InBoard(tx, ty) && InBoard(px, py) &&
       ((px == x && py == y) || (!blockers[Index(px, py)] && InRay(x, y, d, blockers, px, py, n))))
    decreases n
  {
    var nx, ny := x + DX(d), y + DY(d);
    if n > 0 && InBoard(nx, ny) {
      InRayLast(nx, ny, d, blockers, tx, ty, n - 1);
    }
  }

  /** A longer walk reaches everything a shorter one does. */
  lemma {:induction false} InRayLonger(x: int, y: int, d: Dir, blockers: Bitboard, tx: int, ty: int, n: nat)
    requires InRay(x, y, d, blockers, tx, ty, n)
    ensures InRay(x, y, d, blockers, tx, ty, n + 1)
    decreases n
  {
    var nx, ny := x + DX(d), y + DY(d);
    if !(tx == nx && ty == ny) {
      InRayLonger(nx, ny, d, blockers, tx, ty, n - 1);
    }
  }

  /** The first step from `sq` holds exactly the square a walk of one square reaches. */
  lemma FirstStepSquares(sq: Square, d: Dir, blockers: Bitboard, x: int, y: int)
    requires OnBoard(sq) && InBoard(x, y)
    ensures Step(FromSquare(sq), d)[Index(x, y)] == InRay(sq.x, sq.y, d, blockers, x, y, 1)
  {
    StepSquare(FromSquare(sq), d, x, y);
    InRayLast(sq.x, sq.y, d, blockers, x, y, 0);
    if InBoard(x - DX(d), y - DY(d)) {
      SameIndex(x - DX(d), y - DY(d), sq.x, sq.y);
    }
  }

  /**
   * One round of `Spread` extends a walk of `k` squares to `k + 1`: it suffices that the ray
   * agrees with the walk at the square and at the one before it.
   */
  lemma SpreadSquare(ray: Bitboard, sq: Square, d: Dir, blockers: Bitboard, k: nat, x: int, y: int)
    requires OnBoard(sq) && InBoard(x, y) && k >= 1
    requires ray[Index(x, y)] == InRay(sq.x, sq.y, d, blockers, x, y, k)
    requires InBoard(x - DX(d), y - DY(d)) ==>
      ray[Index(x - DX(d), y - DY(d))] == InRay(sq.x, sq.y, d, blockers, x - DX(d), y - DY(d), k)
    ensures Spread(ray, d, blockers)[Index(x, y)] == InRay(sq.x, sq.y, d, blockers, x, y, k + 1)
  {
    StepSquare(BitAnd(ray, BitNot(blockers)), d, x, y);
    InRayLast(sq.x, sq.y, d, blockers, x, y, k);
    if InRay(sq.x, sq.y, d, blockers, x, y, k) {
      InRayLonger(sq.x, sq.y, d, blockers, x, y, k);
    }
  }

  /** If a ray agrees with the walk of `m` squares everywhere, `k` more rounds give the walk of `m + k`. */
  lemma {:induction false} SpreadsSquares(ray: Bitboard, sq: Square, d: Dir, blockers: Bitboard, m: nat, k: nat, x: int, y: int)
    requires OnBoard(sq) && InBoard(x, y) && m >= 1
    requires forall u, v | InBoard(u, v) :: ray[Index(u, v)] == InRay(sq.x, sq.y, d, blockers, u, v, m)
    ensures Spreads(ray, d, blockers, k)[Index(x, y)] == InRay(sq.x, sq.y, d, blockers, x, y, m + k)
    decreases k
  {
    if k > 0 {
      forall u, v | InBoard(u, v)
        ensures Spread(ray, d, blockers)[Index(u, v)] == InRay(sq.x, sq.y, d, blockers, u, v, m + 1)
      {
        SpreadSquare(ray, sq, d, blockers, m, u, v);
      }
      SpreadsSquares(Spread(ray, d, blockers), sq, d, blockers, m + 1, k - 1, x, y);
    }
  }

  /** A ray of the source holds exactly the squares the reference walk of seven squares reaches. */
  lemma RaySquares(sq: Square, d: Dir, blockers: Bitboard, x: int, y: int)
    requires OnBoard(sq) && InBoard(x, y)
    ensures Ray(sq, d, blockers)[Index(x, y)] == InRay(sq.x, sq.y, d, blockers, x, y, 7)
  {
    forall u, v | InBoard(u, v)
      ensures Step(FromSquare(sq), d)[Index(u, v)] == InRay(sq.x, sq.y, d, blockers, u, v, 1)
    {
      FirstStepSquares(sq, d, blockers, u, v);
    }
    SpreadsSquares(Step(FromSquare(sq), d), sq, d, blockers, 1, 6, x, y);
  }

  /** The signed multiple `k * s` for a step `s` in -1..1, written without multiplication. */
  function Scale(k: int, s: int): int
  {
    if s > 0 then k else if s < 0 then -k else 0
  }

  /** How far (x, y) lies along `d`; each step along `d` increases it. */
  function Along(d: Dir, x: int, y: int): int
  {
    Scale(x, DX(d)) + Scale(y, DY(d))
  }

  /** Every square a walk reaches lies strictly further along `d` than the start. */
  lemma {:induction false} InRayProgress(x: int, y: int, d: Dir, blockers: Bitboard, tx: int, ty: int, n: nat)
    requires InRay(x, y, d, blockers, tx, ty, n)
    ensures Along(d, tx, ty) > Along(d, x, y)
    decreases n
  {
    var nx, ny := x + DX(d), y + DY(d);
    if !(tx == nx && ty == ny) {
      InRayProgress(nx, ny, d, blockers, tx, ty, n - 1);
    }
  }

  /** A walk never returns to its start. */
  lemma NeverStart(x: int, y: int, d: Dir, blockers: Bitboard, n: nat)
    ensures !InRay(x, y, d, blockers, x, y, n)
  {
    if InRay(x, y, d, blockers, x, y, n) {
      InRayProgress(x, y, d, blockers, x, y, n);
    }
  }

  /**
   * No square strictly before (tx, ty) on the unobstructed walk is occupied. The blocker on
   * (tx, ty) itself, if any, does not count.
   */
  ghost predicate Unblocked(x: int, y: int, d: Dir, blockers: Bitboard, tx: int, ty: int, n: nat)
  {
    forall u, v | InBoard(u, v) && InRay(x, y, d, FromEmpty(), u, v, n) && Along(d, u, v) < Along(d, tx, ty) ::
      !blockers[Index(u, v)]
  }

  /** Every square a walk reaches is at least as far along `d` as its first square. */
  lemma FirstIsNearest(x: int, y: int, d: Dir, blockers: Bitboard, u: int, v: int, n: nat)
    requires InRay(x, y, d, blockers, u, v, n)
    ensures Along(d, u, v) >= Along(d, x + DX(d), y + DY(d))
  {
    if !(u == x + DX(d) && v == y + DY(d)) {
      InRayProgress(x + DX(d), y + DY(d), d, blockers, u, v, n - 1);
    }
  }

  /** What the walk with blockers reaches, the unobstructed walk reaches with nothing occupied before it. */
  lemma {:induction false} InRayUnblocked(x: int, y: int, d: Dir, blockers: Bitboard, tx: int, ty: int, n: nat)
    requires InRay(x, y, d, blockers, tx, ty, n)
    ensures InRay(x, y, d, FromEmpty(), tx, ty, n) && Unblocked(x, y, d, blockers, tx, ty, n)
    decreases n
  {
    var nx, ny := x + DX(d), y + DY(d);
    if tx == nx && ty == ny {
      UnblockedFirst(x, y, d, blockers, n);
    } else {
      InRayUnblocked(nx, ny, d, blockers, tx, ty, n - 1);
      UnblockedStep(x, y, d, blockers, tx, ty, n);
    }
  }

  /** Nothing lies before the first square of a walk. */
  lemma UnblockedFirst(x: int, y: int, d: Dir, blockers: Bitboard, n: nat)
    ensures Unblocked(x, y, d, blockers, x + DX(d), y + DY(d), n)
  {
    forall u, v | InBoard(u, v) && InRay(x, y, d, FromEmpty(), u, v, n)
      ensures Along(d, u, v) >= Along(d, x + DX(d), y + DY(d))
    {
      FirstIsNearest(x, y, d, FromEmpty(), u, v, n);
    }
  }

  /** A free first square followed by an unblocked walk from it makes an unblocked walk. */
  lemma UnblockedStep(x: int, y: int, d: Dir, blockers: Bitboard, tx: int, ty: int, n: nat)
    requires n > 0 && InBoard(x + DX(d), y + DY(d)) && !blockers[Index(x + DX(d), y + DY(d))]
    requires Unblocked(x + DX(d), y + DY(d), d, blockers, tx, ty, n - 1)
    ensures Unblocked(x, y, d, blockers, tx, ty, n)
  {
    var nx, ny := x + DX(d), y + DY(d);
    forall u, v | InBoard(u, v) && InRay(x, y, d, FromEmpty(), u, v, n) && Along(d, u, v) < Along(d, tx, ty)
      ensures !blockers[Index(u, v)]
    {
      if !(u == nx && v == ny) {
        assert InRay(nx, ny, d, FromEmpty(), u, v, n - 1);
      }
    }
  }

  /** What the unobstructed walk reaches with nothing occupied before it, the walk with blockers reaches. */
  lemma {:induction false} UnblockedInRay(x: int, y: int, d: Dir, blockers: Bitboard, tx: int, ty: int, n: nat)
    requires InRay(x, y, d, FromEmpty(), tx, ty, n) && Unblocked(x, y, d, blockers, tx, ty, n)
    ensures InRay(x, y, d, blockers, tx, ty, n)
    decreases n
  {
    var nx, ny := x + DX(d), y + DY(d);
    if !(tx == nx && ty == ny) {
      InRayProgress(nx, ny, d, FromEmpty(), tx, ty, n - 1);
      assert InRay(x, y, d, FromEmpty(), nx, ny, n);
      forall u, v | InBoard(u, v) && InRay(nx, ny, d, FromEmpty(), u, v, n - 1) && Along(d, u, v) < Along(d, tx, ty)
        ensures !blockers[Index(u, v)]
      {
        assert InRay(x, y, d, FromEmpty(), u, v, n);
      }
      UnblockedInRay(nx, ny, d, blockers, tx, ty, n - 1);
    }
  }

  /**
   * The walk with blockers reaches exactly the squares of the unobstructed walk with no occupied
   * square before them: the first blocker is included and nothing past it.
   */
  lemma InRayExactly(x: int, y: int, d: Dir, blockers: Bitboard, tx: int, ty: int, n: nat)
    ensures InRay(x, y, d, blockers, tx, ty, n) <==>
      InRay(x, y, d, FromEmpty(), tx, ty, n) && Unblocked(x, y, d, blockers, tx, ty, n)
  {
    if InRay(x, y, d, blockers, tx, ty, n) {
      InRayUnblocked(x, y, d, blockers, tx, ty, n);
    }
    if InRay(x, y, d, FromEmpty(), tx, ty, n) && Unblocked(x, y, d, blockers, tx, ty, n) {
      UnblockedInRay(x, y, d, blockers, tx, ty, n);
    }
  }

  /** A square further along `d` than an occupied square the walk reaches is not reached. */
  lemma StopsAtBlocker(x: int, y: int, d: Dir, blockers: Bitboard, bx: int, bz: int, tx: int, ty: int, n: nat)
    requires InRay(x, y, d, blockers, bx, bz, n) && InBoard(bx, bz) && blockers[Index(bx, bz)]
    requires Along(d, tx, ty) > Along(d, bx, bz)
    ensures !InRay(x, y, d, blockers, tx, ty, n)
  {
    InRayExactly(x, y, d, blockers, bx, bz, n);
    InRayExactly(x, y, d, blockers, tx, ty, n);
  }

  /** The direction pointing the other way. */
  function Opposite(d: Dir): (r: Dir)
    ensures DX(r) == -DX(d) && DY(r) == -DY(d)
  {
    match d
    case N => S
    case S => N
    case E => W
    case W => E
    case NE => SW
    case SW => NE
    case NW => SE
    case SE => NW
  }

  /**
   * Rays are reversible: the walk from (x, y) along `d` reaches (tx, ty) exactly when the walk
   * from (tx, ty) the opposite way reaches (x, y), over the same blockers and in as many steps.
   */
  lemma {:induction false} InRayReversed(x: int, y: int, d: Dir, blockers: Bitboard, tx: int, ty: int, n: nat)
    requires InBoard(x, y) && InBoard(tx, ty)
    ensures InRay(x, y, d, blockers, tx, ty, n) <==> InRay(tx, ty, Opposite(d), blockers, x, y, n)
    decreases n
  {
    if n > 0 {
      var px, py := tx - DX(d), ty - DY(d);
      InRayLast(x, y, d, blockers, tx, ty, n - 1);
      if InBoard(px, py) {
        InRayReversed(x, y, d, blockers, px, py, n - 1);
      }
    }
  }

  /** The king-move distance between two squares. */
  function Dist(x: int, y: int, tx: int, ty: int): (k: nat)
  {
    var ax := if tx >= x then tx - x else x - tx;
    var ay := if ty >= y then ty - y else y - ty;
    if ax >= ay then ax else ay
  }

  /** (tx, ty) lies a whole, positive number of steps from (x, y) along `d`. */
  predicate Ahead(d: Dir, x: int, y: int, tx: int, ty: int)
  {
    var k := Dist(x, y, tx, ty);
    k >= 1 && tx == x + Scale(k, DX(d)) && ty == y + Scale(k, DY(d))
  }

  /** On an empty board, a walk of `n` squares reaches exactly the on-board squares at most `n` steps ahead. */
  lemma {:induction false} EmptyRay(x: int, y: int, d: Dir, tx: int, ty: int, n: nat)
    requires InBoard(x, y)
    ensures InRay(x, y, d, FromEmpty(), tx, ty, n) <==>
      InBoard(tx, ty) && Ahead(d, x, y, tx, ty) && Dist(x, y, tx, ty) <= n
    decreases n
  {
    var nx, ny := x + DX(d), y + DY(d);
    if n > 0 && InBoard(nx, ny) {
      EmptyRay(nx, ny, d, tx, ty, n - 1);
    }
  }

  /** The bishop mask holds exactly the squares the four diagonal walks reach, and never `sq`. */
  lemma BishopMaskSquares(sq: Square, blockers: Bitboard, x: int, y: int)
    requires OnBoard(sq) && InBoard(x, y)
    ensures MaskBishop(sq, blockers)[Index(x, y)] <==>
      InRay(sq.x, sq.y, NE, blockers, x, y, 7) || InRay(sq.x, sq.y, NW, blockers, x, y, 7) ||
      InRay(sq.x, sq.y, SE, blockers, x, y, 7) || InRay(sq.x, sq.y, SW, blockers, x, y, 7)
    ensures !MaskBishop(sq, blockers)[GetIndex(sq)]
  {
    RaySquares(sq, NE, blockers, x, y);
    RaySquares(sq, NW, blockers, x, y);
    RaySquares(sq, SE, blockers, x, y);
    RaySquares(sq, SW, blockers, x, y);
    RaySquares(sq, NE, blockers, sq.x, sq.y);
    RaySquares(sq, NW, blockers, sq.x, sq.y);
    RaySquares(sq, SE, blockers, sq.x, sq.y);
    RaySquares(sq, SW, blockers, sq.x, sq.y);
    NeverStart(sq.x, sq.y, NE, blockers, 7);
    NeverStart(sq.x, sq.y, NW, blockers, 7);
    NeverStart(sq.x, sq.y, SE, blockers, 7);
    NeverStart(sq.x, sq.y, SW, blockers, 7);
  }

  /** The rook mask holds exactly the squares the four orthogonal walks reach, and never `sq`. */
  lemma RookMaskSquares(sq: Square, blockers: Bitboard, x: int, y: int)
    requires OnBoard(sq) && InBoard(x, y)
    ensures MaskRook(sq, blockers)[Index(x, y)] <==>
      InRay(sq.x, sq.y, N, blockers, x, y, 7) || InRay(sq.x, sq.y, E, blockers, x, y, 7) ||
      InRay(sq.x, sq.y, S, blockers, x, y, 7) || InRay(sq.x, sq.y, W, blockers, x, y, 7)
    ensures !MaskRook(sq, blockers)[GetIndex(sq)]
  {
    RaySquares(sq, N, blockers, x, y);
    RaySquares(sq, E, blockers, x, y);
    RaySquares(sq, S, blockers, x, y);
    RaySquares(sq, W, blockers, x, y);
    RaySquares(sq, N, blockers, sq.x, sq.y);
    RaySquares(sq, E, blockers, sq.x, sq.y);
    RaySquares(sq, S, blockers, sq.x, sq.y);
    RaySquares(sq, W, blockers, sq.x, sq.y);
    NeverStart(sq.x, sq.y, N, blockers, 7);
    NeverStart(sq.x, sq.y, E, blockers, 7);
    NeverStart(sq.x, sq.y, S, blockers, 7);
    NeverStart(sq.x, sq.y, W, blockers, 7);
  }

  /** The queen mask holds exactly the squares any of the eight walks reaches. */
  lemma QueenMaskSquares(sq: Square, blockers: Bitboard, x: int, y: int)
    requires OnBoard(sq) && InBoard(x, y)
    ensures MaskQueen(sq, blockers)[Index(x, y)] <==>
      exists d: Dir :: InRay(sq.x, sq.y, d, blockers, x, y, 7)
  {
    BishopMaskSquares(sq, blockers, x, y);
    RookMaskSquares(sq, blockers, x, y);
    if exists d: Dir :: InRay(sq.x, sq.y, d, blockers, x, y, 7) {
      var d: Dir :| InRay(sq.x, sq.y, d, blockers, x, y, 7);
      match d
      case N => case S => case E => case W =>
      case NE => case NW => case SE => case SW =>
    }
  }

  /** The bishop mask cast from `a` holds `b` exactly when the one cast from `b` holds `a`. */
  lemma BishopMaskSymmetric(a: Square, b: Square, blockers: Bitboard)
    requires OnBoard(a) && OnBoard(b)
    ensures MaskBishop(a, blockers)[GetIndex(b)] <==> MaskBishop(b, blockers)[GetIndex(a)]
  {
    hide InRay, MaskBishop;
    BishopMaskSquares(a, blockers, b.x as int, b.y as int);
    BishopMaskSquares(b, blockers, a.x as int, a.y as int);
    InRayReversed(a.x as int, a.y as int, NE, blockers, b.x as int, b.y as int, 7);
    InRayReversed(a.x as int, a.y as int, NW, blockers, b.x as int, b.y as int, 7);
    InRayReversed(a.x as int, a.y as int, SE, blockers, b.x as int, b.y as int, 7);
    InRayReversed(a.x as int, a.y as int, SW, blockers, b.x as int, b.y as int, 7);
  }

  /** The rook mask cast from `a` holds `b` exactly when the one cast from `b` holds `a`. */
  lemma RookMaskSymmetric(a: Square, b: Square, blockers: Bitboard)
    requires OnBoard(a) && OnBoard(b)
    ensures MaskRook(a, blockers)[GetIndex(b)] <==> MaskRook(b, blockers)[GetIndex(a)]
  {
    hide InRay, MaskRook;
    RookMaskSquares(a, blockers, b.x as int, b.y as int);
    RookMaskSquares(b, blockers, a.x as int, a.y as int);
    InRayReversed(a.x as int, a.y as int, N, blockers, b.x as int, b.y as int, 7);
    InRayReversed(a.x as int, a.y as int, E, blockers, b.x as int, b.y as int, 7);
    InRayReversed(a.x as int, a.y as int, S, blockers, b.x as int, b.y as int, 7);
    InRayReversed(a.x as int, a.y as int, W, blockers, b.x as int, b.y as int, 7);
  }

  /** The queen mask cast from `a` holds `b` exactly when the one cast from `b` holds `a`. */
  lemma QueenMaskSymmetric(a: Square, b: Square, blockers: Bitboard)
    requires OnBoard(a) && OnBoard(b)
    ensures MaskQueen(a, blockers)[GetIndex(b)] <==> MaskQueen(b, blockers)[GetIndex(a)]
  {
    BishopMaskSymmetric(a, b, blockers);
    RookMaskSymmetric(a, b, blockers);
  }

  /** With no blockers, the rook mask is the rest of `sq`'s file and rank. */
  lemma RookEmptyBoard(sq: Square, blockers: Bitboard, x: int, y: int)
    requires OnBoard(sq) && InBoard(x, y) && IsEmpty(blockers)
    ensures MaskRook(sq, blockers)[Index(x, y)] <==> (x == sq.x) != (y == sq.y)
  {
    RookMaskSquares(sq, blockers, x, y);
    EmptyRay(sq.x, sq.y, N, x, y, 7);
    EmptyRay(sq.x, sq.y, E, x, y, 7);
    EmptyRay(sq.x, sq.y, S, x, y, 7);
    EmptyRay(sq.x, sq.y, W, x, y, 7);
  }

  /** With no blockers, the bishop mask is the rest of `sq`'s two diagonals. */
  lemma BishopEmptyBoard(sq: Square, blockers: Bitboard, x: int, y: int)
    requires OnBoard(sq) && InBoard(x, y) && IsEmpty(blockers)
    ensures MaskBishop(sq, blockers)[Index(x, y)] <==>
      x != sq.x && (x - sq.x == y - sq.y || x - sq.x == sq.y - y)
  {
    BishopMaskSquares(sq, blockers, x, y);
    EmptyRay(sq.x, sq.y, NE, x, y, 7);
    EmptyRay(sq.x, sq.y, NW, x, y, 7);
    EmptyRay(sq.x, sq.y, SE, x, y, 7);
    EmptyRay(sq.x, sq.y, SW, x, y, 7);
  }

  /** With no blockers, bit `i` of the rook mask is set iff square `i` shares exactly one of `sq`'s file and rank. */
  lemma RookEmptyMask(sq: Square, blockers: Bitboard)
    requires OnBoard(sq) && IsEmpty(blockers)
    ensures RookPattern(MaskRook(sq, blockers), sq.x, sq.y)
  {
    forall i | 0 <= i < 64
      ensures MaskRook(sq, blockers)[i] == ((i % 8 == sq.x) != (i / 8 == sq.y))
    {
      IndexCoords(i);
      RookEmptyBoard(sq, blockers, i % 8, i / 8);
    }
  }

  /** With no blockers, bit `i` of the bishop mask is set iff square `i` is on one of `sq`'s diagonals, other than `sq`. */
  lemma BishopEmptyMask(sq: Square, blockers: Bitboard)
    requires OnBoard(sq) && IsEmpty(blockers)
    ensures BishopPattern(MaskBishop(sq, blockers), sq.x, sq.y)
  {
    forall i | 0 <= i < 64
      ensures MaskBishop(sq, blockers)[i] ==
        (i % 8 != sq.x && (i % 8 - sq.x == i / 8 - sq.y || i % 8 - sq.x == sq.y - i / 8))
    {
      IndexCoords(i);
      BishopEmptyBoard(sq, blockers, i % 8, i / 8);
    }
  }

  /** The rook pattern of file `sx` and rank `sy`. */
  ghost predicate RookPattern(m: Bitboard, sx: int, sy: int)
  {
    forall i | 0 <= i < 64 :: m[i] == ((i % 8 == sx) != (i / 8 == sy))
  }

  /** The bishop pattern of file `sx` and rank `sy`. */
  ghost predicate BishopPattern(m: Bitboard, sx: int, sy: int)
  {
    forall i | 0 <= i < 64 :: m[i] == (i % 8 != sx && (i % 8 - sx == i / 8 - sy || i % 8 - sx == sy - i / 8))
  }

  /** The rook patterns of a1, h8 and e4 are the words 0x1010101010101fe, 0x7f80808080808080 and 0x10101010ef101010. */
  lemma RookPatterns(m: Bitboard, sx: int, sy: int)
    requires RookPattern(m, sx, sy)
    ensures sx == 0 && sy == 0 ==> m == Of({1, 2, 3, 4, 5, 6, 7, 8, 16, 24, 32, 40, 48, 56})
    ensures sx == 7 && sy == 7 ==> m == Of({7, 15, 23, 31, 39, 47, 55, 56, 57, 58, 59, 60, 61, 62})
    ensures sx == 4 && sy == 3 ==> m == Of({4, 12, 20, 24, 25, 26, 27, 29, 30, 31, 36, 44, 52, 60})
  {
    if sx == 0 && sy == 0 {
      assert m == Of({1, 2, 3, 4, 5, 6, 7, 8, 16, 24, 32, 40, 48, 56});
    } else if sx == 7 && sy == 7 {
      assert m == Of({7, 15, 23, 31, 39, 47, 55, 56, 57, 58, 59, 60, 61, 62});
    } else if sx == 4 && sy == 3 {
      assert m == Of({4, 12, 20, 24, 25, 26, 27, 29, 30, 31, 36, 44, 52, 60});
    }
  }

  /**
   * The bishop patterns of a1, h8, a8, h1 and e4 are the words 0x8040201008040200,
   * 0x40201008040201, 0x2040810204080, 0x102040810204000 and 0x182442800284482.
   */
  lemma BishopPatterns(m: Bitboard, sx: int, sy: int)
    requires BishopPattern(m, sx, sy)
    ensures sx == 0 && sy == 0 ==> m == Of({9, 18, 27, 36, 45, 54, 63})
    ensures sx == 7 && sy == 7 ==> m == Of({0, 9, 18, 27, 36, 45, 54})
    ensures sx == 0 && sy == 7 ==> m == Of({7, 14, 21, 28, 35, 42, 49})
    ensures sx == 7 && sy == 0 ==> m == Of({14, 21, 28, 35, 42, 49, 56})
    ensures sx == 4 && sy == 3 ==> m == Of({1, 7, 10, 14, 19, 21, 35, 37, 42, 46, 49, 55, 56})
  {
    if sx == 0 && sy == 0 {
      assert m == Of({9, 18, 27, 36, 45, 54, 63});
    } else if sx == 7 && sy == 7 {
      assert m == Of({0, 9, 18, 27, 36, 45, 54});
    } else if sx == 0 && sy == 7 {
      assert m == Of({7, 14, 21, 28, 35, 42, 49});
    } else if sx == 7 && sy == 0 {
      assert m == Of({14, 21, 28, 35, 42, 49, 56});
    } else if sx == 4 && sy == 3 {
      assert m == Of({1, 7, 10, 14, 19, 21, 35, 37, 42, 46, 49, 55, 56});
    }
  }

  /** The unit tests of `mask_rook` with no blockers, from a1 (index 0), h8 (63) and e4 (28). */
  lemma RookMaskExamples(sq: Square, blockers: Bitboard)
    requires OnBoard(sq) && IsEmpty(blockers)
    ensures GetIndex(sq) == 0 ==> MaskRook(sq, blockers) == Of({1, 2, 3, 4, 5, 6, 7, 8, 16, 24, 32, 40, 48, 56})
    ensures GetIndex(sq) == 63 ==> MaskRook(sq, blockers) == Of({7, 15, 23, 31, 39, 47, 55, 56, 57, 58, 59, 60, 61, 62})
    ensures GetIndex(sq) == 28 ==> MaskRook(sq, blockers) == Of({4, 12, 20, 24, 25, 26, 27, 29, 30, 31, 36, 44, 52, 60})
  {
    RookEmptyMask(sq, blockers);
    RookPatterns(MaskRook(sq, blockers), sq.x, sq.y);
  }

  /** The unit tests of `mask_bishop` with no blockers, from a1 (index 0), h8 (63), a8 (56), h1 (7) and e4 (28). */
  lemma BishopMaskExamples(sq: Square, blockers: Bitboard)
    requires OnBoard(sq) && IsEmpty(blockers)
    ensures GetIndex(sq) == 0 ==> MaskBishop(sq, blockers) == Of({9, 18, 27, 36, 45, 54, 63})
    ensures GetIndex(sq) == 63 ==> MaskBishop(sq, blockers) == Of({0, 9, 18, 27, 36, 45, 54})
    ensures GetIndex(sq) == 56 ==> MaskBishop(sq, blockers) == Of({7, 14, 21, 28, 35, 42, 49})
    ensures GetIndex(sq) == 7 ==> MaskBishop(sq, blockers) == Of({14, 21, 28, 35, 42, 49, 56})
    ensures GetIndex(sq) == 28 ==> MaskBishop(sq, blockers) == Of({1, 7, 10, 14, 19, 21, 35, 37, 42, 46, 49, 55, 56})
  {
    BishopEmptyMask(sq, blockers);
    var m := MaskBishop(sq, blockers);
    BishopPatterns(m, sq.x, sq.y);
    if GetIndex(sq) == 0 {
      assert sq.x == 0 && sq.y == 0;
    } else if GetIndex(sq) == 63 {
      assert sq.x == 7 && sq.y == 7;
    } else if GetIndex(sq) == 56 {
      assert sq.x == 0 && sq.y == 7;
    } else if GetIndex(sq) == 7 {
      assert sq.x == 7 && sq.y == 0;
    } else if GetIndex(sq) == 28 {
      assert sq.x == 4 && sq.y == 3;
    }
  }
}
