/**
 * The position: two colour bitboards, six piece bitboards, the side to move, the two
 * counters, the en-passant target and the four castling flags. `PositionValue` is the value
 * a position holds at one moment; the class `Position` is the object that `set_piece`,
 * `clear_square`, `makemove` and `set_fen` update in place.
 */
module Positions {
  import opened Wrappers
  import opened Types
  import opened Squares
  import opened Bitboards

  /** `[Bitboard; 2]`, indexed by `Side as usize`. */
  type Colours = s: seq<Bitboard> | |s| == 2 witness [FromEmpty(), FromEmpty()]

  /** `[Bitboard; 6]`, indexed by `Piece as usize`. */
  type Pieces = s: seq<Bitboard> | |s| == 6
    witness [FromEmpty(), FromEmpty(), FromEmpty(), FromEmpty(), FromEmpty(), FromEmpty()]

  /** `[bool; 4]`, indexed by `Castling as usize`. */
  type Rights = s: seq<bool> | |s| == 4 witness [false, false, false, false]

  /** The fields of a `Position`. */
  datatype PositionValue = PositionValue(
    colours: Colours,
    pieces: Pieces,
    turn: Side,
    halfmoves: u8,
    fullmoves: u8,
    ep: Option<Square>,
    castling: Rights)

  /** `Position::default()`. */
  function DefaultValue(): (v: PositionValue)
  {
    PositionValue(
      [FromEmpty(), FromEmpty()],
      [FromEmpty(), FromEmpty(), FromEmpty(), FromEmpty(), FromEmpty(), FromEmpty()],
      White, 0, 0, None, [false, false, false, false])
  }

  // ---------------------------------------------------------------- queries

  /** The square is in the bitboard of that side and in that of that piece. */
  predicate Has(v: PositionValue, side: Side, piece: Piece, i: int)
    requires 0 <= i < 64
  {
    v.colours[SideIndex(side)][i] && v.pieces[PieceIndex(piece)][i]
  }

  /** `get_piece_on`: the first piece bitboard, in the order Pawn to King, that has the square. */
  function PieceOn(v: PositionValue, sq: Square): (r: Option<Piece>)
    requires Indexable(sq)
    ensures r == None <==> forall p | 0 <= p < 6 :: !v.pieces[p][GetIndex(sq)]
    ensures r.Some? ==> v.pieces[PieceIndex(r.value)][GetIndex(sq)]
    ensures r.Some? ==> forall p | 0 <= p < PieceIndex(r.value) :: !v.pieces[p][GetIndex(sq)]
  {
    if IsSet(v.pieces[0], sq) then Some(Pawn)
    else if IsSet(v.pieces[1], sq) then Some(Knight)
    else if IsSet(v.pieces[2], sq) then Some(Bishop)
    else if IsSet(v.pieces[3], sq) then Some(Rook)
    else if IsSet(v.pieces[4], sq) then Some(Queen)
    else if IsSet(v.pieces[5], sq) then Some(King)
    else None
  }

  /** `get_colour_on`: White if the white bitboard has the square, else Black if the black one has it. */
  function ColourOn(v: PositionValue, sq: Square): (r: Option<Side>)
    requires Indexable(sq)
    ensures r == Some(White) <==> v.colours[0][GetIndex(sq)]
    ensures r == Some(Black) <==> !v.colours[0][GetIndex(sq)] && v.colours[1][GetIndex(sq)]
    ensures r == None <==> !v.colours[0][GetIndex(sq)] && !v.colours[1][GetIndex(sq)]
  {
    if IsSet(v.colours[0], sq) then Some(White)
    else if IsSet(v.colours[1], sq) then Some(Black)
    else None
  }

  /** `is_empty`: the square is in neither colour bitboard. */
  function IsEmptyOn(v: PositionValue, sq: Square): (r: bool)
    requires Indexable(sq)
    ensures r <==> ColourOn(v, sq) == None
  {
    !IsSet(BitOr(v.colours[0], v.colours[1]), sq)
  }

  /** The two colour bitboards together: every occupied square. */
  function Occupied(v: PositionValue): (r: Bitboard)
    ensures forall i | 0 <= i < 64 :: r[i] == (v.colours[0][i] || v.colours[1][i])
  {
    BitOr(v.colours[0], v.colours[1])
  }

  // ---------------------------------------------------------------- board consistency

  /**
   * At square `i` no two piece bitboards and no two colour bitboards meet, and the square is
   * in a colour bitboard exactly when it is in a piece bitboard: the colour bitboards are the
   * unions of their sides' pieces.
   */
  ghost predicate ConsistentAt(v: PositionValue, i: int)
    requires 0 <= i < 64
  {
    !(v.colours[0][i] && v.colours[1][i]) &&
    (forall p, q | 0 <= p < q < 6 :: !(v.pieces[p][i] && v.pieces[q][i])) &&
    ((v.colours[0][i] || v.colours[1][i]) <==> exists p | 0 <= p < 6 :: v.pieces[p][i])
  }

  /** Board consistency holds on every square. */
  ghost predicate Consistent(v: PositionValue)
  {
    forall i | 0 <= i < 64 :: ConsistentAt(v, i)
  }

  /** The bitboards of `v` and `w` agree on square `i`. */
  ghost predicate SameAt(v: PositionValue, w: PositionValue, i: int)
    requires 0 <= i < 64
  {
    (forall c | 0 <= c < 2 :: v.colours[c][i] == w.colours[c][i]) &&
    (forall p | 0 <= p < 6 :: v.pieces[p][i] == w.pieces[p][i])
  }

  /** The default position is consistent and every square of it is empty. */
  lemma DefaultIsEmpty(sq: Square)
    requires Indexable(sq)
    ensures Consistent(DefaultValue())
    ensures IsEmptyOn(DefaultValue(), sq) && PieceOn(DefaultValue(), sq) == None
  {
    var v := DefaultValue();
    forall i | 0 <= i < 64 ensures ConsistentAt(v, i) {
      assert forall p | 0 <= p < 6 :: !v.pieces[p][i];
    }
  }

  /** On a consistent board a square has a colour exactly when it has a piece. */
  lemma ColourIffPiece(v: PositionValue, sq: Square)
    requires Consistent(v) && Indexable(sq)
    ensures ColourOn(v, sq).Some? <==> PieceOn(v, sq).Some?
  {
    var i := GetIndex(sq);
    assert ConsistentAt(v, i);
    if PieceOn(v, sq).Some? {
      assert v.pieces[PieceIndex(PieceOn(v, sq).value)][i];
    }
    if ColourOn(v, sq).Some? {
      var p :| 0 <= p < 6 && v.pieces[p][i];
      assert v.pieces[PieceIndex(PieceOf(p))][i];
    }
  }

  // ---------------------------------------------------------------- set_piece and clear_square

  /** The value `set_piece(sq, side, piece)` leaves: the square added to one colour and one piece bitboard. */
  function Placed(v: PositionValue, sq: Square, side: Side, piece: Piece): (w: PositionValue)
    requires Indexable(sq)
    ensures w.turn == v.turn && w.halfmoves == v.halfmoves && w.fullmoves == v.fullmoves
    ensures w.ep == v.ep && w.castling == v.castling
  {
    v.(colours := v.colours[SideIndex(side) := Set(v.colours[SideIndex(side)], sq)],
       pieces := v.pieces[PieceIndex(piece) := Set(v.pieces[PieceIndex(piece)], sq)])
  }

  /** The value `clear_square(sq)` leaves: the square removed from all eight bitboards. */
  function Cleared(v: PositionValue, sq: Square): (w: PositionValue)
    requires Indexable(sq)
    ensures w.turn == v.turn && w.halfmoves == v.halfmoves && w.fullmoves == v.fullmoves
    ensures w.ep == v.ep && w.castling == v.castling
  {
    v.(colours := [Unset(v.colours[0], sq), Unset(v.colours[1], sq)],
       pieces := [Unset(v.pieces[0], sq), Unset(v.pieces[1], sq), Unset(v.pieces[2], sq),
                  Unset(v.pieces[3], sq), Unset(v.pieces[4], sq), Unset(v.pieces[5], sq)])
  }

  /**
   * `set_piece` sets the square's bit in exactly the side's colour bitboard and the piece's
   * bitboard; every other bit and every other field is unchanged.
   */
  lemma PlacedBits(v: PositionValue, sq: Square, side: Side, piece: Piece)
    requires Indexable(sq)
    ensures var w := Placed(v, sq, side, piece);
      (forall c, i | 0 <= c < 2 && 0 <= i < 64 ::
        w.colours[c][i] == (v.colours[c][i] || (i == GetIndex(sq) && c == SideIndex(side)))) &&
      (forall p, i | 0 <= p < 6 && 0 <= i < 64 ::
        w.pieces[p][i] == (v.pieces[p][i] || (i == GetIndex(sq) && p == PieceIndex(piece)))) &&
      w.turn == v.turn && w.halfmoves == v.halfmoves && w.fullmoves == v.fullmoves &&
      w.ep == v.ep && w.castling == v.castling
  {
  }

  /**
   * `clear_square` empties the square in all eight bitboards; every other bit and every other
   * field is unchanged.
   */
  lemma ClearedBits(v: PositionValue, sq: Square)
    requires Indexable(sq)
    ensures var w := Cleared(v, sq);
      (forall c, i | 0 <= c < 2 && 0 <= i < 64 :: w.colours[c][i] == (v.colours[c][i] && i != GetIndex(sq))) &&
      (forall p, i | 0 <= p < 6 && 0 <= i < 64 :: w.pieces[p][i] == (v.pieces[p][i] && i != GetIndex(sq))) &&
      w.turn == v.turn && w.halfmoves == v.halfmoves && w.fullmoves == v.fullmoves &&
      w.ep == v.ep && w.castling == v.castling
  {
  }

  /**
   * After `clear_square(sq)` the square is empty, holds no piece and no colour, every other
   * square is as before, and clearing again changes nothing.
   */
  lemma ClearSquareEmpties(v: PositionValue, sq: Square)
    requires Indexable(sq)
    ensures IsEmptyOn(Cleared(v, sq), sq)
    ensures PieceOn(Cleared(v, sq), sq) == None && ColourOn(Cleared(v, sq), sq) == None
    ensures forall i | 0 <= i < 64 && i != GetIndex(sq) :: SameAt(Cleared(v, sq), v, i)
    ensures Cleared(Cleared(v, sq), sq) == Cleared(v, sq)
  {
    ClearedBits(v, sq);
    var w := Cleared(v, sq);
    ClearedBits(w, sq);
    forall c | 0 <= c < 2 ensures Unset(w.colours[c], sq) == w.colours[c] {
      assert forall i | 0 <= i < 64 :: Unset(w.colours[c], sq)[i] == w.colours[c][i];
    }
    forall p | 0 <= p < 6 ensures Unset(w.pieces[p], sq) == w.pieces[p] {
      assert forall i | 0 <= i < 64 :: Unset(w.pieces[p], sq)[i] == w.pieces[p][i];
    }
    assert Cleared(w, sq).colours == w.colours;
    assert Cleared(w, sq).pieces == w.pieces;
  }

  /** Clearing keeps a board consistent. */
  lemma ClearedConsistent(v: PositionValue, sq: Square)
    requires Indexable(sq) && Consistent(v)
    ensures Consistent(Cleared(v, sq))
  {
    var w := Cleared(v, sq);
    ClearedBits(v, sq);
    forall i | 0 <= i < 64 ensures ConsistentAt(w, i) {
      assert ConsistentAt(v, i);
      if i == GetIndex(sq) {
        assert forall p | 0 <= p < 6 :: !w.pieces[p][i];
      } else {
        assert SameAt(w, v, i);
      }
    }
  }

  /** Placing a piece on an empty square of a consistent board keeps it consistent. */
  lemma PlacedConsistent(v: PositionValue, sq: Square, side: Side, piece: Piece)
    requires Indexable(sq) && Consistent(v) && IsEmptyOn(v, sq)
    ensures Consistent(Placed(v, sq, side, piece))
  {
    var w := Placed(v, sq, side, piece);
    var j := GetIndex(sq);
    PlacedBits(v, sq, side, piece);
    forall i | 0 <= i < 64 ensures ConsistentAt(w, i) {
      assert ConsistentAt(v, i);
      if i == j {
        assert forall p | 0 <= p < 6 :: !v.pieces[p][i];
        assert w.pieces[PieceIndex(piece)][i];
      } else {
        assert SameAt(w, v, i);
      }
    }
  }

  /**
   * `clear_square(sq)` then `set_piece(sq, side, piece)`: the square then holds exactly that
   * side and that piece, and a consistent board stays consistent.
   */
  lemma ClearThenPlace(v: PositionValue, sq: Square, side: Side, piece: Piece)
    requires Indexable(sq)
    ensures var w := Placed(Cleared(v, sq), sq, side, piece);
      PieceOn(w, sq) == Some(piece) && ColourOn(w, sq) == Some(side) && !IsEmptyOn(w, sq)
    ensures Consistent(v) ==> Consistent(Placed(Cleared(v, sq), sq, side, piece))
  {
    ClearedBits(v, sq);
    var u := Cleared(v, sq);
    PlacedBits(u, sq, side, piece);
    var w := Placed(u, sq, side, piece);
    assert forall p | 0 <= p < 6 :: w.pieces[p][GetIndex(sq)] <==> p == PieceIndex(piece);
    if Consistent(v) {
      ClearedConsistent(v, sq);
      ClearSquareEmpties(v, sq);
      PlacedConsistent(u, sq, side, piece);
    }
  }

  /** On a consistent board, the side and piece on a square are those whose bitboards have it. */
  lemma OccupantExact(v: PositionValue, sq: Square, side: Side, piece: Piece)
    requires Consistent(v) && Indexable(sq)
    ensures Has(v, side, piece, GetIndex(sq)) <==> ColourOn(v, sq) == Some(side) && PieceOn(v, sq) == Some(piece)
  {
    var i := GetIndex(sq);
    assert ConsistentAt(v, i);
    if PieceOn(v, sq) == Some(piece) {
      forall p: Piece | p != piece ensures !v.pieces[PieceIndex(p)][i] {
        PieceIndexBijective(p, piece);
        if PieceIndex(p) < PieceIndex(piece) {
        } else {
          assert !(v.pieces[PieceIndex(piece)][i] && v.pieces[PieceIndex(p)][i]);
        }
      }
    }
  }

  // ---------------------------------------------------------------- the object

  /** A position that `set_piece`, `clear_square`, `makemove` and `set_fen` update in place. */
  class Position {
    var colours: Colours
    var pieces: Pieces
    var turn: Side
    var halfmoves: u8
    var fullmoves: u8
    var ep: Option<Square>
    var castling: Rights

    /** The fields, as one value. */
    function State(): PositionValue
      reads this
    {
      PositionValue(colours, pieces, turn, halfmoves, fullmoves, ep, castling)
    }

    /** `Position::default()`: every bitboard empty, White to move, counters 0, no en passant, no castling. */
    constructor ()
      ensures State() == DefaultValue()
    {
      colours := [FromEmpty(), FromEmpty()];
      pieces := [FromEmpty(), FromEmpty(), FromEmpty(), FromEmpty(), FromEmpty(), FromEmpty()];
      turn := White;
      halfmoves := 0;
      fullmoves := 0;
      ep := None;
      castling := [false, false, false, false];
    }

    /** Overwrites every field with those of `v` (`*self = v`). */
    method Assign(v: PositionValue)
      modifies this
      ensures State() == v
    {
      colours, pieces, turn, halfmoves := v.colours, v.pieces, v.turn, v.halfmoves;
      fullmoves, ep, castling := v.fullmoves, v.ep, v.castling;
    }

    /** `set_piece`: sets the square in the side's colour bitboard and in the piece's bitboard. */
    method SetPiece(sq: Square, side: Side, piece: Piece)
      requires Indexable(sq)
      modifies this
      ensures State() == Placed(old(State()), sq, side, piece)
    {
      colours := colours[SideIndex(side) := Set(colours[SideIndex(side)], sq)];
      pieces := pieces[PieceIndex(piece) := Set(pieces[PieceIndex(piece)], sq)];
    }

    /** `clear_square`: unsets the square in both colour bitboards and all six piece bitboards. */
    method ClearSquare(sq: Square)
      requires Indexable(sq)
      modifies this
      ensures State() == Cleared(old(State()), sq)
    {
      colours := colours[0 := Unset(colours[0], sq)];
      colours := colours[1 := Unset(colours[1], sq)];
      pieces := pieces[0 := Unset(pieces[0], sq)];
      pieces := pieces[1 := Unset(pieces[1], sq)];
      pieces := pieces[2 := Unset(pieces[2], sq)];
      pieces := pieces[3 := Unset(pieces[3], sq)];
      pieces := pieces[4 := Unset(pieces[4], sq)];
      pieces := pieces[5 := Unset(pieces[5], sq)];
    }
  }
}
