# A verified model of the `chess` bitboard rules engine

This project is a Dafny model of the Rust `chess` crate. The crate is a bitboard chess rules engine with these parts:

- **Squares and enums** (`square.rs`, `lib.rs`):
  - a `Square` is a pair of `u8` coordinates;
  - `Piece`, `Side` and `Castling` are enums used as array indices;
  - `!side` gives the opponent.
- **Bitboards** (`bitboard.rs`):
  - a bitboard is a 64-bit set of squares;
  - it supports set, unset, test, pop-lowest-bit and population count;
  - one-square shifts drop bits that would wrap around a file edge;
  - attack masks cover the knight and king (fixed patterns) and the bishop, rook and queen (rays that stop at, and include, the first blocker).
- **Position** (`position.rs`): two colour bitboards, six piece bitboards, side to move, halfmove and fullmove counters, an en-passant square and four castling flags. `set_piece` and `clear_square` are the mutating primitives.
- **Attack detection** (`is_attacked.rs`): whether any piece of one side attacks a square.
- **Pseudolegal move generation** (`movegen.rs`): pawn pushes, double pushes and captures (including en passant), four-way promotion expansion, piece moves and castling.
- **Move application** (`makemove.rs`): destructive. It updates the clock, en passant, promotion, castling rights, the castling rook and the side to move, then reports whether the mover's king is safe.
- **Text forms**: UCI-style move strings (`mv.rs`) and FEN parsing and printing (`fen.rs`).

Files and modules:

| file | module | models |
|---|---|---|
| `wrappers.dfy` | `Wrappers` | `Option` and `Result` |
| `types.dfy` | `Types` | `lib.rs` enums and `Not for Side` |
| `square.dfy` | `Squares` | `square.rs`, plus `get_index` (called throughout but not defined in `square.rs`), defined as `8*y + x` |
| `bitboard.dfy` | `Bitboards` | `bitboard.rs` constructors, operators, shifts, `count` and `pop_lsb` |
| `masks.dfy` | `Masks` | `bitboard.rs` attack masks and the ray geometry they implement |
| `position.dfy` | `Positions` | `position.rs`: a `PositionValue` datatype for the state, and the `Position` class that `set_piece`/`clear_square` update in place |
| `attacks.dfy` | `Attacks` | `is_attacked.rs`, with a geometric reference definition of "attacked" |
| `mv.dfy` | `Moves` | `mv.rs` |
| `makemove.dfy` | `MakeMoves` | `makemove.rs`: a specification function `Apply` and the imperative `MakeMove` method proved against it |
| `movegen.dfy` | `MoveGen` | `movegen.rs`: the pop-lsb loops as `while` loops appending to a move list, proved equal to specification functions |
| `rules.dfy` | `MoveRules` | chess-rule characterisations of every generated move (pushes, captures, piece moves, castling) |
| `play.dfy` | `Play` | `makemove` applied to the moves `pseudolegal_moves` lists, and board consistency over any sequence of them |
| `fen.dfy` | `Fen` | `fen.rs`: `SetFen` walks the placement string with cursors and calls `SetPiece`; `GetFen` appends ranks with an empty-square counter; both are proved against the functions `ParseFen` and `FenOf` |

A bitboard is a `seq<bool>` of length 64, where element `i` is square `i` (a1 = 0, h8 = 63). The `u64` operators become elementwise operations, and `<< k` and `>> k` become index shifts that drop out-of-range bits.

A `Square` may hold any `u8` pair, as in the source:
- `Indexable(sq)` (`8*y + x < 64`) is what a shift by `get_index` needs to stay inside 64 bits;
- `OnBoard(sq)` (`x < 8 && y < 8`) is the stronger condition that the geometric lemmas need.

Panics in the source become either:
- an `Err` result (square, move and FEN parsing), with the source's message text; or
- a precondition (the piece required on the origin square of `makemove`; a king for the legality check).

## Model

| member | source | states |
|---|---|---|
| Types.PieceIndex | chess/src/lib.rs:14-21 | every piece discriminant is a valid index into the six-element `pieces` array |
| Types.PieceOf | chess/src/lib.rs:14-21 | every index below 6 is the discriminant of exactly the piece returned |
| Types.PieceIndexBijective | chess/src/lib.rs:14-21 | distinct pieces have distinct discriminants, and `PieceOf` inverts the discriminant |
| Types.SideIndex | chess/src/lib.rs:24-27 | side discriminants are 0 (White) and 1 (Black), valid indices into `colours` |
| Types.CastlingIndex | chess/src/lib.rs:29-34 | castling discriminants are valid indices into the four castling flags |
| Types.CastlingIndexInjective | chess/src/lib.rs:29-34 | the four castling rights occupy four distinct flags |
| Types.Opponent | chess/src/lib.rs:36-45 | `!side` is never `side` itself |
| Types.OpponentInvolution | chess/src/lib.rs:36-55 | `!!s == s`, and negation swaps discriminants 0 and 1 (so `!White == Black` and `!Black == White`) |
| Squares.GetIndex | chess/src/square.rs:31-36 | for an on-board square the index is below 64, with `index % 8 == x` and `index / 8 == y` |
| Squares.FromIndex | chess/src/square.rs:31-36 | the file is always below 8; an index below 64 gives an on-board square whose index is the input |
| Squares.IndexRoundTrip | chess/src/square.rs:31-36 | `from_index(get_index(s)) == s` for on-board squares and `get_index(from_index(i)) == i` for `i < 64` |
| Squares.GetIndexInjective | chess/src/square.rs:31-36 | two on-board squares share an index exactly when they are equal |
| Squares.FromString | chess/src/square.rs:12-21 | a parsed square has file below 10 (letters a to j) and rank below 8 |
| Squares.ToString | chess/src/square.rs:39-44 | a square prints as exactly two characters |
| Squares.FromStringOfToString | chess/src/square.rs:12-44 | parsing the printed form of any square the parser can produce gives the square back |
| Squares.ToStringOfFromString | chess/src/square.rs:12-44 | printing a parsed square gives back the first two characters of the input |
| Squares.FromStringFails | chess/src/square.rs:13-18 | parsing fails exactly when the input is shorter than two characters, the file is outside a..j, or the rank is outside 1..8 |
| Squares.Corners | chess/src/square.rs:50-64 | a1, a8, h1 and h8 parse to (0,0), (0,7), (7,0) and (7,7) and print back |
| Squares.OffBoardFiles | chess/src/square.rs:16 | "i1" and "j1" parse to the off-board squares (8,0) and (9,0); the index of (8,0) is that of a2 |
| Bitboards.FromEmpty | chess/src/bitboard.rs:11-13 | the empty board has no square set |
| Bitboards.FromFull | chess/src/bitboard.rs:16-18 | the full board has every square set |
| Bitboards.FromSquare | chess/src/bitboard.rs:21-23 | exactly one bit is set, at `get_index(sq)` |
| Bitboards.IsEmpty | chess/src/bitboard.rs:26-28 | true exactly when no square is set |
| Bitboards.IsFull | chess/src/bitboard.rs:31-33 | true exactly when every square is set |
| Bitboards.IsOccupied | chess/src/bitboard.rs:36-38 | true exactly when some square is set, i.e. when the board is not empty |
| Bitboards.IsSet | chess/src/bitboard.rs:51-53 | reports the bit at `get_index(sq)` |
| Bitboards.Set | chess/src/bitboard.rs:55-57 | the `sq` bit becomes set and every other bit keeps its value |
| Bitboards.Unset | chess/src/bitboard.rs:59-61 | the `sq` bit becomes clear and every other bit keeps its value |
| Bitboards.SetUnset | chess/src/bitboard.rs:50-61 | after `set(sq)` `is_set(sq)` holds and after `unset(sq)` it does not; the answer for any other square is unchanged |
| Bitboards.North | chess/src/bitboard.rs:64-66 | each bit moves up one rank (index + 8); bits leaving rank 8 vanish |
| Bitboards.South | chess/src/bitboard.rs:69-71 | each bit moves down one rank (index - 8); bits leaving rank 1 vanish |
| Bitboards.East | chess/src/bitboard.rs:74-76 | each bit moves one file right; the result never has a file-a bit, so nothing wraps from file h |
| Bitboards.West | chess/src/bitboard.rs:79-81 | each bit moves one file left; the result never has a file-h bit, so nothing wraps from file a |
| Bitboards.ShiftSquares | chess/src/bitboard.rs:64-81 | in board coordinates, each shift takes square (x,y) from its neighbour and yields nothing at the edge it moves away from |
| Bitboards.ShiftExamples | chess/src/bitboard.rs:320-346 | the unit-test cases for `north`, `south`, `east` and `west`, including `west` of a1 being empty |
| Bitboards.BitAnd | chess/src/bitboard.rs:212-214 | a square is in the result exactly when it is in both operands |
| Bitboards.BitOr | chess/src/bitboard.rs:254-256 | a square is in the result exactly when it is in either operand |
| Bitboards.BitXor | chess/src/bitboard.rs:246-248 | a square is in the result exactly when it is in one operand but not the other |
| Bitboards.BitNot | chess/src/bitboard.rs:220-222 | a square is in the result exactly when it is not in the operand |
| Bitboards.Count | chess/src/bitboard.rs:84-86 | the population count never exceeds the number of bits |
| Bitboards.CountZero | chess/src/bitboard.rs:84-86 | the count is 0 exactly when no bit is set |
| Bitboards.CountAll | chess/src/bitboard.rs:84-86 | the count equals the length exactly when every bit is set |
| Bitboards.CountEmptyFull | chess/src/bitboard.rs:282-289 | `count` of the empty board is 0 and of the full board is 64 |
| Bitboards.CountFromSquare | chess/src/bitboard.rs:20-23 | `from_square(sq)` has exactly one bit set |
| Bitboards.CountExamplesSingle | chess/src/bitboard.rs:282-286 | the boards 1 and 2 have count 1 |
| Bitboards.CountExamplesPair | chess/src/bitboard.rs:286 | the board 3 has count 2 |
| Bitboards.OperatorExamples | chess/src/bitboard.rs:292-316 | the unit-test cases for `is_empty`, `^`, `\|`, `&` and `!` |
| Bitboards.CountClear | chess/src/bitboard.rs:41-48 | clearing one set bit lowers the count by exactly one |
| Bitboards.TrailingZeros | chess/src/bitboard.rs:42 | `trailing_zeros` is the position of the lowest set bit: all bits below it are clear, and it is set unless the board is empty |
| Bitboards.DecrementValue | chess/src/bitboard.rs:43 | the bitwise decrement computes `value - 1` of the board read as an unsigned number |
| Bitboards.DecrementBits | chess/src/bitboard.rs:43 | `b - 1` sets every bit below the lowest set bit, clears that bit and keeps the rest |
| Bitboards.ClearLowest | chess/src/bitboard.rs:43 | `b & (b - 1)` is `b` without its lowest set bit |
| Bitboards.LowestSquare | chess/src/bitboard.rs:44-47 | the square built from `trailing_zeros` is on the board, is set, and no lower square is set |
| Bitboards.PopLsb | chess/src/bitboard.rs:41-48 | on a non-empty board, returns the lowest set square and removes exactly that bit, so the count drops by one |
| Masks.KnightMaskSquares | chess/src/bitboard.rs:96-108 | a square is in the knight mask exactly when it is a knight jump from `sq`, for every blocker set |
| Masks.KnightMaskCount | chess/src/bitboard.rs:96-108 | the knight mask never contains `sq` and has at most 8 bits |
| Masks.KingBits | chess/src/bitboard.rs:193-206 | the king mask holds index +8 and -8, and ±1/±7/±9 only where the file mask keeps them, whatever the blockers |
| Masks.KingMaskSquares | chess/src/bitboard.rs:193-206 | a square is in the king mask exactly when it is one king step from `sq`; `sq` itself is never in it |
| Masks.KingMaskCount | chess/src/bitboard.rs:193-206 | the king mask has at most 8 bits |
| Masks.RaySquares | chess/src/bitboard.rs:114-120 | the seven unrolled `\|=` steps along one direction give exactly the squares reachable along that direction up to and including the first blocker |
| Masks.NeverStart | chess/src/bitboard.rs:110-186 | a ray never contains its own starting square |
| Masks.FirstIsNearest | chess/src/bitboard.rs:110-186 | every ray square lies at least one step out from the start in the ray's direction |
| Masks.InRayExactly | chess/src/bitboard.rs:110-186 | a square is on a blocked ray exactly when it is on the empty-board ray and no blocker lies strictly between it and the start |
| Masks.StopsAtBlocker | chess/src/bitboard.rs:110-186 | a ray that reaches a blocker contains no square beyond it |
| Masks.InRayReversed | chess/src/bitboard.rs:111-186 | rays are reversible: the walk from (x, y) along a direction reaches (tx, ty) exactly when the walk from (tx, ty) the opposite way reaches (x, y), over the same blockers |
| Masks.BishopMaskSymmetric | chess/src/bitboard.rs:111-147 | `mask_bishop(a)` holds `b` exactly when `mask_bishop(b)` holds `a`, for the same blockers |
| Masks.RookMaskSymmetric | chess/src/bitboard.rs:150-186 | `mask_rook(a)` holds `b` exactly when `mask_rook(b)` holds `a`, for the same blockers |
| Masks.QueenMaskSymmetric | chess/src/bitboard.rs:189-191 | `mask_queen(a)` holds `b` exactly when `mask_queen(b)` holds `a`, for the same blockers |
| Masks.EmptyRay | chess/src/bitboard.rs:110-186 | with no blockers a ray holds every on-board square ahead of the start in its direction, up to the step limit |
| Masks.BishopMaskSquares | chess/src/bitboard.rs:110-147 | the bishop mask is the union of the four diagonal rays, and never contains `sq` |
| Masks.RookMaskSquares | chess/src/bitboard.rs:149-186 | the rook mask is the union of the four orthogonal rays, and never contains `sq` |
| Masks.QueenMaskSquares | chess/src/bitboard.rs:188-191 | the queen mask (`mask_bishop \| mask_rook`) is the union of all eight rays |
| Masks.RookEmptyBoard | chess/src/bitboard.rs:149-186 | with no blockers the rook mask is the full rank and file through `sq`, without `sq` |
| Masks.BishopEmptyBoard | chess/src/bitboard.rs:110-147 | with no blockers the bishop mask is both full diagonals through `sq`, without `sq` |
| Masks.RookEmptyMask | chess/src/bitboard.rs:149-186 | the empty-board rook mask is the rook pattern of `sq` |
| Masks.BishopEmptyMask | chess/src/bitboard.rs:110-147 | the empty-board bishop mask is the bishop pattern of `sq` |
| Masks.RookPatterns | chess/src/bitboard.rs:389-416 | the rook patterns of squares 0, 63 and 28 are the unit-test masks 0x1010101010101fe, 0x7f80808080808080 and 0x10101010ef101010 |
| Masks.BishopPatterns | chess/src/bitboard.rs:349-386 | the bishop patterns of squares 0, 63, 56, 7 and 28 are the unit-test masks |
| Masks.RookMaskExamples | chess/src/bitboard.rs:389-416 | `mask_rook` with no blockers equals the unit-test masks for squares 0, 63 and 28 |
| Masks.BishopMaskExamples | chess/src/bitboard.rs:349-386 | `mask_bishop` with no blockers equals the unit-test masks for squares 0, 63, 56, 7 and 28 |
| Positions.PieceOn | chess/src/position.rs:31-48 | None exactly when no piece bitboard has `sq`; otherwise the first piece in Pawn..King order whose bitboard has it |
| Positions.ColourOn | chess/src/position.rs:51-60 | White when the white bitboard has `sq`, else Black when the black one has it, else None |
| Positions.IsEmptyOn | chess/src/position.rs:63-66 | a square is empty exactly when neither colour bitboard has it |
| Positions.Occupied | chess/src/position.rs:65 | the union of the two colour bitboards |
| Positions.DefaultIsEmpty | chess/src/position.rs:15-27 | the default position is consistent and every square is empty with no piece |
| Positions.ColourIffPiece | chess/src/position.rs:31-60 | in a consistent position a square has a colour exactly when it has a piece |
| Positions.Placed | chess/src/position.rs:69-72 | `set_piece` leaves side to move, counters, en passant and castling unchanged |
| Positions.Cleared | chess/src/position.rs:75-84 | `clear_square` leaves side to move, counters, en passant and castling unchanged |
| Positions.PlacedBits | chess/src/position.rs:69-72 | `set_piece` adds `sq` to exactly `colours[side]` and `pieces[piece]`; every other bit is unchanged |
| Positions.ClearedBits | chess/src/position.rs:75-84 | `clear_square` removes `sq` from all eight bitboards and changes nothing else |
| Positions.ClearSquareEmpties | chess/src/position.rs:75-84 | after `clear_square(sq)` the square is empty and has no piece or colour; other squares are unchanged; clearing twice equals clearing once |
| Positions.ClearedConsistent | chess/src/position.rs:75-84 | `clear_square` preserves board consistency |
| Positions.PlacedConsistent | chess/src/position.rs:69-72 | `set_piece` on an empty square preserves board consistency |
| Positions.ClearThenPlace | chess/src/position.rs:69-84 | `clear_square` then `set_piece(sq, s, p)` gives piece `p` and colour `s` on `sq`, and preserves consistency |
| Positions.OccupantExact | chess/src/position.rs:31-60 | in a consistent position `get_colour_on` and `get_piece_on` report `(side, piece)` exactly when that side's bitboard and that piece's bitboard both have the square |
| Positions.Position.constructor | chess/src/position.rs:15-27 | a new position holds the default state |
| Positions.Position.Assign | chess/src/fen.rs:18 | overwriting the whole position gives exactly the new state |
| Positions.Position.SetPiece | chess/src/position.rs:69-72 | the in-place update produces the `set_piece` state of the old position |
| Positions.Position.ClearSquare | chess/src/position.rs:75-84 | the in-place update produces the `clear_square` state of the old position |
| Attacks.Hits | chess/src/is_attacked.rs:44-49 | `mask & pieces[piece] & colours[side]` holds exactly the mask squares holding that side's piece |
| Attacks.HitsSquares | chess/src/is_attacked.rs:44-49 | that intersection is occupied exactly when some on-board mask square holds that side's piece |
| Attacks.PawnSquare | chess/src/is_attacked.rs:11-41 | one diagonal pawn test fires exactly when the diagonal neighbour holds that side's pawn |
| Attacks.PawnTests | chess/src/is_attacked.rs:11-41 | the two pawn tests of each side together fire exactly when a pawn of that side attacks the square |
| Attacks.PawnAttackSquares | chess/src/is_attacked.rs:11-41 | White pawns attack only from the two diagonal squares one rank below, Black pawns only from one rank above |
| Attacks.KnightTest | chess/src/is_attacked.rs:43-50 | the knight test fires exactly when a knight of that side is a knight jump away |
| Attacks.BishopTest | chess/src/is_attacked.rs:52-59 | the bishop test fires exactly when a bishop of that side sees the square along an unobstructed diagonal |
| Attacks.RookTest | chess/src/is_attacked.rs:61-68 | the rook test fires exactly when a rook of that side sees the square along an unobstructed rank or file |
| Attacks.QueenTest | chess/src/is_attacked.rs:70-77 | the queen test fires exactly when a queen of that side sees the square along any unobstructed line |
| Attacks.QueenSquare | chess/src/is_attacked.rs:70-77 | the queen mask over the occupied squares is exactly the diagonal and straight reach from `sq` |
| Attacks.KingTest | chess/src/is_attacked.rs:79-86 | the king test fires exactly when that side's king is one king step away |
| Attacks.ReachReversed | chess/src/is_attacked.rs:52-77 | a diagonal or straight walk from (x, y) reaches (u, w) exactly when the walk back from (u, w) reaches (x, y) |
| Attacks.SliderMaskSymmetric | chess/src/bitboard.rs:111-191 | for a bishop, rook or queen, the mask cast from `a` holds `b` exactly when the mask cast from `b` holds `a` |
| Attacks.SliderSymmetry | chess/src/is_attacked.rs:52-77 | attack symmetry: the bishop, rook and queen tests, which cast masks outward from the target, fire exactly when some piece of that kind and side, casting its own mask from its square, reaches the target |
| Attacks.IsAttackedReference | chess/src/is_attacked.rs:6-89 | `is_attacked` equals the disjunction of the six per-piece attack definitions, so its early returns do not change the answer |
| Attacks.AttackIgnoresState | chess/src/is_attacked.rs:6-89 | only the bitboards matter: side to move, counters, en passant and castling flags do not change the answer |
| Attacks.BlockedSliderMisses | chess/src/is_attacked.rs:52-77 | a slider ray over the occupied squares never reaches past a piece of either colour |
| Attacks.Kings | chess/src/makemove.rs:158 | `colours[side] & pieces[King]` holds exactly that side's king squares |
| Attacks.KingSquare | chess/src/makemove.rs:158 | `pop_lsb` of the king board is an on-board square holding that side's king, with no king of that side below it |
| Moves.PromoLetter | chess/src/mv.rs:46-51 | a promotion piece prints as one of n, b, r, q |
| Moves.PromoOf | chess/src/mv.rs:26-32 | the fifth character parses exactly when it is one of n, b, r, q, to the piece that prints as it |
| Moves.FromString | chess/src/mv.rs:23-35 | parsing succeeds exactly when both squares parse and any fifth character is a promotion letter; no fifth character means no promotion |
| Moves.ToString | chess/src/mv.rs:38-57 | the text is from-square then to-square, plus the promotion letter exactly when there is one, so it has length 4 or 5 |
| Moves.FromStringOfToString | chess/src/mv.rs:38-74 | parsing the printed form of any parseable move gives the move back |
| Moves.ToStringOfFromString | chess/src/mv.rs:64-74 | printing a parsed move gives back the 4- or 5-character prefix that was parsed |
| Moves.Examples | chess/src/mv.rs:64-74 | sample moves parse as expected, and a bad promotion letter, a short string and a bad rank are rejected |
| MakeMoves.PromotedPiece | chess/src/makemove.rs:66-84 | a pawn never promotes to a pawn or a king |
| MakeMoves.EpVictim | chess/src/makemove.rs:45-49 | the captured en-passant pawn is on the target's file, one rank behind it from the mover's point of view |
| MakeMoves.Promote | chess/src/makemove.rs:66-84 | promotion changes only the board |
| MakeMoves.PromoteBits | chess/src/makemove.rs:66-84 | promotion keeps the colours; on `to` it clears the pawn bit, sets the new piece's bit and keeps the other piece bits |
| MakeMoves.CastleRook | chess/src/makemove.rs:118-152 | moving the castling rook changes only the board |
| MakeMoves.MovePiece | chess/src/makemove.rs:21-28 | the piece leaves `from` and stands alone on `to` in the mover's colour |
| MakeMoves.PromoteOn | chess/src/makemove.rs:65-84 | the promotion step applies `Promote` when there is a promotion and changes nothing otherwise |
| MakeMoves.ClearRights | chess/src/makemove.rs:86-116 | the rights update changes only the castling flags, to the remaining rights |
| MakeMoves.ClearWhiteRights | chess/src/makemove.rs:86-100 | the white checks clear the white flags that the move removes and keep the black flags and everything else |
| MakeMoves.ClearBlackRights | chess/src/makemove.rs:102-116 | the black checks clear the black flags that the move removes and keep the white flags and everything else |
| MakeMoves.MoveCastlingRook | chess/src/makemove.rs:118-152 | the four guarded rook relocations produce exactly the `CastleRook` state |
| MakeMoves.CaptureEnPassant | chess/src/makemove.rs:40-52 | when a pawn lands on the en-passant square, the victim square is cleared and the clock reset; otherwise nothing changes |
| MakeMoves.SetEnPassant | chess/src/makemove.rs:54-63 | the en-passant square becomes the double-push target, and nothing else changes |
| MakeMoves.MoveAndCapture | chess/src/makemove.rs:13-38 | the clock update and the move of the piece produce the captured state with the new clock |
| MakeMoves.KingSafe | chess/src/makemove.rs:157-159 | the answer is true exactly when the mover's king is not attacked by the new side to move |
| MakeMoves.PassTurn | chess/src/makemove.rs:155 | only the side to move changes, to the opponent |
| MakeMoves.MakeMove | chess/src/makemove.rs:12-160 | the in-place sequence of updates yields exactly `Apply(old state, mv)`, and the result is `Legal(old state, mv)` |
| MakeMoves.ApplyFrame | chess/src/makemove.rs:12-152 | no square other than `from`, `to`, the en-passant victim and the castling rook squares changes |
| MakeMoves.MovedTo | chess/src/makemove.rs:21-28 | after the move and capture, `to` holds exactly the mover's colour and piece |
| MakeMoves.PromotedTo | chess/src/makemove.rs:66-84 | after promotion, `to` holds exactly the mover's colour and the landed piece |
| MakeMoves.ApplyTo | chess/src/makemove.rs:21-84 | for a move whose promotion, if any, is made by a pawn: afterwards `to` holds the mover's colour with the moved piece or the promotion piece, and any captured piece is gone from every bitboard |
| MakeMoves.ApplyFrom | chess/src/makemove.rs:21-22 | after the move `from` is empty, with no piece |
| MakeMoves.HalfmoveRule | chess/src/makemove.rs:19-52 | the clock is 0 exactly after a pawn move or a capture, otherwise the old value plus one; the turn flips and the fullmove counter is unchanged |
| MakeMoves.EnPassantRemoves | chess/src/makemove.rs:40-52 | an en-passant capture also empties the square one rank behind `to`, relative to the mover |
| MakeMoves.EnPassantTarget | chess/src/makemove.rs:54-63 | the new en-passant square exists exactly after a pawn move from rank 2 to 4 or rank 7 to 5, and it is the square passed over |
| MakeMoves.RightsOnlyCleared | chess/src/makemove.rs:86-116 | castling flags are only cleared: each right survives exactly when it was held and neither its rook corner nor its king's home square is involved |
| MakeMoves.CastlingMovesRook | chess/src/makemove.rs:118-152 | castling e1-g1, e1-c1, e8-g8, e8-c8 moves the rook h1-f1, a1-d1, h8-f8, a8-d8 |
| MakeMoves.PromoteConsistent | chess/src/makemove.rs:66-84 | promoting a pawn preserves board consistency |
| MakeMoves.CapturedConsistent | chess/src/makemove.rs:21-52 | moving, capturing and the en-passant removal preserve board consistency |
| MakeMoves.CastleRookConsistent | chess/src/makemove.rs:118-152 | the rook relocation preserves board consistency when the rook's target square is empty |
| MakeMoves.ApplyConsistent | chess/src/makemove.rs:12-152 | a whole move preserves board consistency when the two things `makemove` does not check hold (`Trusted`): a promotion is made by a pawn, and a castling rook lands on an empty square |
| MakeMoves.NonPawnPromotionBreaks | chess/src/makemove.rs:66-84 | a move by any piece other than a pawn that names a different promotion piece leaves two piece bitboards set on `to`, so the board is no longer consistent, whatever the position was |
| MakeMoves.CastleOntoOccupiedBreaks | chess/src/makemove.rs:118-152 | a castling move whose rook square holds anything but a rook of the castling side leaves that square with two colours or two pieces |
| Play.RulesTrusted | chess/src/movegen.rs:59-274 | every move the chess rules of the generator allow satisfies `Trusted`: promotions are pawn moves, and castling only happens with the rook square in the vacant gap |
| Play.GeneratedMoveConsistent | chess/src/movegen.rs:59-274 | applying any move that `pseudolegal_moves` lists keeps a consistent board consistent |
| Play.PlayedConsistent | chess/src/makemove.rs:12-160 | board consistency holds after any sequence of `makemove` calls, each on a move `pseudolegal_moves` lists in the position reached so far |
| MakeMoves.LegalMeansKingSafe | chess/src/makemove.rs:154-159 | the returned flag is true exactly when the mover's king is not attacked afterwards, in the geometric sense |
| MoveGen.SquaresFrom | chess/src/movegen.rs:41-52 | the squares popped from index `i` on are on the board, set, and at or above `i` |
| MoveGen.SquaresOfMembers | chess/src/movegen.rs:41-52 | popping a bitboard to exhaustion visits exactly its set squares |
| MoveGen.PopSquares | chess/src/movegen.rs:41-52 | one `pop_lsb` yields the first square of the visit order, and the rest of the board yields the rest |
| MoveGen.Promotions | chess/src/movegen.rs:9-30 | `push_promotions` emits four moves, all from `from` to `to` with a promotion |
| MoveGen.PromotionsComplete | chess/src/movegen.rs:9-30 | each of the four promotion pieces occurs exactly once |
| MoveGen.PushPawnMoves | chess/src/movegen.rs:83-92 | a pawn target appends its four promotions on the last rank and one plain move otherwise |
| MoveGen.PawnLoop | chess/src/movegen.rs:79-92 | a pawn `while` loop appends the pawn moves of every target square in pop order |
| MoveGen.PushTargets | chess/src/movegen.rs:44-51 | the inner loop of `generate_moves` appends one plain move to each target square in pop order |
| MoveGen.GenerateMoves | chess/src/movegen.rs:34-53 | `generate_moves` appends, for each piece in pop order, its moves to every destination in pop order |
| MoveGen.TargetsMembers | chess/src/movegen.rs:44-51 | a move is among one piece's targets exactly when it leaves that square, has no promotion and goes to a target |
| MoveGen.PawnMovesMembers | chess/src/movegen.rs:83-92 | a move is among one pawn target's moves exactly when it has that origin and target and the promotion rule holds |
| MoveGen.PawnListMembers | chess/src/movegen.rs:79-92 | a move is in a pawn list exactly when its target is listed, its origin is the target shifted back by the offset, and the promotion rule holds |
| MoveGen.PieceListMembers | chess/src/movegen.rs:34-53 | a move is in a piece list exactly when its origin is listed, it has no promotion and its target is a destination from that origin |
| MoveGen.EpBoard | chess/src/movegen.rs:70-74 | `ep_bb` holds exactly the en-passant square, or nothing |
| MoveGen.PawnTargetsShiftable | chess/src/movegen.rs:79-195 | every pawn target minus its offset is a valid `u8` index, so `from_index` is applied to a real square |
| MoveGen.PawnLoops | chess/src/movegen.rs:76-196 | the pawn section appends singles, doubles, east captures and west captures for the side to move |
| MoveGen.PieceLoops | chess/src/movegen.rs:198-202 | the five `generate_moves` calls append knight, bishop, rook, queen and king moves in that order |
| MoveGen.TryCastle | chess/src/movegen.rs:207-221 | a guarded push appends the castling move exactly when its conditions hold |
| MoveGen.CastleMoves | chess/src/movegen.rs:207-271 | the four castling checks append the allowed castling moves in WKS, WQS, BKS, BQS order |
| MoveGen.PseudolegalMoves | chess/src/movegen.rs:59-274 | the generated list is exactly the specification list of pawn, piece and castling moves, and the position is not modified |
| MoveRules.CastleGap | chess/src/movegen.rs:207-271 | the squares that must be empty for castling are on the board |
| MoveRules.CastlePath | chess/src/movegen.rs:207-271 | the squares that must not be attacked for castling are on the board |
| MoveRules.SinglesSquare | chess/src/movegen.rs:79 | a single-push target is an empty square one rank ahead of a pawn of the side to move |
| MoveRules.DoublesSquare | chess/src/movegen.rs:95-96 | a double-push target has an own pawn on the home rank two ranks behind, and both the passed and target squares empty |
| MoveRules.CaptureSquare | chess/src/movegen.rs:70-74 | `them \| ep_bb` holds exactly the opponent's squares and the en-passant square |
| MoveRules.EastSquare | chess/src/movegen.rs:108 | an east capture target is an opponent or en-passant square diagonally ahead of an own pawn on the file to its west |
| MoveRules.WestSquare | chess/src/movegen.rs:122 | a west capture target is an opponent or en-passant square diagonally ahead of an own pawn on the file to its east |
| MoveRules.SinglesMembers | chess/src/movegen.rs:78-92 | the singles loop emits exactly the single pawn pushes, promoting all four ways on the last rank and never otherwise |
| MoveRules.DoublesMembers | chess/src/movegen.rs:94-105 | the doubles loop emits exactly the double pushes from the home rank, with both squares empty and no promotion |
| MoveRules.CapturesMembers | chess/src/movegen.rs:107-135 | the two capture loops emit exactly the pawn captures onto opponent or en-passant squares one file sideways and one rank forward |
| MoveRules.PawnPartMembers | chess/src/movegen.rs:76-196 | the pawn section emits exactly the single pushes, double pushes and pawn captures |
| MoveRules.DestinationSquare | chess/src/movegen.rs:43 | a destination is a square the piece reaches that is not occupied by the side to move |
| MoveRules.MaskReaches | chess/src/movegen.rs:198-202 | the mask passed to `generate_moves` over the occupied squares holds exactly the squares the piece reaches |
| MoveRules.PieceMembers | chess/src/movegen.rs:34-53 | the moves of one piece type start on a square of that piece and side and end on a reached square not occupied by the side to move |
| MoveRules.PiecePartMembers | chess/src/movegen.rs:198-202 | the piece section emits exactly the knight, bishop, rook, queen and king moves |
| MoveRules.InCheckAttacked | chess/src/movegen.rs:204-205 | `in_check` holds exactly when the king of the side to move is attacked by the opponent |
| MoveRules.CastleSquares | chess/src/movegen.rs:207-271 | the king side needs f and g empty and unattacked; the queen side needs b, c and d empty but only c and d unattacked |
| MoveRules.ConditionsWKS | chess/src/movegen.rs:207-221 | the WKS test is: White to move, WKS held, f1 and g1 empty and unattacked |
| MoveRules.ConditionsWQS | chess/src/movegen.rs:223-238 | the WQS test is: White to move, WQS held, b1, c1 and d1 empty, c1 and d1 unattacked |
| MoveRules.ConditionsBKS | chess/src/movegen.rs:240-254 | the BKS test is: Black to move, BKS held, f8 and g8 empty and unattacked |
| MoveRules.ConditionsBQS | chess/src/movegen.rs:256-271 | the BQS test is: Black to move, BQS held, b8, c8 and d8 empty, c8 and d8 unattacked |
| MoveRules.CastleTestAllowed | chess/src/movegen.rs:207-271 | not being in check plus the guard equals the castling rule: right held, king not attacked, gap empty, path unattacked |
| MoveRules.CastleIfMembers | chess/src/movegen.rs:207-271 | a castling check emits its king move exactly when castling is allowed |
| MoveRules.CastleMembers | chess/src/movegen.rs:207-271 | the castling section emits exactly the allowed castling moves |
| MoveRules.PseudolegalMembers | chess/src/movegen.rs:59-274 | a move is generated exactly when it is a pseudolegal pawn, piece or castling move by the chess rules |
| Fen.Split | chess/src/fen.rs:20 | splitting on single spaces always yields at least one field |
| Fen.SplitNoSpaces | chess/src/fen.rs:20 | no field contains a space |
| Fen.SplitJoin | chess/src/fen.rs:20 | splitting fields joined by single spaces gives the fields back |
| Fen.JoinSplit | chess/src/fen.rs:20 | joining the fields of a split gives the input back |
| Fen.PieceLetter | chess/src/fen.rs:142-156 | the letter printed for a side and piece is read back as that side and piece |
| Fen.LetterRoundTrip | chess/src/fen.rs:28-78 | every piece letter the parser accepts is the one printed for its side and piece |
| Fen.Step | chess/src/fen.rs:25-87 | a placement character is accepted only if it is a piece letter, a digit 1 to 8 or '/' |
| Fen.Place | chess/src/fen.rs:23-88 | an accepted placement field consists only of placement characters, and placing pieces never touches the castling flags |
| Fen.PlaceAppend | chess/src/fen.rs:25-88 | walking a concatenation equals walking the first part and then the second from where the first stopped |
| Fen.CastleLetter | chess/src/fen.rs:100-106 | the letter printed for a right is read back as that right |
| Fen.ParseRights | chess/src/fen.rs:99-107 | a castling field is accepted exactly when every character is one of K, Q, k, q |
| Fen.ParseRightsFlags | chess/src/fen.rs:97-108 | after reading, a flag is held exactly when it was held before or its letter occurs in the field |
| Fen.CastleRoundTrip | chess/src/fen.rs:97-194 | reading the castling text printed for any four flags gives the flags back, including "-" for none |
| Fen.EpRoundTrip | chess/src/fen.rs:110-202 | reading the en-passant text printed for any parseable square or none gives it back |
| Fen.Digit | chess/src/fen.rs:206 | a decimal digit prints as a character 0 to 9 |
| Fen.NatText | chess/src/fen.rs:206 | a counter prints as one or more decimal digits, without a leading zero |
| Fen.NatTextValue | chess/src/fen.rs:206 | the printed digits denote the counter's value |
| Fen.U8RoundTrip | chess/src/fen.rs:118-210 | `parse::<u8>` of the printed form of any `u8` counter gives it back |
| Fen.TooFewFields | chess/src/fen.rs:20-121 | a FEN with fewer than six fields is rejected |
| Fen.RanksStep | chess/src/fen.rs:130-166 | the placement text is rank 8 first down to rank 1, each rank followed by '/' except the last |
| Fen.PlaceRank | chess/src/fen.rs:25-88 | reading the printed text of one rank places exactly that rank's pieces and stops at file 8 on the same rank |
| Fen.PlaceRanks | chess/src/fen.rs:23-88 | reading the printed ranks from rank 8 down places exactly their pieces and ends on the expected rank |
| Fen.BoardRoundTrip | chess/src/fen.rs:23-166 | reading the printed placement of a consistent position rebuilds exactly its ten bitboards |
| Fen.FenRoundTrip | chess/src/fen.rs:13-213 | reading the printed FEN of any consistent position gives back exactly that position |
| Fen.GetFenOfSetFen | chess/src/fen.rs:220-258 | reading a printed FEN and printing the result gives the same FEN |
| Fen.FenInjective | chess/src/fen.rs:126-213 | two consistent positions print the same FEN exactly when they are equal |
| Fen.PlacePieces | chess/src/fen.rs:23-88 | the cursor loop calling `set_piece` leaves exactly the board of the placement walk |
| Fen.SetRights | chess/src/fen.rs:97-108 | the castling loop sets exactly the flags named in the field and changes nothing else |
| Fen.SetFen | chess/src/fen.rs:13-122 | an accepted FEN leaves the position equal to its parse, whatever it held before ("startpos" reads as the standard start FEN; the reset happens first) |
| Fen.FromFen | chess/src/fen.rs:6-10 | a fresh position holding the parse of the FEN |
| Fen.AppendRank | chess/src/fen.rs:130-166 | one pass of the rank loop appends exactly that rank's text, with runs of empty squares written as one digit |
| Fen.AppendCastling | chess/src/fen.rs:174-194 | appends the held rights in KQkq order, or "-" when none is held |
| Fen.GetFen | chess/src/fen.rs:126-213 | the appended text is exactly the FEN of the position's state |

## Left out

- `Display for Bitboard` (debug printing through a formatter), `Bitboard::mask_pawn` (nothing uses it) and the `perft` module (its source is not part of this model) are not modelled.
- The `Formatter` plumbing of `Display for Square` and `Display for Mv` is modelled as functions returning the text.
- The operator traits on `Bitboard` are modelled as the functions `BitAnd`, `BitOr`, `BitXor` and `BitNot`. The compound assignments (`&=`, `|=`, `^=`) are the same functions with the result assigned.
- Bitboards.PopLsb, Bitboards.Set, Bitboards.Unset: the bitboard is a `Copy` value type, so its in-place mutators are modelled as returning the new value; there is no aliasing to lose.
- A cached king square is not modelled: `Position` has none. `fen.rs` writes to `ksq` and calls `set_piece(Piece::WP, sq)` and `get_side_piece_on`, none of which the shown `Position` provides. The model maps each letter to a `(Side, Piece)` pair and calls `set_piece(sq, side, piece)`. It reads a square's occupant as `get_colour_on` combined with `get_piece_on` (`Fen.Occupant`).
- The function-pointer argument of `generate_moves` is modelled as a `Piece` that selects the mask function (`MoveGen.Mask`).
- MoveGen.PseudolegalMoves: the move list is proved equal to a specification list, and its members are characterised by the chess rules. No property about duplicates is stated separately.
- MakeMoves.MakeMove, Fen.SetFen and Fen.FromFen: a panic becomes a precondition or an `Err`, and unwinding is not modelled. `SetFen` requires `ParseFen(fen).Ok?`, so the partial update the source leaves behind before a panic is not described.
- MakeMoves.MakeMove: `halfmoves` is a `u8` that the source increments unchecked. The model requires it to be below 255. The fullmove counter is never incremented by the source and is left unchanged.
- The concrete test fixtures are not evaluated:
  - the attack test position of `is_attacked.rs`;
  - the legal and illegal move lists and board changes of `makemove.rs`;
  - the FEN strings of `fen.rs`.

  The properties those tests exercise are proved for all inputs instead. `Fen.GetFenOfSetFen` covers every string that `get_fen` can produce, and `Masks.RookPatterns`/`Masks.BishopPatterns` cover the empty-board mask tests. The two mask tests with blockers are covered by `Masks.StopsAtBlocker` and `Masks.InRayExactly` rather than by their literal values.
- MakeMoves.ApplyTo: the destination is described only for moves whose promotion, if any, is made by a pawn. `makemove` does not check this. For another piece naming a promotion (for example "b1c3q" from the start position), `MakeMoves.NonPawnPromotionBreaks` shows that two piece bitboards end up set on `to`.
- MakeMoves.ApplyConsistent: consistency is promised only for moves satisfying `Trusted` (the promotion is made by a pawn, and a castling rook lands on an empty square). `makemove` accepts the other moves and corrupts the board there, as `MakeMoves.NonPawnPromotionBreaks` and `MakeMoves.CastleOntoOccupiedBreaks` show. The moves `pseudolegal_moves` lists always satisfy `Trusted` (`Play.GeneratedMoveConsistent`), so consistency holds for any sequence of generated moves (`Play.PlayedConsistent`).
- Fen.PlacePieces: the source's `i32` cursors are unbounded integers here, and the square is built with `as u8` truncation (`% 256`), as in the source. A rank that is too long is not rejected: as in the source, it writes into the squares that follow on the board, or fails with an `Err` once the shift would leave the 64 bits. The source would panic there.
- Fen.GetFen requires the en-passant square to be printable as characters (`x < 159`, `y < 207`). Fen.FenRoundTrip and Fen.GetFenOfSetFen require a consistent position and an en-passant square the square parser accepts (files a to j, ranks 1 to 8).
- Squares.FromString keeps the source's acceptance of files `i` and `j` (x = 8 and 9). `Squares.OffBoardFiles` shows that such a square shares its index with a square of the next rank. Nothing downstream rejects it, as in the source.
- Attacks.IsAttackedReference: the castling conditions in `MoveRules` refer to attacks through this equivalence. The en-passant check in the capture rules compares the en-passant square only through its index (`EpAt`), as `ep_bb` does.
