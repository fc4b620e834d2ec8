/** The vocabulary of the engine: colours, piece kinds, board cells, squares,
    the fixed direction lists, the castling-rights counters and the table of
    which opponent pieces can give check along a ray. */
module Pieces {

  datatype Option<T> = None | Some(value: T)

  datatype Color = White | Black

  datatype Kind = Pawn | Rook | Knight | Bishop | Queen | King

  /** A board cell: a two-character code such as "wK" or "bP" (colour then
      kind), or the empty marker "--". */
  datatype Piece = Empty | Occupied(color: Color, kind: Kind)

  /** (row, column); row 0 is black's back rank, row 7 is white's. */
  type Square = (int, int)

  /** A travel direction tag (row step, column step). */
  type Dir = (int, int)

  /** The four counters that disable castling: castling on a side is offered
      only while its counter is exactly 0. */
  datatype Counters = Counters(whiteLong: int, whiteShort: int, blackLong: int, blackShort: int)

  function Opponent(c: Color): (o: Color)
    ensures o != c
  {
    if c == White then Black else White
  }

  /** The colour whose turn it is, from the `white_to_move` flag. */
  function Mover(whiteToMove: bool): (c: Color)
    ensures (c == White) == whiteToMove
  {
    if whiteToMove then White else Black
  }

  predicate OnBoard(s: Square) {
    0 <= s.0 <= 7 && 0 <= s.1 <= 7
  }

  /** The cell holds a piece of colour c (the code's first character is c). */
  predicate Holds(p: Piece, c: Color) {
    p.Occupied? && p.color == c
  }

  predicate IsKing(p: Piece) {
    p.Occupied? && p.kind == King
  }

  /** The row step of a pawn of colour c: white pawns move up the board
      (towards row 0), black pawns down. */
  function Forward(c: Color): int {
    if c == White then -1 else 1
  }

  /** The row a pawn of colour c starts on. */
  function PawnStartRow(c: Color): int {
    if c == White then 6 else 1
  }

  /** The square k steps from s along d. */
  function Shift(s: Square, d: Dir, k: int): Square {
    (s.0 + k * d.0, s.1 + k * d.1)
  }

  /** The eight unit directions in the order the scanner and the king
      generator visit them: row step -1, 0, 1, then column step -1, 0, 1. */
  const KingDirs: seq<Dir> := [(-1, -1), (-1, 0), (-1, 1), (0, -1), (0, 1), (1, -1), (1, 0), (1, 1)]

  /** The unit steps with |row + col| == 1. */
  const RookDirs: seq<Dir> := [(-1, 0), (0, -1), (0, 1), (1, 0)]

  /** The unit steps with |row| + |col| == 2. */
  const BishopDirs: seq<Dir> := [(-1, -1), (-1, 1), (1, -1), (1, 1)]

  /** (i, 3 - |i|) with the column sign taken minus then plus, for i in -2, -1, 1, 2. */
  const KnightOffsets: seq<Dir> := [(-2, -1), (-2, 1), (-1, -2), (-1, 2), (1, -2), (1, 2), (2, -1), (2, 1)]

  /** Can an opponent piece of this kind and colour, met as the first piece
      k squares away from the king along d, give check along that ray? */
  predicate AttacksAlong(kind: Kind, d: Dir, k: int, attacker: Color) {
    match kind
    case Rook => d in RookDirs
    case Bishop => d in BishopDirs
    case Queen => true
    case King => k == 1
    case Pawn =>
      k == 1 && (if attacker == Black then d == (-1, -1) || d == (-1, 1) else d == (1, 1) || d == (1, -1))
    case Knight => false
  }

  /** A pawn attacks only from the square diagonally ahead of it, so it
      checks along a ray only when it stands right next to the king on the
      side it moves from. */
  lemma PawnChecksFromAhead(d: Dir, k: int, attacker: Color)
    requires AttacksAlong(Pawn, d, k, attacker)
    ensures k == 1 && d.0 == -Forward(attacker) && (d.1 == 1 || d.1 == -1)
  {
  }
}
