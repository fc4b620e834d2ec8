/** The Move value: start and end squares, snapshots of the moved and
    captured pieces, the special-move flags, its numeric identifier, its
    equality and its notation. */
module Moves {
  import opened Pieces

  /** A move. `pieceMoved` and `pieceCaptured` are the cells at the start and
      end squares when the move was built; `promoteTo` is the promotion
      target, which generation leaves as the empty placeholder. */
  datatype Move = Move(
    startRow: int, startCol: int, endRow: int, endCol: int,
    pieceMoved: Piece, pieceCaptured: Piece,
    enPassant: bool, shortCastle: bool, longCastle: bool,
    promotion: bool, promoteTo: Piece)
  {
    function Start(): Square {
      (startRow, startCol)
    }

    function End(): Square {
      (endRow, endCol)
    }

    predicate OnBoardMove() {
      OnBoard(Start()) && OnBoard(End())
    }
  }

  /** The identifier equality is decided on: the four coordinates as digits. */
  function MoveId(m: Move): int {
    m.startRow * 1000 + m.startCol * 100 + m.endRow * 10 + m.endCol
  }

  /** Reads the four digits back out of an identifier. */
  function DecodeId(id: int): (Square, Square) {
    ((id / 1000, id / 100 % 10), (id / 10 % 10, id % 10))
  }

  /** The identifier of an on-board move determines its squares. */
  lemma DecodeMoveId(m: Move)
    requires m.OnBoardMove()
    ensures DecodeId(MoveId(m)) == (m.Start(), m.End())
  {
    var low := m.startCol * 100 + m.endRow * 10 + m.endCol;
    assert 0 <= low < 1000;
    assert MoveId(m) == m.startRow * 1000 + low;
    assert MoveId(m) / 1000 == m.startRow;
    assert MoveId(m) / 100 == m.startRow * 10 + m.startCol;
    assert MoveId(m) / 10 == m.startRow * 100 + m.startCol * 10 + m.endRow;
  }

  /** For on-board moves, equal identifiers mean equal start and end squares. */
  lemma MoveIdInjective(a: Move, b: Move)
    requires a.OnBoardMove() && b.OnBoardMove()
    ensures MoveId(a) == MoveId(b) <==> a.Start() == b.Start() && a.End() == b.End()
  {
    DecodeMoveId(a);
    DecodeMoveId(b);
  }

  /** The right-hand side of `==`: another Move, or a value of another type. */
  datatype Operand = AMove(move: Move) | NotAMove

  /** The outcome of `==`: a truth value, or the TypeError raised when the
      other side is not a Move. */
  datatype Comparison = Compared(equal: bool) | TypeError

  /** Move equality, decided on the identifiers alone. */
  function Equals(a: Move, other: Operand): (r: Comparison)
    ensures other.NotAMove? <==> r == TypeError
    ensures other.AMove? && a.OnBoardMove() && other.move.OnBoardMove() ==>
              r == Compared(a.Start() == other.move.Start() && a.End() == other.move.End())
  {
    match other
    case NotAMove => TypeError
    case AMove(b) =>
      if a.OnBoardMove() && b.OnBoardMove() then MoveIdInjective(a, b); Compared(MoveId(a) == MoveId(b))
      else Compared(MoveId(a) == MoveId(b))
  }

  const Files: string := "abcdefgh"

  /** COLS_TO_FILES. */
  function ColToFile(c: int): char
    requires 0 <= c <= 7
  {
    Files[c]
  }

  /** ROWS_TO_RANKS: row r is rank 8 - r. */
  function RowToRank(r: int): char
    requires 0 <= r <= 7
  {
    ('0' as int + 8 - r) as char
  }

  /** FILES_TO_COLS. */
  function FileToCol(ch: char): Option<int> {
    if 'a' <= ch <= 'h' then Some(ch as int - 'a' as int) else None
  }

  /** RANKS_TO_ROWS: rank i is row 8 - i. */
  function RankToRow(ch: char): Option<int> {
    if '1' <= ch <= '8' then Some(8 - (ch as int - '0' as int)) else None
  }

  /** The two-character name of a square, file then rank. */
  function RankFile(r: int, c: int): string
    requires 0 <= r <= 7 && 0 <= c <= 7
  {
    [ColToFile(c), RowToRank(r)]
  }

  /** Reads a square name back through the inverse tables. */
  function ParseSquare(s: string): Option<Square> {
    if |s| != 2 then None
    else match (FileToCol(s[0]), RankToRow(s[1]))
      case (Some(c), Some(r)) => Some((r, c))
      case _ => None
  }

  /** The name of every square reads back as that square. */
  lemma SquareNameRoundTrip(r: int, c: int)
    requires 0 <= r <= 7 && 0 <= c <= 7
    ensures ParseSquare(RankFile(r, c)) == Some((r, c))
  {
    assert Files[c] as int - 'a' as int == c by {
      assert Files == ['a', 'b', 'c', 'd', 'e', 'f', 'g', 'h'];
      if c == 0 {} else if c == 1 {} else if c == 2 {} else if c == 3 {}
      else if c == 4 {} else if c == 5 {} else if c == 6 {} else {}
    }
  }

  /** Every string that reads as a square is that square's name. */
  lemma ParsedSquareIsNamed(s: string)
    requires ParseSquare(s).Some?
    ensures OnBoard(ParseSquare(s).value)
    ensures RankFile(ParseSquare(s).value.0, ParseSquare(s).value.1) == s
  {
    var c := s[0] as int - 'a' as int;
    assert 0 <= c <= 7;
    assert Files[c] == s[0] by {
      assert Files == ['a', 'b', 'c', 'd', 'e', 'f', 'g', 'h'];
      if c == 0 {} else if c == 1 {} else if c == 2 {} else if c == 3 {}
      else if c == 4 {} else if c == 5 {} else if c == 6 {} else {}
    }
  }

  /** get_chess_notation: "OO", "OOO", or the two square names followed by
      "ep" for an en-passant capture. */
  function Notation(m: Move): (s: string)
    requires m.OnBoardMove()
    ensures m.shortCastle ==> s == "OO"
    ensures !m.shortCastle && m.longCastle ==> s == "OOO"
    ensures !m.shortCastle && !m.longCastle ==>
              |s| == (if m.enPassant then 6 else 4)
              && ParseSquare(s[0..2]) == Some(m.Start())
              && ParseSquare(s[2..4]) == Some(m.End())
              && (m.enPassant ==> s[4..] == "ep")
  {
    if m.shortCastle then "OO"
    else if m.longCastle then "OOO"
    else
      SquareNameRoundTrip(m.startRow, m.startCol);
      SquareNameRoundTrip(m.endRow, m.endCol);
      var body := RankFile(m.startRow, m.startCol) + RankFile(m.endRow, m.endCol);
      assert body[0..2] == RankFile(m.startRow, m.startCol);
      assert body[2..4] == RankFile(m.endRow, m.endCol);
      body + (if m.enPassant then "ep" else "")
  }

  /** Two ordinary moves with the same notation compare equal. */
  lemma SameNotationSameMove(a: Move, b: Move)
    requires a.OnBoardMove() && b.OnBoardMove()
    requires !a.shortCastle && !a.longCastle && !b.shortCastle && !b.longCastle
    requires Notation(a) == Notation(b)
    ensures Equals(a, AMove(b)) == Compared(true)
  {
    assert Notation(a)[0..2] == Notation(b)[0..2];
    assert Notation(a)[2..4] == Notation(b)[2..4];
  }

  /** The pawn double push from e2: "e2e4". */
  lemma NotationOfKingPawnOpening(m: Move)
    requires m.Start() == (6, 4) && m.End() == (4, 4)
    requires !m.shortCastle && !m.longCastle && !m.enPassant
    ensures Notation(m) == "e2e4"
  {
  }
}
