/** get_valid_moves: the scanner's result installed in the turn, the move
    list of the whole board, then the check filter. */
module Legality {
  import opened Pieces
  import opened Moves
  import opened PinFilter
  import opened Rules
  import opened Attacks

  /** The turn with in_check and pins replaced by the scanner's result, as
      get_valid_moves installs them before generating. */
  function Scanned(b: array2<Piece>, t: Turn): (u: Turn)
    requires IsGrid(b)
    reads b
    ensures u.mover == t.mover && u.kingPos == t.kingPos && u.enPassant == t.enPassant && u.castling == t.castling
    ensures u.inCheck == Scanner(b, t.mover, t.kingPos).inCheck
    ensures u.pins == Scanner(b, t.mover, t.kingPos).pins
  {
    var sc := Scanner(b, t.mover, t.kingPos);
    t.(inCheck := sc.inCheck, pins := sc.pins)
  }

  /** get_all_possible_moves. */
  function AllMoves(b: array2<Piece>, t: Turn): seq<Move>
    requires IsGrid(b) && Generable(b, t)
    reads b
  {
    RowsPrefix(b, t, 8)
  }

  /** The squares a non-king move must land on to answer a single check:
      the checking knight's square, or the whole line of any other checker. */
  function BlockSquares(b: array2<Piece>, line: seq<Square>): (valid: seq<Square>)
    requires IsGrid(b) && |line| >= 1 && OnBoard(line[|line| - 1])
    reads b
    ensures line[|line| - 1] in valid
    ensures forall sq :: sq in valid ==> sq in line
    ensures At(b, line[|line| - 1]).Occupied? && At(b, line[|line| - 1]).kind == Knight ==> |valid| == 1
  {
    var checker := line[|line| - 1];
    var p := At(b, checker);
    if p.Occupied? && p.kind == Knight then [checker] else line
  }

  /** The single-check filter as written: a move is kept when exactly one of
      "lands on a valid square" and "moves a king" holds. */
  function KeepAnswers(moves: seq<Move>, valid: seq<Square>): (kept: seq<Move>)
    ensures IsSubsequence(kept, moves)
    ensures forall m :: m in kept <==> m in moves && ((m.End() in valid) != IsKing(m.pieceMoved))
  {
    if moves == [] then []
    else
      var rest := KeepAnswers(moves[1..], valid);
      assert moves == [moves[0]] + moves[1..];
      if (moves[0].End() in valid) != IsKing(moves[0].pieceMoved) then [moves[0]] + rest else rest
  }

  /** get_valid_moves' result: every move when not in check; under a single
      check the filtered list; under two or more checks the moves of the king
      on its recorded square. */
  function ValidMoves(b: array2<Piece>, t: Turn): seq<Move>
    requires IsGrid(b) && Generable(b, t)
    reads b
  {
    var sc := Scanner(b, t.mover, t.kingPos);
    var u := Scanned(b, t);
    var all := AllMoves(b, u);
    if !sc.inCheck then all
    else if |sc.checks| == 1 then
      FirstCheckEndsOnBoard(b, t.mover, t.kingPos);
      KeepAnswers(all, BlockSquares(b, sc.checks[0]))
    else KingMoves(b, u, u.kingPos)
  }

  /** get_valid_moves recomputes in_check and pins itself: the values the
      turn held before do not matter. */
  lemma ValidMovesIgnoreStaleScan(b: array2<Piece>, t: Turn, t': Turn)
    requires IsGrid(b) && Generable(b, t)
    requires t'.mover == t.mover && t'.kingPos == t.kingPos
    requires t'.enPassant == t.enPassant && t'.castling == t.castling
    ensures Generable(b, t') && ValidMoves(b, t') == ValidMoves(b, t)
  {
    assert Scanned(b, t') == Scanned(b, t);
  }

  /** Not in check: nothing is filtered out. */
  lemma NotInCheckKeepsAll(b: array2<Piece>, t: Turn)
    requires IsGrid(b) && Generable(b, t)
    requires !Scanner(b, t.mover, t.kingPos).inCheck
    ensures ValidMoves(b, t) == AllMoves(b, Scanned(b, t))
  {
  }

  /** Under a single check by a piece that is not a knight, a move is valid
      exactly when it is generated and either a non-king move onto the check
      line or a king move off that line. */
  lemma SingleLineCheck(b: array2<Piece>, t: Turn, m: Move)
    requires IsGrid(b) && Generable(b, t)
    requires |Scanner(b, t.mover, t.kingPos).checks| == 1
    requires var line := Scanner(b, t.mover, t.kingPos).checks[0];
             |line| >= 1 && OnBoard(line[|line| - 1]) && !(At(b, line[|line| - 1]).Occupied? && At(b, line[|line| - 1]).kind == Knight)
    ensures var line := Scanner(b, t.mover, t.kingPos).checks[0];
            m in ValidMoves(b, t) <==>
              m in AllMoves(b, Scanned(b, t)) && ((m.End() in line) != IsKing(m.pieceMoved))
  {
  }

  /** Under a single knight check, a valid non-king move captures the
      knight, and every generated capture of it by a non-king is kept. */
  lemma KnightCheckMustCapture(b: array2<Piece>, t: Turn, m: Move)
    requires IsGrid(b) && Generable(b, t)
    requires |Scanner(b, t.mover, t.kingPos).checks| == 1
    requires var line := Scanner(b, t.mover, t.kingPos).checks[0];
             |line| >= 1 && OnBoard(line[|line| - 1]) && At(b, line[|line| - 1]) == Occupied(Opponent(t.mover), Knight)
    requires !IsKing(m.pieceMoved)
    ensures var line := Scanner(b, t.mover, t.kingPos).checks[0];
            m in ValidMoves(b, t) <==> m in AllMoves(b, Scanned(b, t)) && m.End() == line[|line| - 1]
  {
  }

  /** Under a single knight check, a generated king move is kept exactly when
      it does not land on the knight's square: the king may step anywhere
      else, but never captures the checking knight. */
  lemma KnightCheckKingMoves(b: array2<Piece>, t: Turn, m: Move)
    requires IsGrid(b) && Generable(b, t)
    requires |Scanner(b, t.mover, t.kingPos).checks| == 1
    requires var line := Scanner(b, t.mover, t.kingPos).checks[0];
             |line| >= 1 && OnBoard(line[|line| - 1]) && At(b, line[|line| - 1]) == Occupied(Opponent(t.mover), Knight)
    requires IsKing(m.pieceMoved)
    ensures var line := Scanner(b, t.mover, t.kingPos).checks[0];
            m in ValidMoves(b, t) <==> m in AllMoves(b, Scanned(b, t)) && m.End() != line[|line| - 1]
  {
  }

  /** Under a single check the king may not step onto the check line, so it
      never captures the checking piece itself: the filter reproduces the
      source's acknowledged shortcut. */
  lemma KingNeverCapturesChecker(b: array2<Piece>, t: Turn, m: Move)
    requires IsGrid(b) && Generable(b, t)
    requires |Scanner(b, t.mover, t.kingPos).checks| == 1
    requires m in ValidMoves(b, t) && IsKing(m.pieceMoved)
    ensures var line := Scanner(b, t.mover, t.kingPos).checks[0];
            |line| >= 1 && m.End() != line[|line| - 1]
  {
    FirstCheckEndsOnBoard(b, t.mover, t.kingPos);
  }

  /** Under two or more checks only the king moves: every valid move
      starts on the recorded king square. */
  lemma DoubleCheckMovesKing(b: array2<Piece>, t: Turn)
    requires IsGrid(b) && Generable(b, t)
    requires |Scanner(b, t.mover, t.kingPos).checks| >= 2
    ensures forall m :: m in ValidMoves(b, t) ==> m.Start() == t.kingPos
  {
    var u := Scanned(b, t);
    CastlesOffered(b, u);
  }

  /** Every valid move outside double check is a generated move. */
  lemma ValidAreGenerated(b: array2<Piece>, t: Turn)
    requires IsGrid(b) && Generable(b, t)
    requires |Scanner(b, t.mover, t.kingPos).checks| <= 1
    ensures forall m :: m in ValidMoves(b, t) ==> m in AllMoves(b, Scanned(b, t))
  {
  }
}
