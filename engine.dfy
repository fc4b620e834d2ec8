/** GameState: the board held in an 8x8 array together with the side to move,
    the move log, the king squares, the check information, the en-passant
    window and the castling counters; the move generators, the scanner,
    get_valid_moves, make_move and undo_move. Every method is proved to
    compute the specification function of the module that defines it. */
module Engine {
  import opened Pieces
  import opened Moves
  import opened PinFilter
  import opened Rules
  import opened Attacks
  import opened Legality
  import opened Position

  /** The cell the game starts with on square (i, j). */
  function InitialPiece(i: int, j: int): Piece {
    var back := [Rook, Knight, Bishop, Queen, King, Bishop, Knight, Rook];
    if (i == 0 || i == 7) && 0 <= j < 8 then Occupied(if i == 0 then Black else White, back[j])
    else if i == 1 then Occupied(Black, Pawn)
    else if i == 6 then Occupied(White, Pawn)
    else Empty
  }

  /** The array's contents as rows of cells. */
  function CellsOf(b: array2<Piece>): (c: Cells)
    requires IsGrid(b)
    reads b
    ensures IsCells(c)
  {
    seq(8, i requires 0 <= i < 8 reads b => seq(8, j requires 0 <= j < 8 reads b => b[i, j]))
  }

  /** Each square of CellsOf(b) holds what the array holds there. */
  lemma CellsOfGet(b: array2<Piece>)
    requires IsGrid(b)
    ensures forall q :: OnBoard(q) ==> Get(CellsOf(b), q) == b[q.0, q.1]
  {
  }

  /** The array holds exactly the cells c. */
  ghost predicate Mirrors(b: array2<Piece>, c: Cells)
    requires IsGrid(b) && IsCells(c)
    reads b
  {
    forall q :: OnBoard(q) ==> b[q.0, q.1] == Get(c, q)
  }

  lemma MirrorsCells(b: array2<Piece>, c: Cells)
    requires IsGrid(b) && IsCells(c) && Mirrors(b, c)
    ensures CellsOf(b) == c
  {
    CellsOfGet(b);
    CellsExt(CellsOf(b), c);
  }

  class GameState {
    var board: array2<Piece>
    var whiteToMove: bool
    var moveLog: seq<Move>
    var whiteKingPos: Square
    var blackKingPos: Square
    var checkmate: bool
    var stalemate: bool
    var inCheck: bool
    var pins: seq<Pin>
    var checks: seq<seq<Square>>
    var enPassant: seq<(Square, Dir)>
    var whiteLongCastle: int
    var whiteShortCastle: int
    var blackLongCastle: int
    var blackShortCastle: int

    /** The board is 8x8 and every logged move lies on it. */
    predicate Valid()
      reads this, board
    {
      board.Length0 == 8 && board.Length1 == 8
      && forall k :: 0 <= k < |moveLog| ==> moveLog[k].OnBoardMove()
    }

    /** The recorded square of the king of the side to move. */
    function KingPos(): Square
      reads this
    {
      if whiteToMove then whiteKingPos else blackKingPos
    }

    function CastlingCounters(): Counters
      reads this
    {
      Counters(whiteLongCastle, whiteShortCastle, blackLongCastle, blackShortCastle)
    }

    /** What the generators read of this object. */
    function CurrentTurn(): Turn
      reads this
    {
      Turn(Mover(whiteToMove), inCheck, pins, enPassant, CastlingCounters(), KingPos())
    }

    /** The part make_move and undo_move change, as a value. */
    function Snapshot(): State
      requires Valid()
      reads this, board
    {
      State(CellsOf(board), whiteToMove, moveLog, whiteKingPos, blackKingPos, enPassant, CastlingCounters())
    }

    /** The starting position, white to move, no history. */
    constructor()
      ensures Valid() && fresh(board)
      ensures forall i, j :: 0 <= i < 8 && 0 <= j < 8 ==> board[i, j] == InitialPiece(i, j)
      ensures whiteToMove && moveLog == [] && whiteKingPos == (7, 4) && blackKingPos == (0, 4)
      ensures !checkmate && !stalemate && !inCheck && pins == [] && checks == [] && enPassant == []
      ensures CastlingCounters() == Counters(0, 0, 0, 0)
    {
      board := new Piece[8, 8]((i, j) => InitialPiece(i, j));
      whiteToMove := true;
      moveLog := [];
      whiteKingPos := (7, 4);
      blackKingPos := (0, 4);
      checkmate := false;
      stalemate := false;
      inCheck := false;
      pins := [];
      checks := [];
      enPassant := [];
      whiteLongCastle := 0;
      whiteShortCastle := 0;
      blackLongCastle := 0;
      blackShortCastle := 0;
    }

    // ------------------------------------------------------------ scanner

    /** check_for_pins_and_checks. */
    method CheckForPinsAndChecks() returns (foundCheck: bool, foundPins: seq<Pin>, foundChecks: seq<seq<Square>>)
      requires Valid()
      ensures Scan(foundCheck, foundPins, foundChecks) == Scanner(board, Mover(whiteToMove), KingPos())
    {
      var ally := Mover(whiteToMove);
      var king := KingPos();
      foundCheck, foundPins, foundChecks := false, [], [];
      for q := 0 to 8
        invariant Scan(foundCheck, foundPins, foundChecks) == RaysUpTo(board, ally, king, q)
      {
        foundCheck, foundPins, foundChecks := ScanDirection(ally, king, q, foundCheck, foundPins, foundChecks);
      }
      for n := 0 to 8
        invariant Scan(foundCheck, foundPins, foundChecks) == KnightChecks(board, ally, king, n)
      {
        var e := KnightTarget(king, n);
        if 0 <= e.0 <= 7 && 0 <= e.1 <= 7 && board[e.0, e.1] == Occupied(Opponent(ally), Knight) {
          foundCheck := true;
          foundChecks := foundChecks + [[e]];
        }
      }
    }

    /** One direction of check_for_pins_and_checks: the walk outward from the
      king along KingDirs[q], adding a check or a pin to what was found over
      the earlier directions. */
    method ScanDirection(ally: Color, king: Square, q: int, check0: bool, pins0: seq<Pin>, checks0: seq<seq<Square>>)
      returns (foundCheck: bool, foundPins: seq<Pin>, foundChecks: seq<seq<Square>>)
      requires Valid() && 0 <= q < 8
      requires Scan(check0, pins0, checks0) == RaysUpTo(board, ally, king, q)
      ensures Scan(foundCheck, foundPins, foundChecks) == RaysUpTo(board, ally, king, q + 1)
    {
      foundCheck, foundPins, foundChecks := check0, pins0, checks0;
      var d := KingDirs[q];
      var candidate: Option<Square> := None;
      var cells: seq<Square> := [];
      var k := 1;
      while k < 8
        invariant 1 <= k <= 8
        invariant Scan(foundCheck, foundPins, foundChecks) == RaysUpTo(board, ally, king, q)
        invariant ScanRay(board, ally, king, d, k, candidate, cells) == RayFrom(board, ally, king, q)
      {
        var e := (king.0 + k * d.0, king.1 + k * d.1);
        assert e == Shift(king, d, k);
        if 0 <= e.0 <= 7 && 0 <= e.1 <= 7 {
          cells := cells + [e];
          var p := board[e.0, e.1];
          if Holds(p, ally) {
            if candidate.None? {
              candidate := Some(e);
            } else {
              assert RayFrom(board, ally, king, q) == Clear;
              break;
            }
          } else if Holds(p, Opponent(ally)) {
            if AttacksAlong(p.kind, d, k, Opponent(ally)) {
              if candidate.None? {
                foundCheck := true;
                foundChecks := foundChecks + [cells];
              } else {
                foundPins := foundPins + [(candidate.value, d)];
              }
            }
            return;
          }
        }
        k := k + 1;
      }
      assert RayFrom(board, ally, king, q) == Clear;
    }

    // ------------------------------------------------------------ generators

    /** One square of the walk along d from s, k steps out: the entry it
      adds to the ray (none or one) and whether the walk stops there. */
    method SlideStep(s: Square, d: Dir, k: int) returns (entry: Tagged, stop: bool)
      requires Valid() && OnBoard(s) && 1 <= k < 8
      ensures var rest := Slide(board, Mover(whiteToMove), s, d, k);
              if stop then rest == entry else rest == entry + Slide(board, Mover(whiteToMove), s, d, k + 1)
    {
      var mover := Mover(whiteToMove);
      var e := (s.0 + k * d.0, s.1 + k * d.1);
      assert e == Shift(s, d, k);
      if !(0 <= e.0 <= 7 && 0 <= e.1 <= 7) {
        return [], true;
      }
      var p := board[e.0, e.1];
      if Holds(p, Opponent(mover)) {
        return [(Plain(board, s, e), d)], true;
      } else if p == Empty {
        return [(Plain(board, s, e), d)], false;
      } else {
        return [], true;
      }
    }

    /** The walk along one direction from s: empty squares are added and
      passed, the first opponent piece is added and stops the walk, an own
      piece or the edge stops it. */
    method SlideRay(s: Square, d: Dir) returns (ray: Tagged)
      requires Valid() && OnBoard(s)
      ensures ray == Slide(board, Mover(whiteToMove), s, d, 1)
    {
      ghost var mover := Mover(whiteToMove);
      ray := [];
      var k := 1;
      while k < 8
        invariant 1 <= k <= 8
        invariant ray + Slide(board, mover, s, d, k) == Slide(board, mover, s, d, 1)
      {
        var entry, stop := SlideStep(s, d, k);
        if stop {
          ray := ray + entry;
          return;
        }
        SlideCollect(ray, entry, Slide(board, mover, s, d, k), Slide(board, mover, s, d, k + 1));
        ray := ray + entry;
        k := k + 1;
      }
    }

    /** The ray walks over the given directions, in order. */
    method SlideTagged(s: Square, dirs: seq<Dir>) returns (tagged: Tagged)
      requires Valid() && OnBoard(s)
      ensures tagged == SlideDirs(board, Mover(whiteToMove), s, dirs, |dirs|)
    {
      tagged := [];
      for q := 0 to |dirs|
        invariant tagged == SlideDirs(board, Mover(whiteToMove), s, dirs, q)
      {
        var ray := SlideRay(s, dirs[q]);
        tagged := tagged + ray;
      }
    }

    /** get_rook_moves, pin filter included. */
    method GetRookMoves(r: int, c: int) returns (moves: seq<Move>)
      requires Valid() && OnBoard((r, c))
      ensures moves == RookMoves(board, CurrentTurn(), (r, c))
    {
      var tagged := SlideTagged((r, c), RookDirs);
      moves := CleanPinned(pins, (r, c), tagged);
    }

    /** get_bishop_moves, pin filter included. */
    method GetBishopMoves(r: int, c: int) returns (moves: seq<Move>)
      requires Valid() && OnBoard((r, c))
      ensures moves == BishopMoves(board, CurrentTurn(), (r, c))
    {
      var tagged := SlideTagged((r, c), BishopDirs);
      moves := CleanPinned(pins, (r, c), tagged);
    }

    /** get_queen_moves. */
    method GetQueenMoves(r: int, c: int) returns (moves: seq<Move>)
      requires Valid() && OnBoard((r, c))
      ensures moves == QueenMoves(board, CurrentTurn(), (r, c))
    {
      var rook := GetRookMoves(r, c);
      var bishop := GetBishopMoves(r, c);
      moves := rook + bishop;
    }

    /** get_knight_moves, pin filter included. */
    method GetKnightMoves(r: int, c: int) returns (moves: seq<Move>)
      requires Valid() && OnBoard((r, c))
      ensures moves == KnightMoves(board, CurrentTurn(), (r, c))
    {
      var mover := Mover(whiteToMove);
      var tagged: Tagged := [];
      for q := 0 to 8
        invariant tagged == KnightUpTo(board, mover, (r, c), q)
      {
        var e := KnightTarget((r, c), q);
        if 0 <= e.0 <= 7 && 0 <= e.1 <= 7 {
          if board[e.0, e.1] == Empty || Holds(board[e.0, e.1], Opponent(mover)) {
            tagged := tagged + [(Plain(board, (r, c), e), e)];
          }
        }
      }
      moves := CleanPinned(pins, (r, c), tagged);
    }

    /** The castling candidates get_king_moves appends: none while in
      check; otherwise, for the side to move, short castling when its
      counter is 0 and the two squares towards the h-file rook are empty,
      and long castling when its counter is 0 and b1, c1 and d1 are empty
      (the squares of row 7 for either side, as written). */
    method GetCastleMoves() returns (castles: Tagged)
      requires Valid() && OnBoard(KingPos())
      ensures castles == Castles(board, CurrentTurn())
    {
      castles := [];
      if whiteToMove && !inCheck {
        if whiteShortCastle == 0 && board[7, 5] == Empty && board[7, 6] == Empty {
          castles := castles + [(NewMove(board, whiteKingPos, (7, 6), false, true, false, false), (0, 1))];
        }
        if whiteLongCastle == 0 && board[7, 1] == Empty && board[7, 2] == Empty && board[7, 3] == Empty {
          castles := castles + [(NewMove(board, whiteKingPos, (7, 2), false, false, true, false), (0, -1))];
        }
      }
      if !whiteToMove && !inCheck {
        if blackShortCastle == 0 && board[0, 5] == Empty && board[0, 6] == Empty {
          castles := castles + [(NewMove(board, blackKingPos, (0, 6), false, true, false, false), (0, 1))];
        }
        if blackLongCastle == 0 && board[7, 1] == Empty && board[7, 2] == Empty && board[7, 3] == Empty {
          castles := castles + [(NewMove(board, blackKingPos, (0, 2), false, false, true, false), (0, -1))];
        }
      }
    }

    /** One direction of get_king_moves: the step to the adjacent square
      along d when it is on the board and empty or held by an opponent. */
    method KingAdjacent(r: int, c: int, d: Dir) returns (step: Tagged)
      requires Valid() && OnBoard((r, c))
      ensures var e := Shift((r, c), d, 1);
              step == if OnBoard(e) && FreeOrEnemy(board, e, Mover(whiteToMove)) then [(Plain(board, (r, c), e), d)] else []
    {
      step := [];
      if 0 <= r + d.0 <= 7 && 0 <= c + d.1 <= 7 {
        var p := board[r + d.0, c + d.1];
        if p == Empty || Holds(p, Opponent(Mover(whiteToMove))) {
          step := [(Plain(board, (r, c), (r + d.0, c + d.1)), d)];
        }
      }
    }

    /** get_king_moves, pin filter included: called on the recorded king
      square. */
    method GetKingMoves(r: int, c: int) returns (moves: seq<Move>)
      requires Valid() && OnBoard((r, c)) && (r, c) == KingPos()
      ensures moves == KingMoves(board, CurrentTurn(), (r, c))
    {
      var t := CurrentTurn();
      var tagged: Tagged := [];
      for q := 0 to 8
        invariant tagged == KingUpTo(board, t, (r, c), q)
      {
        var step := KingAdjacent(r, c, KingDirs[q]);
        var castles := GetCastleMoves();
        assert step + castles == KingStep(board, t, (r, c), q);
        tagged := tagged + (step + castles);
      }
      moves := CleanPinned(pins, (r, c), tagged);
    }

    /** The pushes of the pawn at (r, c): one square ahead if it is empty,
      two from the start row if both are. */
    method PawnPushMoves(r: int, c: int) returns (pushes: Tagged)
      requires Valid() && OnBoard((r, c)) && 0 <= r + Forward(Mover(whiteToMove)) <= 7
      ensures pushes == PawnPushes(board, CurrentTurn(), (r, c))
    {
      var i := if whiteToMove then -1 else 1;
      var startRow := if whiteToMove then 6 else 1;
      pushes := [];
      if board[r + i, c] == Empty {
        var promotion := r + i == 0 || r + i == 7;
        pushes := pushes + [(NewMove(board, (r, c), (r + i, c), false, false, false, promotion), (i, 0))];
        if r == startRow && board[r + 2 * i, c] == Empty {
          pushes := pushes + [(Plain(board, (r, c), (r + 2 * i, c)), (i, 0))];
        }
      }
    }

    /** One diagonal of the pawn at (r, c): an ordinary capture, then an
      en-passant capture if the window lists it. */
    method PawnDiagonalMoves(r: int, c: int, dd: Dir) returns (step: Tagged)
      requires Valid() && OnBoard((r, c))
      ensures step == PawnDiagonal(board, CurrentTurn(), (r, c), dd)
    {
      var opp := if whiteToMove then Black else White;
      step := [];
      if 0 <= r + dd.0 <= 7 && 0 <= c + dd.1 <= 7 {
        var e := (r + dd.0, c + dd.1);
        var promotion := e.0 == 0 || e.0 == 7;
        if Holds(board[e.0, e.1], opp) {
          step := step + [(NewMove(board, (r, c), e, false, false, false, promotion), dd)];
        }
        if ((r, c), dd) in enPassant {
          step := step + [(NewMove(board, (r, c), e, true, false, false, false), dd)];
        }
      }
    }

    /** get_pawn_moves, pin filter included. */
    method GetPawnMoves(r: int, c: int) returns (moves: seq<Move>)
      requires Valid() && OnBoard((r, c)) && 0 <= r + Forward(Mover(whiteToMove)) <= 7
      ensures moves == PawnMoves(board, CurrentTurn(), (r, c))
    {
      ghost var t := CurrentTurn();
      var i := if whiteToMove then -1 else 1;
      var tagged := PawnPushMoves(r, c);
      var diags := [(i, 1), (i, -1)];
      assert diags == PawnDiagonals(t.mover);
      for q := 0 to 2
        invariant tagged == PawnUpTo(board, t, (r, c), q)
      {
        var step := PawnDiagonalMoves(r, c, diags[q]);
        tagged := tagged + step;
      }
      PawnTaggedLawful(board, t, (r, c));
      assert tagged == PawnTagged(board, t, (r, c));
      moves := CleanPinned(pins, (r, c), tagged);
    }

    /** MOVES_FUNCTIONS dispatch for the piece of the side to move on (r, c). */
    method GetSquareMoves(r: int, c: int) returns (ms: seq<Move>)
      requires Valid() && Generable(board, CurrentTurn()) && OnBoard((r, c))
      requires Holds(board[r, c], Mover(whiteToMove))
      ensures ms == SquareMoves(board, CurrentTurn(), (r, c))
    {
      match board[r, c].kind {
        case Pawn => ms := GetPawnMoves(r, c);
        case Rook => ms := GetRookMoves(r, c);
        case Bishop => ms := GetBishopMoves(r, c);
        case Knight => ms := GetKnightMoves(r, c);
        case Queen => ms := GetQueenMoves(r, c);
        case King => ms := GetKingMoves(r, c);
      }
    }

    /** The moves of the pieces of the side to move on row r, column by
      column. */
    method GetRowMoves(r: int) returns (moves: seq<Move>)
      requires Valid() && Generable(board, CurrentTurn()) && 0 <= r < 8
      ensures moves == RowPrefix(board, CurrentTurn(), r, 8)
    {
      moves := [];
      var c := 0;
      while c < 8
        invariant 0 <= c <= 8
        invariant moves == RowPrefix(board, CurrentTurn(), r, c)
      {
        if Holds(board[r, c], Mover(whiteToMove)) {
          var ms := GetSquareMoves(r, c);
          moves := moves + ms;
        }
        c := c + 1;
      }
    }

    /** get_all_possible_moves: every square row by row, each piece of the
      side to move dispatched to its generator. */
    method GetAllPossibleMoves() returns (moves: seq<Move>)
      requires Valid() && Generable(board, CurrentTurn())
      ensures moves == AllMoves(board, CurrentTurn())
    {
      moves := [];
      var r := 0;
      while r < 8
        invariant 0 <= r <= 8
        invariant moves == RowsPrefix(board, CurrentTurn(), r)
      {
        var row := GetRowMoves(r);
        moves := moves + row;
        r := r + 1;
      }
    }

    // ------------------------------------------------------------ valid moves

    /** The check filter of get_valid_moves, applied to the generated moves
      once the scanner's result is installed. */
    method FilterForCheck(all: seq<Move>) returns (moves: seq<Move>)
      requires Valid() && Generable(board, CurrentTurn())
      requires Scan(inCheck, pins, checks) == Scanner(board, Mover(whiteToMove), KingPos())
      requires all == AllMoves(board, CurrentTurn())
      ensures moves == ValidMoves(board, CurrentTurn())
    {
      assert Scanned(board, CurrentTurn()) == CurrentTurn();
      moves := all;
      if inCheck {
        FirstCheckEndsOnBoard(board, Mover(whiteToMove), KingPos());
        if |checks| == 1 {
          var line := checks[0];
          var cell := line[|line| - 1];
          var pieceChecking := board[cell.0, cell.1];
          var valid: seq<Square> := [];
          if pieceChecking.Occupied? && pieceChecking.kind == Knight {
            valid := valid + [cell];
          } else {
            valid := valid + line;
          }
          assert valid == BlockSquares(board, line);
          moves := KeepAnswers(moves, valid);
        }
        if |checks| >= 2 {
          var kp := KingPos();
          moves := GetKingMoves(kp.0, kp.1);
        }
      }
    }

    /** get_valid_moves: installs the scanner's result, generates, filters
      for check and sets the checkmate and stalemate flags. */
    method GetValidMoves() returns (moves: seq<Move>)
      requires Valid() && Generable(board, CurrentTurn())
      modifies this
      ensures board == old(board) && Valid()
      ensures moves == ValidMoves(board, old(CurrentTurn()))
      ensures Scan(inCheck, pins, checks) == Scanner(board, Mover(whiteToMove), KingPos())
      ensures |moves| == 0 && inCheck ==> checkmate && stalemate == old(stalemate)
      ensures |moves| == 0 && !inCheck ==> stalemate && checkmate == old(checkmate)
      ensures |moves| > 0 ==> !checkmate && !stalemate
      ensures whiteToMove == old(whiteToMove) && moveLog == old(moveLog)
      ensures whiteKingPos == old(whiteKingPos) && blackKingPos == old(blackKingPos)
      ensures enPassant == old(enPassant) && CastlingCounters() == old(CastlingCounters())
    {
      ghost var t0 := CurrentTurn();
      InstallScan();
      assert CurrentTurn() == Scanned(board, t0);
      ValidMovesIgnoreStaleScan(board, t0, CurrentTurn());
      var all := GetAllPossibleMoves();
      moves := FilterForCheck(all);
      UpdateEndFlags(|moves|);
    }

    /** The opening line of get_valid_moves: in_check, pins and checks take
      the scanner's result; the moves to come are those of the old turn. */
    method InstallScan()
      requires Valid()
      modifies this
      ensures board == old(board) && whiteToMove == old(whiteToMove) && moveLog == old(moveLog)
      ensures whiteKingPos == old(whiteKingPos) && blackKingPos == old(blackKingPos) && enPassant == old(enPassant)
      ensures checkmate == old(checkmate) && stalemate == old(stalemate)
      ensures CastlingCounters() == old(CastlingCounters())
      ensures Scan(inCheck, pins, checks) == Scanner(board, Mover(whiteToMove), KingPos())
    {
      inCheck, pins, checks := CheckForPinsAndChecks();
    }

    /** The closing part of get_valid_moves: checkmate when no move answers
      a check, stalemate when there is no move and no check, both cleared
      otherwise. */
    method UpdateEndFlags(count: int)
      modifies this
      ensures count == 0 && inCheck ==> checkmate && stalemate == old(stalemate)
      ensures count == 0 && !inCheck ==> stalemate && checkmate == old(checkmate)
      ensures count != 0 ==> !checkmate && !stalemate
      ensures board == old(board) && whiteToMove == old(whiteToMove) && moveLog == old(moveLog)
      ensures whiteKingPos == old(whiteKingPos) && blackKingPos == old(blackKingPos) && enPassant == old(enPassant)
      ensures inCheck == old(inCheck) && pins == old(pins) && checks == old(checks)
      ensures CastlingCounters() == old(CastlingCounters())
    {
      if count == 0 {
        if inCheck {
          checkmate := true;
        } else {
          stalemate := true;
        }
      } else {
        checkmate := false;
        stalemate := false;
      }
    }

    // ------------------------------------------------------------ make / undo

    /** Adds delta to the counter a rook home square belongs to. */
    method BumpRookSpot(sq: Square, delta: int)
      modifies this
      ensures CastlingCounters() == SpotBump(old(CastlingCounters()), sq, delta)
      ensures board == old(board) && whiteToMove == old(whiteToMove) && moveLog == old(moveLog)
      ensures whiteKingPos == old(whiteKingPos) && blackKingPos == old(blackKingPos) && enPassant == old(enPassant)
      ensures checkmate == old(checkmate) && stalemate == old(stalemate)
      ensures inCheck == old(inCheck) && pins == old(pins) && checks == old(checks)
    {
      if sq == (7, 0) {
        whiteLongCastle := whiteLongCastle + delta;
      } else if sq == (7, 7) {
        whiteShortCastle := whiteShortCastle + delta;
      } else if sq == (0, 0) {
        blackLongCastle := blackLongCastle + delta;
      } else if sq == (0, 7) {
        blackShortCastle := blackShortCastle + delta;
      }
    }

    /** One board write, seen on the rows of cells. */
    method Place(q: Square, p: Piece)
      requires IsGrid(board) && OnBoard(q)
      modifies board
      ensures CellsOf(board) == Put(old(CellsOf(board)), q, p)
    {
      ghost var before := CellsOf(board);
      CellsOfGet(board);
      board[q.0, q.1] := p;
      assert Mirrors(board, Put(before, q, p));
      MirrorsCells(board, Put(before, q, p));
    }

    /** The king-tracking lines of make_move and undo_move: a king that
      moves has its square recorded as `to`, and both castling counters of
      its colour change by `delta`. */
    method TrackKing(piece: Piece, to: Square, delta: int)
      modifies this
      ensures whiteKingPos == (if piece == Occupied(White, King) then to else old(whiteKingPos))
      ensures blackKingPos == (if piece == Occupied(Black, King) then to else old(blackKingPos))
      ensures CastlingCounters() == KingBump(old(CastlingCounters()), piece, delta)
      ensures board == old(board) && whiteToMove == old(whiteToMove) && moveLog == old(moveLog) && enPassant == old(enPassant)
      ensures checkmate == old(checkmate) && stalemate == old(stalemate)
      ensures inCheck == old(inCheck) && pins == old(pins) && checks == old(checks)
    {
      if piece == Occupied(White, King) {
        whiteKingPos := to;
        whiteLongCastle := whiteLongCastle + delta;
        whiteShortCastle := whiteShortCastle + delta;
      } else if piece == Occupied(Black, King) {
        blackKingPos := to;
        blackLongCastle := blackLongCastle + delta;
        blackShortCastle := blackShortCastle + delta;
      }
    }

    /** The rook of a castling move: `from` is emptied and `to` receives
      `rook`. */
    method MoveRook(from: Square, to: Square, rook: Piece)
      requires IsGrid(board) && OnBoard(from) && OnBoard(to)
      modifies board
      ensures CellsOf(board) == Put(Put(old(CellsOf(board)), from, Empty), to, rook)
    {
      Place(from, Empty);
      Place(to, rook);
    }

    /** make_move's first lines (see MoveStep). */
    method MoveStage(m: Move)
      requires Valid() && m.OnBoardMove()
      modifies this, board
      ensures Valid() && board == old(board)
      ensures Snapshot() == MoveStep(old(Snapshot()), m)
      ensures checkmate == old(checkmate) && stalemate == old(stalemate)
      ensures inCheck == old(inCheck) && pins == old(pins) && checks == old(checks)
    {
      Place(m.Start(), Empty);
      Place(m.End(), m.pieceMoved);
      moveLog := moveLog + [m];
      TrackKing(m.pieceMoved, m.End(), 1);
    }

    /** make_move's en-passant lines (see EnPassantStep). */
    method EnPassantStage(m: Move)
      requires Valid() && m.OnBoardMove()
      modifies this, board
      ensures Valid() && board == old(board)
      ensures Snapshot() == EnPassantStep(old(Snapshot()), m)
      ensures checkmate == old(checkmate) && stalemate == old(stalemate)
      ensures inCheck == old(inCheck) && pins == old(pins) && checks == old(checks)
    {
      var mover := Mover(whiteToMove);
      var i := if whiteToMove then 1 else -1;
      if m.pieceMoved == Occupied(mover, Pawn) && (m.endRow - m.startRow == 2 || m.endRow - m.startRow == -2) {
        enPassant := Window(m.endRow, m.endCol, i);
      } else {
        enPassant := [];
      }
      if m.enPassant {
        Place((m.startRow, m.endCol), Empty);
      }
    }

    /** make_move's castling lines (see CastlingStep). */
    method CastlingStage(m: Move)
      requires Valid() && m.OnBoardMove()
      modifies this, board
      ensures Valid() && board == old(board)
      ensures Snapshot() == CastlingStep(old(Snapshot()), m)
      ensures checkmate == old(checkmate) && stalemate == old(stalemate)
      ensures inCheck == old(inCheck) && pins == old(pins) && checks == old(checks)
    {
      var mover := Mover(whiteToMove);
      BumpRookSpot(m.Start(), 1);
      BumpRookSpot(m.End(), 1);
      var rookRow := if whiteToMove then 7 else 0;
      if m.longCastle {
        MoveRook((rookRow, 0), (rookRow, 3), Occupied(mover, Rook));
      } else if m.shortCastle {
        MoveRook((rookRow, 7), (rookRow, 5), Occupied(mover, Rook));
      }
    }

    /** make_move's promotion line (see PromotionStep). */
    method PromotionStage(m: Move)
      requires Valid() && m.OnBoardMove()
      modifies this, board
      ensures Valid() && board == old(board)
      ensures Snapshot() == PromotionStep(old(Snapshot()), m)
      ensures checkmate == old(checkmate) && stalemate == old(stalemate)
      ensures inCheck == old(inCheck) && pins == old(pins) && checks == old(checks)
    {
      if m.promotion {
        Place(m.End(), m.promoteTo);
      }
    }

    /** The last line of make_move and undo_move: the turn passes. */
    method PassTurn()
      requires Valid()
      modifies this
      ensures Valid() && board == old(board)
      ensures Snapshot() == old(Snapshot()).(whiteToMove := !old(whiteToMove))
      ensures checkmate == old(checkmate) && stalemate == old(stalemate)
      ensures inCheck == old(inCheck) && pins == old(pins) && checks == old(checks)
    {
      whiteToMove := !whiteToMove;
    }

    /** make_move. */
    method MakeMove(m: Move)
      requires Valid() && m.OnBoardMove()
      modifies this, board
      ensures Valid() && board == old(board)
      ensures Snapshot() == Apply(old(Snapshot()), m)
      ensures checkmate == old(checkmate) && stalemate == old(stalemate)
      ensures inCheck == old(inCheck) && pins == old(pins) && checks == old(checks)
    {
      MoveStage(m);
      EnPassantStage(m);
      CastlingStage(m);
      PromotionStage(m);
      PassTurn();
    }

    /** undo_move's first lines for the last logged move (see UnmoveStep). */
    method UnmoveStage(m: Move)
      requires Valid() && |moveLog| > 0 && m == moveLog[|moveLog| - 1]
      modifies this, board
      ensures Valid() && board == old(board)
      ensures Snapshot() == UnmoveStep(old(Snapshot()), m)
      ensures checkmate == old(checkmate) && stalemate == old(stalemate)
      ensures inCheck == old(inCheck) && pins == old(pins) && checks == old(checks)
    {
      moveLog := moveLog[..|moveLog| - 1];
      Place(m.Start(), m.pieceMoved);
      Place(m.End(), m.pieceCaptured);
      TrackKing(m.pieceMoved, m.Start(), -1);
    }

    /** undo_move's en-passant capture lines (see UncaptureStep). */
    method UncaptureStage(m: Move)
      requires Valid() && m.OnBoardMove()
      modifies this, board
      ensures Valid() && board == old(board)
      ensures Snapshot() == UncaptureStep(old(Snapshot()), m)
      ensures checkmate == old(checkmate) && stalemate == old(stalemate)
      ensures inCheck == old(inCheck) && pins == old(pins) && checks == old(checks)
    {
      var col := Mover(whiteToMove);
      var i := if whiteToMove then -1 else 1;
      if m.enPassant {
        enPassant := Window(m.endRow + i, m.endCol, -i);
        Place((m.startRow, m.endCol), Occupied(col, Pawn));
      }
    }

    /** undo_move's window recomputation from the move left last in the log
      (see RewindStep); an empty log leaves the window alone. */
    method RewindStage()
      requires Valid()
      modifies this
      ensures Valid() && board == old(board)
      ensures Snapshot() == RewindStep(old(Snapshot()))
      ensures checkmate == old(checkmate) && stalemate == old(stalemate)
      ensures inCheck == old(inCheck) && pins == old(pins) && checks == old(checks)
    {
      var oppCol := Opponent(Mover(whiteToMove));
      var i := if whiteToMove then -1 else 1;
      if |moveLog| > 0 {
        var prev := moveLog[|moveLog| - 1];
        if prev.pieceMoved == Occupied(oppCol, Pawn)
           && (prev.endRow - prev.startRow == 2 || prev.endRow - prev.startRow == -2) {
          enPassant := Window(prev.endRow, prev.endCol, i);
        } else {
          enPassant := [];
        }
      }
    }

    /** undo_move's en-passant lines, once m has left the log (see
      ReopenStep). */
    method ReopenStage(m: Move)
      requires Valid() && m.OnBoardMove()
      modifies this, board
      ensures Valid() && board == old(board)
      ensures Snapshot() == ReopenStep(old(Snapshot()), m)
      ensures checkmate == old(checkmate) && stalemate == old(stalemate)
      ensures inCheck == old(inCheck) && pins == old(pins) && checks == old(checks)
    {
      UncaptureStage(m);
      RewindStage();
    }

    /** undo_move's castling lines (see UncastleStep). */
    method UncastleStage(m: Move)
      requires Valid() && m.OnBoardMove()
      modifies this, board
      ensures Valid() && board == old(board)
      ensures Snapshot() == UncastleStep(old(Snapshot()), m)
      ensures checkmate == old(checkmate) && stalemate == old(stalemate)
      ensures inCheck == old(inCheck) && pins == old(pins) && checks == old(checks)
    {
      var oppCol := Opponent(Mover(whiteToMove));
      BumpRookSpot(m.Start(), -1);
      BumpRookSpot(m.End(), -1);
      var rookRow := if whiteToMove then 0 else 7;
      if m.longCastle {
        MoveRook((rookRow, 3), (rookRow, 0), Occupied(oppCol, Rook));
      } else if m.shortCastle {
        MoveRook((rookRow, 5), (rookRow, 7), Occupied(oppCol, Rook));
      }
    }

    /** undo_move: nothing happens when the log is empty. */
    method UndoMove()
      requires Valid()
      modifies this, board
      ensures Valid() && board == old(board)
      ensures Snapshot() == Revert(old(Snapshot()))
      ensures checkmate == old(checkmate) && stalemate == old(stalemate)
      ensures inCheck == old(inCheck) && pins == old(pins) && checks == old(checks)
    {
      if |moveLog| > 0 {
        var m := moveLog[|moveLog| - 1];
        UnmoveStage(m);
        ReopenStage(m);
        UncastleStage(m);
        PassTurn();
      }
    }
  }
}
