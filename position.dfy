/** make_move and undo_move on a value snapshot of the game state: the board,
    the side to move, the move log, both king squares, the en-passant window
    and the castling counters. The GameState methods are proved to change
    the object exactly as these functions say. */
module Position {
  import opened Pieces
  import opened Moves

  /** The board as rows of cells. */
  type Cells = seq<seq<Piece>>

  predicate IsCells(c: Cells) {
    |c| == 8 && forall i :: 0 <= i < 8 ==> |c[i]| == 8
  }

  function Get(c: Cells, s: Square): Piece
    requires IsCells(c) && OnBoard(s)
  {
    c[s.0][s.1]
  }

  /** The board with one cell overwritten. */
  function Put(c: Cells, s: Square, p: Piece): (r: Cells)
    requires IsCells(c) && OnBoard(s)
    ensures IsCells(r)
    ensures Get(r, s) == p
  {
    c[s.0 := c[s.0][s.1 := p]]
  }

  /** Put changes only the square it writes. */
  lemma GetPut(c: Cells, s: Square, p: Piece, q: Square)
    requires IsCells(c) && OnBoard(s) && OnBoard(q)
    ensures Get(Put(c, s, p), q) == if q == s then p else Get(c, q)
  {
  }

  /** Two boards that agree on every square are equal. */
  lemma CellsExt(a: Cells, c: Cells)
    requires IsCells(a) && IsCells(c)
    requires forall q :: OnBoard(q) ==> Get(a, q) == Get(c, q)
    ensures a == c
  {
    forall i | 0 <= i < 8
      ensures a[i] == c[i]
    {
      forall j | 0 <= j < 8
        ensures a[i][j] == c[i][j]
      {
        assert Get(a, (i, j)) == Get(c, (i, j));
      }
    }
  }

  /** The part of GameState that make_move and undo_move change. */
  datatype State = State(
    cells: Cells,
    whiteToMove: bool,
    log: seq<Move>,
    whiteKing: Square,
    blackKing: Square,
    enPassant: seq<(Square, Dir)>,
    castling: Counters)

  /** A rook's home square counts against castling on its side when a move
      starts or ends on it: (7, 0) white long, (7, 7) white short, (0, 0)
      black long, (0, 7) black short. */
  function SpotBump(k: Counters, sq: Square, delta: int): (r: Counters)
    ensures sq !in {(7, 0), (7, 7), (0, 0), (0, 7)} ==> r == k
  {
    if sq == (7, 0) then k.(whiteLong := k.whiteLong + delta)
    else if sq == (7, 7) then k.(whiteShort := k.whiteShort + delta)
    else if sq == (0, 0) then k.(blackLong := k.blackLong + delta)
    else if sq == (0, 7) then k.(blackShort := k.blackShort + delta)
    else k
  }

  /** A king move counts against both castling sides of its colour. */
  function KingBump(k: Counters, p: Piece, delta: int): Counters {
    if p == Occupied(White, King) then k.(whiteLong := k.whiteLong + delta, whiteShort := k.whiteShort + delta)
    else if p == Occupied(Black, King) then k.(blackLong := k.blackLong + delta, blackShort := k.blackShort + delta)
    else k
  }

  /** The en-passant window opened next to (row, col): for each neighbouring
      column on the board, the neighbour square and the diagonal (di, -j)
      that leads from it back to column col. */
  function Window(row: int, col: int, di: int): (w: seq<(Square, Dir)>)
    ensures forall e :: e in w ==>
              e.0.0 == row && (e.0.1 == col - 1 || e.0.1 == col + 1) && 0 <= e.0.1 <= 7
              && e.1 == (di, col - e.0.1)
    ensures 1 <= col <= 7 ==> ((row, col - 1), (di, 1)) in w
    ensures 0 <= col <= 6 ==> ((row, col + 1), (di, -1)) in w
  {
    (if 0 <= col - 1 <= 7 then [((row, col - 1), (di, 1))] else [])
    + (if 0 <= col + 1 <= 7 then [((row, col + 1), (di, -1))] else [])
  }

  /** A pawn of colour c moved two rows. */
  predicate DoublePush(m: Move, c: Color) {
    m.pieceMoved == Occupied(c, Pawn) && (m.endRow - m.startRow == 2 || m.endRow - m.startRow == -2)
  }

  /** make_move's first lines: the piece leaves its start square for its
      end square, the move is logged, and a king that moves has its square
      recorded and both castling counters of its colour raised. */
  function MoveStep(st: State, m: Move): (r: State)
    requires IsCells(st.cells) && m.OnBoardMove()
    ensures IsCells(r.cells) && r.whiteToMove == st.whiteToMove
  {
    st.(cells := Put(Put(st.cells, m.Start(), Empty), m.End(), m.pieceMoved),
        log := st.log + [m],
        whiteKing := if m.pieceMoved == Occupied(White, King) then m.End() else st.whiteKing,
        blackKing := if m.pieceMoved == Occupied(Black, King) then m.End() else st.blackKing,
        castling := KingBump(st.castling, m.pieceMoved, 1))
  }

  /** make_move's en-passant lines: the window opens after a double push by
      the side to move and closes otherwise; an en-passant capture empties
      the square beside the start square. */
  function EnPassantStep(st: State, m: Move): (r: State)
    requires IsCells(st.cells) && m.OnBoardMove()
    ensures IsCells(r.cells) && r.whiteToMove == st.whiteToMove
  {
    var ep := if DoublePush(m, Mover(st.whiteToMove)) then Window(m.endRow, m.endCol, if st.whiteToMove then 1 else -1) else [];
    st.(enPassant := ep,
        cells := if m.enPassant then Put(st.cells, (m.startRow, m.endCol), Empty) else st.cells)
  }

  /** make_move's castling lines: a move from or onto a rook's home square
      raises that counter, and a castle moves the rook of the side to move
      on its home row (7 for white, 0 for black). */
  function CastlingStep(st: State, m: Move): (r: State)
    requires IsCells(st.cells) && m.OnBoardMove()
    ensures IsCells(r.cells) && r.whiteToMove == st.whiteToMove
  {
    var mover := Mover(st.whiteToMove);
    var rr := if st.whiteToMove then 7 else 0;
    st.(castling := SpotBump(SpotBump(st.castling, m.Start(), 1), m.End(), 1),
        cells :=
          if m.longCastle then Put(Put(st.cells, (rr, 0), Empty), (rr, 3), Occupied(mover, Rook))
          else if m.shortCastle then Put(Put(st.cells, (rr, 7), Empty), (rr, 5), Occupied(mover, Rook))
          else st.cells)
  }

  /** make_move's promotion line: the end square receives promoteTo. */
  function PromotionStep(st: State, m: Move): (r: State)
    requires IsCells(st.cells) && m.OnBoardMove()
    ensures IsCells(r.cells) && r.whiteToMove == st.whiteToMove
  {
    st.(cells := if m.promotion then Put(st.cells, m.End(), m.promoteTo) else st.cells)
  }

  /** make_move: the four steps in order, then the turn passes. */
  function Apply(st: State, m: Move): (r: State)
    requires IsCells(st.cells) && m.OnBoardMove()
    ensures IsCells(r.cells)
    ensures r.log == st.log + [m] && r.whiteToMove == !st.whiteToMove
  {
    var s := PromotionStep(CastlingStep(EnPassantStep(MoveStep(st, m), m), m), m);
    s.(whiteToMove := !st.whiteToMove)
  }

  /** undo_move's first lines, for the last logged move m: m leaves the
      log, its start square gets the moved piece back and its end square the
      captured one, and a king that moved has its square and counters
      restored. */
  function UnmoveStep(st: State, m: Move): (r: State)
    requires IsCells(st.cells) && m.OnBoardMove() && st.log != []
    ensures IsCells(r.cells) && r.whiteToMove == st.whiteToMove
  {
    st.(cells := Put(Put(st.cells, m.Start(), m.pieceMoved), m.End(), m.pieceCaptured),
        log := st.log[..|st.log| - 1],
        whiteKing := if m.pieceMoved == Occupied(White, King) then m.Start() else st.whiteKing,
        blackKing := if m.pieceMoved == Occupied(Black, King) then m.Start() else st.blackKing,
        castling := KingBump(st.castling, m.pieceMoved, -1))
  }

  /** undo_move's en-passant capture lines: undoing an en-passant capture
      reopens a window beside the square behind the capturing pawn and puts
      back a pawn in the colour of the side to move. */
  function UncaptureStep(st: State, m: Move): (r: State)
    requires IsCells(st.cells) && m.OnBoardMove()
    ensures IsCells(r.cells) && r.whiteToMove == st.whiteToMove && r.log == st.log
  {
    var i := if st.whiteToMove then -1 else 1;
    if m.enPassant then
      st.(enPassant := Window(m.endRow + i, m.endCol, -i),
          cells := Put(st.cells, (m.startRow, m.endCol), Occupied(Mover(st.whiteToMove), Pawn)))
    else st
  }

  /** undo_move's window recomputation: when a move is left in the log the
      window is rebuilt from it, looking for a double push by the opponent
      of the side to move; with an empty log it is left alone. */
  function RewindStep(st: State): (r: State)
    ensures r.cells == st.cells && r.whiteToMove == st.whiteToMove && r.log == st.log
  {
    if st.log == [] then st
    else
      var i := if st.whiteToMove then -1 else 1;
      var prev := st.log[|st.log| - 1];
      st.(enPassant := if DoublePush(prev, Opponent(Mover(st.whiteToMove))) then Window(prev.endRow, prev.endCol, i) else [])
  }

  /** undo_move's en-passant lines, once m has left the log. */
  function ReopenStep(st: State, m: Move): (r: State)
    requires IsCells(st.cells) && m.OnBoardMove()
    ensures IsCells(r.cells) && r.whiteToMove == st.whiteToMove
  {
    RewindStep(UncaptureStep(st, m))
  }

  /** undo_move's castling lines: the counters of rook home squares touched
      by m are lowered, and an undone castle puts back the rook of the
      opponent of the side to move, on row 0 when white is to move and row
      7 otherwise. */
  function UncastleStep(st: State, m: Move): (r: State)
    requires IsCells(st.cells) && m.OnBoardMove()
    ensures IsCells(r.cells) && r.whiteToMove == st.whiteToMove
  {
    var opp := Opponent(Mover(st.whiteToMove));
    var rr := if st.whiteToMove then 0 else 7;
    st.(castling := SpotBump(SpotBump(st.castling, m.Start(), -1), m.End(), -1),
        cells :=
          if m.longCastle then Put(Put(st.cells, (rr, 3), Empty), (rr, 0), Occupied(opp, Rook))
          else if m.shortCastle then Put(Put(st.cells, (rr, 5), Empty), (rr, 7), Occupied(opp, Rook))
          else st.cells)
  }

  /** undo_move: nothing when the log is empty; otherwise the three steps
      for the last logged move, then the turn passes back. */
  function Revert(st: State): (r: State)
    requires IsCells(st.cells)
    requires st.log != [] ==> st.log[|st.log| - 1].OnBoardMove()
    ensures IsCells(r.cells)
    ensures st.log == [] ==> r == st
    ensures st.log != [] ==> r.log == st.log[..|st.log| - 1] && r.whiteToMove == !st.whiteToMove
  {
    if st.log == [] then st
    else
      var m := st.log[|st.log| - 1];
      var s := UncastleStep(ReopenStep(UnmoveStep(st, m), m), m);
      s.(whiteToMove := !st.whiteToMove)
  }

  /** What undo_move needs of a move to restore the position make_move left:
      the move's snapshots match the board and the recorded king square, it
      has at most one special flag, an en-passant capture takes an opponent
      pawn beside its start, and a castle finds its rook at home with the
      rook's target square free. Generated moves meet this with one
      exception: black's long castle is generated after testing b1, c1 and
      d1 instead of d8, so when d8 is occupied it breaks the last clause and
      undo_move empties d8 (see module LongCastle). */
  ghost predicate Applicable(st: State, m: Move) {
    var mover := Mover(st.whiteToMove);
    var rr := if st.whiteToMove then 7 else 0;
    IsCells(st.cells) && m.OnBoardMove() && m.Start() != m.End()
    && Get(st.cells, m.Start()) == m.pieceMoved && Get(st.cells, m.End()) == m.pieceCaptured
    && (m.pieceMoved == Occupied(White, King) ==> st.whiteKing == m.Start())
    && (m.pieceMoved == Occupied(Black, King) ==> st.blackKing == m.Start())
    && (m.enPassant ==> !m.shortCastle && !m.longCastle)
    && !(m.shortCastle && m.longCastle)
    && (m.enPassant ==>
          m.startRow != m.endRow && m.startCol != m.endCol
          && Get(st.cells, (m.startRow, m.endCol)) == Occupied(Opponent(mover), Pawn))
    && (m.longCastle ==>
          Get(st.cells, (rr, 0)) == Occupied(mover, Rook) && Get(st.cells, (rr, 3)) == Empty
          && (rr, 0) != m.Start() && (rr, 0) != m.End() && (rr, 3) != m.Start() && (rr, 3) != m.End())
    && (m.shortCastle ==>
          Get(st.cells, (rr, 7)) == Occupied(mover, Rook) && Get(st.cells, (rr, 5)) == Empty
          && (rr, 7) != m.Start() && (rr, 7) != m.End() && (rr, 5) != m.Start() && (rr, 5) != m.End())
  }

  /** The square q after make_move then undo_move of a move with no
      special flag but perhaps a promotion. */
  lemma RoundTripSquarePlain(st: State, m: Move, q: Square)
    requires Applicable(st, m) && OnBoard(q)
    requires !m.enPassant && !m.longCastle && !m.shortCastle
    ensures Get(Revert(Apply(st, m)).cells, q) == Get(st.cells, q)
  {
    var a := Apply(st, m);
    assert a.log[|a.log| - 1] == m;
    var c0 := Put(st.cells, m.Start(), Empty);
    var c1 := Put(c0, m.End(), m.pieceMoved);
    var c4 := if m.promotion then Put(c1, m.End(), m.promoteTo) else c1;
    assert a.cells == c4;
    var u0 := Put(c4, m.Start(), m.pieceMoved);
    assert Revert(a).cells == Put(u0, m.End(), m.pieceCaptured);
    GetPut(u0, m.End(), m.pieceCaptured, q);
    GetPut(c4, m.Start(), m.pieceMoved, q);
    if m.promotion {
      GetPut(c1, m.End(), m.promoteTo, q);
    }
    GetPut(c0, m.End(), m.pieceMoved, q);
    GetPut(st.cells, m.Start(), Empty, q);
  }

  /** The square q after make_move then undo_move of an en-passant capture. */
  lemma RoundTripSquareEnPassant(st: State, m: Move, q: Square)
    requires Applicable(st, m) && OnBoard(q) && m.enPassant
    ensures Get(Revert(Apply(st, m)).cells, q) == Get(st.cells, q)
  {
    var a := Apply(st, m);
    assert a.log[|a.log| - 1] == m;
    var side := (m.startRow, m.endCol);
    var c0 := Put(st.cells, m.Start(), Empty);
    var c1 := Put(c0, m.End(), m.pieceMoved);
    var c2 := Put(c1, side, Empty);
    var c4 := if m.promotion then Put(c2, m.End(), m.promoteTo) else c2;
    assert a.cells == c4;
    var pawn := Occupied(Mover(a.whiteToMove), Pawn);
    assert pawn == Occupied(Opponent(Mover(st.whiteToMove)), Pawn);
    var u0 := Put(c4, m.Start(), m.pieceMoved);
    var u1 := Put(u0, m.End(), m.pieceCaptured);
    assert Revert(a).cells == Put(u1, side, pawn);
    GetPut(u1, side, pawn, q);
    GetPut(u0, m.End(), m.pieceCaptured, q);
    GetPut(c4, m.Start(), m.pieceMoved, q);
    if m.promotion {
      GetPut(c2, m.End(), m.promoteTo, q);
    }
    GetPut(c1, side, Empty, q);
    GetPut(c0, m.End(), m.pieceMoved, q);
    GetPut(st.cells, m.Start(), Empty, q);
  }

  /** The square q after make_move then undo_move of a long castle. */
  lemma RoundTripSquareLong(st: State, m: Move, q: Square)
    requires Applicable(st, m) && OnBoard(q) && m.longCastle
    ensures Get(Revert(Apply(st, m)).cells, q) == Get(st.cells, q)
  {
    var a := Apply(st, m);
    assert a.log[|a.log| - 1] == m;
    var rook := Occupied(Mover(st.whiteToMove), Rook);
    var rr := if st.whiteToMove then 7 else 0;
    var home, next := (rr, 0), (rr, 3);
    var c0 := Put(st.cells, m.Start(), Empty);
    var c1 := Put(c0, m.End(), m.pieceMoved);
    var c2 := Put(c1, home, Empty);
    var c3 := Put(c2, next, rook);
    var c4 := if m.promotion then Put(c3, m.End(), m.promoteTo) else c3;
    assert a.cells == c4;
    assert Occupied(Opponent(Mover(a.whiteToMove)), Rook) == rook;
    assert (if a.whiteToMove then 0 else 7) == rr;
    var u0 := Put(c4, m.Start(), m.pieceMoved);
    var u1 := Put(u0, m.End(), m.pieceCaptured);
    var u2 := Put(u1, next, Empty);
    assert Revert(a).cells == Put(u2, home, rook);
    GetPut(u2, home, rook, q);
    GetPut(u1, next, Empty, q);
    GetPut(u0, m.End(), m.pieceCaptured, q);
    GetPut(c4, m.Start(), m.pieceMoved, q);
    if m.promotion {
      GetPut(c3, m.End(), m.promoteTo, q);
    }
    GetPut(c2, next, rook, q);
    GetPut(c1, home, Empty, q);
    GetPut(c0, m.End(), m.pieceMoved, q);
    GetPut(st.cells, m.Start(), Empty, q);
  }

  /** The square q after make_move then undo_move of a short castle. */
  lemma RoundTripSquareShort(st: State, m: Move, q: Square)
    requires Applicable(st, m) && OnBoard(q) && m.shortCastle
    ensures Get(Revert(Apply(st, m)).cells, q) == Get(st.cells, q)
  {
    var a := Apply(st, m);
    assert a.log[|a.log| - 1] == m;
    var rook := Occupied(Mover(st.whiteToMove), Rook);
    var rr := if st.whiteToMove then 7 else 0;
    var home, next := (rr, 7), (rr, 5);
    var c0 := Put(st.cells, m.Start(), Empty);
    var c1 := Put(c0, m.End(), m.pieceMoved);
    var c2 := Put(c1, home, Empty);
    var c3 := Put(c2, next, rook);
    var c4 := if m.promotion then Put(c3, m.End(), m.promoteTo) else c3;
    assert a.cells == c4;
    assert Occupied(Opponent(Mover(a.whiteToMove)), Rook) == rook;
    assert (if a.whiteToMove then 0 else 7) == rr;
    var u0 := Put(c4, m.Start(), m.pieceMoved);
    var u1 := Put(u0, m.End(), m.pieceCaptured);
    var u2 := Put(u1, next, Empty);
    assert Revert(a).cells == Put(u2, home, rook);
    GetPut(u2, home, rook, q);
    GetPut(u1, next, Empty, q);
    GetPut(u0, m.End(), m.pieceCaptured, q);
    GetPut(c4, m.Start(), m.pieceMoved, q);
    if m.promotion {
      GetPut(c3, m.End(), m.promoteTo, q);
    }
    GetPut(c2, next, rook, q);
    GetPut(c1, home, Empty, q);
    GetPut(c0, m.End(), m.pieceMoved, q);
    GetPut(st.cells, m.Start(), Empty, q);
  }

  lemma RoundTripCells(st: State, m: Move)
    requires Applicable(st, m)
    ensures Revert(Apply(st, m)).cells == st.cells
  {
    var r := Revert(Apply(st, m));
    forall q | OnBoard(q)
      ensures Get(r.cells, q) == Get(st.cells, q)
    {
      if m.enPassant {
        RoundTripSquareEnPassant(st, m, q);
      } else if m.longCastle {
        RoundTripSquareLong(st, m, q);
      } else if m.shortCastle {
        RoundTripSquareShort(st, m, q);
      } else {
        RoundTripSquarePlain(st, m, q);
      }
    }
    CellsExt(r.cells, st.cells);
  }

  /** The counter changes of undo_move cancel those of make_move. */
  lemma CountersRestored(k: Counters, m: Move)
    ensures var up := SpotBump(SpotBump(KingBump(k, m.pieceMoved, 1), m.Start(), 1), m.End(), 1);
            SpotBump(SpotBump(KingBump(up, m.pieceMoved, -1), m.Start(), -1), m.End(), -1) == k
  {
  }

  /** What make_move does to the log, the king squares and the counters. */
  lemma ApplyFields(st: State, m: Move)
    requires IsCells(st.cells) && m.OnBoardMove()
    ensures var a := Apply(st, m);
            a.log[|a.log| - 1] == m && a.log[..|a.log| - 1] == st.log
            && a.whiteKing == (if m.pieceMoved == Occupied(White, King) then m.End() else st.whiteKing)
            && a.blackKing == (if m.pieceMoved == Occupied(Black, King) then m.End() else st.blackKing)
            && a.castling == SpotBump(SpotBump(KingBump(st.castling, m.pieceMoved, 1), m.Start(), 1), m.End(), 1)
  {
    var a := Apply(st, m);
    assert a.log == st.log + [m];
  }

  /** What undo_move does to the log, the king squares, the counters and
      the window when m is the last logged move. */
  lemma RevertFields(a: State, m: Move)
    requires IsCells(a.cells) && m.OnBoardMove() && a.log != [] && a.log[|a.log| - 1] == m
    ensures var r := Revert(a);
            r.log == a.log[..|a.log| - 1]
            && r.whiteKing == (if m.pieceMoved == Occupied(White, King) then m.Start() else a.whiteKing)
            && r.blackKing == (if m.pieceMoved == Occupied(Black, King) then m.Start() else a.blackKing)
            && r.castling == SpotBump(SpotBump(KingBump(a.castling, m.pieceMoved, -1), m.Start(), -1), m.End(), -1)
            && r.enPassant == ReopenStep(UnmoveStep(a, m), m).enPassant
  {
  }

  /** undo_move after make_move restores everything make_move changed except
      the en-passant window, which undo_move recomputes on its own. */
  lemma RoundTrip(st: State, m: Move)
    requires Applicable(st, m)
    ensures var r := Revert(Apply(st, m));
            r == st.(enPassant := r.enPassant)
  {
    var a := Apply(st, m);
    var r := Revert(a);
    ApplyFields(st, m);
    RevertFields(a, m);
    RoundTripCells(st, m);
    CountersRestored(st.castling, m);
  }

  /** The window undo_move leaves behind: empty when the move before m was
      not the side to move's own (so no double push by the opponent can be
      found), and the window make_move opened when the log held only m. */
  lemma RoundTripWindow(st: State, m: Move)
    requires Applicable(st, m)
    ensures st.log != [] && !Holds(st.log[|st.log| - 1].pieceMoved, Mover(st.whiteToMove)) ==>
              Revert(Apply(st, m)).enPassant == []
    ensures st.log == [] && !m.enPassant ==> Revert(Apply(st, m)).enPassant == Apply(st, m).enPassant
  {
    var a := Apply(st, m);
    ApplyFields(st, m);
    RevertFields(a, m);
    var u1 := UnmoveStep(a, m);
    var u2 := UncaptureStep(u1, m);
    assert u2.log == st.log && u2.whiteToMove == !st.whiteToMove;
    if st.log == [] && !m.enPassant {
      assert u2 == u1;
    }
  }

  /** Hence the round trip is exact in an alternating game whose window was
      empty. */
  lemma RoundTripExact(st: State, m: Move)
    requires Applicable(st, m) && st.enPassant == []
    requires st.log != [] && !Holds(st.log[|st.log| - 1].pieceMoved, Mover(st.whiteToMove))
    ensures Revert(Apply(st, m)) == st
  {
    RoundTrip(st, m);
    RoundTripWindow(st, m);
  }

  /** The window make_move opens: exactly after a double push by the mover's
      pawn, and each entry is a square beside the pawn's landing square with
      the diagonal that reaches the square just behind the landing square,
      which for a forward push is the square the pawn skipped. */
  lemma WindowAfterDoublePush(st: State, m: Move)
    requires IsCells(st.cells) && m.OnBoardMove()
    ensures Apply(st, m).enPassant != [] <==> DoublePush(m, Mover(st.whiteToMove))
    ensures forall e :: e in Apply(st, m).enPassant ==>
              e.0.0 == m.endRow && OnBoard(e.0)
              && (e.0.0 + e.1.0, e.0.1 + e.1.1) == (m.endRow - Forward(Mover(st.whiteToMove)), m.endCol)
  {
    var di := if st.whiteToMove then 1 else -1;
    assert Apply(st, m).enPassant == if DoublePush(m, Mover(st.whiteToMove)) then Window(m.endRow, m.endCol, di) else [];
    if DoublePush(m, Mover(st.whiteToMove)) {
      var c := m.endCol;
      if c >= 1 {
        assert ((m.endRow, c - 1), (if st.whiteToMove then 1 else -1, 1)) in Apply(st, m).enPassant;
      } else {
        assert ((m.endRow, c + 1), (if st.whiteToMove then 1 else -1, -1)) in Apply(st, m).enPassant;
      }
    }
  }

  /** The castling counters only grow under make_move; a king move raises
      both of its side's counters and a move from or onto a rook's home
      square raises that side's counter, so castling that way is no longer
      offered while the counters stay above 0. */
  lemma CastlingRightsOnlyShrink(st: State, m: Move)
    requires IsCells(st.cells) && m.OnBoardMove()
    ensures var k := Apply(st, m).castling;
            k.whiteLong >= st.castling.whiteLong && k.whiteShort >= st.castling.whiteShort
            && k.blackLong >= st.castling.blackLong && k.blackShort >= st.castling.blackShort
    ensures m.pieceMoved == Occupied(White, King) ==>
              Apply(st, m).castling.whiteLong > st.castling.whiteLong
              && Apply(st, m).castling.whiteShort > st.castling.whiteShort
    ensures m.pieceMoved == Occupied(Black, King) ==>
              Apply(st, m).castling.blackLong > st.castling.blackLong
              && Apply(st, m).castling.blackShort > st.castling.blackShort
    ensures (m.Start() == (7, 0) || m.End() == (7, 0)) ==> Apply(st, m).castling.whiteLong > st.castling.whiteLong
    ensures (m.Start() == (7, 7) || m.End() == (7, 7)) ==> Apply(st, m).castling.whiteShort > st.castling.whiteShort
    ensures (m.Start() == (0, 0) || m.End() == (0, 0)) ==> Apply(st, m).castling.blackLong > st.castling.blackLong
    ensures (m.Start() == (0, 7) || m.End() == (0, 7)) ==> Apply(st, m).castling.blackShort > st.castling.blackShort
  {
  }

  /** make_move tracks the king: after a king move its recorded square is
      the move's end square, and the other side's king square is kept. */
  lemma KingSquareTracked(st: State, m: Move)
    requires IsCells(st.cells) && m.OnBoardMove()
    ensures m.pieceMoved == Occupied(White, King) ==> Apply(st, m).whiteKing == m.End()
    ensures m.pieceMoved == Occupied(Black, King) ==> Apply(st, m).blackKing == m.End()
    ensures m.pieceMoved != Occupied(White, King) ==> Apply(st, m).whiteKing == st.whiteKing
    ensures m.pieceMoved != Occupied(Black, King) ==> Apply(st, m).blackKing == st.blackKing
  {
  }

  /** The board after an ordinary move: the start square is emptied, the
      moved piece stands on the end square, and no other square changes. */
  lemma PlainMoveBoard(st: State, m: Move)
    requires IsCells(st.cells) && m.OnBoardMove() && m.Start() != m.End()
    requires !m.enPassant && !m.shortCastle && !m.longCastle && !m.promotion
    ensures Get(Apply(st, m).cells, m.Start()) == Empty
    ensures Get(Apply(st, m).cells, m.End()) == m.pieceMoved
    ensures forall q :: OnBoard(q) && q != m.Start() && q != m.End() ==> Get(Apply(st, m).cells, q) == Get(st.cells, q)
  {
  }
}
