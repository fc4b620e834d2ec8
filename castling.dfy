/** Black's long castle, as the king generator offers it and as it is
    evidently meant. The generator tests b1, c1 and d1 (row 7) before
    offering black's long castle, so d8, where make_move puts the rook, may
    be occupied: make_move overwrites that piece and undo_move then empties
    d8. Testing the side's own back rank makes every long castle meet what
    the round trip of make_move and undo_move needs. */
module LongCastle {
  import opened Pieces
  import opened Moves
  import opened PinFilter
  import opened Rules
  import opened Position

  /** The snapshot's cells are the array's. */
  ghost predicate Shows(st: State, b: array2<Piece>)
    requires IsGrid(b)
    reads b
  {
    IsCells(st.cells) && forall q :: OnBoard(q) ==> Get(st.cells, q) == At(b, q)
  }

  /** As written: with b1, c1 and d1 empty, black not in check and its long
      counter at 0, the long castle is offered whatever stands on d8, and
      make_move then undo_move leaves d8 empty, so a piece standing there
      is lost. */
  lemma BlackLongCastleClearsD8(b: array2<Piece>, t: Turn, st: State)
    requires IsGrid(b) && OnBoard(t.kingPos) && Shows(st, b)
    requires t.mover == Black && !st.whiteToMove && !t.inCheck && t.castling.blackLong == 0
    requires b[7, 1] == Empty && b[7, 2] == Empty && b[7, 3] == Empty
    requires b[0, 3] != Empty
    ensures exists x :: x in Castles(b, t) && x.0.longCastle && x.0.OnBoardMove()
              && Get(st.cells, (0, 3)) != Empty
              && Get(Revert(Apply(st, x.0)).cells, (0, 3)) == Empty
  {
    CastlesOffered(b, t);
    var x :| x in Castles(b, t) && x.0.longCastle;
    var m := x.0;
    assert m.Start() == t.kingPos && m.End() == (0, 2);
    var a := Apply(st, m);
    ApplyFields(st, m);
    var u := ReopenStep(UnmoveStep(a, m), m);
    assert Revert(a) == UncastleStep(u, m).(whiteToMove := !a.whiteToMove);
    assert u.whiteToMove;
    GetPut(Put(u.cells, (0, 3), Empty), (0, 0), Occupied(Black, Rook), (0, 3));
    assert Get(st.cells, (0, 3)) == At(b, (0, 3));
  }

  /** The castling candidates as evidently intended: like Castles, but each
      side's long castle tests b, c and d on its own back rank. */
  function IntendedCastles(b: array2<Piece>, t: Turn): Tagged
    requires IsGrid(b) && OnBoard(t.kingPos)
    reads b
  {
    var rr := HomeRow(t.mover);
    if t.inCheck then []
    else
      (if (if t.mover == White then t.castling.whiteShort else t.castling.blackShort) == 0
          && b[rr, 5] == Empty && b[rr, 6] == Empty
       then [(NewMove(b, t.kingPos, (rr, 6), false, true, false, false), (0, 1))] else [])
      + (if (if t.mover == White then t.castling.whiteLong else t.castling.blackLong) == 0
            && b[rr, 1] == Empty && b[rr, 2] == Empty && b[rr, 3] == Empty
         then [(NewMove(b, t.kingPos, (rr, 2), false, false, true, false), (0, -1))] else [])
  }

  /** The correction changes nothing for white. */
  lemma IntendedMatchesWhite(b: array2<Piece>, t: Turn)
    requires IsGrid(b) && OnBoard(t.kingPos) && t.mover == White
    ensures IntendedCastles(b, t) == Castles(b, t)
  {
  }

  /** The intended long castle: the king goes from its recorded square to
      c on its back rank, and d on that rank is empty. */
  lemma IntendedLongCastle(b: array2<Piece>, t: Turn, x: (Move, Dir))
    requires IsGrid(b) && OnBoard(t.kingPos)
    requires x in IntendedCastles(b, t) && x.0.longCastle
    ensures x.0 == NewMove(b, t.kingPos, (HomeRow(t.mover), 2), false, false, true, false)
    ensures b[HomeRow(t.mover), 3] == Empty
  {
  }

  /** With the intended test, every long castle of a king and rook still on
      their home squares (which is what counters at 0 stand for) meets
      Applicable, so undo_move after make_move restores the board, the side
      to move, the log, the king squares and the counters. */
  lemma IntendedLongCastleRoundTrip(b: array2<Piece>, t: Turn, st: State, x: (Move, Dir))
    requires IsGrid(b) && Shows(st, b)
    requires st.whiteToMove == (t.mover == White)
    requires t.kingPos == (HomeRow(t.mover), 4) && At(b, t.kingPos) == Occupied(t.mover, King)
    requires (if t.mover == White then st.whiteKing else st.blackKing) == t.kingPos
    requires At(b, (HomeRow(t.mover), 0)) == Occupied(t.mover, Rook)
    requires x in IntendedCastles(b, t) && x.0.longCastle
    ensures Applicable(st, x.0)
    ensures var r := Revert(Apply(st, x.0));
            r == st.(enPassant := r.enPassant)
  {
    IntendedLongCastle(b, t, x);
    var rr := HomeRow(t.mover);
    assert Mover(st.whiteToMove) == t.mover;
    assert (if st.whiteToMove then 7 else 0) == rr;
    assert Get(st.cells, (rr, 0)) == At(b, (rr, 0));
    assert Get(st.cells, (rr, 3)) == At(b, (rr, 3));
    assert Get(st.cells, t.kingPos) == At(b, t.kingPos);
    assert Get(st.cells, (rr, 2)) == At(b, (rr, 2));
    assert Applicable(st, x.0);
    RoundTrip(st, x.0);
  }
}
