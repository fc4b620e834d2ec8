/** The movement rules as the generators apply them: for each piece kind, the
    (move, direction) pairs generated from a square, in generation order, and
    the move list of the whole board for the side to move. These functions
    are the specifications the GameState generator methods are proved
    against. */
module Rules {
  import opened Pieces
  import opened Moves
  import opened PinFilter

  predicate IsGrid(b: array2<Piece>) {
    b.Length0 == 8 && b.Length1 == 8
  }

  function At(b: array2<Piece>, s: Square): Piece
    requires IsGrid(b) && OnBoard(s)
    reads b
  {
    b[s.0, s.1]
  }

  /** Move(start, end, game, flags...): snapshots the cells at both squares;
      the promotion target is left as the empty placeholder. */
  function NewMove(b: array2<Piece>, s: Square, e: Square, ep: bool, short: bool, long: bool, promo: bool): Move
    requires IsGrid(b) && OnBoard(s) && OnBoard(e)
    reads b
  {
    Move(s.0, s.1, e.0, e.1, At(b, s), At(b, e), ep, short, long, promo, Empty)
  }

  /** A move with no special flag. */
  function Plain(b: array2<Piece>, s: Square, e: Square): Move
    requires IsGrid(b) && OnBoard(s) && OnBoard(e)
    reads b
  {
    NewMove(b, s, e, false, false, false, false)
  }

  /** The cell at e is empty or holds an opponent of `mover`. */
  predicate FreeOrEnemy(b: array2<Piece>, e: Square, mover: Color)
    requires IsGrid(b) && OnBoard(e)
    reads b
  {
    At(b, e) == Empty || Holds(At(b, e), Opponent(mover))
  }

  /** The part of the game state the generators read. */
  datatype Turn = Turn(
    mover: Color,
    inCheck: bool,
    pins: seq<Pin>,
    enPassant: seq<(Square, Dir)>,
    castling: Counters,
    kingPos: Square)

  // ---------------------------------------------------------------- rays

  /** The rook/bishop ray from s along d, from step k on: empty squares are
      added and passed, the first opponent is added and ends the ray, an own
      piece or the board edge ends it. */
  function Slide(b: array2<Piece>, mover: Color, s: Square, d: Dir, k: int): Tagged
    requires IsGrid(b) && OnBoard(s) && 1 <= k <= 8
    reads b
    decreases 8 - k
  {
    if k == 8 then []
    else
      var e := Shift(s, d, k);
      if !OnBoard(e) then []
      else if Holds(At(b, e), Opponent(mover)) then [(Plain(b, s, e), d)]
      else if At(b, e) == Empty then [(Plain(b, s, e), d)] + Slide(b, mover, s, d, k + 1)
      else []
  }

  /** The ray from step 1 is what has been collected plus the rest: moving
      one entry from the rest to the collected part keeps that so. */
  lemma SlideCollect(collected: Tagged, entry: Tagged, rest: Tagged, next: Tagged)
    requires rest == entry + next
    ensures collected + rest == (collected + entry) + next
  {
  }

  /** The ray from step k has at most 8 - k entries. */
  lemma {:induction false} SlideLength(b: array2<Piece>, mover: Color, s: Square, d: Dir, k: int)
    requires IsGrid(b) && OnBoard(s) && 1 <= k <= 8
    ensures |Slide(b, mover, s, d, k)| <= 8 - k
    decreases 8 - k
  {
    if k < 8 {
      SlideLength(b, mover, s, d, k + 1);
    }
  }

  /** Entry i of the ray from step k is the move to step k + i, on the board
      and empty or held by an opponent; if it is not the last, it is empty. */
  lemma {:induction false} SlideEntry(b: array2<Piece>, mover: Color, s: Square, d: Dir, k: int, i: int)
    requires IsGrid(b) && OnBoard(s) && 1 <= k <= 8 && 0 <= i < |Slide(b, mover, s, d, k)|
    ensures var ms := Slide(b, mover, s, d, k);
            ms[i].1 == d
            && OnBoard(Shift(s, d, k + i))
            && ms[i].0 == Plain(b, s, Shift(s, d, k + i))
            && FreeOrEnemy(b, Shift(s, d, k + i), mover)
            && (i < |ms| - 1 ==> At(b, Shift(s, d, k + i)) == Empty)
    decreases i
  {
    var e := Shift(s, d, k);
    var ms := Slide(b, mover, s, d, k);
    if i == 0 {
      assert Shift(s, d, k + i) == e;
    } else {
      var rest := Slide(b, mover, s, d, k + 1);
      assert ms == [(Plain(b, s, e), d)] + rest;
      SlideEntry(b, mover, s, d, k + 1, i - 1);
      assert ms[i] == rest[i - 1];
      assert Shift(s, d, k + 1 + (i - 1)) == Shift(s, d, k + i);
    }
  }

  /** The whole ray from step k, entry by entry. */
  lemma SlideShape(b: array2<Piece>, mover: Color, s: Square, d: Dir, k: int)
    requires IsGrid(b) && OnBoard(s) && 1 <= k <= 8
    ensures var ms := Slide(b, mover, s, d, k);
            |ms| <= 8 - k
            && forall i :: 0 <= i < |ms| ==>
                 ms[i].1 == d
                 && OnBoard(Shift(s, d, k + i))
                 && ms[i].0 == Plain(b, s, Shift(s, d, k + i))
                 && FreeOrEnemy(b, Shift(s, d, k + i), mover)
                 && (i < |ms| - 1 ==> At(b, Shift(s, d, k + i)) == Empty)
  {
    SlideLength(b, mover, s, d, k);
    var ms := Slide(b, mover, s, d, k);
    forall i | 0 <= i < |ms|
      ensures ms[i].1 == d && OnBoard(Shift(s, d, k + i)) && ms[i].0 == Plain(b, s, Shift(s, d, k + i))
              && FreeOrEnemy(b, Shift(s, d, k + i), mover)
              && (i < |ms| - 1 ==> At(b, Shift(s, d, k + i)) == Empty)
    {
      SlideEntry(b, mover, s, d, k, i);
    }
  }

  /** The square e is reached from s along d over empty squares only. */
  ghost predicate ReachedOverEmpty(b: array2<Piece>, s: Square, d: Dir, e: Square)
    requires IsGrid(b)
    reads b
  {
    exists j :: 1 <= j <= 7 && e == Shift(s, d, j)
      && forall j' :: 1 <= j' < j ==> OnBoard(Shift(s, d, j')) && At(b, Shift(s, d, j')) == Empty
  }

  /** What every rook or bishop move satisfies. */
  ghost predicate LawfulSlide(b: array2<Piece>, mover: Color, s: Square, dirs: seq<Dir>, t: (Move, Dir))
    requires IsGrid(b) && OnBoard(s)
    reads b
  {
    t.1 in dirs
    && OnBoard(t.0.End())
    && t.0 == Plain(b, s, t.0.End())
    && FreeOrEnemy(b, t.0.End(), mover)
    && ReachedOverEmpty(b, s, t.1, t.0.End())
  }

  /** Every move of a ray lands on an empty or opponent square reached over
      empty squares. */
  lemma SlideIsLawful(b: array2<Piece>, mover: Color, s: Square, d: Dir)
    requires IsGrid(b) && OnBoard(s)
    ensures forall t :: t in Slide(b, mover, s, d, 1) ==> LawfulSlide(b, mover, s, [d], t)
  {
    var ms := Slide(b, mover, s, d, 1);
    SlideShape(b, mover, s, d, 1);
    forall t | t in ms
      ensures LawfulSlide(b, mover, s, [d], t)
    {
      var i :| 0 <= i < |ms| && ms[i] == t;
      forall j' | 1 <= j' < 1 + i
        ensures OnBoard(Shift(s, d, j')) && At(b, Shift(s, d, j')) == Empty
      {
        assert ms[j' - 1].1 == d;
        assert Shift(s, d, 1 + (j' - 1)) == Shift(s, d, j');
      }
      assert ReachedOverEmpty(b, s, d, t.0.End()) by {
        assert 1 + i <= 7;
      }
    }
  }

  /** The rays along dirs[0], ..., dirs[n - 1], concatenated. */
  function SlideDirs(b: array2<Piece>, mover: Color, s: Square, dirs: seq<Dir>, n: int): (ms: Tagged)
    requires IsGrid(b) && OnBoard(s) && 0 <= n <= |dirs|
    reads b
    ensures forall i :: 0 <= i < |ms| ==> ms[i].0.Start() == s && ms[i].0.pieceMoved == At(b, s)
  {
    if n == 0 then []
    else
      var prev := SlideDirs(b, mover, s, dirs, n - 1);
      var ray := Slide(b, mover, s, dirs[n - 1], 1);
      SlideShape(b, mover, s, dirs[n - 1], 1);
      prev + ray
  }

  /** Every entry of the rays along dirs[0], ..., dirs[n - 1] is a lawful
      sliding move along one of those directions. */
  lemma {:induction false} SlideDirsLawful(b: array2<Piece>, mover: Color, s: Square, dirs: seq<Dir>, n: int)
    requires IsGrid(b) && OnBoard(s) && 0 <= n <= |dirs|
    ensures forall t :: t in SlideDirs(b, mover, s, dirs, n) ==> LawfulSlide(b, mover, s, dirs[..n], t)
  {
    if n > 0 {
      SlideDirsLawful(b, mover, s, dirs, n - 1);
      var prev := SlideDirs(b, mover, s, dirs, n - 1);
      var ray := Slide(b, mover, s, dirs[n - 1], 1);
      SlideIsLawful(b, mover, s, dirs[n - 1]);
      assert SlideDirs(b, mover, s, dirs, n) == prev + ray;
      assert forall x :: x in dirs[..n - 1] ==> x in dirs[..n];
      assert dirs[n - 1] in dirs[..n];
    }
  }

  /** get_rook_moves before the pin filter. */
  function RookTagged(b: array2<Piece>, mover: Color, s: Square): (ms: Tagged)
    requires IsGrid(b) && OnBoard(s)
    reads b
  {
    SlideDirs(b, mover, s, RookDirs, 4)
  }

  /** get_bishop_moves before the pin filter. */
  function BishopTagged(b: array2<Piece>, mover: Color, s: Square): (ms: Tagged)
    requires IsGrid(b) && OnBoard(s)
    reads b
  {
    SlideDirs(b, mover, s, BishopDirs, 4)
  }

  // ---------------------------------------------------------------- knight

  /** The knight's landing square for offset number q. */
  function KnightTarget(s: Square, q: int): Square
    requires 0 <= q < 8
  {
    (s.0 + KnightOffsets[q].0, s.1 + KnightOffsets[q].1)
  }

  /** The knight move for offset q, if the square is on the board and not
      held by an own piece. Its direction tag is the destination square. */
  function KnightStep(b: array2<Piece>, mover: Color, s: Square, q: int): Tagged
    requires IsGrid(b) && OnBoard(s) && 0 <= q < 8
    reads b
  {
    var e := KnightTarget(s, q);
    if OnBoard(e) && FreeOrEnemy(b, e, mover) then [(Plain(b, s, e), e)] else []
  }

  /** What every knight move satisfies. */
  ghost predicate LawfulKnightMove(b: array2<Piece>, mover: Color, s: Square, n: int, t: (Move, Dir))
    requires IsGrid(b) && OnBoard(s) && 0 <= n <= 8
    reads b
  {
    OnBoard(t.0.End())
    && t.0 == Plain(b, s, t.0.End())
    && FreeOrEnemy(b, t.0.End(), mover)
    && t.1 == t.0.End()
    && exists q :: 0 <= q < n && t.0.End() == KnightTarget(s, q)
  }

  /** The knight moves for offsets 0, ..., n - 1 (get_knight_moves at n = 8). */
  function KnightUpTo(b: array2<Piece>, mover: Color, s: Square, n: int): (ms: Tagged)
    requires IsGrid(b) && OnBoard(s) && 0 <= n <= 8
    reads b
    ensures forall i :: 0 <= i < |ms| ==> ms[i].0.Start() == s && ms[i].0.pieceMoved == At(b, s)
  {
    if n == 0 then []
    else KnightUpTo(b, mover, s, n - 1) + KnightStep(b, mover, s, n - 1)
  }

  /** Every knight move for offsets 0, ..., n - 1 lands on the board, on
      an empty or opponent square reached by one of those offsets. */
  lemma {:induction false} KnightUpToLawful(b: array2<Piece>, mover: Color, s: Square, n: int)
    requires IsGrid(b) && OnBoard(s) && 0 <= n <= 8
    ensures forall t :: t in KnightUpTo(b, mover, s, n) ==> LawfulKnightMove(b, mover, s, n, t)
  {
    if n > 0 {
      KnightUpToLawful(b, mover, s, n - 1);
      var prev := KnightUpTo(b, mover, s, n - 1);
      var step := KnightStep(b, mover, s, n - 1);
      assert KnightUpTo(b, mover, s, n) == prev + step;
      forall t | t in prev + step
        ensures LawfulKnightMove(b, mover, s, n, t)
      {
        if t in prev {
          var q :| 0 <= q < n - 1 && t.0.End() == KnightTarget(s, q);
        } else {
          assert t.0.End() == KnightTarget(s, n - 1);
        }
      }
    }
  }

  // ---------------------------------------------------------------- king

  /** The castling candidates: offered only when not in check and the
      counter is 0, with the squares between king and rook empty. The black
      long castle tests row 7's squares, as written (module LongCastle shows
      what that costs undo_move). Both start at the recorded king square. */
  function Castles(b: array2<Piece>, t: Turn): (ms: Tagged)
    requires IsGrid(b) && OnBoard(t.kingPos)
    reads b
  {
    if t.inCheck then []
    else if t.mover == White then
      (if t.castling.whiteShort == 0 && b[7, 5] == Empty && b[7, 6] == Empty
       then [(NewMove(b, t.kingPos, (7, 6), false, true, false, false), (0, 1))] else [])
      + (if t.castling.whiteLong == 0 && b[7, 1] == Empty && b[7, 2] == Empty && b[7, 3] == Empty
         then [(NewMove(b, t.kingPos, (7, 2), false, false, true, false), (0, -1))] else [])
    else
      (if t.castling.blackShort == 0 && b[0, 5] == Empty && b[0, 6] == Empty
       then [(NewMove(b, t.kingPos, (0, 6), false, true, false, false), (0, 1))] else [])
      + (if t.castling.blackLong == 0 && b[7, 1] == Empty && b[7, 2] == Empty && b[7, 3] == Empty
         then [(NewMove(b, t.kingPos, (0, 2), false, false, true, false), (0, -1))] else [])
  }

  /** The back rank of colour c. */
  function HomeRow(c: Color): int {
    if c == White then 7 else 0
  }

  /** The castling conditions, spelled out for both sides. */
  lemma CastlesOffered(b: array2<Piece>, t: Turn)
    requires IsGrid(b) && OnBoard(t.kingPos)
    ensures forall x :: x in Castles(b, t) ==>
              x.0.Start() == t.kingPos && !x.0.enPassant && !x.0.promotion
              && (x.0.shortCastle != x.0.longCastle)
              && (x.0.shortCastle ==> x.0.End() == (HomeRow(t.mover), 6) && x.1 == (0, 1))
              && (x.0.longCastle ==> x.0.End() == (HomeRow(t.mover), 2) && x.1 == (0, -1))
    ensures (exists x :: x in Castles(b, t) && x.0.shortCastle) <==>
              !t.inCheck
              && (if t.mover == White then t.castling.whiteShort else t.castling.blackShort) == 0
              && b[HomeRow(t.mover), 5] == Empty && b[HomeRow(t.mover), 6] == Empty
    ensures (exists x :: x in Castles(b, t) && x.0.longCastle) <==>
              !t.inCheck
              && (if t.mover == White then t.castling.whiteLong else t.castling.blackLong) == 0
              && b[7, 1] == Empty && b[7, 2] == Empty && b[7, 3] == Empty
  {
    var ms := Castles(b, t);
    if !t.inCheck {
      var short := NewMove(b, t.kingPos, (HomeRow(t.mover), 6), false, true, false, false);
      var long := NewMove(b, t.kingPos, (HomeRow(t.mover), 2), false, false, true, false);
      if (if t.mover == White then t.castling.whiteShort else t.castling.blackShort) == 0
         && b[HomeRow(t.mover), 5] == Empty && b[HomeRow(t.mover), 6] == Empty {
        assert ms[0] == (short, (0, 1));
      }
      if (if t.mover == White then t.castling.whiteLong else t.castling.blackLong) == 0
         && b[7, 1] == Empty && b[7, 2] == Empty && b[7, 3] == Empty {
        assert ms[|ms| - 1] == (long, (0, -1));
      }
    }
  }

  /** The castling candidates start on the recorded king square and move
      the piece standing there. */
  lemma CastlesStart(b: array2<Piece>, t: Turn)
    requires IsGrid(b) && OnBoard(t.kingPos)
    ensures forall i :: 0 <= i < |Castles(b, t)| ==>
              Castles(b, t)[i].0.Start() == t.kingPos && Castles(b, t)[i].0.pieceMoved == At(b, t.kingPos)
  {
  }

  /** Direction q of the king generator: the step to the adjacent square if
      it is on the board and not held by an own piece, then the castling
      candidates, which the source appends inside the direction loop. */
  function KingStep(b: array2<Piece>, t: Turn, s: Square, q: int): Tagged
    requires IsGrid(b) && OnBoard(s) && OnBoard(t.kingPos) && 0 <= q < 8
    reads b
  {
    var e := Shift(s, KingDirs[q], 1);
    (if OnBoard(e) && FreeOrEnemy(b, e, t.mover) then [(Plain(b, s, e), KingDirs[q])] else [])
    + Castles(b, t)
  }

  /** What every king move satisfies: a castling candidate, or a step to an
      adjacent on-board square that is empty or holds an opponent. */
  ghost predicate LawfulKingMove(b: array2<Piece>, t: Turn, s: Square, x: (Move, Dir))
    requires IsGrid(b) && OnBoard(s) && OnBoard(t.kingPos)
    reads b
  {
    if x.0.shortCastle || x.0.longCastle then x in Castles(b, t)
    else
      x.1 in KingDirs
      && OnBoard(x.0.End())
      && x.0.End() == Shift(s, x.1, 1)
      && x.0 == Plain(b, s, x.0.End())
      && FreeOrEnemy(b, x.0.End(), t.mover)
  }

  /** Directions 0, ..., n - 1 of the king generator (get_king_moves at n = 8). */
  function KingUpTo(b: array2<Piece>, t: Turn, s: Square, n: int): (ms: Tagged)
    requires IsGrid(b) && OnBoard(s) && OnBoard(t.kingPos) && 0 <= n <= 8
    reads b
    ensures forall i :: 0 <= i < |ms| ==>
              (ms[i].0.Start() == s || ms[i].0.Start() == t.kingPos) && ms[i].0.pieceMoved == At(b, ms[i].0.Start())
  {
    if n == 0 then []
    else
      CastlesStart(b, t);
      KingUpTo(b, t, s, n - 1) + KingStep(b, t, s, n - 1)
  }

  /** Every entry of get_king_moves before the pin filter is a castling
      candidate or a step to an adjacent empty or opponent square. */
  lemma {:induction false} KingUpToLawful(b: array2<Piece>, t: Turn, s: Square, n: int)
    requires IsGrid(b) && OnBoard(s) && OnBoard(t.kingPos) && 0 <= n <= 8
    ensures forall x :: x in KingUpTo(b, t, s, n) ==> LawfulKingMove(b, t, s, x)
  {
    if n > 0 {
      KingUpToLawful(b, t, s, n - 1);
      CastlesOffered(b, t);
      assert KingUpTo(b, t, s, n) == KingUpTo(b, t, s, n - 1) + KingStep(b, t, s, n - 1);
    }
  }

  /** The number of castling entries in a tagged list. */
  function CastlingCount(ms: Tagged): nat {
    if ms == [] then 0
    else (if ms[0].0.shortCastle || ms[0].0.longCastle then 1 else 0) + CastlingCount(ms[1..])
  }

  lemma {:induction false} CastlingCountAppend(a: Tagged, c: Tagged)
    ensures CastlingCount(a + c) == CastlingCount(a) + CastlingCount(c)
    decreases |a|
  {
    if a != [] {
      assert (a + c)[0] == a[0];
      assert (a + c)[1..] == a[1..] + c;
      CastlingCountAppend(a[1..], c);
      assert CastlingCount(a + c) == (if a[0].0.shortCastle || a[0].0.longCastle then 1 else 0) + CastlingCount(a[1..] + c);
    } else {
      assert a + c == c;
    }
  }

  /** Because the castling candidates are appended once per direction, each
      one appears in get_king_moves once for every one of the 8 directions,
      and castle entries number n times the candidates. */
  lemma {:induction false} CastlesRepeated(b: array2<Piece>, t: Turn, s: Square, n: int)
    requires IsGrid(b) && OnBoard(s) && OnBoard(t.kingPos) && 0 <= n <= 8
    ensures forall x :: x in Castles(b, t) ==> multiset(KingUpTo(b, t, s, n))[x] == n
    ensures CastlingCount(KingUpTo(b, t, s, n)) == n * |Castles(b, t)|
  {
    if n > 0 {
      CastlesRepeated(b, t, s, n - 1);
      var prev := KingUpTo(b, t, s, n - 1);
      var step := KingStep(b, t, s, n - 1);
      var len := |Castles(b, t)|;
      assert KingUpTo(b, t, s, n) == prev + step;
      assert multiset(prev + step) == multiset(prev) + multiset(step);
      KingStepOnce(b, t, s, n - 1);
      CastlingCountAppend(prev, step);
      KingStepCount(b, t, s, n - 1);
      MulStep(n, len);
    }
  }

  /** The candidates are distinct: a short and a long castle differ in their
      flags, so each candidate occurs once in the list. */
  lemma CastlesOnce(b: array2<Piece>, t: Turn)
    requires IsGrid(b) && OnBoard(t.kingPos)
    ensures forall x :: x in Castles(b, t) ==> multiset(Castles(b, t))[x] == 1
  {
    var ms := Castles(b, t);
    CastlesOffered(b, t);
    assert |ms| <= 2;
    if |ms| == 2 {
      assert ms[0].0.shortCastle && ms[1].0.longCastle;
      assert ms == [ms[0]] + [ms[1]];
      assert multiset(ms) == multiset{ms[0]} + multiset{ms[1]};
    } else if |ms| == 1 {
      assert multiset(ms) == multiset{ms[0]};
    }
  }

  /** One direction of the king loop holds each candidate exactly once: its
      step, if any, is a plain move and never castle-flagged. */
  lemma KingStepOnce(b: array2<Piece>, t: Turn, s: Square, q: int)
    requires IsGrid(b) && OnBoard(s) && OnBoard(t.kingPos) && 0 <= q < 8
    ensures forall x :: x in Castles(b, t) ==> multiset(KingStep(b, t, s, q))[x] == 1
  {
    var e := Shift(s, KingDirs[q], 1);
    var step := if OnBoard(e) && FreeOrEnemy(b, e, t.mover) then [(Plain(b, s, e), KingDirs[q])] else [];
    assert KingStep(b, t, s, q) == step + Castles(b, t);
    assert multiset(step + Castles(b, t)) == multiset(step) + multiset(Castles(b, t));
    CastlesOnce(b, t);
    CastlesOffered(b, t);
    forall x | x in Castles(b, t)
      ensures multiset(step)[x] == 0
    {
      assert x.0.shortCastle || x.0.longCastle;
      assert x !in step;
    }
  }

  lemma MulStep(n: int, len: int)
    ensures n * len == (n - 1) * len + len
  {
  }

  lemma KingStepCount(b: array2<Piece>, t: Turn, s: Square, q: int)
    requires IsGrid(b) && OnBoard(s) && OnBoard(t.kingPos) && 0 <= q < 8
    ensures CastlingCount(KingStep(b, t, s, q)) == |Castles(b, t)|
  {
    var e := Shift(s, KingDirs[q], 1);
    var step := if OnBoard(e) && FreeOrEnemy(b, e, t.mover) then [(Plain(b, s, e), KingDirs[q])] else [];
    assert KingStep(b, t, s, q) == step + Castles(b, t);
    CastlingCountAppend(step, Castles(b, t));
    CastlesAllCount(b, t);
    if step != [] {
      assert step[1..] == [];
    }
  }

  lemma CastlesAllCount(b: array2<Piece>, t: Turn)
    requires IsGrid(b) && OnBoard(t.kingPos)
    ensures CastlingCount(Castles(b, t)) == |Castles(b, t)|
  {
    var ms := Castles(b, t);
    CastlesOffered(b, t);
    if |ms| == 2 {
      assert ms[0] in ms && ms[1] in ms;
      assert ms[1..][0] == ms[1];
      assert ms[1..][1..] == [];
      assert CastlingCount(ms[1..][1..]) == 0;
      assert CastlingCount(ms[1..]) == 1;
    } else if |ms| == 1 {
      assert ms[0] in ms;
      assert ms[1..] == [];
      assert CastlingCount(ms[1..]) == 0;
    } else {
      assert |ms| == 0;
    }
  }

  // ---------------------------------------------------------------- pawn

  /** A diagonal of the pawn at s: a capture of an opponent piece on the
      diagonal square (a promotion when it lands on row 0 or 7), then an
      en-passant capture if (s, d) is listed in the en-passant window. */
  function PawnDiagonal(b: array2<Piece>, t: Turn, s: Square, d: Dir): Tagged
    requires IsGrid(b) && OnBoard(s)
    reads b
  {
    var e := (s.0 + d.0, s.1 + d.1);
    if !OnBoard(e) then []
    else
      (if Holds(At(b, e), Opponent(t.mover)) then [(NewMove(b, s, e, false, false, false, e.0 == 0 || e.0 == 7), d)] else [])
      + (if (s, d) in t.enPassant then [(NewMove(b, s, e, true, false, false, false), d)] else [])
  }

  /** The two diagonals of a pawn of colour c, in the order visited. */
  function PawnDiagonals(c: Color): seq<Dir> {
    [(Forward(c), 1), (Forward(c), -1)]
  }

  /** The pushes of the pawn at s: one square ahead if it is empty (a
      promotion when it lands on row 0 or 7), then two squares ahead from
      the start row if that square is empty too. */
  function PawnPushes(b: array2<Piece>, t: Turn, s: Square): Tagged
    requires IsGrid(b) && OnBoard(s) && 0 <= s.0 + Forward(t.mover) <= 7
    reads b
  {
    var f := Forward(t.mover);
    var ahead := (s.0 + f, s.1);
    if At(b, ahead) == Empty then
      [(NewMove(b, s, ahead, false, false, false, ahead.0 == 0 || ahead.0 == 7), (f, 0))]
      + (if s.0 == PawnStartRow(t.mover) && At(b, (s.0 + 2 * f, s.1)) == Empty
         then [(Plain(b, s, (s.0 + 2 * f, s.1)), (f, 0))] else [])
    else []
  }

  /** The pushes, then the diagonals 0, ..., n - 1 (get_pawn_moves at n = 2). */
  function PawnUpTo(b: array2<Piece>, t: Turn, s: Square, n: int): Tagged
    requires IsGrid(b) && OnBoard(s) && 0 <= s.0 + Forward(t.mover) <= 7 && 0 <= n <= 2
    reads b
  {
    if n == 0 then PawnPushes(b, t, s)
    else PawnUpTo(b, t, s, n - 1) + PawnDiagonal(b, t, s, PawnDiagonals(t.mover)[n - 1])
  }

  /** What every pawn move satisfies. */
  ghost predicate LawfulPawnMove(b: array2<Piece>, t: Turn, s: Square, x: (Move, Dir))
    requires IsGrid(b) && OnBoard(s) && 0 <= s.0 + Forward(t.mover) <= 7
    reads b
  {
    var f := Forward(t.mover);
    var m := x.0;
    m.Start() == s && m.pieceMoved == At(b, s) && OnBoard(m.End())
    && m.pieceCaptured == At(b, m.End())
    && !m.shortCastle && !m.longCastle && m.promoteTo == Empty
    // a single push needs the square ahead empty
    && (x.1 == (f, 0) ==>
          m.endCol == s.1 && !m.enPassant && At(b, (s.0 + f, s.1)) == Empty
          && (m.endRow == s.0 + f || m.endRow == s.0 + 2 * f))
    // a double push: only from the start row, both squares empty, never a promotion
    && (m.endRow == s.0 + 2 * f ==>
          s.0 == PawnStartRow(t.mover) && At(b, (s.0 + f, s.1)) == Empty && At(b, m.End()) == Empty
          && !m.promotion)
    // a diagonal: a capture of an opponent piece, or an en-passant capture listed in the window
    && (x.1 != (f, 0) ==>
          x.1 in PawnDiagonals(t.mover) && m.End() == (s.0 + x.1.0, s.1 + x.1.1)
          && (m.enPassant ==> (s, x.1) in t.enPassant && !m.promotion)
          && (!m.enPassant ==> Holds(At(b, m.End()), Opponent(t.mover))))
    // pushes and ordinary captures promote exactly on rows 0 and 7
    && (!m.enPassant ==> (m.promotion <==> m.endRow == 0 || m.endRow == 7))
  }

  lemma PushesLawful(b: array2<Piece>, t: Turn, s: Square)
    requires IsGrid(b) && OnBoard(s) && 0 <= s.0 + Forward(t.mover) <= 7
    ensures forall x :: x in PawnPushes(b, t, s) ==> LawfulPawnMove(b, t, s, x)
  {
  }

  lemma DiagonalLawful(b: array2<Piece>, t: Turn, s: Square, q: int)
    requires IsGrid(b) && OnBoard(s) && 0 <= s.0 + Forward(t.mover) <= 7 && 0 <= q < 2
    ensures forall x :: x in PawnDiagonal(b, t, s, PawnDiagonals(t.mover)[q]) ==> LawfulPawnMove(b, t, s, x)
  {
  }

  /** get_pawn_moves before the pin filter. */
  function PawnTagged(b: array2<Piece>, t: Turn, s: Square): Tagged
    requires IsGrid(b) && OnBoard(s) && 0 <= s.0 + Forward(t.mover) <= 7
    reads b
  {
    PawnUpTo(b, t, s, 2)
  }

  /** Every pawn move obeys the pawn rules as the generator applies them. */
  lemma PawnTaggedLawful(b: array2<Piece>, t: Turn, s: Square)
    requires IsGrid(b) && OnBoard(s) && 0 <= s.0 + Forward(t.mover) <= 7
    ensures var ms := PawnTagged(b, t, s);
            forall i :: 0 <= i < |ms| ==> ms[i].0.Start() == s && ms[i].0.pieceMoved == At(b, s)
    ensures forall x :: x in PawnTagged(b, t, s) ==> LawfulPawnMove(b, t, s, x)
  {
    var pushes := PawnPushes(b, t, s);
    var left := PawnDiagonal(b, t, s, PawnDiagonals(t.mover)[0]);
    var right := PawnDiagonal(b, t, s, PawnDiagonals(t.mover)[1]);
    PushesLawful(b, t, s);
    DiagonalLawful(b, t, s, 0);
    DiagonalLawful(b, t, s, 1);
    assert PawnUpTo(b, t, s, 1) == pushes + left;
    var ms := PawnUpTo(b, t, s, 2);
    assert ms == pushes + left + right;
    assert forall x :: x in ms ==> x in pushes || x in left || x in right;
    assert forall i :: 0 <= i < |ms| ==> ms[i] in ms;
  }

  // ---------------------------------------------------------------- decorated generators

  /** The generators as get_all_possible_moves calls them: each one's output
      passed through the pin filter. */
  function PawnMoves(b: array2<Piece>, t: Turn, s: Square): seq<Move>
    requires IsGrid(b) && OnBoard(s) && 0 <= s.0 + Forward(t.mover) <= 7
    reads b
  {
    PawnTaggedLawful(b, t, s);
    CleanPinned(t.pins, s, PawnTagged(b, t, s))
  }

  function RookMoves(b: array2<Piece>, t: Turn, s: Square): seq<Move>
    requires IsGrid(b) && OnBoard(s)
    reads b
  {
    var ms := RookTagged(b, t.mover, s);
    CleanPinned(t.pins, s, ms)
  }

  function BishopMoves(b: array2<Piece>, t: Turn, s: Square): seq<Move>
    requires IsGrid(b) && OnBoard(s)
    reads b
  {
    var ms := BishopTagged(b, t.mover, s);
    CleanPinned(t.pins, s, ms)
  }

  function KnightMoves(b: array2<Piece>, t: Turn, s: Square): seq<Move>
    requires IsGrid(b) && OnBoard(s)
    reads b
  {
    var ms := KnightUpTo(b, t.mover, s, 8);
    CleanPinned(t.pins, s, ms)
  }

  /** get_queen_moves: the filtered rook moves followed by the filtered
      bishop moves. */
  function QueenMoves(b: array2<Piece>, t: Turn, s: Square): seq<Move>
    requires IsGrid(b) && OnBoard(s)
    reads b
  {
    RookMoves(b, t, s) + BishopMoves(b, t, s)
  }

  /** get_king_moves, called on the recorded king square (castling moves
      start there, and the pin lookup is keyed by each move's start). */
  function KingMoves(b: array2<Piece>, t: Turn, s: Square): seq<Move>
    requires IsGrid(b) && OnBoard(s) && s == t.kingPos
    reads b
  {
    var ms := KingUpTo(b, t, s, 8);
    CleanPinned(t.pins, s, ms)
  }

  // ---------------------------------------------------------------- whole board

  /** What get_all_possible_moves needs of the position: every pawn of the
      side to move can look one row ahead without leaving the board, and
      every king of the side to move stands on the recorded king square. */
  ghost predicate Generable(b: array2<Piece>, t: Turn)
    requires IsGrid(b)
    reads b
  {
    OnBoard(t.kingPos)
    && forall i, j :: 0 <= i < 8 && 0 <= j < 8 ==>
         (b[i, j] == Occupied(t.mover, Pawn) ==> 0 <= i + Forward(t.mover) <= 7)
         && (b[i, j] == Occupied(t.mover, King) ==> (i, j) == t.kingPos)
  }

  /** MOVES_FUNCTIONS dispatch for one square: nothing unless the square
      holds a piece of the side to move. */
  function SquareMoves(b: array2<Piece>, t: Turn, s: Square): (ms: seq<Move>)
    requires IsGrid(b) && Generable(b, t) && OnBoard(s)
    reads b
    ensures forall m :: m in ms ==> m.Start() == s && Holds(At(b, s), t.mover) && m.pieceMoved == At(b, s)
  {
    var p := At(b, s);
    if !Holds(p, t.mover) then []
    else
      match p.kind
      case Pawn =>
        var tagged := PawnTagged(b, t, s);
        PawnTaggedLawful(b, t, s);
        assert forall k :: 0 <= k < |tagged| ==> tagged[k] in tagged;
        PawnMoves(b, t, s)
      case Rook => MovesFromFirsts(RookTagged(b, t.mover, s)); RookMoves(b, t, s)
      case Bishop => MovesFromFirsts(BishopTagged(b, t.mover, s)); BishopMoves(b, t, s)
      case Knight => MovesFromFirsts(KnightUpTo(b, t.mover, s, 8)); KnightMoves(b, t, s)
      case Queen =>
        MovesFromFirsts(RookTagged(b, t.mover, s));
        MovesFromFirsts(BishopTagged(b, t.mover, s));
        QueenMoves(b, t, s)
      case King =>
        var tagged := KingUpTo(b, t, s, 8);
        MovesFromFirsts(tagged);
        KingMoves(b, t, s)
  }

  lemma MovesFromFirsts(tagged: Tagged)
    ensures forall m :: m in Firsts(tagged) ==> exists k :: 0 <= k < |tagged| && tagged[k].0 == m
  {
  }

  /** The moves of squares (r, 0), ..., (r, c - 1). */
  function RowPrefix(b: array2<Piece>, t: Turn, r: int, c: int): seq<Move>
    requires IsGrid(b) && Generable(b, t) && 0 <= r < 8 && 0 <= c <= 8
    reads b
  {
    if c == 0 then [] else RowPrefix(b, t, r, c - 1) + SquareMoves(b, t, (r, c - 1))
  }

  /** The moves of rows 0, ..., r - 1, row by row
      (get_all_possible_moves at r = 8). */
  function RowsPrefix(b: array2<Piece>, t: Turn, r: int): seq<Move>
    requires IsGrid(b) && Generable(b, t) && 0 <= r <= 8
    reads b
  {
    if r == 0 then [] else RowsPrefix(b, t, r - 1) + RowPrefix(b, t, r - 1, 8)
  }

  /** A move made by a piece of the side to move from the square it stands
      on, with that piece recorded as the moved piece. */
  ghost predicate OwnPieceMove(b: array2<Piece>, t: Turn, m: Move)
    requires IsGrid(b)
    reads b
  {
    OnBoard(m.Start()) && Holds(At(b, m.Start()), t.mover) && m.pieceMoved == At(b, m.Start())
  }

  lemma {:induction false} RowPrefixOwn(b: array2<Piece>, t: Turn, r: int, c: int)
    requires IsGrid(b) && Generable(b, t) && 0 <= r < 8 && 0 <= c <= 8
    ensures forall m :: m in RowPrefix(b, t, r, c) ==> OwnPieceMove(b, t, m)
  {
    if c > 0 {
      RowPrefixOwn(b, t, r, c - 1);
    }
  }

  /** Every generated move moves a piece of the side to move from its own
      square. */
  lemma {:induction false} RowsPrefixOwn(b: array2<Piece>, t: Turn, r: int)
    requires IsGrid(b) && Generable(b, t) && 0 <= r <= 8
    ensures forall m :: m in RowsPrefix(b, t, r) ==> OwnPieceMove(b, t, m)
  {
    if r > 0 {
      RowsPrefixOwn(b, t, r - 1);
      RowPrefixOwn(b, t, r - 1, 8);
    }
  }
}
