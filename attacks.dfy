/** check_for_pins_and_checks: the scan outward from the king of the side to
    move along the eight directions, then over the eight knight squares. */
module Attacks {
  import opened Pieces
  import opened PinFilter
  import opened Rules

  /** What one direction contributes: nothing, a check (the squares visited
      up to and including the checking piece), or a pin. */
  datatype RayOutcome = Clear | Check(path: seq<Square>) | PinFound(pin: Pin)

  /** The scanner's result: (in_check, pins, checks). */
  datatype Scan = Scan(inCheck: bool, pins: seq<Pin>, checks: seq<seq<Square>>)

  /** The walk along d from the king, from step k on. `candidate` is the
      first own piece met so far and `cells` the on-board squares visited.
      Off-board steps are skipped; a second own piece ends the walk; the
      first opponent piece ends it with a check or a pin when it can attack
      along d from that distance. */
  function ScanRay(b: array2<Piece>, ally: Color, king: Square, d: Dir, k: int,
                   candidate: Option<Square>, cells: seq<Square>): (o: RayOutcome)
    requires IsGrid(b) && 1 <= k <= 8
    reads b
    decreases 8 - k
    ensures o.Check? ==> candidate.None? && |o.path| > |cells| && o.path[..|cells|] == cells
    ensures o.PinFound? ==> o.pin.1 == d
    ensures o.PinFound? && candidate.Some? ==> o.pin.0 == candidate.value
  {
    if k == 8 then Clear
    else
      var e := Shift(king, d, k);
      if !OnBoard(e) then ScanRay(b, ally, king, d, k + 1, candidate, cells)
      else
        var p := At(b, e);
        if Holds(p, ally) then
          if candidate.None? then
            var o := ScanRay(b, ally, king, d, k + 1, Some(e), cells + [e]);
            o
          else Clear
        else if Holds(p, Opponent(ally)) then
          if AttacksAlong(p.kind, d, k, Opponent(ally)) then
            if candidate.None? then
              assert (cells + [e])[..|cells|] == cells;
              Check(cells + [e])
            else PinFound((candidate.value, d))
          else Clear
        else
          var o := ScanRay(b, ally, king, d, k + 1, candidate, cells + [e]);
          assert o.Check? ==> o.path[..|cells|] == (o.path[..|cells| + 1])[..|cells|];
          o
  }

  /** Direction number q of the scan, walked from the king. */
  function RayFrom(b: array2<Piece>, ally: Color, king: Square, q: int): RayOutcome
    requires IsGrid(b) && 0 <= q < 8
    reads b
  {
    ScanRay(b, ally, king, KingDirs[q], 1, None, [])
  }

  /** The outcomes of directions 0, ..., n - 1 collected in order. */
  function RaysUpTo(b: array2<Piece>, ally: Color, king: Square, n: int): (sc: Scan)
    requires IsGrid(b) && 0 <= n <= 8
    reads b
    ensures sc.inCheck <==> |sc.checks| > 0
  {
    if n == 0 then Scan(false, [], [])
    else
      var prev := RaysUpTo(b, ally, king, n - 1);
      match RayFrom(b, ally, king, n - 1)
      case Clear => prev
      case Check(path) => Scan(true, prev.pins, prev.checks + [path])
      case PinFound(pin) => Scan(prev.inCheck, prev.pins + [pin], prev.checks)
  }

  /** The knight squares 0, ..., n - 1 scanned after the eight directions:
      each one holding an opponent knight adds a one-square check. */
  function KnightChecks(b: array2<Piece>, ally: Color, king: Square, n: int): (sc: Scan)
    requires IsGrid(b) && 0 <= n <= 8
    reads b
    ensures sc.inCheck <==> |sc.checks| > 0
    ensures sc.pins == RaysUpTo(b, ally, king, 8).pins
    ensures |sc.checks| >= |RaysUpTo(b, ally, king, 8).checks|
    ensures sc.checks[..|RaysUpTo(b, ally, king, 8).checks|] == RaysUpTo(b, ally, king, 8).checks
  {
    if n == 0 then RaysUpTo(b, ally, king, 8)
    else
      var prev := KnightChecks(b, ally, king, n - 1);
      var e := KnightTarget(king, n - 1);
      if OnBoard(e) && At(b, e) == Occupied(Opponent(ally), Knight) then
        var sc := Scan(true, prev.pins, prev.checks + [[e]]);
        assert sc.checks[..|prev.checks|] == prev.checks;
        sc
      else prev
  }

  /** Each check and each pin collected over directions 0, ..., n - 1 is
      the outcome of one of those directions. */
  lemma {:induction false} RaysUpToFrom(b: array2<Piece>, ally: Color, king: Square, n: int)
    requires IsGrid(b) && 0 <= n <= 8
    ensures forall i :: 0 <= i < |RaysUpTo(b, ally, king, n).checks| ==>
              exists q :: 0 <= q < n && RayFrom(b, ally, king, q) == Check(RaysUpTo(b, ally, king, n).checks[i])
    ensures forall i :: 0 <= i < |RaysUpTo(b, ally, king, n).pins| ==>
              exists q :: 0 <= q < n && RayFrom(b, ally, king, q) == PinFound(RaysUpTo(b, ally, king, n).pins[i])
  {
    if n > 0 {
      RaysUpToFrom(b, ally, king, n - 1);
      var prev := RaysUpTo(b, ally, king, n - 1);
      var sc := RaysUpTo(b, ally, king, n);
      forall i | 0 <= i < |sc.checks|
        ensures exists q :: 0 <= q < n && RayFrom(b, ally, king, q) == Check(sc.checks[i])
      {
        if i < |prev.checks| {
          assert sc.checks[i] == prev.checks[i];
          var q :| 0 <= q < n - 1 && RayFrom(b, ally, king, q) == Check(prev.checks[i]);
        } else {
          assert RayFrom(b, ally, king, n - 1) == Check(sc.checks[i]);
        }
      }
      forall i | 0 <= i < |sc.pins|
        ensures exists q :: 0 <= q < n && RayFrom(b, ally, king, q) == PinFound(sc.pins[i])
      {
        if i < |prev.pins| {
          assert sc.pins[i] == prev.pins[i];
          var q :| 0 <= q < n - 1 && RayFrom(b, ally, king, q) == PinFound(prev.pins[i]);
        } else {
          assert RayFrom(b, ally, king, n - 1) == PinFound(sc.pins[i]);
        }
      }
    } else {
      assert RaysUpTo(b, ally, king, n) == Scan(false, [], []);
    }
  }

  /** c is the one-square line to one of knight squares 0, ..., n - 1, and
      that square holds an opponent knight. */
  ghost predicate KnightLine(b: array2<Piece>, ally: Color, king: Square, n: int, c: seq<Square>)
    requires IsGrid(b) && n <= 8
    reads b
  {
    exists q :: 0 <= q < n && c == [KnightTarget(king, q)]
      && OnBoard(KnightTarget(king, q)) && At(b, KnightTarget(king, q)) == Occupied(Opponent(ally), Knight)
  }

  /** Each check added by knight squares 0, ..., n - 1 is the one-square
      line to a square among them holding an opponent knight. */
  lemma {:induction false} KnightChecksFrom(b: array2<Piece>, ally: Color, king: Square, n: int)
    requires IsGrid(b) && 0 <= n <= 8
    ensures forall i :: |RaysUpTo(b, ally, king, 8).checks| <= i < |KnightChecks(b, ally, king, n).checks| ==>
              KnightLine(b, ally, king, n, KnightChecks(b, ally, king, n).checks[i])
  {
    if n > 0 {
      KnightChecksFrom(b, ally, king, n - 1);
      var base := |RaysUpTo(b, ally, king, 8).checks|;
      var prev := KnightChecks(b, ally, king, n - 1);
      var sc := KnightChecks(b, ally, king, n);
      var e := KnightTarget(king, n - 1);
      var found := OnBoard(e) && At(b, e) == Occupied(Opponent(ally), Knight);
      assert sc == if found then Scan(true, prev.pins, prev.checks + [[e]]) else prev;
      forall i | base <= i < |sc.checks|
        ensures KnightLine(b, ally, king, n, sc.checks[i])
      {
        if i < |prev.checks| {
          assert sc.checks[i] == prev.checks[i];
          assert KnightLine(b, ally, king, n - 1, prev.checks[i]);
          var q :| 0 <= q < n - 1 && prev.checks[i] == [KnightTarget(king, q)]
                && OnBoard(KnightTarget(king, q)) && At(b, KnightTarget(king, q)) == Occupied(Opponent(ally), Knight);
          assert 0 <= q < n && sc.checks[i] == [KnightTarget(king, q)];
        } else {
          assert found && sc.checks[i] == [e];
          assert 0 <= n - 1 < n && sc.checks[i] == [KnightTarget(king, n - 1)];
        }
      }
    } else {
      assert KnightChecks(b, ally, king, n) == RaysUpTo(b, ally, king, 8);
    }
  }

  /** check_for_pins_and_checks for the side `ally` whose king is recorded
      at `king`. */
  function Scanner(b: array2<Piece>, ally: Color, king: Square): Scan
    requires IsGrid(b)
    reads b
  {
    KnightChecks(b, ally, king, 8)
  }

  // ---------------------------------------------------------------- ray geometry

  /** The squares 1, ..., n steps from the king along d. */
  function Path(king: Square, d: Dir, n: nat): (p: seq<Square>)
    ensures |p| == n
    ensures forall j :: 0 <= j < n ==> p[j] == Shift(king, d, j + 1)
  {
    if n == 0 then [] else Path(king, d, n - 1) + [Shift(king, d, n)]
  }

  /** Steps lo, ..., hi - 1 along d are on the board and empty. */
  ghost predicate ClearBetween(b: array2<Piece>, king: Square, d: Dir, lo: int, hi: int)
    requires IsGrid(b)
    reads b
  {
    forall j :: lo <= j < hi ==> OnBoard(Shift(king, d, j)) && At(b, Shift(king, d, j)) == Empty
  }

  /** Once a unit step leaves the board it does not come back. */
  lemma OffBoardStaysOff(king: Square, d: Dir, k: int)
    requires OnBoard(king) && d in KingDirs && k >= 1
    requires !OnBoard(Shift(king, d, k))
    ensures !OnBoard(Shift(king, d, k + 1))
  {
    assert d.0 == -1 || d.0 == 0 || d.0 == 1;
    assert d.1 == -1 || d.1 == 0 || d.1 == 1;
  }

  lemma {:induction false} OffBoardRayClear(b: array2<Piece>, ally: Color, king: Square, d: Dir, k: int,
                                            candidate: Option<Square>, cells: seq<Square>)
    requires IsGrid(b) && OnBoard(king) && d in KingDirs && 1 <= k <= 8
    requires k < 8 ==> !OnBoard(Shift(king, d, k))
    ensures ScanRay(b, ally, king, d, k, candidate, cells) == Clear
    decreases 8 - k
  {
    if k < 8 {
      if k + 1 < 8 {
        OffBoardStaysOff(king, d, k);
      }
      OffBoardRayClear(b, ally, king, d, k + 1, candidate, cells);
    }
  }

  /** A check found along a direction: the path is the straight line from
      the king, every square of it before the last is empty, and the last
      holds an opponent piece that can attack along d from that distance. */
  ghost predicate CheckLine(b: array2<Piece>, ally: Color, king: Square, d: Dir, path: seq<Square>)
    requires IsGrid(b)
    reads b
  {
    1 <= |path| <= 7
    && path == Path(king, d, |path|)
    && ClearBetween(b, king, d, 1, |path|)
    && OnBoard(path[|path| - 1])
    && Holds(At(b, path[|path| - 1]), Opponent(ally))
    && AttacksAlong(At(b, path[|path| - 1]).kind, d, |path|, Opponent(ally))
  }

  /** A check line ending on a pawn is one square long and runs diagonally
      the way that pawn advances: a pawn gives check only from a square
      diagonally adjacent to the king, on the king's side of its march. */
  lemma PawnCheckIsAdjacent(b: array2<Piece>, ally: Color, king: Square, d: Dir, path: seq<Square>)
    requires IsGrid(b) && CheckLine(b, ally, king, d, path)
    requires At(b, path[|path| - 1]).kind == Pawn
    ensures |path| == 1 && path[0] == Shift(king, d, 1)
    ensures d.0 == -Forward(Opponent(ally)) && (d.1 == 1 || d.1 == -1)
  {
    PawnChecksFromAhead(d, |path|, Opponent(ally));
  }

  lemma {:induction false} RayCheckFrom(b: array2<Piece>, ally: Color, king: Square, d: Dir, k: int,
                                        cells: seq<Square>)
    requires IsGrid(b) && OnBoard(king) && d in KingDirs && 1 <= k <= 8
    requires cells == Path(king, d, k - 1) && ClearBetween(b, king, d, 1, k)
    requires ScanRay(b, ally, king, d, k, None, cells).Check?
    ensures CheckLine(b, ally, king, d, ScanRay(b, ally, king, d, k, None, cells).path)
    decreases 8 - k
  {
    var e := Shift(king, d, k);
    if !OnBoard(e) {
      OffBoardRayClear(b, ally, king, d, k, None, cells);
    } else if Holds(At(b, e), ally) {
    } else if Holds(At(b, e), Opponent(ally)) {
      assert cells + [e] == Path(king, d, k);
    } else {
      assert cells + [e] == Path(king, d, k);
      RayCheckFrom(b, ally, king, d, k + 1, cells + [e]);
    }
  }

  /** Every check a direction reports is a clear line to an attacker. */
  lemma RayCheckIsLine(b: array2<Piece>, ally: Color, king: Square, q: int)
    requires IsGrid(b) && OnBoard(king) && 0 <= q < 8
    requires RayFrom(b, ally, king, q).Check?
    ensures CheckLine(b, ally, king, KingDirs[q], RayFrom(b, ally, king, q).path)
  {
    RayCheckFrom(b, ally, king, KingDirs[q], 1, []);
  }

  lemma {:induction false} ClearLineFound(b: array2<Piece>, ally: Color, king: Square, d: Dir, k: int, j: int)
    requires IsGrid(b) && OnBoard(king) && d in KingDirs && 1 <= k <= j <= 7
    requires ClearBetween(b, king, d, 1, j) && OnBoard(Shift(king, d, j))
    requires Holds(At(b, Shift(king, d, j)), Opponent(ally))
    requires AttacksAlong(At(b, Shift(king, d, j)).kind, d, j, Opponent(ally))
    ensures ScanRay(b, ally, king, d, k, None, Path(king, d, k - 1)) == Check(Path(king, d, j))
    decreases j - k
  {
    assert Path(king, d, k - 1) + [Shift(king, d, k)] == Path(king, d, k);
    if k < j {
      ClearLineFound(b, ally, king, d, k + 1, j);
    }
  }

  /** Conversely, an attacker at the end of a clear line is reported as a
      check along that direction, with that line as its path. */
  lemma ClearLineIsCheck(b: array2<Piece>, ally: Color, king: Square, q: int, j: int)
    requires IsGrid(b) && OnBoard(king) && 0 <= q < 8 && 1 <= j <= 7
    requires ClearBetween(b, king, KingDirs[q], 1, j) && OnBoard(Shift(king, KingDirs[q], j))
    requires Holds(At(b, Shift(king, KingDirs[q], j)), Opponent(ally))
    requires AttacksAlong(At(b, Shift(king, KingDirs[q], j)).kind, KingDirs[q], j, Opponent(ally))
    ensures RayFrom(b, ally, king, q) == Check(Path(king, KingDirs[q], j))
  {
    ClearLineFound(b, ally, king, KingDirs[q], 1, j);
  }

  /** A pin along d: the pinned square is the first piece from the king and
      an own piece; after it the line is clear up to an opponent piece that
      can attack along d from its distance. */
  ghost predicate PinLine(b: array2<Piece>, ally: Color, king: Square, d: Dir, sq: Square)
    requires IsGrid(b)
    reads b
  {
    exists j, j2 :: 1 <= j < j2 <= 7 && sq == Shift(king, d, j) && PinWitness(b, ally, king, d, j, j2)
  }

  ghost predicate PinWitness(b: array2<Piece>, ally: Color, king: Square, d: Dir, j: int, j2: int)
    requires IsGrid(b)
    reads b
  {
    OnBoard(Shift(king, d, j)) && Holds(At(b, Shift(king, d, j)), ally)
    && ClearBetween(b, king, d, 1, j) && ClearBetween(b, king, d, j + 1, j2)
    && OnBoard(Shift(king, d, j2)) && Holds(At(b, Shift(king, d, j2)), Opponent(ally))
    && AttacksAlong(At(b, Shift(king, d, j2)).kind, d, j2, Opponent(ally))
  }

  lemma {:induction false} RayPinFrom(b: array2<Piece>, ally: Color, king: Square, d: Dir, k: int,
                                      candidate: Option<Square>, cells: seq<Square>, j: int)
    requires IsGrid(b) && OnBoard(king) && d in KingDirs && 1 <= k <= 8
    requires candidate.None? ==> ClearBetween(b, king, d, 1, k)
    requires candidate.Some? ==>
               1 <= j < k && candidate.value == Shift(king, d, j)
               && OnBoard(candidate.value) && Holds(At(b, candidate.value), ally)
               && ClearBetween(b, king, d, 1, j) && ClearBetween(b, king, d, j + 1, k)
    requires ScanRay(b, ally, king, d, k, candidate, cells).PinFound?
    ensures PinLine(b, ally, king, d, ScanRay(b, ally, king, d, k, candidate, cells).pin.0)
    decreases 8 - k
  {
    var e := Shift(king, d, k);
    if !OnBoard(e) {
      OffBoardRayClear(b, ally, king, d, k, candidate, cells);
    } else if Holds(At(b, e), ally) {
      RayPinFrom(b, ally, king, d, k + 1, Some(e), cells + [e], k);
    } else if Holds(At(b, e), Opponent(ally)) {
      assert PinWitness(b, ally, king, d, j, k);
    } else {
      RayPinFrom(b, ally, king, d, k + 1, candidate, cells + [e], j);
    }
  }

  /** Every pin a direction reports is an own piece alone between the king
      and an attacker on that line. */
  lemma RayPinIsLine(b: array2<Piece>, ally: Color, king: Square, q: int)
    requires IsGrid(b) && OnBoard(king) && 0 <= q < 8
    requires RayFrom(b, ally, king, q).PinFound?
    ensures RayFrom(b, ally, king, q).pin.1 == KingDirs[q]
    ensures PinLine(b, ally, king, KingDirs[q], RayFrom(b, ally, king, q).pin.0)
  {
    RayPinFrom(b, ally, king, KingDirs[q], 1, None, [], 0);
  }

  /** The scanner's whole result: in check exactly when some check is
      listed; every check is a clear line from the king to an attacker or
      a single square holding an opponent knight; every pin is an own piece
      alone between the king and an attacker. */
  lemma ScannerSound(b: array2<Piece>, ally: Color, king: Square)
    requires IsGrid(b) && OnBoard(king)
    ensures Scanner(b, ally, king).inCheck <==> |Scanner(b, ally, king).checks| > 0
    ensures forall c :: c in Scanner(b, ally, king).checks ==>
              (exists q :: 0 <= q < 8 && CheckLine(b, ally, king, KingDirs[q], c))
              || (exists q :: 0 <= q < 8 && c == [KnightTarget(king, q)]
                    && OnBoard(KnightTarget(king, q)) && At(b, KnightTarget(king, q)) == Occupied(Opponent(ally), Knight))
    ensures forall p :: p in Scanner(b, ally, king).pins ==>
              p.1 in KingDirs && PinLine(b, ally, king, p.1, p.0)
  {
    var sc := Scanner(b, ally, king);
    var rays := RaysUpTo(b, ally, king, 8);
    RaysUpToFrom(b, ally, king, 8);
    KnightChecksFrom(b, ally, king, 8);
    forall c | c in sc.checks
      ensures (exists q :: 0 <= q < 8 && CheckLine(b, ally, king, KingDirs[q], c))
              || (exists q :: 0 <= q < 8 && c == [KnightTarget(king, q)]
                    && OnBoard(KnightTarget(king, q)) && At(b, KnightTarget(king, q)) == Occupied(Opponent(ally), Knight))
    {
      var i :| 0 <= i < |sc.checks| && sc.checks[i] == c;
      if i < |rays.checks| {
        assert sc.checks[i] == sc.checks[..|rays.checks|][i];
        var q :| 0 <= q < 8 && RayFrom(b, ally, king, q) == Check(rays.checks[i]);
        RayCheckIsLine(b, ally, king, q);
      } else {
        assert KnightLine(b, ally, king, 8, c);
      }
    }
    forall p | p in sc.pins
      ensures p.1 in KingDirs && PinLine(b, ally, king, p.1, p.0)
    {
      var i :| 0 <= i < |rays.pins| && rays.pins[i] == p;
      var q :| 0 <= q < 8 && RayFrom(b, ally, king, q) == PinFound(p);
      RayPinIsLine(b, ally, king, q);
    }
  }

  /** The first listed check is non-empty and ends on the board: the square
      of the checking piece. */
  lemma FirstCheckEndsOnBoard(b: array2<Piece>, ally: Color, king: Square)
    requires IsGrid(b) && OnBoard(king) && |Scanner(b, ally, king).checks| >= 1
    ensures var c := Scanner(b, ally, king).checks[0];
            |c| >= 1 && OnBoard(c[|c| - 1])
  {
    ScannerSound(b, ally, king);
    var sc := Scanner(b, ally, king);
    assert sc.checks[0] in sc.checks;
  }

  // ---------------------------------------------------------------- completeness

  /** Walking on behind the own piece sq: a clear stretch up to an attacker
      reports sq as pinned along d. */
  lemma {:induction false} PinFoundBehind(b: array2<Piece>, ally: Color, king: Square, d: Dir, k: int, j2: int,
                                          sq: Square, cells: seq<Square>)
    requires IsGrid(b) && 1 <= k <= j2 <= 7
    requires ClearBetween(b, king, d, k, j2) && OnBoard(Shift(king, d, j2))
    requires Holds(At(b, Shift(king, d, j2)), Opponent(ally))
    requires AttacksAlong(At(b, Shift(king, d, j2)).kind, d, j2, Opponent(ally))
    ensures ScanRay(b, ally, king, d, k, Some(sq), cells) == PinFound((sq, d))
    decreases j2 - k
  {
    if k < j2 {
      PinFoundBehind(b, ally, king, d, k + 1, j2, sq, cells + [Shift(king, d, k)]);
    }
  }

  /** Walking from step k up to the lone own piece at step j of a pin line
      reports that piece as pinned along d. */
  lemma {:induction false} PinFoundAhead(b: array2<Piece>, ally: Color, king: Square, d: Dir, k: int, j: int, j2: int,
                                         cells: seq<Square>)
    requires IsGrid(b) && 1 <= k <= j < j2 <= 7
    requires PinWitness(b, ally, king, d, j, j2)
    ensures ScanRay(b, ally, king, d, k, None, cells) == PinFound((Shift(king, d, j), d))
    decreases j - k
  {
    if k < j {
      PinFoundAhead(b, ally, king, d, k + 1, j, j2, cells + [Shift(king, d, k)]);
    } else {
      PinFoundBehind(b, ally, king, d, k + 1, j2, Shift(king, d, j), cells + [Shift(king, d, k)]);
    }
  }

  /** Conversely to RayPinIsLine, a pin line along direction q is what that
      direction's walk reports. */
  lemma PinLineIsPin(b: array2<Piece>, ally: Color, king: Square, q: int, sq: Square)
    requires IsGrid(b) && 0 <= q < 8 && PinLine(b, ally, king, KingDirs[q], sq)
    ensures RayFrom(b, ally, king, q) == PinFound((sq, KingDirs[q]))
  {
    var j, j2 :| 1 <= j < j2 <= 7 && sq == Shift(king, KingDirs[q], j) && PinWitness(b, ally, king, KingDirs[q], j, j2);
    PinFoundAhead(b, ally, king, KingDirs[q], 1, j, j2, []);
  }

  /** Every check and every pin reported by directions 0, ..., n - 1 is
      collected. */
  lemma {:induction false} RaysUpToCollects(b: array2<Piece>, ally: Color, king: Square, n: int)
    requires IsGrid(b) && 0 <= n <= 8
    ensures forall q :: 0 <= q < n && RayFrom(b, ally, king, q).Check? ==>
              RayFrom(b, ally, king, q).path in RaysUpTo(b, ally, king, n).checks
    ensures forall q :: 0 <= q < n && RayFrom(b, ally, king, q).PinFound? ==>
              RayFrom(b, ally, king, q).pin in RaysUpTo(b, ally, king, n).pins
  {
    if n > 0 {
      RaysUpToCollects(b, ally, king, n - 1);
      var prev := RaysUpTo(b, ally, king, n - 1);
      var sc := RaysUpTo(b, ally, king, n);
      assert forall c :: c in prev.checks ==> c in sc.checks;
      assert forall p :: p in prev.pins ==> p in sc.pins;
    }
  }

  /** Every opponent knight on knight squares 0, ..., n - 1 is collected as
      a one-square check. */
  lemma {:induction false} KnightChecksCollect(b: array2<Piece>, ally: Color, king: Square, n: int)
    requires IsGrid(b) && 0 <= n <= 8
    ensures forall q :: (0 <= q < n && OnBoard(KnightTarget(king, q))
                         && At(b, KnightTarget(king, q)) == Occupied(Opponent(ally), Knight)) ==>
              [KnightTarget(king, q)] in KnightChecks(b, ally, king, n).checks
  {
    if n > 0 {
      KnightChecksCollect(b, ally, king, n - 1);
      var prev := KnightChecks(b, ally, king, n - 1);
      var sc := KnightChecks(b, ally, king, n);
      assert forall c :: c in prev.checks ==> c in sc.checks;
    }
  }

  /** check_for_pins_and_checks misses nothing: every clear line from the
      king to an attacker is among the checks, every opponent knight a
      knight's move away is a one-square check, and every lone own piece
      between the king and an attacker is among the pins. */
  lemma ScannerComplete(b: array2<Piece>, ally: Color, king: Square)
    requires IsGrid(b) && OnBoard(king)
    ensures forall q, path :: 0 <= q < 8 && CheckLine(b, ally, king, KingDirs[q], path) ==>
              path in Scanner(b, ally, king).checks
    ensures forall q :: (0 <= q < 8 && OnBoard(KnightTarget(king, q))
                         && At(b, KnightTarget(king, q)) == Occupied(Opponent(ally), Knight)) ==>
              [KnightTarget(king, q)] in Scanner(b, ally, king).checks
    ensures forall q, sq :: 0 <= q < 8 && PinLine(b, ally, king, KingDirs[q], sq) ==>
              (sq, KingDirs[q]) in Scanner(b, ally, king).pins
  {
    var sc := Scanner(b, ally, king);
    var rays := RaysUpTo(b, ally, king, 8);
    RaysUpToCollects(b, ally, king, 8);
    KnightChecksCollect(b, ally, king, 8);
    forall q, path | 0 <= q < 8 && CheckLine(b, ally, king, KingDirs[q], path)
      ensures path in sc.checks
    {
      ClearLineIsCheck(b, ally, king, q, |path|);
      assert path in rays.checks;
      var i :| 0 <= i < |rays.checks| && rays.checks[i] == path;
      assert sc.checks[..|rays.checks|][i] == path;
    }
    forall q, sq | 0 <= q < 8 && PinLine(b, ally, king, KingDirs[q], sq)
      ensures (sq, KingDirs[q]) in sc.pins
    {
      PinLineIsPin(b, ally, king, q, sq);
    }
  }

  /** in_check holds exactly when the king is attacked: along a clear line
      by a piece that can attack along it from that distance, or by an
      opponent knight a knight's move away. */
  lemma InCheckIffAttacked(b: array2<Piece>, ally: Color, king: Square)
    requires IsGrid(b) && OnBoard(king)
    ensures Scanner(b, ally, king).inCheck <==>
              (exists q, path :: 0 <= q < 8 && CheckLine(b, ally, king, KingDirs[q], path))
              || (exists q :: 0 <= q < 8 && OnBoard(KnightTarget(king, q))
                    && At(b, KnightTarget(king, q)) == Occupied(Opponent(ally), Knight))
  {
    ScannerSound(b, ally, king);
    ScannerComplete(b, ally, king);
    var sc := Scanner(b, ally, king);
    if sc.inCheck {
      var c := sc.checks[0];
      assert c in sc.checks;
      if exists q :: 0 <= q < 8 && CheckLine(b, ally, king, KingDirs[q], c) {
        var q :| 0 <= q < 8 && CheckLine(b, ally, king, KingDirs[q], c);
      } else {
        var q :| 0 <= q < 8 && c == [KnightTarget(king, q)]
                 && OnBoard(KnightTarget(king, q)) && At(b, KnightTarget(king, q)) == Occupied(Opponent(ally), Knight);
      }
    }
    if exists q, path :: 0 <= q < 8 && CheckLine(b, ally, king, KingDirs[q], path) {
      var q, path :| 0 <= q < 8 && CheckLine(b, ally, king, KingDirs[q], path);
      assert path in sc.checks;
    }
    if exists q :: 0 <= q < 8 && OnBoard(KnightTarget(king, q))
                   && At(b, KnightTarget(king, q)) == Occupied(Opponent(ally), Knight) {
      var q :| 0 <= q < 8 && OnBoard(KnightTarget(king, q))
               && At(b, KnightTarget(king, q)) == Occupied(Opponent(ally), Knight);
      assert [KnightTarget(king, q)] in sc.checks;
    }
  }
}
