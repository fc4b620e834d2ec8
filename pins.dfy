/** clean_pinned_moves: the filter applied to every piece generator's
    (move, direction) pairs, which keeps a pinned piece on its pin axis. */
module PinFilter {
  import opened Pieces
  import opened Moves

  /** A pin entry (row, col, dr, dc): the pinned square and the direction
      from the king towards it. */
  type Pin = (Square, Dir)

  /** A generator's output: each move with its direction tag. */
  type Tagged = seq<(Move, Dir)>

  /** `a` is `b` with some elements dropped, order kept. */
  predicate IsSubsequence<T(==)>(a: seq<T>, b: seq<T>)
    decreases |b|
  {
    if b == [] then a == []
    else IsSubsequence(a, b[1..]) || (a != [] && a[0] == b[0] && IsSubsequence(a[1..], b[1..]))
  }

  lemma {:induction false} SubsequenceMembers<T>(a: seq<T>, b: seq<T>)
    requires IsSubsequence(a, b)
    ensures forall x :: x in a ==> x in b
    decreases |b|
  {
    if b != [] {
      if IsSubsequence(a, b[1..]) {
        SubsequenceMembers(a, b[1..]);
      } else {
        SubsequenceMembers(a[1..], b[1..]);
        assert a == [a[0]] + a[1..];
      }
    }
  }

  lemma {:induction false} SubsequenceReflexive<T>(a: seq<T>)
    ensures IsSubsequence(a, a)
    decreases |a|
  {
    if a != [] {
      SubsequenceReflexive(a[1..]);
    }
  }

  /** The direction the pin table maps s to. The table is a dictionary built
      from the pin list, so a later entry for the same square wins. */
  function PinDirection(pins: seq<Pin>, s: Square): (d: Option<Dir>)
    ensures d.None? <==> forall k :: 0 <= k < |pins| ==> pins[k].0 != s
    ensures d.Some? ==> exists k :: 0 <= k < |pins| && pins[k] == (s, d.value)
                          && forall k' :: k < k' < |pins| ==> pins[k'].0 != s
  {
    if pins == [] then None
    else if pins[|pins| - 1].0 == s then Some(pins[|pins| - 1].1)
    else
      var d := PinDirection(pins[..|pins| - 1], s);
      assert forall k :: 0 <= k < |pins| - 1 ==> pins[..|pins| - 1][k] == pins[k];
      d
  }

  /** A move tagged `tag` stays on the axis of pin direction d: the same
      direction or its exact opposite. */
  predicate OnAxis(tag: Dir, d: Dir) {
    tag == d || tag == (-d.0, -d.1)
  }

  /** The moves of a tagged list, tags dropped. */
  function Firsts(tagged: Tagged): (ms: seq<Move>)
    ensures |ms| == |tagged|
    ensures forall k :: 0 <= k < |tagged| ==> ms[k] == tagged[k].0
  {
    if tagged == [] then [] else [tagged[0].0] + Firsts(tagged[1..])
  }

  /** How many entries carry a tag on the axis of d. */
  function CountOnAxis(tagged: Tagged, d: Dir): nat {
    if tagged == [] then 0
    else (if OnAxis(tagged[0].1, d) then 1 else 0) + CountOnAxis(tagged[1..], d)
  }

  /** The moves whose tag lies on the axis of d, in generation order. */
  function KeepOnAxis(tagged: Tagged, d: Dir): (ms: seq<Move>)
    ensures IsSubsequence(ms, Firsts(tagged))
    ensures |ms| == CountOnAxis(tagged, d)
    ensures forall m :: m in ms <==> exists k :: 0 <= k < |tagged| && tagged[k].0 == m && OnAxis(tagged[k].1, d)
  {
    if tagged == [] then []
    else
      var rest := KeepOnAxis(tagged[1..], d);
      assert Firsts(tagged) == [tagged[0].0] + Firsts(tagged[1..]);
      assert forall k :: 1 <= k < |tagged| ==> tagged[1..][k - 1] == tagged[k];
      if OnAxis(tagged[0].1, d) then [tagged[0].0] + rest else rest
  }

  /** The decorated generator: an unpinned piece keeps every move; a piece
      pinned along d keeps exactly the moves tagged d or -d. The lookup is
      keyed by each move's start square, which for every generator is the
      square the piece stands on. */
  function CleanPinned(pins: seq<Pin>, s: Square, tagged: Tagged): (ms: seq<Move>)
    requires forall k :: 0 <= k < |tagged| ==> tagged[k].0.Start() == s
    ensures IsSubsequence(ms, Firsts(tagged))
    ensures forall m :: m in ms ==> m.Start() == s
    ensures PinDirection(pins, s).None? ==> ms == Firsts(tagged)
    ensures PinDirection(pins, s).Some? ==>
              |ms| == CountOnAxis(tagged, PinDirection(pins, s).value)
              && forall m :: m in ms <==>
                   exists k :: 0 <= k < |tagged| && tagged[k].0 == m && OnAxis(tagged[k].1, PinDirection(pins, s).value)
  {
    SubsequenceReflexive(Firsts(tagged));
    var pin := PinDirection(pins, s);
    var ms := if pin.None? then Firsts(tagged) else KeepOnAxis(tagged, pin.value);
    SubsequenceMembers(ms, Firsts(tagged));
    ms
  }
}
