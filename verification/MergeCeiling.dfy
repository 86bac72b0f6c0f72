/**
 Block Party's score ceilings. Tiles are powers of two; merging two equal tiles
 scores the merged value. A bag of tiles is a sequence of counts by level, level
 `i` holding the tiles of value `v * 2^i` for the bag's base value `v`.

 Board geometry only removes schedules, so it is left out.
 */
module MergeCeiling {
  import opened Wrappers

  type Bag = seq<nat>

  function Size(c: Bag): nat {
    if c == [] then 0 else c[0] + Size(c[1..])
  }

  function At(c: Bag, i: nat): nat {
    if i < |c| then c[i] else 0
  }

  /** The bag with one more tile at level `i`. */
  function Add(c: Bag, i: nat): (r: Bag)
    ensures |r| == if i < |c| then |c| else i + 1
  {
    if i < |c| then c[i := c[i] + 1] else c + seq(i - |c|, _ => 0) + [1]
  }

  lemma AddAt(c: Bag, i: nat)
    ensures forall k: nat :: At(Add(c, i), k) == At(c, k) + if k == i then 1 else 0
  {
  }

  /** Two tiles of level `i` become one of level `i + 1`. */
  function Merge(c: Bag, i: nat): (r: Bag)
    requires At(c, i) >= 2
    ensures |r| == if i + 1 < |c| then |c| else i + 2
  {
    Add(c[i := c[i] - 2], i + 1)
  }

  lemma MergeAt(c: Bag, i: nat)
    requires At(c, i) >= 2
    ensures forall k: nat ::
      At(Merge(c, i), k) == if k == i then At(c, k) - 2 else if k == i + 1 then At(c, k) + 1 else At(c, k)
  {
    AddAt(c[i := c[i] - 2], i + 1);
  }

  /** The value of a tile of level `i`. */
  function Value(v: nat, i: nat): nat
    decreases i
  {
    if i == 0 then v else Value(2 * v, i - 1)
  }

  /** `p` more tiles at level 0. */
  function Carry(c: Bag, p: nat): (r: Bag)
    ensures p == 0 ==> r == c
    ensures Size(r) == Size(c) + p
    ensures |r| == if c == [] && p > 0 then 1 else |c|
  {
    if p == 0 then c else if c == [] then [p] else [c[0] + p] + c[1..]
  }

  lemma CarryAt(c: Bag, p: nat)
    ensures forall k: nat :: At(Carry(c, p), k) == At(c, k) + if k == 0 then p else 0
  {
  }

  /** The score of merging level by level, from the least, as long as there is a pair. */
  function Best(c: Bag, v: nat): nat
    decreases Size(c) + |c|
  {
    if c == [] then 0
    else c[0] / 2 * (2 * v) + Best(Carry(c[1..], c[0] / 2), 2 * v)
  }

  lemma SameBag(a: Bag, b: Bag)
    requires |a| == |b| && forall k: nat :: At(a, k) == At(b, k)
    ensures a == b
  {
    forall k | 0 <= k < |a| ensures a[k] == b[k] {
      assert At(a, k) == At(b, k);
    }
  }

  lemma Tail(c: Bag)
    requires c != []
    ensures c[0] == At(c, 0) && forall k: nat :: At(c[1..], k) == At(c, k + 1)
  {
  }

  /** Merging the lowest pair first leaves the same bag to the levels above. */
  lemma LowestMerged(c: Bag)
    requires At(c, 0) >= 2
    ensures Merge(c, 0)[0] / 2 == c[0] / 2 - 1
    ensures Carry(Merge(c, 0)[1..], c[0] / 2 - 1) == Carry(c[1..], c[0] / 2)
  {
    Tail(c);
    Tail(Merge(c, 0));
    MergeAt(c, 0);
    CarryAt(Merge(c, 0)[1..], c[0] / 2 - 1);
    CarryAt(c[1..], c[0] / 2);
    SameBag(Carry(Merge(c, 0)[1..], c[0] / 2 - 1), Carry(c[1..], c[0] / 2));
  }

  /** Merging a higher pair first and merging it after the lowest level is the same. */
  lemma HigherMerged(c: Bag, i: nat)
    requires i > 0 && At(c, i) >= 2
    ensures Merge(c, i)[0] == c[0] && At(Carry(c[1..], c[0] / 2), i - 1) >= 2
    ensures Carry(Merge(c, i)[1..], c[0] / 2) == Merge(Carry(c[1..], c[0] / 2), i - 1)
  {
    var p := c[0] / 2;
    Tail(c);
    Tail(Merge(c, i));
    MergeAt(c, i);
    CarryAt(c[1..], p);
    CarryAt(Merge(c, i)[1..], p);
    MergeAt(Carry(c[1..], p), i - 1);
    SameBag(Carry(Merge(c, i)[1..], p), Merge(Carry(c[1..], p), i - 1));
  }

  lemma OneMore(p: nat, w: nat)
    requires p > 0
    ensures p * w == (p - 1) * w + w
  {
  }

  /** One level of the best total. */
  lemma BestRound(c: Bag, v: nat, p: nat, up: Bag)
    requires c != [] && p == c[0] / 2 && up == Carry(c[1..], p)
    ensures Best(c, v) == p * (2 * v) + Best(up, 2 * v)
  {
  }

  lemma LowestKeepsBest(c: Bag, v: nat)
    requires At(c, 0) >= 2
    ensures Best(c, v) == 2 * v + Best(Merge(c, 0), v)
  {
    var p := c[0] / 2;
    var up := Carry(c[1..], p);
    LowestMerged(c);
    BestRound(c, v, p, up);
    BestRound(Merge(c, 0), v, p - 1, up);
    OneMore(p, 2 * v);
  }

  /** A merge above the lowest level that scores `x` scores it after the lowest level too. */
  lemma HigherKeepsBest(c: Bag, d: Bag, v: nat, up: Bag, merged: Bag, x: nat)
    requires c != [] && d != [] && d[0] == c[0]
    requires up == Carry(c[1..], c[0] / 2) && merged == Carry(d[1..], c[0] / 2)
    requires Best(up, 2 * v) == x + Best(merged, 2 * v)
    ensures Best(c, v) == x + Best(d, v)
  {
    BestRound(c, v, c[0] / 2, up);
    BestRound(d, v, c[0] / 2, merged);
  }

  /** Whatever pair is merged first, what it scores is exactly what the best total loses. */
  lemma {:induction false} MergeKeepsBest(c: Bag, i: nat, v: nat)
    requires At(c, i) >= 2
    ensures Best(c, v) == Value(2 * v, i) + Best(Merge(c, i), v)
    decreases i
  {
    if i == 0 {
      LowestKeepsBest(c, v);
    } else {
      var up := Carry(c[1..], c[0] / 2);
      HigherMerged(c, i);
      MergeKeepsBest(up, i - 1, 2 * v);
      HigherKeepsBest(c, Merge(c, i), v, up, Merge(up, i - 1), Value(2 * (2 * v), i - 1));
    }
  }

  lemma BestOfPairless(c: Bag, v: nat)
    requires forall k: nat :: At(c, k) <= 1
    ensures Best(c, v) == 0
    decreases |c|
  {
    if c != [] {
      assert c[0] == At(c, 0) && forall k: nat :: At(c[1..], k) == At(c, k + 1);
      BestOfPairless(c[1..], 2 * v);
    }
  }

  lemma ValuePositive(v: nat, i: nat)
    requires v > 0
    ensures Value(v, i) > 0
    decreases i
  {
    if i > 0 { ValuePositive(2 * v, i - 1); }
  }

  /** Nothing more can be scored exactly when no pair is left. */
  lemma PairlessIffDone(c: Bag, v: nat)
    requires v > 0
    ensures Best(c, v) == 0 <==> forall k: nat :: At(c, k) <= 1
  {
    if i: nat :| At(c, i) >= 2 {
      MergeKeepsBest(c, i, v);
      ValuePositive(2 * v, i);
    } else {
      BestOfPairless(c, v);
    }
  }

  // ----- schedules: leaves spawn in order, and pairs merge at any time

  datatype Move = Spawn | Join(level: nat)

  /** A board, the leaves still to spawn, and the score so far. */
  datatype Play = Play(board: Bag, leaves: seq<nat>, score: nat)

  predicate Legal(p: Play, m: Move) {
    match m
    case Spawn => p.leaves != []
    case Join(i) => At(p.board, i) >= 2
  }

  function Step(p: Play, m: Move, v: nat): Play
    requires Legal(p, m)
  {
    match m
    case Spawn => Play(Add(p.board, p.leaves[0]), p.leaves[1..], p.score)
    case Join(i) => Play(Merge(p.board, i), p.leaves, p.score + Value(2 * v, i))
  }

  /** The play after the moves, unless one of them is illegal. */
  function After(p: Play, moves: seq<Move>, v: nat): Option<Play> {
    if moves == [] then Some(p)
    else
      var before := After(p, moves[..|moves| - 1], v);
      var m := moves[|moves| - 1];
      if before.Some? && Legal(before.value, m) then Some(Step(before.value, m, v)) else None
  }

  /** All leaves at once on the board. */
  function AddAll(c: Bag, leaves: seq<nat>): (r: Bag)
    ensures forall k: nat :: At(r, k) >= At(c, k)
    decreases leaves
  {
    if leaves == [] then c else AddAll(Add(c, leaves[0]), leaves[1..])
  }

  /** What the play scored and can still score. */
  function Potential(p: Play, v: nat): nat {
    p.score + Best(AddAll(p.board, p.leaves), v)
  }

  lemma {:induction false} AddAllMerge(c: Bag, leaves: seq<nat>, i: nat)
    requires At(c, i) >= 2
    ensures AddAll(Merge(c, i), leaves) == Merge(AddAll(c, leaves), i)
    decreases leaves
  {
    if leaves != [] {
      SameBag(Add(Merge(c, i), leaves[0]), Merge(Add(c, leaves[0]), i));
      AddAllMerge(Add(c, leaves[0]), leaves[1..], i);
    }
  }

  /** Every move keeps what was and can be scored. */
  lemma StepKeepsPotential(p: Play, m: Move, v: nat)
    requires Legal(p, m)
    ensures Potential(Step(p, m, v), v) == Potential(p, v)
  {
    if m.Join? {
      AddAllMerge(p.board, p.leaves, m.level);
      MergeKeepsBest(AddAll(p.board, p.leaves), m.level, v);
    }
  }

  lemma {:induction false} AfterKeepsPotential(p: Play, moves: seq<Move>, v: nat)
    requires After(p, moves, v).Some?
    ensures Potential(After(p, moves, v).value, v) == Potential(p, v)
  {
    if moves != [] {
      var before := moves[..|moves| - 1];
      AfterKeepsPotential(p, before, v);
      StepKeepsPotential(After(p, before, v).value, moves[|moves| - 1], v);
    }
  }

  function Start(leaves: seq<nat>): Play {
    Play([], leaves, 0)
  }

  /** The best total of a list of leaves. */
  function BestOf(leaves: seq<nat>, v: nat): nat {
    Best(AddAll([], leaves), v)
  }

  /** No schedule, of all the leaves or of a prefix, scores more than the best total. */
  lemma NoScheduleScoresMore(leaves: seq<nat>, moves: seq<Move>, v: nat)
    requires After(Start(leaves), moves, v).Some?
    ensures After(Start(leaves), moves, v).value.score <= BestOf(leaves, v)
  {
    AfterKeepsPotential(Start(leaves), moves, v);
  }

  predicate Finished(p: Play) {
    p.leaves == [] && forall k: nat | k < |p.board| :: At(p.board, k) <= 1
  }

  /** Merging is confluent: every schedule that cannot go on scores the same. */
  lemma FinishedSchedulesScoreTheSame(leaves: seq<nat>, moves: seq<Move>, v: nat)
    requires v > 0 && After(Start(leaves), moves, v).Some? && Finished(After(Start(leaves), moves, v).value)
    ensures After(Start(leaves), moves, v).value.score == BestOf(leaves, v)
  {
    var p := After(Start(leaves), moves, v).value;
    AfterKeepsPotential(Start(leaves), moves, v);
    assert forall k: nat :: At(p.board, k) <= 1;
    PairlessIffDone(p.board, v);
  }

  lemma AfterOne(p: Play, moves: seq<Move>, v: nat, m: Move)
    requires After(p, moves, v).Some? && Legal(After(p, moves, v).value, m)
    ensures After(p, moves + [m], v) == Some(Step(After(p, moves, v).value, m, v))
  {
    assert (moves + [m])[..|moves|] == moves;
  }

  /** Every schedule can be carried on until it is finished. */
  lemma Finish(leaves: seq<nat>, moves: seq<Move>, v: nat) returns (all: seq<Move>)
    requires After(Start(leaves), moves, v).Some?
    ensures moves <= all && After(Start(leaves), all, v).Some? && Finished(After(Start(leaves), all, v).value)
    decreases |After(Start(leaves), moves, v).value.leaves|, Size(After(Start(leaves), moves, v).value.board)
  {
    var p := After(Start(leaves), moves, v).value;
    if p.leaves != [] {
      AfterOne(Start(leaves), moves, v, Spawn);
      all := Finish(leaves, moves + [Spawn], v);
    } else if i: nat :| i < |p.board| && At(p.board, i) >= 2 {
      AfterOne(Start(leaves), moves, v, Join(i));
      MergeShrinks(p.board, i);
      all := Finish(leaves, moves + [Join(i)], v);
    } else {
      all := moves;
    }
  }

  lemma {:induction false} SizeUpdate(c: Bag, i: nat, n: nat)
    requires i < |c|
    ensures Size(c[i := n]) == Size(c) - c[i] + n
  {
    if i > 0 {
      assert c[i := n][1..] == c[1..][i - 1 := n];
      SizeUpdate(c[1..], i - 1, n);
    }
  }

  lemma {:induction false} SizeAppend(c: Bag, n: nat)
    ensures Size(c + [n]) == Size(c) + n
  {
    if c != [] {
      assert (c + [n])[1..] == c[1..] + [n];
      SizeAppend(c[1..], n);
    }
  }

  lemma {:induction false} MergeShrinks(c: Bag, i: nat)
    requires i < |c| && At(c, i) >= 2
    ensures Size(Merge(c, i)) == Size(c) - 1
  {
    var d := c[i := c[i] - 2];
    SizeUpdate(c, i, c[i] - 2);
    if i + 1 < |c| {
      SizeUpdate(d, i + 1, d[i + 1] + 1);
    } else {
      assert Merge(c, i) == d + [1];
      SizeAppend(d, 1);
    }
  }

  /** The best total is reached by some schedule of all the leaves. */
  lemma BestIsReached(leaves: seq<nat>, v: nat) returns (moves: seq<Move>)
    requires v > 0
    ensures After(Start(leaves), moves, v).Some? && Finished(After(Start(leaves), moves, v).value)
    ensures After(Start(leaves), moves, v).value.score == BestOf(leaves, v)
  {
    moves := Finish(leaves, [], v);
    FinishedSchedulesScoreTheSame(leaves, moves, v);
  }
}
