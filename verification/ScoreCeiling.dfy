/**
 The score ceilings of `blockparty/budget.go`, against the exact maximum over
 all schedules of spawns and merges that `MergeCeiling` defines.

 The random generator of the game engine is not part of this model: it is a
 parameter, an arbitrary function from a state to a draw and the next state.
 */
module ScoreCeiling {
  import opened MergeCeiling

  // ----- mergeScoreCeiling

  function Get(counts: map<nat, nat>, value: nat): nat {
    if value in counts then counts[value] else 0
  }

  /** What merging level by level scores within the levels of `c`, with `p` tiles carried in. */
  function Greedy(c: Bag, p: nat, v: nat): nat {
    if c == [] then 0
    else (c[0] + p) / 2 * (2 * v) + Greedy(c[1..], (c[0] + p) / 2, 2 * v)
  }

  /** The tiles carried out of the last level of `c`. */
  function Out(c: Bag, p: nat): nat {
    if c == [] then p else Out(c[1..], (c[0] + p) / 2)
  }

  /** The counts of the tiles of value `value`, `2 * value` and so on up to 256. */
  function Levels(counts: map<nat, nat>, value: nat): Bag
    requires value > 0
    decreases 512 - value, counts
  {
    if value > 256 then [] else [Get(counts, value)] + Levels(counts, 2 * value)
  }

  lemma {:induction false} LevelsAbove(counts: map<nat, nat>, low: nat, n: nat, value: nat)
    requires low < value
    ensures Levels(counts[low := n], value) == Levels(counts, value)
    decreases 512 - value
  {
    if value <= 256 { LevelsAbove(counts, low, n, 2 * value); }
  }

  /** Storing the carried pairs in the next count is the same as carrying them. */
  lemma CarryStored(tiles: map<nat, nat>, value: nat, p: nat)
    requires value > 0
    ensures Greedy(Levels(tiles[value := Get(tiles, value) + p], value), 0, value) ==
      Greedy(Levels(tiles, value), p, value)
  {
    LevelsAbove(tiles, value, Get(tiles, value) + p, 2 * value);
  }

  /** One round of the loop: what it scores, and what it leaves to the next value. */
  lemma Round(tiles: map<nat, nat>, value: nat, pairs: nat, merged: nat)
    requires 0 < value <= 256 && pairs == Get(tiles, value) / 2 && merged == value * 2
    ensures Greedy(Levels(tiles, value), 0, value)
         == pairs * merged + Greedy(Levels(tiles[merged := Get(tiles, merged) + pairs], merged), 0, merged)
    ensures pairs == 0 ==> Levels(tiles[merged := Get(tiles, merged) + pairs], merged) == Levels(tiles, merged)
  {
    CarryStored(tiles, merged, pairs);
    LevelsAbove(tiles, merged, Get(tiles, merged) + pairs, 2 * merged);
  }

  method MergeScoreCeiling(counts: map<nat, nat>) returns (score: nat)
    ensures score == Greedy(Levels(counts, 2), 0, 2)
  {
    score := 0;
    var tiles: map<nat, nat> := counts;
    var value: nat := 2;
    while value <= 256
      invariant value > 0
      invariant Greedy(Levels(counts, 2), 0, 2) == score + Greedy(Levels(tiles, value), 0, value)
      decreases 512 - value
    {
      var pairs := Get(tiles, value) / 2;
      var merged: nat := value * 2;
      Round(tiles, value, pairs, merged);
      if pairs != 0 {
        score := score + pairs * merged;
        tiles := tiles[merged := Get(tiles, merged) + pairs];
      }
      value := merged;
    }
  }

  /** Within its levels the loop scores what the unbounded merging scores, less what it carries out. */
  lemma {:induction false} GreedyThenRest(c: Bag, p: nat, v: nat)
    ensures Best(Carry(c, p), v) == Greedy(c, p, v) + Best([Out(c, p)], Value(v, |c|))
    decreases |c|
  {
    if c == [] {
      assert Best([0], v) == 0;
    } else {
      assert Carry(c, p)[1..] == c[1..] && Carry(c, p)[0] == c[0] + p;
      GreedyThenRest(c[1..], (c[0] + p) / 2, 2 * v);
    }
  }

  /** Bags with the same counts have the same best total, whatever empty levels they end in. */
  lemma {:induction false} SameCounts(a: Bag, b: Bag, v: nat)
    requires forall k: nat :: At(a, k) == At(b, k)
    ensures Best(a, v) == Best(b, v)
    decreases Size(a) + |a|
  {
    if a == [] || b == [] {
      assert forall k: nat :: At(a, k) == 0;
      BestOfPairless(a, v);
      BestOfPairless(b, v);
    } else {
      assert a[0] == At(a, 0) && b[0] == At(b, 0);
      assert forall k: nat :: At(a[1..], k) == At(a, k + 1);
      assert forall k: nat :: At(b[1..], k) == At(b, k + 1);
      CarryAt(a[1..], a[0] / 2);
      CarryAt(b[1..], b[0] / 2);
      SameCounts(Carry(a[1..], a[0] / 2), Carry(b[1..], b[0] / 2), 2 * v);
    }
  }

  lemma {:induction false} AddAllSame(a: Bag, b: Bag, leaves: seq<nat>)
    requires forall k: nat :: At(a, k) == At(b, k)
    ensures forall k: nat :: At(AddAll(a, leaves), k) == At(AddAll(b, leaves), k)
    decreases leaves
  {
    if leaves != [] {
      AddAt(a, leaves[0]);
      AddAt(b, leaves[0]);
      AddAllSame(Add(a, leaves[0]), Add(b, leaves[0]), leaves[1..]);
    }
  }

  lemma {:induction false} AddAllLength(c: Bag, leaves: seq<nat>)
    requires forall i | 0 <= i < |leaves| :: leaves[i] < |c|
    ensures |AddAll(c, leaves)| == |c|
    decreases leaves
  {
    if leaves != [] { AddAllLength(Add(c, leaves[0]), leaves[1..]); }
  }

  // ----- when the ceiling is the exact maximum

  function Power2(n: nat): (r: nat)
    ensures r > 0
  {
    if n == 0 then 1 else 2 * Power2(n - 1)
  }

  /** The total value of a bag, in units of its base value. */
  function Total(c: Bag): nat {
    if c == [] then 0 else c[0] + 2 * Total(c[1..])
  }

  /** The total value of the leaves, in units of the base value. */
  function Worth(leaves: seq<nat>): nat {
    if leaves == [] then 0 else Power2(leaves[0]) + Worth(leaves[1..])
  }

  lemma Double(p: nat, t: nat)
    ensures 2 * p * t == 2 * (p * t)
  {
  }

  /** Merging keeps the total value: at most one tile per level is left behind. */
  lemma {:induction false} OutTotal(c: Bag, p: nat)
    ensures Power2(|c|) * Out(c, p) <= Total(c) + p < Power2(|c|) * (Out(c, p) + 1)
  {
    if c != [] {
      var q := (c[0] + p) / 2;
      OutTotal(c[1..], q);
      Double(Power2(|c| - 1), Out(c, p));
      Double(Power2(|c| - 1), Out(c, p) + 1);
      assert Total(c) + p - 1 <= 2 * (Total(c[1..]) + q) <= Total(c) + p;
    }
  }

  lemma {:induction false} AddTotal(c: Bag, i: nat)
    requires i < |c|
    ensures Total(Add(c, i)) == Total(c) + Power2(i)
    decreases i
  {
    if i > 0 {
      assert Add(c, i)[1..] == Add(c[1..], i - 1);
      AddTotal(c[1..], i - 1);
    } else {
      assert Add(c, 0)[1..] == c[1..];
    }
  }

  lemma {:induction false} AddAllTotal(c: Bag, leaves: seq<nat>)
    requires forall i | 0 <= i < |leaves| :: leaves[i] < |c|
    ensures Total(AddAll(c, leaves)) == Total(c) + Worth(leaves)
    decreases leaves
  {
    if leaves != [] {
      AddTotal(c, leaves[0]);
      AddAllTotal(Add(c, leaves[0]), leaves[1..]);
    }
  }

  /** An empty board of `n` levels. */
  function Empty(n: nat): (c: Bag)
    ensures |c| == n && Total(c) == 0
    ensures forall k: nat :: At(c, k) == 0
  {
    if n == 0 then []
    else
      var rest := Empty(n - 1);
      assert forall k: nat :: At([0] + rest, k) == if k == 0 then 0 else At(rest, k - 1);
      [0] + rest
  }

  /** What the loop computes for a list of leaves counted over `n` levels. */
  function Ceiling(leaves: seq<nat>, n: nat): nat {
    Greedy(AddAll(Empty(n), leaves), 0, 2)
  }

  /** A single level can still score exactly when it holds a pair. */
  lemma OneLevel(m: nat, v: nat)
    requires v > 0
    ensures Best([m], v) == 0 <==> m <= 1
  {
    PairlessIffDone([m], v);
    assert At([m], 0) == m;
  }

  lemma Quotient(power: nat, out: nat, total: nat)
    requires power * out <= total < power * (out + 1)
    ensures out <= 1 <==> total < 2 * power
  {
    if out >= 2 {
      assert power * out >= power * 2;
    } else {
      assert power * (out + 1) <= power * 2;
    }
  }

  /** Cutting the merging off after the levels of `c` loses nothing exactly when `c` is worth less than `2^(|c|+1)`. */
  lemma CutBag(c: Bag, v: nat)
    requires v > 0
    ensures Greedy(c, 0, v) <= Best(c, v)
    ensures Greedy(c, 0, v) == Best(c, v) <==> Total(c) < 2 * Power2(|c|)
  {
    GreedyThenRest(c, 0, v);
    OutTotal(c, 0);
    Quotient(Power2(|c|), Out(c, 0), Total(c));
    ValuePositive(v, |c|);
    OneLevel(Out(c, 0), Value(v, |c|));
  }

  /** Counting the leaves over `n` levels changes neither their number, nor their worth, nor their best total. */
  lemma Counted(leaves: seq<nat>, n: nat)
    requires forall i | 0 <= i < |leaves| :: leaves[i] < n
    ensures |AddAll(Empty(n), leaves)| == n
    ensures Total(AddAll(Empty(n), leaves)) == Worth(leaves)
    ensures Best(AddAll(Empty(n), leaves), 2) == BestOf(leaves, 2)
  {
    AddAllSame(Empty(n), [], leaves);
    SameCounts(AddAll(Empty(n), leaves), AddAll([], leaves), 2);
    AddAllLength(Empty(n), leaves);
    AddAllTotal(Empty(n), leaves);
  }

  const LEVELS: nat := 8

  /**
   For leaves of values 2 to 256, `mergeScoreCeiling` is the maximum over all schedules
   exactly when the leaves' values sum to less than 1024.
   */
  lemma CeilingIsMaximum(leaves: seq<nat>)
    requires forall i | 0 <= i < |leaves| :: leaves[i] < LEVELS
    ensures Ceiling(leaves, LEVELS) <= BestOf(leaves, 2)
    ensures Ceiling(leaves, LEVELS) == BestOf(leaves, 2) <==> 2 * Worth(leaves) < 1024
  {
    Counted(leaves, LEVELS);
    CutBag(AddAll(Empty(LEVELS), leaves), 2);
    assert Power2(4) == 16;
  }

  // ----- TheoreticalScoreCeiling

  datatype Modifier = Standard | Rush | Doubles

  function MoveBudget(modifier: Modifier): nat {
    if modifier == Rush then 24 else 30
  }

  function SpawnMax(modifier: Modifier): nat {
    if modifier == Doubles then 8 else 4
  }

  /** The leaves of a run: the opening pair, and one spawn for each move of the budget. */
  function TileCount(modifier: Modifier): nat {
    MoveBudget(modifier) + 2
  }

  /** The sum of `floor(n / g) * g * m` over the powers of two from `g` to `n`. */
  function GroupSum(n: nat, g: nat, m: nat): nat
    requires g > 0
    decreases n - g
  {
    if g > n then 0 else GroupPoints(n, g, m) + GroupSum(n, 2 * g, m)
  }

  function GroupPoints(n: nat, g: nat, m: nat): nat
    requires g > 0
  {
    n / g * g * m
  }

  lemma Halved(n: nat, g: nat)
    requires g > 0
    ensures n / g / 2 == n / (2 * g)
  {
    var q := n / g;
    var r := n - g * q;
    var e := q % 2;
    assert g * q == 2 * g * (q / 2) + g * e;
    assert 0 <= g * e <= g;
    DivisionUnique(n, 2 * g, q / 2, g * e + r);
  }

  lemma FarMultiple(k: int, d: int)
    requires d > 0
    ensures k == 0 || k * d >= d || k * d <= -d
  {
  }

  lemma DivisionUnique(n: nat, d: nat, q: nat, r: nat)
    requires n == d * q + r && r < d
    ensures n / d == q
  {
    var k := n / d - q;
    assert k * d == r - n % d by {
      assert n == d * (n / d) + n % d;
      assert k * d == d * (n / d) - d * q;
    }
    FarMultiple(k, d);
  }

  lemma BestStep(m: nat, w: nat)
    ensures Best([m], w) == m / 2 * (2 * w) + Best([m / 2], 2 * w)
  {
    assert [m][1..] == [] && Best([0], 2 * w) == 0;
  }

  lemma Regroup(q: nat, g: nat, m: nat)
    ensures q * (2 * g) * m == q * (2 * (g * m)) && 2 * g * m == 2 * (g * m)
  {
  }

  /** The sum over group sizes is the exact maximum for tiles that all have the value `m`. */
  lemma {:induction false} GroupSumIsBest(n: nat, g: nat, m: nat)
    requires g > 0
    ensures GroupSum(n, 2 * g, m) == Best([n / g], g * m)
    decreases n - g
  {
    var q := n / (2 * g);
    Halved(n, g);
    BestStep(n / g, g * m);
    if 2 * g > n {
      DivisionUnique(n, 2 * g, 0, n);
      assert Best([0], 2 * (g * m)) == 0;
    } else {
      GroupSumIsBest(n, 2 * g, m);
      Regroup(q, g, m);
    }
  }

  method TheoreticalScoreCeiling(modifier: Modifier) returns (ceiling: nat)
    ensures ceiling == GroupSum(TileCount(modifier), 2, SpawnMax(modifier))
  {
    var spawnMax := 4;
    if modifier == Doubles { spawnMax := 8; }
    var tileCount := MoveBudget(modifier) + 2;
    ceiling := 0;
    var groupSize: nat := 2;
    ghost var total := GroupSum(tileCount, 2, spawnMax);
    while groupSize <= tileCount
      invariant groupSize > 0
      invariant total == ceiling + GroupSum(tileCount, groupSize, spawnMax)
      decreases tileCount - groupSize
    {
      ceiling := ceiling + tileCount / groupSize * groupSize * spawnMax;
      groupSize := 2 * groupSize;
    }
  }

  lemma {:induction false} MoreTilesScoreMore(m: nat, n: nat, w: nat)
    requires m <= n
    ensures Best([m], w) <= Best([n], w)
    decreases n
  {
    if n < 2 {
      assert m / 2 == 0 && n / 2 == 0;
      BestStep(m, w);
      BestStep(n, w);
    } else {
      BestStep(m, w);
      BestStep(n, w);
      MoreTilesScoreMore(m / 2, n / 2, 2 * w);
      Times(m / 2, n / 2, 2 * w);
    }
  }

  lemma Times(a: nat, b: nat, w: nat)
    requires a <= b
    ensures a * w <= b * w
  {
  }

  /** `a` tiles of value `v` and `b` of value `2 * v`: the smaller ones pair up first. */
  lemma BestTwo(a: nat, b: nat, v: nat)
    ensures Best([a, b], v) == a / 2 * (2 * v) + Best([b + a / 2], 2 * v)
  {
    assert [a, b][1..] == [b];
  }

  /** With `n` even, the first round of `n` large tiles makes up for both rounds of the mix. */
  lemma FirstRounds(a: nat, b: nat, w: nat)
    requires (a + b) % 2 == 0
    ensures a / 2 * w + (b + a / 2) / 2 * (2 * w) <= (a + b) / 2 * (2 * w)
  {
    var x, y, z := a / 2, (b + a / 2) / 2, (a + b) / 2;
    Times(x + 2 * y, 2 * z, w);
    assert (x + 2 * y) * w == x * w + y * (2 * w);
    assert 2 * z * w == z * (2 * w);
  }

  /** An even number of tiles of values `v` and `2 * v` scores no more than as many of value `2 * v`. */
  lemma EvenMixBound(a: nat, b: nat, v: nat)
    requires (a + b) % 2 == 0
    ensures Best([a, b], v) <= Best([a + b], 2 * v)
  {
    var w := 2 * v;
    BestTwo(a, b, v);
    BestStep(b + a / 2, w);
    BestStep(a + b, w);
    MoreTilesScoreMore((b + a / 2) / 2, (a + b) / 2, 2 * w);
    FirstRounds(a, b, w);
  }

  /** With an odd number of tiles, three or more, the bound fails: two small tiles make one more large one. */
  lemma OddMixExceeds(n: nat, v: nat)
    requires n % 2 == 1 && n >= 3 && v > 0
    ensures Best([2, n - 2], v) > Best([n], 2 * v)
  {
    BestTwo(2, n - 2, v);
    BestStep(n, 2 * v);
    BestStep(n - 1, 2 * v);
    assert n / 2 == (n - 1) / 2;
  }

  // ----- the bound, on leaves

  function Count(leaves: seq<nat>, level: nat): nat {
    if leaves == [] then 0 else (if leaves[0] == level then 1 else 0) + Count(leaves[1..], level)
  }

  lemma {:induction false} AddAllCounts(c: Bag, leaves: seq<nat>, k: nat)
    ensures At(AddAll(c, leaves), k) == At(c, k) + Count(leaves, k)
    decreases leaves
  {
    if leaves != [] { AddAllCounts(Add(c, leaves[0]), leaves[1..], k); }
  }

  /** A bag of `a` tiles at level `l` and `b` at the next. */
  function Spread(l: nat, a: nat, b: nat): (c: Bag)
    ensures forall k: nat :: At(c, k) == if k == l then a else if k == l + 1 then b else 0
  {
    if l == 0 then [a, b]
    else
      var rest := Spread(l - 1, a, b);
      assert forall k: nat :: At([0] + rest, k) == if k == 0 then 0 else At(rest, k - 1);
      [0] + rest
  }

  lemma {:induction false} BestOfSpread(l: nat, a: nat, b: nat, v: nat)
    ensures Best(Spread(l, a, b), v) == Best([a, b], Value(v, l))
    decreases l
  {
    if l > 0 { BestOfSpread(l - 1, a, b, 2 * v); }
  }

  predicate TwoLevels(leaves: seq<nat>, l: nat) {
    forall i | 0 <= i < |leaves| :: leaves[i] == l || leaves[i] == l + 1
  }

  lemma {:induction false} TwoLevelCounts(leaves: seq<nat>, l: nat)
    requires TwoLevels(leaves, l)
    ensures Count(leaves, l) + Count(leaves, l + 1) == |leaves|
    ensures forall k: nat :: k != l && k != l + 1 ==> Count(leaves, k) == 0
  {
    if leaves != [] { TwoLevelCounts(leaves[1..], l); }
  }

  lemma BestOfTwoLevels(leaves: seq<nat>, l: nat, v: nat)
    requires TwoLevels(leaves, l)
    ensures BestOf(leaves, v) == Best([Count(leaves, l), Count(leaves, l + 1)], Value(v, l))
  {
    TwoLevelCounts(leaves, l);
    forall k: nat ensures At(AddAll([], leaves), k) == Count(leaves, k) {
      AddAllCounts([], leaves, k);
    }
    var a, b := Count(leaves, l), Count(leaves, l + 1);
    SameCounts(AddAll([], leaves), Spread(l, a, b), v);
    BestOfSpread(l, a, b, v);
  }

  lemma MixBound(a: nat, b: nat, v: nat)
    requires (a + b) % 2 == 0 || a + b == 1
    ensures Best([a, b], v) <= GroupSum(a + b, 2, 2 * v)
  {
    GroupSumIsBest(a + b, 1, 2 * v);
    if a + b == 1 {
      BestTwo(a, b, v);
      MoreTilesScoreMore(b, 1, 2 * v);
    } else {
      EvenMixBound(a, b, v);
    }
  }

  /** Leaves of two neighbouring values score no more than the group sum if their number is even or 1. */
  lemma GroupSumBound(leaves: seq<nat>, l: nat, v: nat)
    requires TwoLevels(leaves, l) && (|leaves| % 2 == 0 || |leaves| == 1)
    ensures BestOf(leaves, v) <= GroupSum(|leaves|, 2, 2 * Value(v, l))
  {
    BestOfTwoLevels(leaves, l, v);
    TwoLevelCounts(leaves, l);
    MixBound(Count(leaves, l), Count(leaves, l + 1), Value(v, l));
  }

  lemma MixExceeds(n: nat, v: nat)
    requires n % 2 == 1 && n >= 3 && v > 0
    ensures Best([2, n - 2], v) > GroupSum(n, 2, 2 * v)
  {
    OddMixExceeds(n, v);
    GroupSumIsBest(n, 1, 2 * v);
  }

  /** Two leaves of level `l` and `n` of the next. */
  function TwoSmall(l: nat, n: nat): (leaves: seq<nat>)
    ensures |leaves| == n + 2 && TwoLevels(leaves, l) && Count(leaves, l) == 2
  {
    if n == 0 then
      assert [l, l][1..] == [l];
      assert Count([l], l) == 1 + Count([], l);
      [l, l]
    else
      [l + 1] + TwoSmall(l, n - 1)
  }

  /** For every other number, two small leaves and otherwise large ones score more. */
  lemma GroupSumExceeded(n: nat, l: nat, v: nat)
    requires n % 2 == 1 && n >= 3 && v > 0
    ensures BestOf(TwoSmall(l, n - 2), v) > GroupSum(n, 2, 2 * Value(v, l))
  {
    BestOfTwoLevels(TwoSmall(l, n - 2), l, v);
    TwoLevelCounts(TwoSmall(l, n - 2), l);
    ValuePositive(v, l);
    MixExceeds(n, Value(v, l));
  }

  // ----- SeedScoreCeiling

  type Word = w: nat | w < 0x1_0000_0000

  function SpawnedLevel(draw: nat, modifier: Modifier): nat {
    (if draw % 10 == 0 then 1 else 0) + (if modifier == Doubles then 1 else 0)
  }

  function SpawnedValue(draw: nat, modifier: Modifier): nat {
    if modifier == Doubles then if draw % 10 == 0 then 8 else 4
    else if draw % 10 == 0 then 4 else 2
  }

  /** The spawned values, as levels, of the next `n` spawns: a position draw, then a value draw. */
  function Spawns(next: Word -> (Word, Word), rng: Word, modifier: Modifier, n: nat): (leaves: seq<nat>)
    ensures |leaves| == n && TwoLevels(leaves, if modifier == Doubles then 1 else 0)
    decreases n, rng
  {
    if n == 0 then []
    else
      var value := next(next(rng).1);
      [SpawnedLevel(value.0, modifier)] + Spawns(next, value.1, modifier, n - 1)
  }

  lemma {:induction false} CountLeaf(counts: map<nat, nat>, low: nat, l: nat)
    requires low > 0 && Value(low, l) <= 256
    ensures l < |Levels(counts, low)|
    ensures Levels(counts[Value(low, l) := Get(counts, Value(low, l)) + 1], low) == Add(Levels(counts, low), l)
    decreases l
  {
    ValueGrows(low, l);
    if l == 0 {
      LevelsAbove(counts, low, Get(counts, low) + 1, 2 * low);
    } else {
      CountLeaf(counts, 2 * low, l - 1);
    }
  }

  lemma {:induction false} ValueGrows(v: nat, l: nat)
    requires v > 0
    ensures Value(v, l) >= v && (l > 0 ==> Value(v, l) > v)
    decreases l
  {
    if l > 0 { ValueGrows(2 * v, l - 1); }
  }

  lemma SpawnLevel(draw: nat, modifier: Modifier)
    ensures Value(2, SpawnedLevel(draw, modifier)) == SpawnedValue(draw, modifier)
  {
  }

  lemma {:induction false} SmallWorth(leaves: seq<nat>)
    requires forall i | 0 <= i < |leaves| :: leaves[i] <= 2
    ensures Worth(leaves) <= 4 * |leaves|
  {
    if leaves != [] {
      assert Power2(2) == 4 && Power2(1) == 2 && Power2(0) == 1;
      SmallWorth(leaves[1..]);
    }
  }

  /** With nothing counted every level is empty. */
  lemma NothingCounted(value: nat)
    requires value > 0
    ensures forall k: nat :: At(Levels(map[], value), k) == 0
    decreases 512 - value
  {
    if value <= 256 {
      NothingCounted(2 * value);
      assert forall k: nat :: At(Levels(map[], value), k) == if k == 0 then 0 else At(Levels(map[], 2 * value), k - 1);
    }
  }

  /** Eight levels run from the value 2 to 256. */
  lemma EmptyCounts()
    ensures Levels(map[], 2) == Empty(LEVELS)
  {
    NothingCounted(2);
    assert |Levels(map[], 16)| == 5;
    SameBag(Levels(map[], 2), Empty(LEVELS));
  }

  /** The seed's ceiling is the exact maximum for the spawns it determines, and below the theoretical ceiling. */
  lemma SeedCeiling(leaves: seq<nat>, modifier: Modifier)
    requires |leaves| == TileCount(modifier) && TwoLevels(leaves, if modifier == Doubles then 1 else 0)
    ensures Ceiling(leaves, LEVELS) == BestOf(leaves, 2) <= GroupSum(TileCount(modifier), 2, SpawnMax(modifier))
  {
    SmallWorth(leaves);
    CeilingIsMaximum(leaves);
    GroupSumBound(leaves, if modifier == Doubles then 1 else 0, 2);
  }

  /** Counting one spawned value and going on with the rest is spawning it on the board. */
  lemma CountedSpawn(next: Word -> (Word, Word), rng: Word, modifier: Modifier, n: nat, counts: map<nat, nat>,
                     value: nat)
    requires n > 0
    requires value == SpawnedValue(next(next(rng).1).0, modifier)
    ensures AddAll(Levels(counts, 2), Spawns(next, rng, modifier, n))
         == AddAll(Levels(counts[value := Get(counts, value) + 1], 2),
                   Spawns(next, next(next(rng).1).1, modifier, n - 1))
  {
    var draw := next(next(rng).1).0;
    SpawnLevel(draw, modifier);
    CountLeaf(counts, 2, SpawnedLevel(draw, modifier));
  }

  /** A spawned value: 4 for one draw in ten, 2 for the others, twice that under the modifier. */
  method SpawnOf(draw: Word, modifier: Modifier) returns (value: nat)
    ensures value == SpawnedValue(draw, modifier)
  {
    value := 2;
    if draw % 10 == 0 { value := 4; }
    if modifier == Doubles { value := value * 2; }
  }

  /** The loop of `SeedScoreCeiling`: it counts exactly the spawned values. */
  method CountSpawns(next: Word -> (Word, Word), seed: Word, modifier: Modifier, n: nat) returns (counts: map<nat, nat>)
    ensures Levels(counts, 2) == AddAll(Levels(map[], 2), Spawns(next, seed, modifier, n))
  {
    var rng := seed;
    counts := map[];
    ghost var board := AddAll(Levels(map[], 2), Spawns(next, seed, modifier, n));
    for k := 0 to n
      invariant AddAll(Levels(counts, 2), Spawns(next, rng, modifier, n - k)) == board
    {
      var position := next(rng);
      var draw := next(position.1);
      var value := SpawnOf(draw.0, modifier);
      CountedSpawn(next, rng, modifier, n - k, counts, value);
      rng := draw.1;
      counts := counts[value := Get(counts, value) + 1];
    }
  }

  method SeedScoreCeiling(next: Word -> (Word, Word), seed: Word, modifier: Modifier) returns (score: nat)
    ensures score == BestOf(Spawns(next, seed, modifier, TileCount(modifier)), 2)
    ensures score <= GroupSum(TileCount(modifier), 2, SpawnMax(modifier))
  {
    var counts := CountSpawns(next, seed, modifier, TileCount(modifier));
    score := MergeScoreCeiling(counts);
    SeedScored(counts, Spawns(next, seed, modifier, TileCount(modifier)), modifier);
  }

  lemma SeedScored(counts: map<nat, nat>, leaves: seq<nat>, modifier: Modifier)
    requires |leaves| == TileCount(modifier) && TwoLevels(leaves, if modifier == Doubles then 1 else 0)
    requires Levels(counts, 2) == AddAll(Levels(map[], 2), leaves)
    ensures Greedy(Levels(counts, 2), 0, 2) == BestOf(leaves, 2) <= GroupSum(TileCount(modifier), 2, SpawnMax(modifier))
  {
    EmptyCounts();
    SeedCeiling(leaves, modifier);
  }
}
