/**
 Daily streaks with weekly freezes. Dates are day numbers counted from Thursday,
 1 January 1970; an ISO 8601 week runs from Monday to Sunday.
 */
module Streak {
  import opened Wrappers

  /** The number of the ISO week of a day; two days have the same week key exactly when it is the same. */
  function Week(day: int): int {
    (day + 3) / 7
  }

  predicate SameWeek(a: int, b: int) {
    Week(a) == Week(b)
  }

  predicate Monday(day: int) {
    (day + 3) % 7 == 0
  }

  /** `b` is the Monday after the week of `a`, and `a` is not its own week's Monday. */
  predicate MondayAfter(a: int, b: int) {
    Monday(b) && !Monday(a) && Week(a) == Week(b) - 1
  }

  // ----- the reference: a streak read off the days played

  /** The `i`-th play bridges one missed day: no earlier play of its week did. */
  predicate Bridges(plays: seq<int>, i: nat)
    decreases i, 0
  {
    && 0 < i < |plays|
    && plays[i] - plays[i - 1] == 2
    && forall j: nat | j < i :: !UsesFreeze(plays, Week(plays[i]), j)
  }

  /** The `j`-th play uses the freeze of the week. */
  predicate UsesFreeze(plays: seq<int>, week: int, j: nat)
    decreases j, 1
  {
    j < |plays| && Week(plays[j]) == week && Bridges(plays, j)
  }

  /** The `i`-th play begins a streak. */
  predicate Begins(plays: seq<int>, i: nat)
    requires i < |plays|
  {
    i == 0 || (plays[i] - plays[i - 1] >= 2 && !Bridges(plays, i))
  }

  /** The play that began the streak of the `i`-th. */
  function Start(plays: seq<int>, i: nat): (s: nat)
    requires i < |plays|
    ensures s <= i && Begins(plays, s)
  {
    if Begins(plays, i) then i else Start(plays, i - 1)
  }

  /** The days played from the `s`-th play to the `i`-th. */
  function Days(plays: seq<int>, s: nat, i: nat): (d: nat)
    requires s <= i < |plays|
    ensures d >= 1
    decreases i
  {
    if i == s then 1 else Days(plays, s, i - 1) + if plays[i] == plays[i - 1] then 0 else 1
  }

  /** The days bridged after the `s`-th play up to the `i`-th. */
  function Bridged(plays: seq<int>, s: nat, i: nat): nat
    requires s <= i < |plays|
    decreases i
  {
    if i == s then 0 else Bridged(plays, s, i - 1) + if Bridges(plays, i) then 1 else 0
  }

  function Current(plays: seq<int>, i: nat): nat
    requires i < |plays|
  {
    Days(plays, Start(plays, i), i)
  }

  /** The longest streak so far. */
  function Longest(plays: seq<int>, i: nat): (r: nat)
    requires i < |plays|
    ensures r >= Current(plays, i)
    ensures i > 0 ==> r >= Longest(plays, i - 1)
  {
    if i == 0 then Current(plays, 0) else Max(Current(plays, i), Longest(plays, i - 1))
  }

  function Max(a: nat, b: nat): nat {
    if a > b then a else b
  }

  ghost predicate FreezeUsed(plays: seq<int>, week: int) {
    exists j: nat :: UsesFreeze(plays, week, j)
  }

  ghost predicate Ordered(plays: seq<int>) {
    forall i, j | 0 <= i <= j < |plays| :: plays[i] <= plays[j]
  }

  // ----- later plays change nothing about earlier ones

  lemma {:induction false} BridgesKept(plays: seq<int>, day: int, i: nat)
    requires i < |plays|
    ensures Bridges(plays + [day], i) == Bridges(plays, i)
    decreases i
  {
    var more := plays + [day];
    forall j: nat | j < i ensures UsesFreeze(more, Week(plays[i]), j) == UsesFreeze(plays, Week(plays[i]), j) {
      BridgesKept(plays, day, j);
    }
  }

  lemma {:induction false} StartKept(plays: seq<int>, day: int, i: nat)
    requires i < |plays|
    ensures Start(plays + [day], i) == Start(plays, i)
  {
    BridgesKept(plays, day, i);
    if i > 0 { StartKept(plays, day, i - 1); }
  }

  lemma {:induction false} DaysKept(plays: seq<int>, day: int, s: nat, i: nat)
    requires s <= i < |plays|
    ensures Days(plays + [day], s, i) == Days(plays, s, i)
    decreases i
  {
    if i > s { DaysKept(plays, day, s, i - 1); }
  }

  lemma CurrentKept(plays: seq<int>, day: int, i: nat)
    requires i < |plays|
    ensures Current(plays + [day], i) == Current(plays, i)
  {
    StartKept(plays, day, i);
    DaysKept(plays, day, Start(plays, i), i);
  }

  lemma {:induction false} LongestKept(plays: seq<int>, day: int, i: nat)
    requires i < |plays|
    ensures Longest(plays + [day], i) == Longest(plays, i)
    decreases i
  {
    var more := plays + [day];
    CurrentKept(plays, day, i);
    if i > 0 {
      LongestKept(plays, day, i - 1);
      assert Longest(more, i) == Max(Current(more, i), Longest(more, i - 1));
    }
  }

  /** The last play bridges exactly when it skips one day and the freeze of its week is left. */
  lemma BridgesLast(plays: seq<int>, day: int)
    requires plays != []
    ensures Bridges(plays + [day], |plays|) <==> day - plays[|plays| - 1] == 2 && !FreezeUsed(plays, Week(day))
  {
    var more := plays + [day];
    forall j: nat | j < |plays| ensures UsesFreeze(more, Week(day), j) == UsesFreeze(plays, Week(day), j) {
      BridgesKept(plays, day, j);
    }
  }

  lemma FreezeUsedLast(plays: seq<int>, day: int, week: int)
    requires week == Week(day)
    ensures FreezeUsed(plays + [day], week) <==> FreezeUsed(plays, week) || Bridges(plays + [day], |plays|)
  {
    var more := plays + [day];
    forall j: nat | j < |plays| ensures UsesFreeze(more, week, j) == UsesFreeze(plays, week, j) {
      BridgesKept(plays, day, j);
    }
    assert more[|plays|] == day;
    assert UsesFreeze(more, week, |plays|) == Bridges(more, |plays|);
  }

  // ----- one more play

  /** No play lies in a week after the last play's. */
  lemma FreshWeek(plays: seq<int>, day: int)
    requires plays != [] && Ordered(plays) && day >= plays[|plays| - 1] && Week(day) != Week(plays[|plays| - 1])
    ensures !FreezeUsed(plays, Week(day))
  {
    forall j: nat | j < |plays| ensures Week(plays[j]) != Week(day) {
      assert plays[j] <= plays[|plays| - 1];
      WeekGrows(plays[j], plays[|plays| - 1]);
      WeekGrows(plays[|plays| - 1], day);
    }
  }

  lemma WeekGrows(a: int, b: int)
    requires a <= b
    ensures Week(a) <= Week(b)
  {
  }

  /** One more play continues the streak on the same or the next day, or on the day after if a freeze is left. */
  lemma CurrentLast(plays: seq<int>, day: int)
    requires plays != [] && Ordered(plays) && day >= plays[|plays| - 1]
    ensures var k, gap := |plays| - 1, day - plays[|plays| - 1];
      Current(plays + [day], k + 1) ==
        if gap == 0 then Current(plays, k)
        else if gap == 1 || (gap == 2 && !FreezeUsed(plays, Week(day))) then Current(plays, k) + 1
        else 1
  {
    var k, more := |plays| - 1, plays + [day];
    BridgesLast(plays, day);
    StartKept(plays, day, k);
    DaysKept(plays, day, Start(plays, k), k);
    assert more[k + 1] == day && more[k] == plays[k];
    if !Begins(more, k + 1) {
      assert Start(more, k + 1) == Start(more, k);
      assert Days(more, Start(more, k), k + 1) == Days(more, Start(more, k), k) + if day == plays[k] then 0 else 1;
    }
  }

  lemma LongestLast(plays: seq<int>, day: int)
    requires plays != []
    ensures var k, c := |plays| - 1, Current(plays + [day], |plays|);
      Longest(plays + [day], k + 1) == if c > Longest(plays, k) then c else Longest(plays, k)
  {
    LongestKept(plays, day, |plays| - 1);
  }

  // ----- what a streak is worth

  /** From its first day to its last a streak has the days played and the days bridged, and no others. */
  lemma {:induction false} DaysAccounted(plays: seq<int>, i: nat)
    requires Ordered(plays) && i < |plays|
    ensures var s := Start(plays, i); plays[i] - plays[s] + 1 == Current(plays, i) + Bridged(plays, s, i)
  {
    if !Begins(plays, i) { DaysAccounted(plays, i - 1); }
  }

  /**
   Two bridged days lie in one ISO week exactly when the later one is a Sunday, bridged by a Monday's
   play, and the earlier one was bridged by a play of the week before, after its Monday.
   */
  lemma BridgedTwiceInWeek(plays: seq<int>, i: nat, j: nat)
    requires Ordered(plays) && i < j && Bridges(plays, i) && Bridges(plays, j)
    ensures SameWeek(plays[i] - 1, plays[j] - 1) <==> MondayAfter(plays[i], plays[j])
  {
    BridgesApart(plays, i, j);
    DaysBefore(plays[i], plays[j]);
  }

  lemma DaysBefore(a: int, b: int)
    requires a < b && Week(a) != Week(b)
    ensures SameWeek(a - 1, b - 1) <==> MondayAfter(a, b)
  {
    DayBefore(a);
    DayBefore(b);
  }

  lemma DayBefore(a: int)
    ensures Week(a - 1) == if Monday(a) then Week(a) - 1 else Week(a)
  {
  }

  lemma BridgesApart(plays: seq<int>, i: nat, j: nat)
    requires Ordered(plays) && i < j && Bridges(plays, i) && Bridges(plays, j)
    ensures plays[i] < plays[j] && Week(plays[i]) != Week(plays[j])
  {
    assert plays[i] <= plays[j - 1];
    assert !UsesFreeze(plays, Week(plays[j]), i);
  }

  /** It happens: Tuesday, Thursday, Friday, Saturday, Monday bridges Wednesday and Sunday. */
  lemma TwoBridgedInOneWeek()
    ensures var plays := [5, 7, 8, 9, 11];
      Ordered(plays) && Bridges(plays, 1) && Bridges(plays, 4) && Week(plays[1] - 1) == Week(plays[4] - 1)
      && Current(plays, 4) == 5
  {
    var plays := [5, 7, 8, 9, 11];
    assert !Bridges(plays, 0) && Bridges(plays, 1) && !Bridges(plays, 2) && !Bridges(plays, 3);
    assert Bridges(plays, 4);
    assert Start(plays, 0) == 0 && Start(plays, 1) == 0 && Start(plays, 2) == 0;
    assert Start(plays, 3) == 0 && Start(plays, 4) == 0;
    assert Days(plays, 0, 2) == 3 && Days(plays, 0, 3) == 4;
  }

  // ----- the stored row

  datatype Row = Row(current: nat, longest: nat, freezes: int, last: int, anchor: int)

  datatype Error = EmptyAddress | InvalidDate | Predates

  /** The row says what the plays say. */
  ghost predicate Tells(r: Row, plays: seq<int>) {
    && plays != [] && Ordered(plays)
    && r.last == plays[|plays| - 1] && r.anchor == Week(r.last)
    && r.current == Current(plays, |plays| - 1) && r.longest == Longest(plays, |plays| - 1)
    && r.freezes == if FreezeUsed(plays, r.anchor) then 0 else 1
  }

  /** The row after one more play: the source's rules, without its errors. */
  function Next(stored: Option<Row>, today: int): Row {
    var freezes := if stored.None? || stored.value.anchor != Week(today) then 1 else stored.value.freezes;
    var gap := if stored.None? then 3 else today - stored.value.last;
    var kept := gap == 2 && freezes > 0;
    var current: nat := if gap == 0 then stored.value.current
                        else if gap == 1 || kept then stored.value.current + 1
                        else 1;
    Row(current, if stored.Some? && stored.value.longest >= current then stored.value.longest else current,
        if kept then freezes - 1 else freezes, today, Week(today))
  }

  lemma FirstPlay(today: int)
    ensures Tells(Next(None, today), [today])
  {
    assert !FreezeUsed([today], Week(today));
  }

  /** The freeze that a play finds is the one its week has left. */
  lemma FreezeFound(r: Row, plays: seq<int>, today: int)
    requires Tells(r, plays) && today >= r.last
    ensures (if r.anchor != Week(today) then 1 else r.freezes) == if FreezeUsed(plays, Week(today)) then 0 else 1
  {
    if r.anchor != Week(today) { FreshWeek(plays, today); }
  }

  lemma FreezeLeft(plays: seq<int>, today: int)
    requires plays != []
    ensures FreezeUsed(plays + [today], Week(today))
       <==> FreezeUsed(plays, Week(today)) || today - plays[|plays| - 1] == 2
  {
    BridgesLast(plays, today);
    FreezeUsedLast(plays, today, Week(today));
  }

  lemma NextCurrent(r: Row, plays: seq<int>, today: int)
    requires Tells(r, plays) && today >= r.last
    ensures Next(Some(r), today).current == Current(plays + [today], |plays|)
  {
    FreezeFound(r, plays, today);
    CurrentLast(plays, today);
  }

  lemma NextFreezes(r: Row, plays: seq<int>, today: int)
    requires Tells(r, plays) && today >= r.last
    ensures Next(Some(r), today).freezes == if FreezeUsed(plays + [today], Week(today)) then 0 else 1
  {
    FreezeFound(r, plays, today);
    FreezeLeft(plays, today);
  }

  lemma NextLongest(r: Row, plays: seq<int>, today: int)
    requires Tells(r, plays) && today >= r.last
    ensures Next(Some(r), today).longest == Longest(plays + [today], |plays|)
  {
    NextCurrent(r, plays, today);
    LongestLast(plays, today);
  }

  lemma TellsLast(r: Row, more: seq<int>, n: nat, today: int)
    requires |more| == n + 1 && more[n] == today && Ordered(more)
    requires r.last == today && r.anchor == Week(today)
    requires r.current == Current(more, n) && r.longest == Longest(more, n)
    requires r.freezes == if FreezeUsed(more, Week(today)) then 0 else 1
    ensures Tells(r, more)
  {
  }

  lemma NextPlay(r: Row, plays: seq<int>, today: int)
    requires Tells(r, plays) && today >= r.last
    ensures Tells(Next(Some(r), today), plays + [today])
  {
    var more, n := plays + [today], |plays|;
    assert |more| == n + 1 && more[n] == today;
    NextCurrent(r, plays, today);
    NextLongest(r, plays, today);
    NextFreezes(r, plays, today);
    OrderedLast(plays, today);
    TellsLast(Next(Some(r), today), more, n, today);
  }

  lemma OrderedLast(plays: seq<int>, today: int)
    requires Ordered(plays) && (plays != [] ==> today >= plays[|plays| - 1])
    ensures Ordered(plays + [today])
  {
  }

  // ----- the stored row over a run of plays

  /** The stored row after the first `n` plays. */
  function RowAfter(plays: seq<int>, n: nat): Option<Row>
    requires n <= |plays|
  {
    if n == 0 then None else Some(Next(RowAfter(plays, n - 1), plays[n - 1]))
  }

  lemma {:induction false} RowTells(plays: seq<int>, n: nat)
    requires Ordered(plays) && 0 < n <= |plays|
    ensures RowAfter(plays, n).Some? && Tells(RowAfter(plays, n).value, plays[..n])
    decreases n
  {
    var before := plays[..n - 1];
    assert plays[..n] == before + [plays[n - 1]];
    if n == 1 {
      FirstPlay(plays[0]);
    } else {
      RowTells(plays, n - 1);
      NextPlay(RowAfter(plays, n - 1).value, before, plays[n - 1]);
    }
  }

  /** The `i`-th play skips a day, and the stored streak goes on. */
  predicate Forgiven(plays: seq<int>, i: nat) {
    && 0 < i < |plays| && plays[i] - plays[i - 1] == 2
    && RowAfter(plays, i).Some? && RowAfter(plays, i + 1).Some?
    && RowAfter(plays, i + 1).value.current == RowAfter(plays, i).value.current + 1
  }

  lemma {:induction false} BridgesPrefix(plays: seq<int>, n: nat, i: nat)
    requires i < n <= |plays|
    ensures Bridges(plays[..n], i) == Bridges(plays, i)
    decreases |plays| - n
  {
    if n == |plays| {
      assert plays[..n] == plays;
    } else {
      assert plays[..n + 1] == plays[..n] + [plays[n]];
      BridgesKept(plays[..n], plays[n], i);
      BridgesPrefix(plays, n + 1, i);
    }
  }

  lemma StoredCurrent(plays: seq<int>, n: nat, upTo: seq<int>)
    requires Ordered(plays) && 0 < n <= |plays| && upTo == plays[..n]
    ensures RowAfter(plays, n).Some? && RowAfter(plays, n).value.current == Current(upTo, |upTo| - 1)
  {
    RowTells(plays, n);
  }

  /** A streak goes on over a missed day exactly when that day is bridged. */
  lemma KeptIfBridged(plays: seq<int>, day: int, more: seq<int>)
    requires plays != [] && Ordered(plays) && day - plays[|plays| - 1] == 2 && more == plays + [day]
    ensures Current(more, |more| - 1) == Current(plays, |plays| - 1) + 1 <==> Bridges(more, |plays|)
  {
    CurrentLast(plays, day);
    BridgesLast(plays, day);
  }

  lemma ForgivenIsBridged(plays: seq<int>, i: nat)
    requires Ordered(plays) && 0 < i < |plays|
    ensures Forgiven(plays, i) <==> Bridges(plays, i)
  {
    if plays[i] - plays[i - 1] == 2 {
      var before, more := plays[..i], plays[..i + 1];
      assert more == before + [plays[i]] && before[i - 1] == plays[i - 1];
      StoredCurrent(plays, i, before);
      StoredCurrent(plays, i + 1, more);
      KeptIfBridged(before, plays[i], more);
      BridgesPrefix(plays, i + 1, i);
    }
  }

  /** Over any run of plays, the stored streak is kept over a missed day at most once in an ISO week. */
  lemma OneBridgePerWeek(plays: seq<int>, i: nat, j: nat)
    requires Ordered(plays) && i < j && Forgiven(plays, i) && Forgiven(plays, j)
    ensures !SameWeek(plays[i], plays[j])
  {
    ForgivenIsBridged(plays, i);
    ForgivenIsBridged(plays, j);
    assert !UsesFreeze(plays, Week(plays[j]), i);
  }

  /** The rules of `BumpStreak` on a stored row. */
  method Apply(stored: Option<Row>, today: int) returns (r: Result<Row, Error>)
    ensures r == if stored.Some? && today < stored.value.last then Err(Predates) else Ok(Next(stored, today))
  {
    var freezes := if stored.Some? then stored.value.freezes else 1;
    if stored.None? || stored.value.anchor != Week(today) { freezes := 1; }
    var current: nat := 1;
    if stored.Some? {
      var gap := today - stored.value.last;
      if gap < 0 {
        return Err(Predates);
      } else if gap == 0 {
        current := stored.value.current;
      } else if gap == 1 {
        current := stored.value.current + 1;
      } else if gap == 2 && freezes > 0 {
        current := stored.value.current + 1;
        freezes := freezes - 1;
      }
    }
    var longest := if stored.Some? then stored.value.longest else 0;
    if current > longest { longest := current; }
    r := Ok(Row(current, longest, freezes, today, Week(today)));
  }

  class Streaks {
    var rows: map<string, Row>
    ghost var plays: map<string, seq<int>> // the accepted plays of each address

    ghost predicate RowOk(address: string)
      reads this
    {
      && (address in rows <==> address in plays)
      && (address in plays ==> Tells(rows[address], plays[address]))
    }

    ghost predicate Valid()
      reads this
    {
      forall address :: RowOk(address)
    }

    constructor ()
      ensures Valid() && rows == map[]
    {
      rows, plays := map[], map[];
    }

    method BumpStreak(address: string, date: Option<int>) returns (r: Result<Row, Error>)
      requires Valid()
      modifies this
      ensures Valid()
      ensures r.Ok? <==> address != "" && date.Some? && (address in old(rows) ==> old(rows)[address].last <= date.value)
      ensures r == Err(EmptyAddress) <==> address == ""
      ensures r == Err(InvalidDate) <==> address != "" && date.None?
      ensures r.Err? ==> rows == old(rows) && plays == old(plays)
      ensures r.Ok? ==> rows == old(rows)[address := r.value]
      ensures r.Ok? ==>
        plays == old(plays)[address := (if address in old(plays) then old(plays)[address] else []) + [date.value]]
    {
      if address == "" {
        return Err(EmptyAddress);
      }
      if date.None? {
        return Err(InvalidDate);
      }
      var today := date.value;
      var stored := if address in rows then Some(rows[address]) else None;
      r := Apply(stored, today);
      if r.Err? {
        return;
      }
      assert RowOk(address);
      if stored.None? {
        FirstPlay(today);
      } else {
        NextPlay(stored.value, plays[address], today);
      }
      rows := rows[address := r.value];
      plays := plays[address := (if address in plays then plays[address] else []) + [today]];
      assert address !in old(plays) ==> [] + [today] == [today];
      forall a ensures RowOk(a) {
        assert old(RowOk(a));
      }
    }
  }
}
