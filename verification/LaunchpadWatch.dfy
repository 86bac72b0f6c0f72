/**
 The Launchpad solvency watcher. Each stable reading of a realm's books is judged
 against the realm's stored row; a fall of the surplus stays pending in the row,
 with its lowest value, until a page about it is delivered.

 What the node answers, whether a page is delivered and whether the row is
 written are inputs. One chain and one currency.
 */
module LaunchpadWatch {
  import opened Wrappers

  /** The stored row: the baseline, the last height, and the lowest surplus of a fall not yet paged. */
  datatype Row = Row(surplus: int, height: int, fellTo: Option<int>)

  datatype Reading = Reading(height: int, problem: bool, balance: int, owed: int)

  // ----- what happened

  /** A stable reading below the baseline in force, made when `before` pages had been delivered. */
  datatype Fall = Fall(surplus: int, baseline: int, before: nat)

  /** A delivered page: the surplus fell from `from` to `low`, and is `now`. */
  datatype Page = Page(from: int, low: int, now: int)

  datatype Log = Log(falls: seq<Fall>, pages: seq<Page>)

  predicate Falls(st: Option<Row>, surplus: int) {
    st.Some? && surplus < st.value.surplus
  }

  /** The pending fall with one more reading. */
  function Lowest(st: Row, surplus: int): Option<int> {
    if surplus < st.surplus && (st.fellTo.None? || surplus < st.fellTo.value) then Some(surplus) else st.fellTo
  }

  predicate Paged(st: Option<Row>, surplus: int, delivered: bool) {
    st.Some? && Lowest(st.value, surplus).Some? && delivered
  }

  /** The row after a reading, if it is written. */
  function NextRow(st: Option<Row>, surplus: int, height: int, delivered: bool): Row {
    if st.None? || Lowest(st.value, surplus).None? || delivered then Row(surplus, height, None)
    else Row(st.value.surplus, height, Lowest(st.value, surplus))
  }

  function Stored(st: Option<Row>, surplus: int, height: int, delivered: bool, written: bool): Option<Row> {
    if written then Some(NextRow(st, surplus, height, delivered)) else st
  }

  function NextLog(log: Log, st: Option<Row>, surplus: int, delivered: bool): Log {
    Log(
      if Falls(st, surplus) then log.falls + [Fall(surplus, st.value.surplus, |log.pages|)] else log.falls,
      if Paged(st, surplus, delivered) then
        log.pages + [Page(st.value.surplus, Lowest(st.value, surplus).value, surplus)]
      else log.pages)
  }

  // ----- no fall goes unreported

  predicate Pending(row: Option<Row>, f: Fall) {
    row.Some? && row.value.fellTo.Some? && row.value.fellTo.value <= f.surplus
  }

  /** A page delivered since the reading tells of a surplus as low. */
  ghost predicate Reported(pages: seq<Page>, f: Fall) {
    exists j :: f.before <= j < |pages| && pages[j].low <= f.surplus
  }

  ghost predicate AccountedAt(log: Log, row: Option<Row>, i: int) {
    0 <= i < |log.falls| ==>
      log.falls[i].before <= |log.pages| && (Pending(row, log.falls[i]) || Reported(log.pages, log.falls[i]))
  }

  ghost predicate Accounted(log: Log, row: Option<Row>) {
    forall i :: AccountedAt(log, row, i)
  }

  /** Neither the page nor the row tells of a new low. */
  predicate Loses(st: Option<Row>, surplus: int, delivered: bool, written: bool) {
    !delivered && !written && Falls(st, surplus) && (st.value.fellTo.None? || surplus < st.value.fellTo.value)
  }

  /** With every fall accounted for, one more reading keeps it so exactly when it does not lose a new low. */
  lemma ReadingAccounts(log: Log, st: Option<Row>, surplus: int, height: int, delivered: bool, written: bool)
    requires Accounted(log, st)
    ensures Accounted(NextLog(log, st, surplus, delivered), Stored(st, surplus, height, delivered, written))
       <==> !Loses(st, surplus, delivered, written)
  {
    var log', row' := NextLog(log, st, surplus, delivered), Stored(st, surplus, height, delivered, written);
    forall i | 0 <= i < |log.falls| ensures AccountedAt(log', row', i) {
      assert AccountedAt(log, st, i);
      OldFall(log, st, surplus, height, delivered, written, log.falls[i]);
    }
    if Falls(st, surplus) {
      NewFall(log, st, surplus, height, delivered, written);
      assert AccountedAt(log', row', |log.falls|) <==> !Loses(st, surplus, delivered, written);
    }
    forall i | !(0 <= i < |log'.falls|) ensures AccountedAt(log', row', i) {
    }
  }

  /** A fall from 10 to 5 whose page and row both fail, then a reading of 10: no page ever tells of it. */
  lemma LostFall()
    ensures var st, log := Some(Row(10, 1, None)), Log([], []);
      var log1, st1 := NextLog(log, st, 5, false), Stored(st, 5, 2, false, false);
      var log2, st2 := NextLog(log1, st1, 10, true), Stored(st1, 10, 3, true, true);
      Accounted(log, st) && Falls(st, 5) && log2.pages == [] && st2 == Some(Row(10, 3, None)) && !Accounted(log2, st2)
  {
    var st, log := Some(Row(10, 1, None)), Log([], []);
    var log1, st1 := NextLog(log, st, 5, false), Stored(st, 5, 2, false, false);
    var log2, st2 := NextLog(log1, st1, 10, true), Stored(st1, 10, 3, true, true);
    assert log2.falls == [Fall(5, 10, 0)];
    assert !AccountedAt(log2, st2, 0);
  }

  lemma OldFall(log: Log, st: Option<Row>, surplus: int, height: int, delivered: bool, written: bool, f: Fall)
    requires Pending(st, f) || Reported(log.pages, f)
    requires f.before <= |log.pages|
    ensures Pending(Stored(st, surplus, height, delivered, written), f)
      || Reported(NextLog(log, st, surplus, delivered).pages, f)
  {
    var pages' := NextLog(log, st, surplus, delivered).pages;
    if Reported(log.pages, f) {
      var j :| f.before <= j < |log.pages| && log.pages[j].low <= f.surplus;
      assert pages'[j] == log.pages[j];
    } else if Paged(st, surplus, delivered) {
      assert pages'[|log.pages|].low <= f.surplus;
    }
  }

  lemma NewFall(log: Log, st: Option<Row>, surplus: int, height: int, delivered: bool, written: bool)
    requires Falls(st, surplus)
    ensures var f := Fall(surplus, st.value.surplus, |log.pages|);
      Pending(Stored(st, surplus, height, delivered, written), f)
        || Reported(NextLog(log, st, surplus, delivered).pages, f)
      <==> !Loses(st, surplus, delivered, written)
  {
    var pages' := NextLog(log, st, surplus, delivered).pages;
    if delivered { assert pages'[|log.pages|].low <= surplus; }
  }

  // ----- every page is true, and about something new

  /** Some reading fell from `baseline` to `low` when at most `upTo` and at least `from` pages had been delivered. */
  ghost predicate Witnessed(falls: seq<Fall>, low: int, baseline: int, from: nat, upTo: nat) {
    exists i :: 0 <= i < |falls| && falls[i].surplus == low && falls[i].baseline == baseline
      && from <= falls[i].before <= upTo
  }

  /** The `j`-th page tells of a fall seen; if no write ever failed, of one seen since the page before. */
  ghost predicate PageAt(log: Log, stored: bool, j: int) {
    0 <= j < |log.pages| ==>
      && log.pages[j].low < log.pages[j].from
      && Witnessed(log.falls, log.pages[j].low, log.pages[j].from, if stored then j else 0, j)
  }

  ghost predicate RowTrue(log: Log, row: Option<Row>, stored: bool) {
    row.Some? && row.value.fellTo.Some? ==>
      && row.value.fellTo.value < row.value.surplus
      && Witnessed(log.falls, row.value.fellTo.value, row.value.surplus, if stored then |log.pages| else 0, |log.pages|)
  }

  ghost predicate Truthful(log: Log, row: Option<Row>, stored: bool) {
    (forall j :: PageAt(log, stored, j)) && RowTrue(log, row, stored)
  }

  lemma WitnessKept(falls: seq<Fall>, more: seq<Fall>, low: int, baseline: int, from: nat, upTo: nat, from': nat,
                    upTo': nat)
    requires Witnessed(falls, low, baseline, from, upTo) && from' <= from && upTo <= upTo'
    ensures Witnessed(falls + more, low, baseline, from', upTo')
  {
    var i :| 0 <= i < |falls| && falls[i].surplus == low && falls[i].baseline == baseline
      && from <= falls[i].before <= upTo;
    assert (falls + more)[i] == falls[i];
  }

  lemma ReadingTruthful(log: Log, st: Option<Row>, surplus: int, height: int, delivered: bool, written: bool,
                        stored: bool)
    requires Truthful(log, st, stored)
    ensures var kept := stored && written;
      Truthful(NextLog(log, st, surplus, delivered), Stored(st, surplus, height, delivered, written), kept)
  {
    var kept := stored && written;
    var log', row' := NextLog(log, st, surplus, delivered), Stored(st, surplus, height, delivered, written);
    var n := |log.pages|;
    var more := if Falls(st, surplus) then [Fall(surplus, st.value.surplus, n)] else [];
    assert log'.falls == log.falls + more;
    if st.Some? && Lowest(st.value, surplus).Some? {
      LowestWitnessed(log, st, surplus, stored);
    }
    forall j ensures PageAt(log', kept, j) {
      assert PageAt(log, stored, j);
      if 0 <= j < n {
        WitnessKept(log.falls, more, log.pages[j].low, log.pages[j].from, if stored then j else 0, j,
                    if kept then j else 0, j);
      } else if 0 <= j < |log'.pages| {
        WitnessKept(log.falls + more, [], log'.pages[j].low, log'.pages[j].from, if stored then n else 0, n,
                    if kept then n else 0, n);
        assert log.falls + more + [] == log.falls + more;
      }
    }
    if row'.Some? && row'.value.fellTo.Some? {
      if written {
        WitnessKept(log'.falls, [], row'.value.fellTo.value, row'.value.surplus, if stored then n else 0, n,
                    if stored then n else 0, n);
      } else {
        WitnessKept(log.falls, more, row'.value.fellTo.value, row'.value.surplus,
                    if stored then n else 0, n, 0, |log'.pages|);
      }
      assert log'.falls + [] == log'.falls;
    }
  }

  lemma LowestWitnessed(log: Log, st: Option<Row>, surplus: int, stored: bool)
    requires RowTrue(log, st, stored) && st.Some? && Lowest(st.value, surplus).Some?
    ensures Lowest(st.value, surplus).value < st.value.surplus
    ensures Witnessed(NextLog(log, st, surplus, true).falls, Lowest(st.value, surplus).value, st.value.surplus,
                      if stored then |log.pages| else 0, |log.pages|)
  {
    var n := |log.pages|;
    if Lowest(st.value, surplus) == st.value.fellTo {
      var more := if Falls(st, surplus) then [Fall(surplus, st.value.surplus, n)] else [];
      WitnessKept(log.falls, more, st.value.fellTo.value, st.value.surplus, if stored then n else 0, n,
                  if stored then n else 0, n);
      assert NextLog(log, st, surplus, true).falls == log.falls + more;
    } else {
      assert NextLog(log, st, surplus, true).falls[|log.falls|] == Fall(surplus, st.value.surplus, n);
    }
  }

  // ----- one realm over a run of checks

  /** What one check of a realm meets: the node, the stored row, the webhook twice, the write. */
  datatype World = World(reading: Option<Reading>, readable: bool, rulePage: bool, fallPage: bool, written: bool)

  /** The reading is stable, new and of the right books. */
  predicate Judged(io: World, st: Option<Row>) {
    && io.reading.Some? && io.readable && !io.reading.value.problem
    && (st.Some? ==> io.reading.value.height > st.value.height)
  }

  /** The reading is stable and new, but of the wrong books. */
  predicate Wrong(io: World, st: Option<Row>) {
    && io.reading.Some? && io.readable && io.reading.value.problem
    && (st.Some? ==> io.reading.value.height > st.value.height)
  }

  function Surplus(r: Reading): int {
    r.balance - r.owed
  }

  /** A realm's stored row and its history. */
  datatype Book = Book(row: Option<Row>, log: Log)

  function Checked(b: Book, io: World): Book {
    if Judged(io, b.row) then
      var r := io.reading.value;
      Book(Stored(b.row, Surplus(r), r.height, io.fallPage, io.written), NextLog(b.log, b.row, Surplus(r), io.fallPage))
    else b
  }

  /** The realm's book after the first `n` checks of a run over all realms. */
  function After(checks: seq<(nat, World)>, n: nat, realm: nat): Book
    requires n <= |checks|
  {
    if n == 0 then Book(None, Log([], []))
    else
      var b := After(checks, n - 1, realm);
      if checks[n - 1].0 == realm then Checked(b, checks[n - 1].1) else b
  }

  /** The `i`-th check is of the realm, and loses a new low of its surplus. */
  predicate LosesAt(checks: seq<(nat, World)>, i: nat, realm: nat)
    requires i < |checks|
  {
    var io, row := checks[i].1, After(checks, i, realm).row;
    checks[i].0 == realm && Judged(io, row) && Loses(row, Surplus(io.reading.value), io.fallPage, io.written)
  }

  /** Over any run: as long as no check loses a new low, every fall was paged since or is pending. */
  lemma {:induction false} NoFallUnreported(checks: seq<(nat, World)>, n: nat, realm: nat)
    requires n <= |checks| && forall i: nat | i < n :: !LosesAt(checks, i, realm)
    ensures Accounted(After(checks, n, realm).log, After(checks, n, realm).row)
    decreases n
  {
    if n > 0 {
      NoFallUnreported(checks, n - 1, realm);
      var b, io := After(checks, n - 1, realm), checks[n - 1].1;
      assert !LosesAt(checks, n - 1, realm);
      if checks[n - 1].0 == realm && Judged(io, b.row) {
        var r := io.reading.value;
        ReadingAccounts(b.log, b.row, Surplus(r), r.height, io.fallPage, io.written);
      }
    }
  }

  /** No write about the realm failed so far. */
  predicate WrittenSoFar(checks: seq<(nat, World)>, n: nat, realm: nat)
    requires n <= |checks|
  {
    forall i: nat | i < n :: checks[i].0 == realm ==> checks[i].1.written
  }

  /**
   Over any run: every page tells of a fall that was seen; unless a write failed, of one seen since the page
   before.
   */
  lemma {:induction false} PagesTruthful(checks: seq<(nat, World)>, n: nat, realm: nat)
    requires n <= |checks|
    ensures Truthful(After(checks, n, realm).log, After(checks, n, realm).row, WrittenSoFar(checks, n, realm))
    decreases n
  {
    if n > 0 {
      PagesTruthful(checks, n - 1, realm);
      var b, io, stored := After(checks, n - 1, realm), checks[n - 1].1, WrittenSoFar(checks, n - 1, realm);
      if checks[n - 1].0 == realm && Judged(io, b.row) {
        var r := io.reading.value;
        ReadingTruthful(b.log, b.row, Surplus(r), r.height, io.fallPage, io.written, stored);
        assert WrittenSoFar(checks, n, realm) == (stored && io.written);
      } else {
        TruthfulWeakens(b.log, b.row, stored, WrittenSoFar(checks, n, realm));
      }
    }
  }

  lemma TruthfulWeakens(log: Log, row: Option<Row>, stored: bool, kept: bool)
    requires Truthful(log, row, stored) && (kept ==> stored)
    ensures Truthful(log, row, kept)
  {
    forall j ensures PageAt(log, kept, j) {
      assert PageAt(log, stored, j);
    }
  }

  predicate FallPending(row: Option<Row>) {
    row.Some? && row.value.fellTo.Some?
  }

  /** The fall is measured from the same surplus, and to one at most as high. */
  predicate SameBaseline(was: Option<Row>, now: Option<Row>) {
    && FallPending(was) && FallPending(now) && now.value.surplus == was.value.surplus
    && now.value.fellTo.value <= was.value.fellTo.value && now.value.height >= was.value.height
  }

  /** Over any run of checks that leaves a fall pending: the baseline stays put, and the lowest value only falls. */
  lemma {:induction false} BaselineHolds(checks: seq<(nat, World)>, i: nat, j: nat, realm: nat)
    requires i <= j <= |checks| && forall k: nat | i <= k <= j :: FallPending(After(checks, k, realm).row)
    ensures SameBaseline(After(checks, i, realm).row, After(checks, j, realm).row)
    decreases j
  {
    if i < j {
      BaselineHolds(checks, i, j - 1, realm);
      assert FallPending(After(checks, j, realm).row);
    } else {
      assert FallPending(After(checks, i, realm).row);
    }
  }

  /** A stable reading of the right books, from a greater height than the last one. */
  predicate News(io: World, last: Option<Reading>) {
    && io.reading.Some? && io.readable && !io.reading.value.problem
    && (last.Some? ==> io.reading.value.height > last.value.height)
  }

  /** The last of the realm's readings, in the first `n` checks, that was news when it came and was written. */
  function LastWritten(checks: seq<(nat, World)>, n: nat, realm: nat): Option<Reading>
    requires n <= |checks|
  {
    if n == 0 then None
    else
      var last := LastWritten(checks, n - 1, realm);
      var (q, io) := checks[n - 1];
      if q == realm && News(io, last) && io.written then io.reading else last
  }

  /** Over any run of checks: with no fall pending, the baseline is the surplus of the last reading that was written. */
  lemma {:induction false} BaselineFollows(checks: seq<(nat, World)>, n: nat, realm: nat)
    requires n <= |checks|
    ensures var row, last := After(checks, n, realm).row, LastWritten(checks, n, realm);
      && (row.Some? <==> last.Some?)
      && (row.Some? ==> row.value.height == last.value.height)
      && (row.Some? && row.value.fellTo.None? ==> row.value.surplus == last.value.balance - last.value.owed)
    decreases n
  {
    if n > 0 { BaselineFollows(checks, n - 1, realm); }
  }

  /** News of less than the last reading written, with nothing pending before, is paged at once or pending after. */
  lemma FallNoticed(checks: seq<(nat, World)>, n: nat, realm: nat)
    requires n < |checks| && checks[n].0 == realm && News(checks[n].1, LastWritten(checks, n, realm))
    requires LastWritten(checks, n, realm).Some? && !FallPending(After(checks, n, realm).row)
    requires var last, r := LastWritten(checks, n, realm).value, checks[n].1.reading.value;
      r.balance - r.owed < last.balance - last.owed
    ensures var io, last := checks[n].1, LastWritten(checks, n, realm).value;
      var from, to := last.balance - last.owed, io.reading.value.balance - io.reading.value.owed;
      var before, after := After(checks, n, realm), After(checks, n + 1, realm);
      && (io.fallPage ==> after.log.pages == before.log.pages + [Page(from, to, to)])
      && (!io.fallPage && io.written ==> after.row == Some(Row(from, io.reading.value.height, Some(to))))
  {
    BaselineFollows(checks, n, realm);
  }

  // ----- the watcher

  datatype Rule = View | Deficit

  datatype Key = Key(realm: nat, rule: Rule)

  class Watcher {
    var rows: map<nat, Row>            // stored
    var deficits: map<nat, nat>        // in memory
    var active: map<Key, bool>         // in memory
    ghost var logs: map<nat, Log>
    ghost var paged: map<Key, nat>     // pages delivered since the rule began to hold, in this process

    ghost predicate RuleOk(key: Key)
      reads this`active, this`paged
    {
      PagedCount(paged, key) == if Active(active, key) then 1 else 0
    }

    /** Every rule that holds was paged exactly once since it began to, and no other. */
    ghost predicate Valid()
      reads this`active, this`paged
    {
      forall key :: RuleOk(key)
    }

    ghost function BookOf(realm: nat): Book
      reads this`rows, this`logs
    {
      Book(RowOf(rows, realm), LogOf(logs, realm))
    }

    constructor ()
      ensures Valid() && rows == map[] && logs == map[] && deficits == map[] && active == map[]
    {
      rows, deficits, active := map[], map[], map[];
      logs, paged := map[], map[];
    }

    /** A new process: the row is kept, the rest of the state is not. */
    method Restart()
      modifies this`deficits, this`active, this`paged
      ensures Valid() && deficits == map[] && active == map[]
    {
      deficits, active, paged := map[], map[], map[];
    }

    /** Pages a rule once when it starts to hold; `tried` if it does so now. */
    method Raise(key: Key, delivered: bool) returns (tried: bool)
      requires Valid()
      modifies this`active, this`paged
      ensures Valid()
      ensures tried == !Active(old(active), key)
      ensures PagedCount(paged, key) == PagedCount(old(paged), key) + if tried && delivered then 1 else 0
      ensures forall k | k != key :: PagedCount(paged, k) == PagedCount(old(paged), k)
      ensures forall k :: Active(active, k) <==> Active(old(active), k) || (k == key && delivered)
    {
      tried := !Active(active, key);
      if !tried {
        return;
      }
      active := active[key := delivered];
      paged := paged[key := PagedCount(paged, key) + if delivered then 1 else 0];
      forall k ensures RuleOk(k) {
        assert old(RuleOk(k));
      }
    }

    /** Ends it. */
    method Clear(key: Key)
      requires Valid()
      modifies this`active, this`paged
      ensures Valid()
      ensures PagedCount(paged, key) == 0
      ensures forall k | k != key :: PagedCount(paged, k) == PagedCount(old(paged), k)
      ensures forall k :: Active(active, k) <==> k != key && Active(old(active), k)
    {
      active := active - {key};
      paged := paged[key := 0];
      forall k ensures RuleOk(k) {
        assert old(RuleOk(k));
      }
    }

    /**
     The deficit rule: two judged readings in a row below what is owed. It is paged from the second on until
     a page is delivered, and not again before a reading that is not below.
     */
    method JudgeDeficit(realm: nat, r: Reading, delivered: bool) returns (tried: bool)
      requires Valid()
      modifies this`deficits, this`active, this`paged
      ensures Valid()
      ensures Count(deficits, realm) == if r.balance < r.owed then Count(old(deficits), realm) + 1 else 0
      ensures forall q | q != realm :: Count(deficits, q) == Count(old(deficits), q)
      ensures tried <==>
        r.balance < r.owed && Count(old(deficits), realm) >= 1 && !Active(old(active), Key(realm, Deficit))
      ensures PagedCount(paged, Key(realm, Deficit)) ==
        if r.balance >= r.owed then 0
        else PagedCount(old(paged), Key(realm, Deficit)) + if tried && delivered then 1 else 0
      ensures Active(active, Key(realm, Deficit)) <==>
        r.balance < r.owed
          && (Active(old(active), Key(realm, Deficit)) || (delivered && Count(old(deficits), realm) >= 1))
      ensures forall k | k != Key(realm, Deficit) :: Active(active, k) == Active(old(active), k)
    {
      var n := if r.balance < r.owed then Count(deficits, realm) + 1 else 0;
      deficits := deficits[realm := n];
      tried := false;
      if r.balance >= r.owed {
        Clear(Key(realm, Deficit));
      } else if deficits[realm] >= 2 {
        tried := Raise(Key(realm, Deficit), delivered);
      }
    }

    /** The surplus rule: a fall stays pending, and the baseline put, until its page is delivered. */
    method NextState(r: Reading, st: Option<Row>, delivered: bool) returns (next: Row)
      ensures next == NextRow(st, Surplus(r), r.height, delivered)
    {
      var surplus := Surplus(r);
      next := Row(surplus, r.height, None);
      if st.Some? {
        var fellTo := st.value.fellTo;
        if surplus < st.value.surplus && (fellTo.None? || surplus < fellTo.value) { fellTo := Some(surplus); }
        next := next.(fellTo := fellTo);
        if fellTo.Some? {
          if delivered {
            next := next.(fellTo := None);
          } else {
            next := next.(surplus := st.value.surplus);
          }
        }
      }
    }

    /** The surplus rule, against the stored row. */
    method JudgeSurplus(realm: nat, r: Reading, st: Option<Row>, delivered: bool, written: bool)
      requires st == RowOf(rows, realm)
      modifies this`rows, this`logs
      ensures RowOf(rows, realm) == Stored(st, Surplus(r), r.height, delivered, written)
      ensures LogOf(logs, realm) == NextLog(LogOf(old(logs), realm), st, Surplus(r), delivered)
      ensures forall q | q != realm :: BookOf(q) == old(BookOf(q))
    {
      var next := NextState(r, st, delivered);
      logs := logs[realm := NextLog(LogOf(logs, realm), st, Surplus(r), delivered)];
      if written { rows := rows[realm := next]; }
    }

    /**
     One check: an unstable, stuck or foreign node decides nothing. `tried` is the rule paged about, if any:
     a rule is paged when it begins to hold, and again only if that page was not delivered.
     */
    method Check(realm: nat, io: World) returns (tried: Option<Rule>)
      requires Valid()
      modifies this
      ensures Valid()
      ensures BookOf(realm) == Checked(old(BookOf(realm)), io)
      ensures forall q | q != realm :: BookOf(q) == old(BookOf(q))
      ensures tried == Some(View) <==>
        io.reading.Some? && io.readable && (realm in old(rows) ==> io.reading.value.height > old(rows)[realm].height)
        && io.reading.value.problem && !Active(old(active), Key(realm, View))
      ensures tried == Some(Deficit) <==>
        io.reading.Some? && io.readable && (realm in old(rows) ==> io.reading.value.height > old(rows)[realm].height)
        && !io.reading.value.problem && io.reading.value.balance < io.reading.value.owed
        && Count(old(deficits), realm) >= 1 && !Active(old(active), Key(realm, Deficit))
      ensures var st := RowOf(old(rows), realm);
        if Judged(io, st) then
          && Count(deficits, realm) == (if InDeficit(io) then Count(old(deficits), realm) + 1 else 0)
          && (Active(active, Key(realm, Deficit)) <==>
              InDeficit(io)
                && (Active(old(active), Key(realm, Deficit)) || (io.rulePage && Count(old(deficits), realm) >= 1)))
          && !Active(active, Key(realm, View))
        else
          && deficits == old(deficits)
          && (Active(active, Key(realm, View)) <==>
              Active(old(active), Key(realm, View)) || (Wrong(io, st) && io.rulePage))
          && (Active(active, Key(realm, Deficit)) <==> Active(old(active), Key(realm, Deficit)))
      ensures forall k: Key | k.realm != realm :: Active(active, k) == Active(old(active), k)
    {
      tried := None;
      if io.reading.None? || !io.readable {
        return;
      }
      var r, st := io.reading.value, RowOf(rows, realm);
      if st.Some? && r.height <= st.value.height {
        return;
      }
      if r.problem {
        var now := Raise(Key(realm, View), io.rulePage);
        return if now then Some(View) else None;
      }
      Clear(Key(realm, View));
      var now := JudgeDeficit(realm, r, io.rulePage);
      if now { tried := Some(Deficit); }
      JudgeSurplus(realm, r, st, io.fallPage, io.written);
    }
  }

  predicate InDeficit(io: World) {
    io.reading.Some? && io.reading.value.balance < io.reading.value.owed
  }

  /** No check of the realm fails to page and to write. */
  predicate Saved(checks: seq<(nat, World)>, realm: nat) {
    forall i: nat | i < |checks| :: checks[i].0 == realm ==> checks[i].1.written || checks[i].1.fallPage
  }

  /**
   Checks of any realms in any order, with a new process before some of them: each realm's row and history are
   those of its own checks, and no fall is lost unless a reading loses it.
   */
  method Live(checks: seq<(nat, World)>, restarts: seq<bool>) returns (w: Watcher)
    requires |restarts| == |checks|
    ensures w.Valid()
    ensures forall realm :: w.BookOf(realm) == After(checks, |checks|, realm)
    ensures forall realm :: Saved(checks, realm) ==> Accounted(LogOf(w.logs, realm), RowOf(w.rows, realm))
  {
    w := new Watcher();
    for i := 0 to |checks|
      invariant fresh(w) && w.Valid()
      invariant forall realm :: w.BookOf(realm) == After(checks, i, realm)
    {
      if restarts[i] {
        w.Restart();
      }
      var _ := w.Check(checks[i].0, checks[i].1);
    }
    forall realm | Saved(checks, realm) ensures Accounted(LogOf(w.logs, realm), RowOf(w.rows, realm)) {
      forall i: nat | i < |checks| ensures !LosesAt(checks, i, realm) {
        assert checks[i].0 == realm ==> checks[i].1.written || checks[i].1.fallPage;
      }
      NoFallUnreported(checks, |checks|, realm);
      assert w.BookOf(realm) == After(checks, |checks|, realm);
    }
  }

  function LogOf(logs: map<nat, Log>, realm: nat): Log {
    if realm in logs then logs[realm] else Log([], [])
  }

  function RowOf(rows: map<nat, Row>, realm: nat): Option<Row> {
    if realm in rows then Some(rows[realm]) else None
  }

  function Count(m: map<nat, nat>, realm: nat): nat {
    if realm in m then m[realm] else 0
  }

  function PagedCount(m: map<Key, nat>, key: Key): nat {
    if key in m then m[key] else 0
  }

  predicate Active(m: map<Key, bool>, key: Key) {
    key in m && m[key]
  }
}
