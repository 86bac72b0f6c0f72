/**
 The durable daily allowance: the budget counters are the sums of the spending
 rows and never pass their limits, and every Anchor call is paid for by a
 reservation of its own.
 */
module FreePlayAllowance {
  import opened Wrappers
  import opened FreePlayTables
  import opened FreePlayProtocol
  import opened FreePlayInvariant
  import opened FreePlaySafety

  /** What a limit counts. */
  datatype Measure = Attempts | Fees | Deposits

  function Amount(m: Measure, fee: int, deposit: int): int {
    match m case Attempts => 1 case Fees => fee case Deposits => deposit
  }

  /** The rows of one signer and day, or all rows. */
  predicate Within(scope: Option<BudgetKey>, key: BudgetKey) {
    scope == None || scope == Some(key)
  }

  /** The total of the spending rows in the scope. */
  function Tally(rows: seq<Spend>, scope: Option<BudgetKey>, m: Measure): int {
    if rows == [] then 0
    else
      var r := rows[|rows| - 1];
      Tally(rows[..|rows| - 1], scope, m) + if Within(scope, r.key) then Amount(m, r.fee, r.deposit) else 0
  }

  /** The counter and the limit of a budget row. */
  function Counter(m: Measure, b: BudgetRow): int {
    match m case Attempts => b.attempts case Fees => b.fee case Deposits => b.deposit
  }

  function Limit(m: Measure, b: BudgetRow): int {
    match m case Attempts => b.maxAttempts case Fees => b.maxFee case Deposits => b.maxDeposit
  }

  ghost predicate BudgetOk(db: Db, key: BudgetKey) {
    if key in db.budget then
      forall m :: Counter(m, db.budget[key]) == Tally(db.spending, Some(key), m)
                  && Counter(m, db.budget[key]) <= Limit(m, db.budget[key]) <= MAX_AMOUNT
    else
      forall m :: Tally(db.spending, Some(key), m) == 0
  }

  predicate SpendOk(r: Spend) {
    r.fee > 0 && r.deposit > 0
  }

  ghost predicate Ledger(db: Db) {
    && (forall key :: BudgetOk(db, key))
    && (forall i | 0 <= i < |db.spending| :: SpendOk(db.spending[i]))
  }

  lemma {:induction false} TallyNonnegative(rows: seq<Spend>, scope: Option<BudgetKey>, m: Measure)
    requires forall i | 0 <= i < |rows| :: SpendOk(rows[i])
    ensures Tally(rows, scope, m) >= 0
  {
    if rows != [] {
      assert SpendOk(rows[|rows| - 1]);
      TallyNonnegative(rows[..|rows| - 1], scope, m);
    }
  }

  /** A reservation charges its day once and leaves the other days alone. */
  lemma ReserveKeepsLedger(db: Db, st: Settings, run: RunId, q: Quote, before: int, locked: int, after: int)
    requires Ledger(db) && ValidSettings(st) && ReserveAllowance(db, st, run, q, before, locked, after).Ok?
    ensures Ledger(ReserveAllowance(db, st, run, q, before, locked, after).value)
  {
    var db' := ReserveAllowance(db, st, run, q, before, locked, after).value;
    var row := db'.spending[|db.spending|];
    assert db'.spending[..|db.spending|] == db.spending;
    forall key ensures BudgetOk(db', key) {
      assert BudgetOk(db, key);
      forall m
        ensures Tally(db'.spending, Some(key), m) ==
          Tally(db.spending, Some(key), m) + if key == row.key then Amount(m, row.fee, row.deposit) else 0
      {
      }
    }
    forall i | 0 <= i < |db'.spending| ensures SpendOk(db'.spending[i]) {
      assert i < |db.spending| ==> SpendOk(db.spending[i]);
    }
  }

  lemma StepKeepsLedger(s: State, step: Step)
    requires Ledger(s.db) && Enabled(s, step)
    ensures Ledger(Apply(s, step).db)
  {
    if step.Work? && step.act.Allow? {
      var l := s.workers[step.token].lease;
      if ReserveAllowance(s.db, step.act.settings, l.run, l.quote, s.now, step.act.locked, step.act.after).Ok? {
        ReserveKeepsLedger(s.db, step.act.settings, l.run, l.quote, s.now, step.act.locked, step.act.after);
      }
    } else {
      if step.Work? { WorkPlain(s, step.token, step.act); } else { UserPlain(s, step); }
      SameLedger(s.db, Apply(s, step).db);
    }
  }

  lemma SameLedger(db: Db, db': Db)
    requires Ledger(db) && db'.budget == db.budget && db'.spending == db.spending
    ensures Ledger(db')
  {
    forall key ensures BudgetOk(db', key) {
      assert BudgetOk(db, key);
    }
  }

  lemma {:induction false} LedgerAfter(steps: seq<Step>)
    requires After(INITIAL, steps).Some?
    ensures Ledger(After(INITIAL, steps).value.db)
  {
    if steps != [] {
      LedgerAfter(steps[..|steps| - 1]);
      StepKeepsLedger(After(INITIAL, steps[..|steps| - 1]).value, steps[|steps| - 1]);
    }
  }

  /**
   In every reachable state the counters of a signer's day are exactly the
   totals of its spending rows, and are within the day's limits.
   */
  lemma BudgetIsTally(s: State, key: BudgetKey, m: Measure)
    requires Reachable(s)
    ensures Tally(s.db.spending, Some(key), m) == if key in s.db.budget then Counter(m, s.db.budget[key]) else 0
    ensures key in s.db.budget ==> 0 <= Counter(m, s.db.budget[key]) <= Limit(m, s.db.budget[key]) <= MAX_AMOUNT
  {
    var steps :| After(INITIAL, steps) == Some(s);
    LedgerAfter(steps);
    assert BudgetOk(s.db, key);
    TallyNonnegative(s.db.spending, Some(key), m);
  }

  // ----- every Anchor call has its own reservation

  /** The limits of the quotes passed to Anchor, over the calls reserved in the scope. */
  function Spent(log: seq<Call>, rows: seq<Spend>, scope: Option<BudgetKey>, m: Measure): int
    requires forall i | 0 <= i < |log| :: log[i].reservation < |rows|
  {
    if log == [] then 0
    else
      var c := log[|log| - 1];
      Spent(log[..|log| - 1], rows, scope, m)
      + if Within(scope, rows[c.reservation].key) then Amount(m, c.quote.maxFee, c.quote.maxDeposit) else 0
  }

  /** The part of the tally that belongs to some runs. */
  function TallyOf(rows: seq<Spend>, runs: set<RunId>, scope: Option<BudgetKey>, m: Measure): int {
    if rows == [] then 0
    else
      var r := rows[|rows| - 1];
      TallyOf(rows[..|rows| - 1], runs, scope, m)
      + if r.run in runs && Within(scope, r.key) then Amount(m, r.fee, r.deposit) else 0
  }

  lemma {:induction false} TallyOfSplits(rows: seq<Spend>, runs: set<RunId>, id: RunId, scope: Option<BudgetKey>,
                                         m: Measure)
    requires id !in runs
    ensures TallyOf(rows, runs + {id}, scope, m) == TallyOf(rows, runs, scope, m) + TallyOf(rows, {id}, scope, m)
  {
    if rows != [] {
      TallyOfSplits(rows[..|rows| - 1], runs, id, scope, m);
    }
  }

  lemma {:induction false} TallyOfBounds(rows: seq<Spend>, runs: set<RunId>, scope: Option<BudgetKey>, m: Measure)
    requires forall i | 0 <= i < |rows| :: SpendOk(rows[i])
    ensures 0 <= TallyOf(rows, runs, scope, m) <= Tally(rows, scope, m)
  {
    if rows != [] {
      assert SpendOk(rows[|rows| - 1]);
      TallyOfBounds(rows[..|rows| - 1], runs, scope, m);
    }
  }

  lemma {:induction false} TallyOfCovers(rows: seq<Spend>, i: nat, scope: Option<BudgetKey>, m: Measure)
    requires i < |rows| && forall k | 0 <= k < |rows| :: SpendOk(rows[k])
    ensures Within(scope, rows[i].key) ==>
      Amount(m, rows[i].fee, rows[i].deposit) <= TallyOf(rows, {rows[i].run}, scope, m)
  {
    assert SpendOk(rows[|rows| - 1]);
    if i == |rows| - 1 {
      TallyOfBounds(rows[..|rows| - 1], {rows[i].run}, scope, m);
    } else {
      TallyOfCovers(rows[..|rows| - 1], i, scope, m);
    }
  }

  lemma {:induction false} SpentIsCovered(log: seq<Call>, db: Db, scope: Option<BudgetKey>, m: Measure)
    requires forall i | 0 <= i < |log| :: log[i].reservation < |db.spending|
                                          && Backed(db, log[i].run, log[i].quote, log[i].reservation)
    requires forall i, j | 0 <= i < j < |log| :: log[i].run != log[j].run
    requires forall k | 0 <= k < |db.spending| :: SpendOk(db.spending[k])
    ensures Spent(log, db.spending, scope, m) <= TallyOf(db.spending, set i | 0 <= i < |log| :: log[i].run, scope, m)
  {
    var runs := set i | 0 <= i < |log| :: log[i].run;
    if log == [] {
      TallyOfBounds(db.spending, runs, scope, m);
    } else {
      var n := |log| - 1;
      var c := log[n];
      var before := set i | 0 <= i < n :: log[..n][i].run;
      assert runs == before + {c.run};
      assert c.run !in before;
      SpentIsCovered(log[..n], db, scope, m);
      TallyOfSplits(db.spending, before, c.run, scope, m);
      TallyOfCovers(db.spending, c.reservation, scope, m);
      TallyOfBounds(db.spending, {c.run}, scope, m);
    }
  }

  /**
   The limits of all quotes ever passed to Anchor are within the reservations:
   over all days, and for each signer's day within that day's limit.
   */
  lemma SpendingWithinAllowance(s: State, scope: Option<BudgetKey>, m: Measure)
    requires Reachable(s)
    ensures forall i | 0 <= i < |s.log| :: s.log[i].reservation < |s.db.spending|
    ensures Spent(s.log, s.db.spending, scope, m) <= Tally(s.db.spending, scope, m)
    ensures scope.Some? && scope.value in s.db.budget ==>
              Spent(s.log, s.db.spending, scope, m) <= Limit(m, s.db.budget[scope.value])
    ensures scope.Some? && scope.value !in s.db.budget ==> Spent(s.log, s.db.spending, scope, m) <= 0
  {
    ReachableInv(s);
    var steps :| After(INITIAL, steps) == Some(s);
    LedgerAfter(steps);
    forall i | 0 <= i < |s.log| ensures s.log[i].reservation < |s.db.spending|
                                              && Backed(s.db, s.log[i].run, s.log[i].quote, s.log[i].reservation) {
      assert CallOk(s, i);
    }
    forall i, j | 0 <= i < j < |s.log| ensures s.log[i].run != s.log[j].run {
      assert Distinct(s, i, j);
    }
    SpentIsCovered(s.log, s.db, scope, m);
    TallyOfBounds(s.db.spending, set i | 0 <= i < |s.log| :: s.log[i].run, scope, m);
    if scope.Some? {
      BudgetIsTally(s, scope.value, m);
    }
  }
}
