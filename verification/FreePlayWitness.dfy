/** Executions that show where the guarantees of one signer and of one writer end. */
module FreePlayWitness {
  import opened Wrappers
  import opened FreePlayTables
  import opened FreePlayProtocol
  import opened FreePlayInvariant
  import opened FreePlaySafety

  lemma Extend(steps: seq<Step>, s: State, step: Step)
    requires After(INITIAL, steps) == Some(s) && Enabled(s, step)
    ensures After(INITIAL, steps + [step]) == Some(Apply(s, step))
  {
    assert (steps + [step])[..|steps|] == steps;
  }

  /** Two steps at once. */
  lemma Extend2(steps: seq<Step>, s: State, a: Step, b: Step, t: State)
    requires After(INITIAL, steps) == Some(s) && Enabled(s, a) && Enabled(Apply(s, a), b)
    requires Apply(Apply(s, a), b) == t
    ensures After(INITIAL, steps + [a, b]) == Some(t)
  {
    Extend(steps, s, a);
    Extend(steps + [a], Apply(s, a), b);
    assert steps + [a] + [b] == steps + [a, b];
  }

  /** Equal tables, worker by worker and row by row, are the same state. */
  lemma Same(s: State, t: State)
    requires s.db.runs == t.db.runs && s.db.quotes == t.db.quotes && s.db.outbox == t.db.outbox
    requires s.db.signers == t.db.signers && s.db.budget == t.db.budget && s.db.spending == t.db.spending
    requires s.now == t.now && s.workers == t.workers && s.log == t.log
    requires s.sender == t.sender && s.confirmer == t.confirmer
    ensures s == t
  {
  }

  const RUN := Run(5, 6, 7, 0)
  const QUOTE := Quote(10, 1, 6, 11, 1000, 3, 4)
  const ROW := OutboxRow(10, 11, None, 0, 0, 0, 0, 0, NoTx)
  const NEXT_QUOTE := Quote(20, 2, 6, 21, 1000, 3, 4)
  const NEXT_ROW := OutboxRow(20, 21, None, 0, 0, 0, 0, 0, NoTx)
  const LIMITS := Settings(0, 9, 90, 90)
  const RECEIPT := Receipt(2, 7, 1, true, Absent)
  const DAY := BudgetKey(0, 0)
  const QUOTES := map[10 := QuoteRow(QUOTE, true), 20 := QuoteRow(NEXT_QUOTE, true)]
  const SPEND := Spend(DAY, 1, 10, 3, 4)
  const LEASE := Lease(0, 0, 1, QUOTE, NoTx, 0, 0)
  const MARKED := OutboxRow(10, 11, Some(0), 60, 1, 0, 0, 0, Unknown)

  const SETTLED_RUNS := map[1 := RunRow(RUN, Confirmed, Some(RECEIPT)), 2 := RunRow(RUN, Queued, None)]
  const LEFT := OutboxRow(10, 11, Some(1), 0, 1, 0, 0, 0, Unknown)
  const TAKEN := OutboxRow(20, 21, Some(2), 160, 0, 0, 0, 0, NoTx)
  const NEXT_LEASE := Lease(0, 2, 2, NEXT_QUOTE, NoTx, 0, 0)
  const STRANGER := Worker(Lease(0, 1, 1, QUOTE, Unknown, 0, 0), Done, 0, 160)

  /** Run 1 is authored and a quote for it offered. */
  function Offered(): State {
    var runs, quotes := map[1 := RunRow(RUN, Verified, None)], map[10 := QuoteRow(QUOTE, false)];
    INITIAL.(db := EMPTY_DB.(runs := runs, quotes := quotes))
  }

  lemma OfferedReachable() returns (steps: seq<Step>)
    ensures After(INITIAL, steps) == Some(Offered())
  {
    var a, b := Author(1, RUN), Offer(QUOTE);
    Same(Apply(Apply(INITIAL, a), b), Offered());
    Extend2([], INITIAL, a, b, Offered());
    steps := [a, b];
    assert [] + steps == steps;
  }

  /** It is queued, and run 2 is authored. */
  function Second(): State {
    INITIAL.(db := EMPTY_DB.(runs := map[1 := RunRow(RUN, Queued, None), 2 := RunRow(RUN, Verified, None)],
                             quotes := map[10 := QuoteRow(QUOTE, true)], outbox := map[1 := ROW]))
  }

  lemma SecondReachable() returns (steps: seq<Step>)
    ensures After(INITIAL, steps) == Some(Second())
  {
    steps := OfferedReachable();
    var a, b := Authorize(1, 5, 6, 10, 11), Author(2, RUN);
    Same(Apply(Apply(Offered(), a), b), Second());
    Extend2(steps, Offered(), a, b, Second());
    steps := steps + [a, b];
  }

  /** Runs 1 and 2 are queued. */
  function Start(): State {
    INITIAL.(db := EMPTY_DB.(runs := map[1 := RunRow(RUN, Queued, None), 2 := RunRow(RUN, Queued, None)],
                             quotes := QUOTES, outbox := map[1 := ROW, 2 := NEXT_ROW]))
  }

  /** Run 2 has a quote, too. */
  function SecondOffered(): State {
    Second().(db := Second().db.(quotes := map[10 := QuoteRow(QUOTE, true), 20 := QuoteRow(NEXT_QUOTE, false)]))
  }

  lemma StartReachable() returns (steps: seq<Step>)
    ensures After(INITIAL, steps) == Some(Start())
  {
    steps := SecondReachable();
    var a, b := Offer(NEXT_QUOTE), Authorize(2, 5, 6, 20, 21);
    Same(Apply(Second(), a), SecondOffered());
    Same(Apply(SecondOffered(), b), Start());
    Extend2(steps, Second(), a, b, Start());
    steps := steps + [a, b];
  }

  /** Worker 0 of signer 0 took run 1 and did not find it on chain. */
  function Checked(): State {
    Start().(db := Start().db.(outbox := map[1 := ROW.(owner := Some(0), leaseUntil := 60), 2 := NEXT_ROW],
                               signers := map[0 := SignerRow(0, 60, None)]),
             workers := map[0 := Worker(LEASE, Authorized, 0, 60)])
  }

  lemma CheckedReachable() returns (steps: seq<Step>)
    ensures After(INITIAL, steps) == Some(Checked())
  {
    steps := StartReachable();
    var a, b := Claim(0, 0, 60, 1, true), Work(0, NotFound);
    Same(Apply(Apply(Start(), a), b), Checked());
    Extend2(steps, Start(), a, b, Checked());
    steps := steps + [a, b];
  }

  /** It reserved its allowance. */
  function AllowedFirst(): State {
    Checked().(db := Checked().db.(budget := map[DAY := BudgetRow(1, 3, 4, 9, 90, 90)], spending := [SPEND]),
               workers := map[0 := Worker(LEASE, Allowed, 0, 60)])
  }

  lemma AllowedFirstReachable() returns (steps: seq<Step>)
    ensures After(INITIAL, steps) == Some(AllowedFirst())
  {
    steps := CheckedReachable();
    var a := Work(0, Allow(LIMITS, 0, 0, Applied));
    Same(Apply(Checked(), a), AllowedFirst());
    Extend(steps, Checked(), a);
    steps := steps + [a];
  }

  /** It committed the marker. */
  function AtMark(): State {
    State(Db(map[1 := RunRow(RUN, Submitted, None), 2 := RunRow(RUN, Queued, None)], QUOTES,
             map[1 := MARKED, 2 := NEXT_ROW], map[0 := SignerRow(0, 60, Some(1))],
             map[DAY := BudgetRow(1, 3, 4, 9, 90, 90)], [SPEND]),
          0, map[0 := Worker(LEASE, Reserved, 0, 60)], [], map[1 := 0], map[])
  }

  lemma AtMarkReachable() returns (steps: seq<Step>)
    ensures After(INITIAL, steps) == Some(AtMark())
  {
    steps := AllowedFirstReachable();
    var a := Work(0, Mark(Applied));
    Same(Apply(AllowedFirst(), a), AtMark());
    Extend(steps, AllowedFirst(), a);
    steps := steps + [a];
  }

  /** It is about to call Anchor when it stalls past its lease. */
  function AtAnchor(): State {
    AtMark().(now := 100, workers := map[0 := Worker(LEASE, Sending, 0, 60)])
  }

  lemma AtAnchorReachable() returns (steps: seq<Step>)
    ensures After(INITIAL, steps) == Some(AtAnchor())
  {
    steps := AtMarkReachable();
    var a, b := Work(0, Check(true)), Tick(100);
    Same(Apply(Apply(AtMark(), a), b), AtAnchor());
    Extend2(steps, AtMark(), a, b, AtAnchor());
    steps := steps + [a, b];
  }

  /** Worker 1, of signer 1, takes the run over after Anchor was called. */
  function TakenOver(): State {
    AtAnchor().(db := AtAnchor().db.(outbox := map[1 := MARKED.(owner := Some(1), leaseUntil := 160), 2 := NEXT_ROW],
                                     signers := map[0 := SignerRow(0, 60, Some(1)), 1 := SignerRow(1, 160, None)]),
                log := [Call(0, 0, 1, QUOTE, 0)],
                workers := map[0 := Worker(LEASE, Saving(42), 0, 60),
                               1 := Worker(Lease(1, 1, 1, QUOTE, Unknown, 0, 0), Looking, 0, 160)])
  }

  lemma TakenOverReachable() returns (steps: seq<Step>)
    ensures After(INITIAL, steps) == Some(TakenOver())
  {
    steps := AtAnchorReachable();
    var a, b := Work(0, AnchorReturns(42)), Claim(1, 1, 160, 1, true);
    Same(Apply(Apply(AtAnchor(), a), b), TakenOver());
    Extend2(steps, AtAnchor(), a, b, TakenOver());
    steps := steps + [a, b];
  }

  lemma TakenOverSettles(a: Step, b: Step)
    requires a == Work(1, Found(RECEIPT)) && b == Work(1, Settle(Applied))
    ensures Enabled(TakenOver(), a) && Enabled(Apply(TakenOver(), a), b)
    ensures var s := Apply(Apply(TakenOver(), a), b); Settled(s.db, 1) && Pinned(s.db, 0, 1)
  {
  }

  /** Two signers: worker 1 confirms run 1 for signer 1, and signer 0 stays pinned to it. */
  lemma SecondSignerPinsFirst() returns (s: State)
    ensures Reachable(s) && Settled(s.db, 1) && Pinned(s.db, 0, 1)
  {
    var steps := TakenOverReachable();
    var a, b := Work(1, Found(RECEIPT)), Work(1, Settle(Applied));
    TakenOverSettles(a, b);
    s := Apply(Apply(TakenOver(), a), b);
    Extend2(steps, TakenOver(), a, b, s);
  }

  /** The chain shows run 1 before Anchor was called: worker 1 of signer 0 is about to confirm it. */
  function Strange(): State {
    State(Db(map[1 := RunRow(RUN, Submitted, None), 2 := RunRow(RUN, Queued, None)], QUOTES,
             map[1 := MARKED.(owner := Some(1), leaseUntil := 160), 2 := NEXT_ROW],
             map[0 := SignerRow(1, 160, Some(1))], map[DAY := BudgetRow(1, 3, 4, 9, 90, 90)], [SPEND]),
          100, map[0 := Worker(LEASE, Sending, 0, 60), 1 := STRANGER.(pc := Confirming(RECEIPT))],
          [], map[1 := 0], map[])
  }

  lemma StrangeReachable() returns (steps: seq<Step>)
    ensures After(INITIAL, steps) == Some(Strange())
  {
    steps := AtAnchorReachable();
    var a, b := Claim(1, 0, 160, 1, true), Work(1, Found(RECEIPT));
    Same(Apply(Apply(AtAnchor(), a), b), Strange());
    Extend2(steps, AtAnchor(), a, b, Strange());
    steps := steps + [a, b];
  }

  /** It confirmed run 1. */
  function Freed(): State {
    State(Db(SETTLED_RUNS, QUOTES, map[1 := LEFT, 2 := NEXT_ROW], map[0 := SignerRow(1, 0, None)],
             map[DAY := BudgetRow(1, 3, 4, 9, 90, 90)], [SPEND]),
          100, map[0 := Worker(LEASE, Sending, 0, 60), 1 := STRANGER], [], map[1 := 0], map[1 := 0])
  }

  lemma FreedReachable() returns (steps: seq<Step>)
    ensures After(INITIAL, steps) == Some(Freed())
  {
    steps := StrangeReachable();
    var a := Work(1, Settle(Applied));
    Same(Apply(Strange(), a), Freed());
    Extend(steps, Strange(), a);
    steps := steps + [a];
  }

  /** Worker 2 of the same signer takes run 2. */
  function Next(): State {
    State(Db(SETTLED_RUNS, QUOTES, map[1 := LEFT, 2 := TAKEN], map[0 := SignerRow(2, 160, None)],
             map[DAY := BudgetRow(1, 3, 4, 9, 90, 90)], [SPEND]),
          100, map[0 := Worker(LEASE, Sending, 0, 60), 1 := STRANGER, 2 := Worker(NEXT_LEASE, Looking, 0, 160)],
          [], map[1 := 0], map[1 := 0])
  }

  lemma NextReachable() returns (steps: seq<Step>)
    ensures After(INITIAL, steps) == Some(Next())
  {
    steps := FreedReachable();
    var a := Claim(2, 0, 160, 2, true);
    Same(Apply(Freed(), a), Next());
    Extend(steps, Freed(), a);
    steps := steps + [a];
  }

  /** Worker 2 reserves its allowance. */
  function NextAllowed(): State {
    State(Db(SETTLED_RUNS, QUOTES, map[1 := LEFT, 2 := TAKEN], map[0 := SignerRow(2, 160, None)],
             map[DAY := BudgetRow(2, 6, 8, 9, 90, 90)], [SPEND, Spend(DAY, 2, 20, 3, 4)]),
          100, map[0 := Worker(LEASE, Sending, 0, 60), 1 := STRANGER, 2 := Worker(NEXT_LEASE, Allowed, 1, 160)],
          [], map[1 := 0], map[1 := 0])
  }

  lemma NextAllowedReachable() returns (steps: seq<Step>)
    ensures After(INITIAL, steps) == Some(NextAllowed())
  {
    steps := NextReachable();
    var a, b := Work(2, NotFound), Work(2, Allow(LIMITS, 100, 100, Applied));
    NextAllows();
    Extend2(steps, Next(), a, b, NextAllowed());
    steps := steps + [a, b];
  }

  lemma NextAllows()
    ensures var a, b := Work(2, NotFound), Work(2, Allow(LIMITS, 100, 100, Applied));
      Enabled(Next(), a) && Enabled(Apply(Next(), a), b) && Apply(Apply(Next(), a), b) == NextAllowed()
  {
    var a, b := Work(2, NotFound), Work(2, Allow(LIMITS, 100, 100, Applied));
    Same(Apply(Apply(Next(), a), b), NextAllowed());
  }

  /** It commits its marker. */
  function NextMarked(): State {
    State(Db(map[1 := RunRow(RUN, Confirmed, Some(RECEIPT)), 2 := RunRow(RUN, Submitted, None)], QUOTES,
             map[1 := LEFT, 2 := OutboxRow(20, 21, Some(2), 160, 1, 0, 0, 0, Unknown)],
             map[0 := SignerRow(2, 160, Some(2))],
             map[DAY := BudgetRow(2, 6, 8, 9, 90, 90)], [SPEND, Spend(DAY, 2, 20, 3, 4)]),
          100, map[0 := Worker(LEASE, Sending, 0, 60), 1 := STRANGER, 2 := Worker(NEXT_LEASE, Reserved, 1, 160)],
          [], map[1 := 0, 2 := 0], map[1 := 0])
  }

  lemma NextMarkedReachable() returns (steps: seq<Step>)
    ensures After(INITIAL, steps) == Some(NextMarked())
  {
    steps := NextAllowedReachable();
    var a := Work(2, Mark(Applied));
    NextMarks();
    Extend(steps, NextAllowed(), a);
    steps := steps + [a];
  }

  lemma NextReserves()
    ensures ReserveBroadcast(NextAllowed().db, NEXT_LEASE, 100) == Ok(NextMarked().db)
  {
    var db := NextAllowed().db;
    assert OwnsSigner(db, NEXT_LEASE) && PendingAllows(db.signers[0], 2) && OwnsRow(db, NEXT_LEASE);
    var db' := ReserveBroadcast(db, NEXT_LEASE, 100).value;
    assert db'.runs == NextMarked().db.runs;
    assert db'.outbox == NextMarked().db.outbox && db'.signers == NextMarked().db.signers;
  }

  lemma NextMarks()
    ensures Enabled(NextAllowed(), Work(2, Mark(Applied)))
    ensures Apply(NextAllowed(), Work(2, Mark(Applied))) == NextMarked()
  {
    NextReserves();
    Same(Apply(NextAllowed(), Work(2, Mark(Applied))), NextMarked());
  }

  /**
   With an entry on chain that this database never anchored, a worker that calls
   Anchor after its lease ended, hence past its deadline, can do so while the
   same signer's next run is unsettled.
   */
  lemma StrangerEntryOverlaps() returns (s: State)
    ensures Reachable(s) && 0 in s.workers && s.now >= s.workers[0].until
    ensures s.workers[0].pc == Sending && s.workers[0].lease.run == 1
    ensures |s.log| == 1 && s.log[0].run == 2 && s.log[0].signer == s.workers[0].lease.signer
    ensures 2 in s.db.runs && s.db.runs[2].status == Submitted
  {
    var steps := NextMarkedReachable();
    var a, b := Work(2, Check(true)), Work(2, AnchorReturns(43));
    s := Apply(Apply(NextMarked(), a), b);
    Extend2(steps, NextMarked(), a, b, s);
  }
}
