/**
 What the publication protocol gets done when nothing goes wrong: a waiting row
 is claimed, a claimed run is published and confirmed, and a run that failed
 waits for its next try or its next authorization.
 */
module FreePlayProgress {
  import opened Wrappers
  import opened FreePlayTables
  import opened FreePlayProtocol
  import opened FreePlayInvariant
  import opened FreePlaySafety

  // ----- a waiting row is claimed

  /** The row's run is to be published or confirmed, nobody holds it, and it has tries left or is on its way. */
  predicate Waits(db: Db, id: RunId, now: int) {
    && id in db.outbox && id in db.runs && (db.runs[id].status == Queued || db.runs[id].status == Submitted)
    && db.outbox[id].leaseUntil <= now && db.outbox[id].nextCheck <= now
    && (db.outbox[id].tx == NoTx ==> db.outbox[id].failures < 8)
  }

  lemma {:induction false} FirstOf(db: Db, ids: set<RunId>) returns (first: RunId)
    requires ids != {} && forall id <- ids :: id in db.runs
    ensures first in ids && forall id <- ids :: Precedes(db, first, id)
  {
    first :| first in ids;
    var rest := ids - {first};
    if rest != {} {
      var other := first;
      var next := FirstOf(db, rest);
      if Precedes(db, next, other) { first := next; }
      forall id <- ids ensures Precedes(db, first, id) {
        assert id == other || Precedes(db, next, id);
      }
    } else {
      forall id <- ids ensures id == first {
        assert id !in rest;
      }
    }
  }

  lemma {:induction false} ClockForward(s: State, steps: seq<Step>)
    requires After(s, steps).Some?
    ensures After(s, steps).value.now >= s.now
  {
    if steps != [] { ClockForward(s, steps[..|steps| - 1]); }
  }

  lemma ClockStarted(s: State)
    requires Reachable(s)
    ensures s.now >= 0
  {
    var steps :| After(INITIAL, steps) == Some(s);
    ClockForward(INITIAL, steps);
  }

  /** A free signer that is pinned to no other run can claim, whenever some row waits. */
  lemma ClaimComes(s: State, token: Token, g: Signer, until: int, id: RunId) returns (row: RunId)
    requires Reachable(s) && Waits(s.db, id, s.now) && token !in s.workers && until > s.now
    requires g in s.db.signers ==>
      s.db.signers[g].leaseUntil <= s.now && (s.db.signers[g].pending.None? || s.db.signers[g].pending == Some(id))
    ensures Enabled(s, Claim(token, g, until, row, true))
  {
    ReachableInv(s);
    assert RowSound(s.db, id);
    var ids := set x | x in s.db.outbox && Eligible(s.db, g, s.now, x);
    assert id in ids;
    row := FirstOf(s.db, ids);
    forall x | x in s.db.outbox ensures s.db.outbox[x].owner != Some(token) {
      assert RowSound(s.db, x) && RowOk(s, x);
    }
  }

  // ----- a claimed run is published

  lemma Then(s: State, steps: seq<Step>, last: State, step: Step, next: State)
    requires After(s, steps) == Some(last) && Enabled(last, step) && next == Apply(last, step)
    ensures After(s, steps + [step]) == Some(next)
  {
    assert (steps + [step])[..|steps|] == steps;
  }

  /** The worker holds its row and its signer, the signer is pinned like this, and the row is marked like this. */
  predicate AtWork(s: State, t: Token, pc: Pc, pin: Option<RunId>, mark: TxMark) {
    && t in s.workers && s.workers[t].pc == pc
    && var l := s.workers[t].lease;
       && l.run in s.db.runs && OwnsRow(s.db, l) && OwnsSigner(s.db, l) && l.owner == t
       && s.db.outbox[l.run].tx == mark && s.db.signers[l.signer].pending == pin
  }

  /** The operator's limits leave room for the quote today. */
  predicate Affordable(db: Db, st: Settings, q: Quote, now: int) {
    && ValidSettings(st) && 0 < q.maxFee <= st.maxFee && 0 < q.maxDeposit <= st.maxDeposit
    && var key := BudgetKey(st.signer, now / 86400);
       key in db.budget ==>
         var b := db.budget[key];
         && b.maxAttempts == st.maxAttempts && b.maxFee == st.maxFee && b.maxDeposit == st.maxDeposit
         && 0 <= b.attempts < st.maxAttempts
         && 0 <= b.fee <= st.maxFee - q.maxFee && 0 <= b.deposit <= st.maxDeposit - q.maxDeposit
  }

  /** The worker's run was never sent, and its authorization covers it and has not run out. */
  predicate Covered(s: State, t: Token, st: Settings)
    requires t in s.workers && s.workers[t].lease.run in s.db.runs
  {
    var l := s.workers[t].lease;
    && l.tx == NoTx && l.quote.expiresAt > s.now && l.quote.payload == s.db.runs[l.run].run.payload
    && st.signer == l.signer && Affordable(s.db, st, l.quote, s.now)
  }

  /** The allowance is reserved. */
  lemma AllowsNext(s: State, t: Token, st: Settings, pin: Option<RunId>) returns (s': State)
    requires Reachable(s) && AtWork(s, t, Looking, pin, NoTx) && s.now < s.workers[t].until && Covered(s, t, st)
    requires pin.None? || pin == Some(s.workers[t].lease.run)
    ensures After(s, [Work(t, NotFound), Work(t, Allow(st, s.now, s.now, Applied))]) == Some(s')
    ensures AtWork(s', t, Allowed, pin, NoTx) && s'.now == s.now && s'.log == s.log
    ensures s'.workers[t].lease == s.workers[t].lease && s'.db.runs == s.db.runs
  {
    var l := s.workers[t].lease;
    var s1 := Apply(s, Work(t, NotFound));
    Then(s, [], s, Work(t, NotFound), s1);
    CoversAtWork(s, t, st);
    assert s1 == s.(workers := s.workers[t := s.workers[t].(pc := Authorized)]);
    RoomForIt(s.db, st, l.run, l.quote, s.now);
    s' := Apply(s1, Work(t, Allow(st, s.now, s.now, Applied)));
    Then(s, [Work(t, NotFound)], s1, Work(t, Allow(st, s.now, s.now, Applied)), s');
  }

  lemma RoomForIt(db: Db, st: Settings, run: RunId, q: Quote, now: int)
    requires Leased(db, st, run, q, now) && Objection(db, st, run, q, now).None? && Affordable(db, st, q, now)
    ensures ReserveAllowance(db, st, run, q, now, now, now).Ok?
  {
  }

  lemma CoversAtWork(s: State, t: Token, st: Settings)
    requires Reachable(s) && t in s.workers && s.workers[t].pc == Looking && s.now < s.workers[t].until
    requires var l := s.workers[t].lease;
      && l.run in s.db.runs && Covered(s, t, st) && OwnsSigner(s.db, l)
      && (s.db.signers[l.signer].pending.None? || s.db.signers[l.signer].pending == Some(l.run))
    ensures var l := s.workers[t].lease;
      Leased(s.db, st, l.run, l.quote, s.now) && Objection(s.db, st, l.run, l.quote, s.now).None?
  {
    ReachableInv(s);
    var steps :| After(INITIAL, steps) == Some(s);
    LeaseKeptAfter(steps, t);
    var l := s.workers[t].lease;
    assert WorkerOk(s, t) && RowSound(s.db, l.run) && RowOk(s, l.run);
    assert RowOf(s, l.run, t);
  }

  /** The broadcast is reserved and made. */
  lemma SendsNext(s: State, t: Token, pin: Option<RunId>, hash: nat) returns (s': State)
    requires AtWork(s, t, Allowed, pin, NoTx) && s.workers[t].lease.quote.expiresAt > s.now
    requires pin.None? || pin == Some(s.workers[t].lease.run)
    ensures var l := s.workers[t].lease;
      && After(s, [Work(t, Mark(Applied)), Work(t, Check(true)), Work(t, AnchorReturns(hash))]) == Some(s')
      && AtWork(s', t, Saving(hash), Some(l.run), Unknown) && s'.now == s.now && s'.workers[t].lease == l
      && s'.db.runs[l.run].run == s.db.runs[l.run].run && |s'.log| == |s.log| + 1 && s'.log[|s.log|].run == l.run
  {
    var a, b, c := Work(t, Mark(Applied)), Work(t, Check(true)), Work(t, AnchorReturns(hash));
    assert ReserveBroadcast(s.db, s.workers[t].lease, s.now).Ok?;
    var s1 := Apply(s, a);
    var s2 := Apply(s1, b);
    s' := Apply(s2, c);
    ThreeSteps(s, a, b, c, s1, s2, s');
  }

  lemma ThreeSteps(s: State, a: Step, b: Step, c: Step, s1: State, s2: State, s3: State)
    requires Enabled(s, a) && s1 == Apply(s, a) && Enabled(s1, b) && s2 == Apply(s1, b)
    requires Enabled(s2, c) && s3 == Apply(s2, c)
    ensures After(s, [a, b, c]) == Some(s3)
  {
    Then(s, [], s, a, s1);
    assert [a] == [] + [a] && [a, b] == [a] + [b] && [a, b, c] == [a, b] + [c];
    Then(s, [a], s1, b, s2);
    Then(s, [a, b], s2, c, s3);
  }

  /** The hash is saved, the entry is found, and the run is confirmed. */
  lemma ConfirmsNext(s: State, t: Token, hash: nat, rc: Receipt) returns (s': State)
    requires t in s.workers && AtWork(s, t, Saving(hash), Some(s.workers[t].lease.run), Unknown) && s.now >= 0
    requires ValidReceipt(s.db.runs[s.workers[t].lease.run].run, rc) && (rc.tx == Absent || rc.tx == Canonical(hash))
    ensures var l := s.workers[t].lease;
      && After(s, [Work(t, Keep(Applied)), Work(t, Found(rc)), Work(t, Settle(Applied))]) == Some(s')
      && l.run in s'.db.runs && s'.db.runs[l.run].status == Confirmed && s'.db.runs[l.run].receipt == Some(rc)
      && s'.log == s.log && SignerFree(s'.db, l.signer, s'.now) && PendingOf(s'.db, l.signer) == None
  {
    var a, b, c := Work(t, Keep(Applied)), Work(t, Found(rc)), Work(t, Settle(Applied));
    var s1 := Apply(s, a);
    var l := s.workers[t].lease;
    assert s1.workers[t].pc == Reading && s1.workers[t].lease == l.(tx := Hash(hash));
    var s2 := Apply(s1, b);
    assert s2.workers[t].pc == Confirming(rc) && s2.workers[t].lease == l.(tx := Hash(hash)) && s2.db == s1.db;
    s' := Apply(s2, c);
    ThreeSteps(s, a, b, c, s1, s2, s');
  }

  /** What one worker does with a run that is not on chain yet, when every call goes well. */
  function Publishing(t: Token, st: Settings, now: int, hash: nat, rc: Receipt): seq<Step> {
    [Work(t, NotFound), Work(t, Allow(st, now, now, Applied))]
    + [Work(t, Mark(Applied)), Work(t, Check(true)), Work(t, AnchorReturns(hash))]
    + [Work(t, Keep(Applied)), Work(t, Found(rc)), Work(t, Settle(Applied))]
  }

  /**
   In every reachable state a worker that just claimed a run which was never sent, with an authorization that covers
   it and room in the day's limits, can publish it with one call of Anchor; the signer is free for the next run.
   */
  lemma Publishes(s: State, t: Token, st: Settings, hash: nat, rc: Receipt) returns (s': State)
    requires Reachable(s) && t in s.workers && s.workers[t].pc == Looking && s.now < s.workers[t].until
    requires var l := s.workers[t].lease;
      && l.run in s.db.runs && Covered(s, t, st)
      && (PendingOf(s.db, l.signer) == None || PendingOf(s.db, l.signer) == Some(l.run))
      && ValidReceipt(s.db.runs[l.run].run, rc) && (rc.tx == Absent || rc.tx == Canonical(hash))
    ensures var l := s.workers[t].lease;
      && After(s, Publishing(t, st, s.now, hash, rc)) == Some(s')
      && l.run in s'.db.runs && s'.db.runs[l.run].status == Confirmed && s'.db.runs[l.run].receipt == Some(rc)
      && |s'.log| == |s.log| + 1 && s'.log[|s.log|].run == l.run
      && SignerFree(s'.db, l.signer, s'.now) && PendingOf(s'.db, l.signer) == None
  {
    var l := s.workers[t].lease;
    var pin := PendingOf(s.db, l.signer);
    StartsAtWork(s, t);
    var a := [Work(t, NotFound), Work(t, Allow(st, s.now, s.now, Applied))];
    var b := [Work(t, Mark(Applied)), Work(t, Check(true)), Work(t, AnchorReturns(hash))];
    var s1 := AllowsNext(s, t, st, pin);
    ClockStarted(s);
    var s2 := SendsNext(s1, t, pin, hash);
    s' := ConfirmsNext(s2, t, hash, rc);
    AfterJoin(s, a, b);
    AfterJoin(s, a + b, [Work(t, Keep(Applied)), Work(t, Found(rc)), Work(t, Settle(Applied))]);
  }

  lemma StartsAtWork(s: State, t: Token)
    requires Reachable(s) && t in s.workers && s.workers[t].pc == Looking && s.now < s.workers[t].until
    requires s.workers[t].lease.run in s.db.runs && s.workers[t].lease.tx == NoTx
    ensures AtWork(s, t, Looking, PendingOf(s.db, s.workers[t].lease.signer), NoTx)
  {
    ReachableInv(s);
    var steps :| After(INITIAL, steps) == Some(s);
    LeaseKeptAfter(steps, t);
    assert WorkerOk(s, t) && RowOk(s, s.workers[t].lease.run);
  }

  /** A worker that finds the entry of its run, sent by whomever, confirms it. */
  lemma ConfirmsFound(s: State, t: Token, rc: Receipt) returns (s': State)
    requires Reachable(s) && t in s.workers && s.workers[t].pc == Looking && s.now < s.workers[t].until
    requires var l := s.workers[t].lease;
      && l.run in s.db.runs && ValidReceipt(s.db.runs[l.run].run, rc)
      && (l.tx.Hash? ==> rc.tx == Absent || rc.tx == Canonical(l.tx.hash))
    ensures var l := s.workers[t].lease;
      && After(s, [Work(t, Found(rc)), Work(t, Settle(Applied))]) == Some(s')
      && l.run in s'.db.runs && s'.db.runs[l.run].status == Confirmed && s'.db.runs[l.run].receipt == Some(rc)
      && (PendingOf(s.db, l.signer) == Some(l.run) ==> PendingOf(s'.db, l.signer) == None)
  {
    ReachableInv(s);
    var steps :| After(INITIAL, steps) == Some(s);
    LeaseKeptAfter(steps, t);
    var s1 := Apply(s, Work(t, Found(rc)));
    assert s1 == s.(workers := s.workers[t := s.workers[t].(pc := Confirming(rc))]);
    s' := Apply(s1, Work(t, Settle(Applied)));
    Then(s, [], s, Work(t, Found(rc)), s1);
    Then(s, [Work(t, Found(rc))], s1, Work(t, Settle(Applied)), s');
    assert [] + [Work(t, Found(rc))] + [Work(t, Settle(Applied))] == [Work(t, Found(rc)), Work(t, Settle(Applied))];
  }

  // ----- a failure is tried again

  /** A worker that holds its lease and fails leaves the row to be tried again within five minutes. */
  lemma TriedAgain(s: State, t: Token, mark: TxMark, later: int)
    requires Reachable(s) && t in s.workers && s.workers[t].pc == Failing(mark) && s.now < s.workers[t].until
    requires later >= s.now + 300 && later > 0
    ensures var l, s' := s.workers[t].lease, Apply(s, Work(t, Record(Applied)));
      && l.run in s'.db.outbox && l.run in s'.db.runs && s'.db.outbox[l.run].leaseUntil == 0
      && SignerFree(s'.db, l.signer, later)
      && (s'.db.runs[l.run].status != Confirmed && (s'.db.outbox[l.run].tx == NoTx ==> s'.db.outbox[l.run].failures < 8)
          ==> Waits(s'.db, l.run, later))
      && (s'.db.outbox[l.run].tx == NoTx ==> s'.db.outbox[l.run].failures == s.db.outbox[l.run].failures + 1)
  {
    ReachableInv(s);
    var steps :| After(INITIAL, steps) == Some(s);
    LeaseKeptAfter(steps, t);
    var l := s.workers[t].lease;
    assert WorkerOk(s, t) && RowSound(s.db, l.run) && RowOk(s, l.run);
  }

  // ----- an authorization comes through

  /** A verified run is queued by a fresh quote of its own. */
  lemma Authorizes(s: State, id: RunId, quote: QuoteId)
    requires Reachable(s) && id in s.db.runs && s.db.runs[id].status == Verified
    requires quote in s.db.quotes && !s.db.quotes[quote].consumed
    requires var q := s.db.quotes[quote].quote;
      q.run == id && q.payload == s.db.runs[id].run.payload && q.expiresAt > s.now
    ensures var run, q := s.db.runs[id].run, s.db.quotes[quote].quote;
      var s' := Apply(s, Authorize(id, run.player, run.payload, quote, q.nonce));
      s'.db.runs[id].status == Queued && Waits(s'.db, id, s.now)
  {
    ReachableInv(s);
    ClockStarted(s);
    assert RowSound(s.db, id);
  }

  /** A run that was never sent, whose authorization ran out and whom nobody holds, is authorized again. */
  lemma Reauthorizes(s: State, id: RunId, quote: QuoteId)
    requires Reachable(s) && id in s.db.runs && id in s.db.outbox && s.db.runs[id].status == Queued
    requires s.db.outbox[id].leaseUntil <= s.now && s.db.outbox[id].quote in s.db.quotes
    requires s.db.quotes[s.db.outbox[id].quote].quote.expiresAt <= s.now
    requires quote in s.db.quotes && !s.db.quotes[quote].consumed
    requires var q := s.db.quotes[quote].quote;
      q.run == id && q.payload == s.db.runs[id].run.payload && q.expiresAt > s.now
    ensures var run, q := s.db.runs[id].run, s.db.quotes[quote].quote;
      var s' := Apply(s, Authorize(id, run.player, run.payload, quote, q.nonce));
      s'.db.outbox[id].quote == quote && s'.db.outbox[id].failures == 0 && Waits(s'.db, id, s.now)
  {
    ReachableInv(s);
    ClockStarted(s);
    assert RowSound(s.db, id);
  }
}
