/**
 The store, statement by statement: each method opens a transaction on a copy of
 the tables, runs its SQL statements in order, and either returns early, which
 rolls back, or commits. What it commits is the transaction of the same name in
 `FreePlayTables`, on which the safety of all executions is proved.
 */
module FreePlayStore {
  import opened Wrappers
  import opened FreePlayTables

  type Reply = Result<(), Failure>

  /** A reply tells the truth unless the commit itself was ambiguous. */
  ghost predicate Answers(r: Reply, o: Outcome, commit: Commit) {
    if o.Err? then r == Err(o.error) else if commit.Applied? then r == Ok(()) else r == Err(CommitFailed)
  }

  /** The row waits, nobody holds it, the signer may take it, and it has tries left or is on its way. */
  predicate Due(db: Db, signer: Signer, now: int, id: RunId)
    requires id in db.outbox
  {
    && id in db.runs && (db.runs[id].status == Queued || db.runs[id].status == Submitted)
    && db.outbox[id].quote in db.quotes
    && db.outbox[id].leaseUntil <= now && db.outbox[id].nextCheck <= now
    && (db.outbox[id].tx == NoTx ==> db.outbox[id].failures < 8)
    && (signer in db.signers && db.signers[signer].pending.Some? ==> db.signers[signer].pending.value == id)
  }

  /** The signer is free, the token is new, and some row waits. */
  ghost predicate Claimable(db: Db, signer: Signer, owner: Token, now: int, until: int) {
    until > now && SignerFree(db, signer, now) && !TokenUsed(db, owner) && exists id :: Eligible(db, signer, now, id)
  }

  /** The run is queued on the quote, was never sent, and is held by the owner of the signer, pinned nowhere else. */
  predicate HeldBy(db: Db, signer: Signer, run: RunId, q: Quote, now: int) {
    && run in db.runs && db.runs[run].status == Queued && q.id in db.quotes && db.quotes[q.id] == QuoteRow(q, true)
    && run in db.outbox && signer in db.signers
    && db.outbox[run].quote == q.id && db.outbox[run].nonce == q.nonce
    && db.outbox[run].tx == NoTx && db.outbox[run].attempts == 0
    && db.outbox[run].owner == Some(db.signers[signer].owner)
    && db.outbox[run].leaseUntil > now && db.signers[signer].leaseUntil > now
    && (db.signers[signer].pending.Some? ==> db.signers[signer].pending.value == run)
  }

  /** The `tx_hash` of a row, empty when there is none. */
  function MarkOf(db: Db, id: RunId): TxMark {
    if id in db.outbox then db.outbox[id].tx else NoTx
  }

  /** Of the outbox, the quotes and the budget only the row of `id` may differ, and its quote and owner do not. */
  ghost predicate OnlyRow(db: Db, db': Db, id: RunId) {
    && db'.quotes == db.quotes && db'.budget == db.budget && db'.spending == db.spending
    && db'.outbox.Keys == db.outbox.Keys
    && (forall x | x in db.outbox && x != id :: db'.outbox[x] == db.outbox[x])
    && (id in db.outbox ==>
          && db'.outbox[id].quote == db.outbox[id].quote && db'.outbox[id].owner == db.outbox[id].owner
          && db'.outbox[id].attempts == db.outbox[id].attempts)
  }

  ghost predicate OnlyRun(db: Db, db': Db, id: RunId) {
    db'.runs.Keys == db.runs.Keys && forall x | x in db.runs && x != id :: db'.runs[x] == db.runs[x]
  }

  /** No quote is released, and none but `quote` is consumed, for the run it was issued for. */
  ghost predicate OnlyQuote(db: Db, db': Db, quote: QuoteId, id: RunId) {
    && db'.quotes.Keys == db.quotes.Keys
    && forall q | q in db.quotes :: db'.quotes[q] == db.quotes[q]
         || (q == quote && !db.quotes[q].consumed && db.quotes[q].quote.run == id
             && db'.quotes[q] == db.quotes[q].(consumed := true))
  }

  /** Beside the row of `id`, the outbox, the quotes and the budget are the same. */
  ghost predicate OtherRowsKept(db: Db, db': Db, id: RunId) {
    && db'.budget == db.budget && db'.spending == db.spending
    && (forall x | x in db'.outbox :: x == id || (x in db.outbox && db'.outbox[x] == db.outbox[x]))
    && (forall x | x in db.outbox :: x in db'.outbox)
  }

  class Store {
    var db: Db

    constructor ()
      ensures db == EMPTY_DB
    {
      db := EMPTY_DB;
    }

    method Commit(tx: Db, commit: Commit) returns (r: Reply)
      modifies this
      ensures db == if commit.Refused? then old(db) else tx
      ensures r == if commit.Applied? then Ok(()) else Err(CommitFailed)
    {
      if !commit.Refused? {
        db := tx;
      }
      r := if commit.Applied? then Ok(()) else Err(CommitFailed);
    }

    /**
     Success leaves the run authorized by the quote, which is consumed. No other row changes, no pin, no mark of
     an authorized run, and no run but a verified one, which becomes queued.
     */
    method Queue(id: RunId, player: nat, payload: nat, quote: QuoteId, nonce: nat, now: int, commit: Commit)
      returns (r: Reply)
      modifies this
      ensures var o := FreePlayTables.Queue(old(db), id, player, payload, quote, nonce, now);
              db == Tables(old(db), o, commit) && Answers(r, o, commit)
      ensures OtherRowsKept(old(db), db, id) && OnlyQuote(old(db), db, quote, id) && db.signers == old(db).signers
      ensures forall x :: MarkOf(db, x) == MarkOf(old(db), x)
                || (x == id && x in old(db).outbox && old(db).outbox[x].quote !in old(db).quotes)
      ensures OnlyRun(old(db), db, id)
      ensures id in old(db).runs && db.runs[id] != old(db).runs[id] ==>
                old(db).runs[id].status == Verified && db.runs[id] == old(db).runs[id].(status := Queued)
      ensures r.Ok? ==> id in db.outbox && db.outbox[id].quote == quote && db.outbox[id].nonce == nonce
      ensures db != old(db) ==> id in old(db).runs && quote in old(db).quotes && !old(db).quotes[quote].consumed
      ensures db != old(db) ==>
                var run, q := old(db).runs[id].run, old(db).quotes[quote].quote;
                && q.run == id && q.payload == payload && q.nonce == nonce && now < q.expiresAt
                && run.player == player && run.payload == payload
    {
      var tx := db;
      if id !in tx.runs || tx.runs[id].run.player != player {
        return Err(Missing);
      }
      if tx.runs[id].run.payload != payload {
        return Err(Conflict);
      }
      var status := tx.runs[id].status;
      var replace := false;
      if id in tx.outbox && tx.outbox[id].quote in tx.quotes {
        var old_ := tx.outbox[id];
        if old_.quote == quote && old_.nonce == nonce {
          r := Commit(tx, commit);
          return;
        }
        if status != Queued || old_.tx != NoTx || old_.attempts != 0
           || old_.leaseUntil > now || tx.quotes[old_.quote].quote.expiresAt > now {
          return Err(Conflict);
        }
        replace := true;
      }
      if status != Verified && !replace {
        return Err(Conflict);
      }
      var n := 0;
      if Consumable(tx, id, payload, quote, nonce, now) {
        tx := tx.(quotes := tx.quotes[quote := tx.quotes[quote].(consumed := true)]);
        n := 1;
      }
      if n != 1 {
        return Err(QuoteExpired);
      }
      if replace {
        var row := tx.outbox[id].(quote := quote, nonce := nonce, owner := None, leaseUntil := 0,
                                  failures := 0, polls := 0, nextCheck := 0);
        tx := tx.(outbox := tx.outbox[id := row]);
      } else {
        tx := tx.(outbox := tx.outbox[id := OutboxRow(quote, nonce, None, 0, 0, 0, 0, 0, NoTx)]);
      }
      tx := tx.(runs := tx.runs[id := tx.runs[id].(status := Queued)]);
      r := Commit(tx, commit);
    }

    /** The first eligible row in the claim's order, found by a scan of the outbox. */
    static method SelectNext(tx: Db, signer: Signer, now: int) returns (best: Option<RunId>)
      ensures best.None? ==> forall id :: !Eligible(tx, signer, now, id)
      ensures best.Some? ==> Selected(tx, signer, now, best.value)
    {
      best := None;
      var rest := tx.outbox.Keys;
      while rest != {}
        invariant rest <= tx.outbox.Keys
        invariant best.Some? ==> Eligible(tx, signer, now, best.value)
        invariant forall id <- tx.outbox.Keys - rest :: Eligible(tx, signer, now, id) ==>
                    best.Some? && Precedes(tx, best.value, id)
        decreases rest
      {
        var id :| id in rest;
        if Eligible(tx, signer, now, id) && (best.None? || !Precedes(tx, best.value, id)) {
          best := Some(id);
        }
        rest := rest - {id};
      }
    }

    /**
     The claimed row is due and free, for a signer that is not pinned elsewhere, and before its broadcast it has
     failed fewer than eight times; if there is such a row and nothing else is in the way, one is claimed.
     */
    method Claim(signer: Signer, owner: Token, now: int, until: int, commit: Commit) returns (lease: Option<Lease>)
      modifies this
      ensures if !Claimable(old(db), signer, owner, now, until) || commit.Refused? then
                db == old(db) && lease == None
              else
                exists id :: Selected(old(db), signer, now, id) && db == Claimed(old(db), signer, owner, until, id)
                             && lease == if commit.Applied? then Some(LeaseOn(old(db), signer, owner, id)) else None
      ensures lease.Some? ==> lease.value.run in old(db).outbox && Due(old(db), signer, now, lease.value.run)
      ensures lease.Some? ==>
                && now < until && (signer in old(db).signers ==> old(db).signers[signer].leaseUntil <= now)
                && forall id <- old(db).outbox :: old(db).outbox[id].owner != Some(owner)
      ensures lease.Some? ==>
                var l, o := lease.value, old(db).outbox[lease.value.run];
                && l == Lease(signer, owner, l.run, old(db).quotes[o.quote].quote, o.tx, o.failures, o.polls)
                && l.run in db.outbox && db.outbox[l.run] == o.(owner := Some(owner), leaseUntil := until)
                && signer in db.signers && db.signers[signer].owner == owner && db.signers[signer].leaseUntil == until
      ensures lease.Some? ==> forall id | id in old(db).outbox && Due(old(db), signer, now, id) ::
                var first, other := old(db).runs[lease.value.run], old(db).runs[id];
                && (other.status == Submitted ==> first.status == Submitted)
                && (other.status == first.status ==> first.run.createdAt <= other.run.createdAt)
      ensures (forall id | id in old(db).outbox && id in old(db).runs :: !Due(old(db), signer, now, id)) ==>
                db == old(db) && lease == None
      ensures (forall id | id in old(db).outbox && id in old(db).runs ::
                 old(db).runs[id].status in {Queued, Submitted} ==>
                   old(db).outbox[id].tx == NoTx && old(db).outbox[id].failures >= 8) ==>
                db == old(db) && lease == None
      ensures commit.Applied? && until > now && SignerFree(old(db), signer, now) && !TokenUsed(old(db), owner)
              && (exists id :: id in old(db).outbox && Due(old(db), signer, now, id)) ==>
                lease.Some?
    {
      if until <= now {
        return None;
      }
      var tx := db;
      var pending := None;
      if signer in tx.signers {
        if tx.signers[signer].leaseUntil > now {
          return None;
        }
        pending := tx.signers[signer].pending;
      }
      tx := tx.(signers := tx.signers[signer := SignerRow(owner, until, pending)]);
      if TokenUsed(tx, owner) {
        return None;
      }
      var row := SelectNext(tx, signer, now);
      SameChoice(db, tx, signer, now);
      DueIsEligible(db, signer, now);
      if row.None? {
        return None;
      }
      var id := row.value;
      tx := tx.(outbox := tx.outbox[id := tx.outbox[id].(owner := Some(owner), leaseUntil := until)]);
      assert tx == Claimed(db, signer, owner, until, id);
      var o := tx.outbox[id];
      var found := Lease(signer, owner, id, tx.quotes[o.quote].quote, o.tx, o.failures, o.polls);
      var r := Commit(tx, commit);
      lease := if r.Ok? then Some(found) else None;
    }

    /**
     One more spending row, and its amounts in the counters of the signer's day, which stay within the limits;
     or nothing at all.
     */
    method ReserveAllowance(st: Settings, run: RunId, q: Quote, before: int, locked: int, after: int, commit: Commit)
      returns (r: Reply)
      modifies this
      ensures var o := FreePlayTables.ReserveAllowance(old(db), st, run, q, before, locked, after);
              db == Tables(old(db), o, commit) && Answers(r, o, commit)
      ensures db == old(db).(budget := db.budget, spending := db.spending)
      ensures db != old(db) ==>
                var key := BudgetKey(st.signer, Day(locked));
                && db.spending == old(db).spending + [Spend(key, run, q.id, q.maxFee, q.maxDeposit)]
                && key in db.budget && db.budget[key].attempts == BudgetAt(old(db), st, key).attempts + 1
                && db.budget[key].fee == BudgetAt(old(db), st, key).fee + q.maxFee
                && db.budget[key].deposit == BudgetAt(old(db), st, key).deposit + q.maxDeposit
                && db.budget[key].attempts <= st.maxAttempts && db.budget[key].fee <= st.maxFee
                && db.budget[key].deposit <= st.maxDeposit
      ensures db != old(db) ==>
                && run in old(db).runs && q.run == run && q.payload == old(db).runs[run].run.payload
                && before < q.expiresAt && locked < q.expiresAt && after < q.expiresAt
                && 0 < q.maxFee <= st.maxFee && 0 < q.maxDeposit <= st.maxDeposit
      ensures db != old(db) ==> HeldBy(old(db), st.signer, run, q, locked)
      ensures forall k | k != BudgetKey(st.signer, Day(locked)) ::
                (k in db.budget <==> k in old(db).budget) && (k in db.budget ==> db.budget[k] == old(db).budget[k])
      ensures r.Ok? ==> db != old(db) && Day(after) == Day(locked)
    {
      var objection := Objection(db, st, run, q, before);
      if objection.Some? {
        return Err(objection.value);
      }
      var tx := db;
      objection := Objection(tx, st, run, q, locked);
      if objection.Some? {
        return Err(objection.value);
      }
      var key := BudgetKey(st.signer, Day(locked));
      if !Leased(tx, st, run, q, locked) {
        return Err(Conflict);
      }
      if key !in tx.budget {
        tx := tx.(budget := tx.budget[key := BudgetRow(0, 0, 0, st.maxAttempts, st.maxFee, st.maxDeposit)]);
      }
      var row := tx.budget[key];
      if !Allows(st, row, q) {
        return Err(BudgetUnavailable);
      }
      tx := tx.(budget := tx.budget[key := row.(attempts := row.attempts + 1, fee := row.fee + q.maxFee,
                                                deposit := row.deposit + q.maxDeposit)]);
      tx := tx.(spending := tx.spending + [Spend(key, run, q.id, q.maxFee, q.maxDeposit)]);
      objection := Objection(tx, st, run, q, after);
      if objection.Some? {
        return Err(objection.value);
      }
      if Day(after) != Day(locked) {
        return Err(BudgetUnavailable);
      }
      r := Commit(tx, commit);
    }

    /**
     A mark changes only from empty to ambiguous, for the owner of the row and the signer on an unexpired quote,
     and only together with the signer's pin to the run, which was free or this run's before.
     */
    method ReserveBroadcast(l: Lease, now: int, commit: Commit) returns (r: Reply)
      modifies this
      ensures var o := FreePlayTables.ReserveBroadcast(old(db), l, now);
              db == Tables(old(db), o, commit) && Answers(r, o, commit)
      ensures OtherRowsKept(old(db), db, l.run) && OnlyRun(old(db), db, l.run) && db.quotes == old(db).quotes
      ensures forall x :: MarkOf(db, x) == MarkOf(old(db), x)
                || (x == l.run && OwnsRow(old(db), l) && OwnsSigner(old(db), l) && now < l.quote.expiresAt
                    && MarkOf(old(db), x) == NoTx && MarkOf(db, x) == Unknown && PendingOf(db, l.signer) == Some(x))
      ensures forall g :: PendingOf(db, g) == PendingOf(old(db), g)
                || (g == l.signer && PendingOf(old(db), g) == None && PendingOf(db, g) == Some(l.run))
      ensures r.Ok? ==> MarkOf(old(db), l.run) == NoTx && MarkOf(db, l.run) == Unknown
      ensures r.Ok? ==> db.outbox[l.run].attempts == old(db).outbox[l.run].attempts + 1
    {
      var tx := db;
      var n := 0;
      if OwnsSigner(tx, l) && PendingAllows(tx.signers[l.signer], l.run) {
        tx := tx.(signers := tx.signers[l.signer := tx.signers[l.signer].(pending := Some(l.run))]);
        n := 1;
      }
      if n != 1 {
        return Err(SignerLeaseLost);
      }
      if l.quote.expiresAt <= now {
        return Err(QuoteExpired);
      }
      n := 0;
      if OwnsRow(tx, l) && tx.outbox[l.run].tx == NoTx {
        var o := tx.outbox[l.run];
        tx := tx.(outbox := tx.outbox[l.run := o.(tx := Unknown, attempts := o.attempts + 1)]);
        n := 1;
      }
      if n != 1 {
        return Err(LeaseLost);
      }
      tx := tx.(runs := Restatus(tx.runs, l.run, Queued, Submitted));
      r := Commit(tx, commit);
    }

    /** A mark changes only from ambiguous to empty, for the owner on its first attempt, together with the pin. */
    method CancelUnsent(l: Lease, commit: Commit) returns (r: Reply)
      modifies this
      ensures var o := FreePlayTables.CancelUnsent(old(db), l);
              db == Tables(old(db), o, commit) && Answers(r, o, commit)
      ensures OtherRowsKept(old(db), db, l.run) && OnlyRun(old(db), db, l.run) && db.quotes == old(db).quotes
      ensures forall x :: MarkOf(db, x) == MarkOf(old(db), x)
                || (x == l.run && OwnsRow(old(db), l) && OwnsSigner(old(db), l) && old(db).outbox[x].attempts == 1
                    && MarkOf(old(db), x) == Unknown && MarkOf(db, x) == NoTx && PendingOf(db, l.signer) == None)
      ensures forall g :: PendingOf(db, g) == PendingOf(old(db), g)
                || (g == l.signer && PendingOf(old(db), g) == Some(l.run) && PendingOf(db, g) == None)
      ensures r.Ok? ==> MarkOf(db, l.run) == NoTx && db.outbox[l.run].attempts == 0
    {
      var tx := db;
      var n := 0;
      if OwnsSigner(tx, l) && tx.signers[l.signer].pending == Some(l.run) {
        tx := tx.(signers := tx.signers[l.signer := tx.signers[l.signer].(pending := None)]);
        n := 1;
      }
      if n != 1 {
        return Err(SignerLeaseLost);
      }
      n := 0;
      if OwnsRow(tx, l) {
        var o := tx.outbox[l.run];
        if o.quote == l.quote.id && o.tx == Unknown && o.attempts == 1 {
          tx := tx.(outbox := tx.outbox[l.run := o.(tx := NoTx, attempts := 0)]);
          n := 1;
        }
      }
      if n != 1 {
        return Err(LeaseLost);
      }
      tx := tx.(runs := Restatus(tx.runs, l.run, Submitted, Queued));
      r := Commit(tx, commit);
    }

    /**
     A mark changes only from ambiguous to the hash, only for the row's owner, and a reply of success means it
     did.
     */
    method SaveHash(l: Lease, hash: nat, commit: Commit) returns (r: Reply)
      modifies this
      ensures var o := FreePlayTables.SaveHash(old(db), l, hash);
              db == Tables(old(db), o, commit) && Answers(r, o, commit)
      ensures forall id :: MarkOf(db, id) == MarkOf(old(db), id)
                || (id == l.run && OwnsRow(old(db), l) && MarkOf(old(db), id) == Unknown
                    && MarkOf(db, id) == Hash(hash))
      ensures r.Ok? ==> MarkOf(old(db), l.run) == Unknown && MarkOf(db, l.run) == Hash(hash)
      ensures r == Err(LeaseLost) <==> !OwnsRow(old(db), l) || MarkOf(old(db), l.run) != Unknown
      ensures OnlyRow(old(db), db, l.run) && db.signers == old(db).signers && db.runs == old(db).runs
    {
      if !OwnsRow(db, l) || db.outbox[l.run].tx != Unknown {
        return Err(LeaseLost);
      }
      r := Commit(db.(outbox := db.outbox[l.run := db.outbox[l.run].(tx := Hash(hash))]), commit);
    }

    /**
     A failure never erases a mark, never changes a run or a pin, and frees the row and the signer of its
     owner. Only a try that never sent costs one of its finite failures; a sent one is polled without limit.
     */
    method SaveAttempt(l: Lease, mark: TxMark, now: int, commit: Commit) returns (r: Reply)
      modifies this
      ensures var o := FreePlayTables.SaveAttempt(old(db), l, mark, now);
              db == Tables(old(db), o, commit) && Answers(r, o, commit)
      ensures forall id :: MarkOf(old(db), id) != NoTx ==> MarkOf(db, id) != NoTx
      ensures mark == NoTx ==> forall id :: MarkOf(db, id) == MarkOf(old(db), id)
      ensures forall g :: PendingOf(db, g) == PendingOf(old(db), g)
      ensures OnlyRow(old(db), db, l.run) && db.runs == old(db).runs
      ensures r.Ok? ==>
                && OwnsRow(old(db), l) && (mark != NoTx ==> MarkOf(db, l.run) == mark)
                && db.outbox[l.run].leaseUntil == 0 && now + 5 <= db.outbox[l.run].nextCheck <= now + 300
                && db.outbox[l.run].nextCheck ==
                     now + CheckDelay(if l.tx == NoTx && mark == NoTx then l.failures else l.polls)
                && (OwnsSigner(db, l) ==> db.signers[l.signer].leaseUntil == 0)
                && (db.outbox[l.run].failures > old(db).outbox[l.run].failures <==> MarkOf(db, l.run) == NoTx)
                && (db.outbox[l.run].polls > old(db).outbox[l.run].polls <==> MarkOf(db, l.run) != NoTx)
    {
      var previous := l.failures;
      if l.tx != NoTx || mark != NoTx {
        previous := l.polls;
      }
      var next := now + CheckDelay(previous);
      var tx := db;
      if !OwnsRow(tx, l) {
        return Err(LeaseLost);
      }
      var o := tx.outbox[l.run];
      var row := o.(nextCheck := next, leaseUntil := 0);
      if o.tx != NoTx || mark != NoTx {
        row := row.(polls := o.polls + 1);
      } else {
        row := row.(failures := o.failures + 1);
      }
      if mark != NoTx {
        row := row.(tx := mark);
      }
      tx := tx.(outbox := tx.outbox[l.run := row]);
      if OwnsSigner(tx, l) {
        tx := tx.(signers := tx.signers[l.signer := tx.signers[l.signer].(leaseUntil := 0)]);
      }
      r := Commit(tx, commit);
    }

    /**
     Only the owned run becomes confirmed, with a receipt of its own entry; no mark, quote or attempt
     changes, and no other run's pin is released.
     */
    method Confirm(l: Lease, rc: Receipt, commit: Commit) returns (r: Reply)
      modifies this
      ensures var o := FreePlayTables.Confirm(old(db), l, rc);
              db == Tables(old(db), o, commit) && Answers(r, o, commit)
      ensures forall id :: MarkOf(db, id) == MarkOf(old(db), id)
      ensures OnlyRow(old(db), db, l.run) && OnlyRun(old(db), db, l.run)
      ensures forall g :: PendingOf(db, g) != PendingOf(old(db), g) ==>
                g == l.signer && PendingOf(old(db), g) == Some(l.run) && PendingOf(db, g) == None
      ensures r.Ok? ==>
                && OwnsRow(old(db), l) && l.run in db.runs && db.runs[l.run].status == Confirmed
                && db.runs[l.run].run == old(db).runs[l.run].run
                && db.runs[l.run].receipt == Some(rc) && rc.schema == 2 && rc.entry == db.runs[l.run].run.entry
                && rc.height > 0 && rc.attesterOk && rc.tx != Garbled
                && (OwnsSigner(old(db), l) ==> PendingOf(db, l.signer) != Some(l.run))
    {
      var tx := db;
      if l.run !in tx.runs || !ValidReceipt(tx.runs[l.run].run, rc) {
        return Err(ReceiptMismatch);
      }
      if !OwnsRow(tx, l) {
        return Err(LeaseLost);
      }
      tx := tx.(runs := tx.runs[l.run := tx.runs[l.run].(status := Confirmed, receipt := Some(rc))]);
      tx := tx.(outbox := tx.outbox[l.run := tx.outbox[l.run].(leaseUntil := 0, nextCheck := 0)]);
      if OwnsSigner(tx, l) && PendingAllows(tx.signers[l.signer], l.run) {
        tx := tx.(signers := tx.signers[l.signer := tx.signers[l.signer].(leaseUntil := 0, pending := None)]);
      }
      r := Commit(tx, commit);
    }
  }

  /** Canceling undoes the reservation of a first attempt, completely. */
  lemma CancelUndoes(db: Db, l: Lease, now: int)
    requires FreePlayTables.ReserveBroadcast(db, l, now).Ok? && db.outbox[l.run].attempts == 0
    requires db.outbox[l.run].quote == l.quote.id && PendingOf(db, l.signer) == None
    requires l.run in db.runs ==> db.runs[l.run].status == Queued
    ensures FreePlayTables.CancelUnsent(FreePlayTables.ReserveBroadcast(db, l, now).value, l) == Ok(db)
  {
    var reserved := FreePlayTables.ReserveBroadcast(db, l, now).value;
    var undone := FreePlayTables.CancelUnsent(reserved, l);
    assert undone.Ok?;
    assert undone.value.outbox == db.outbox && undone.value.signers == db.signers && undone.value.runs == db.runs;
  }

  lemma DueIsEligible(db: Db, signer: Signer, now: int)
    ensures forall id | id in db.outbox :: Due(db, signer, now, id) <==> Eligible(db, signer, now, id)
  {
  }

  /** Taking the signer's lease does not change which row the claim takes. */
  lemma SameChoice(db: Db, tx: Db, signer: Signer, now: int)
    requires tx == db.(signers := tx.signers) && PendingOf(tx, signer) == PendingOf(db, signer)
    ensures forall id :: Eligible(tx, signer, now, id) <==> Eligible(db, signer, now, id)
    ensures forall id :: Selected(tx, signer, now, id) <==> Selected(db, signer, now, id)
  {
  }
}
