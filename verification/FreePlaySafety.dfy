/**
 Safety of every execution of the publication protocol: money is spent at most
 once per run, under the run's own authorization, within the day's allowance,
 and one signer never has two unsettled broadcasts.
 */
module FreePlaySafety {
  import opened Wrappers
  import opened FreePlayTables
  import opened FreePlayProtocol
  import opened FreePlayInvariant

  /** The state after the steps, or nothing if one of them was not enabled. */
  ghost function After(s: State, steps: seq<Step>): Option<State> {
    if steps == [] then Some(s)
    else
      var before := After(s, steps[..|steps| - 1]);
      var last := steps[|steps| - 1];
      if before.Some? && Enabled(before.value, last) then Some(Apply(before.value, last)) else None
  }

  ghost predicate Reachable(s: State) {
    exists steps :: After(INITIAL, steps) == Some(s)
  }

  lemma {:induction false} InvAfter(s: State, steps: seq<Step>)
    requires Inv(s) && After(s, steps).Some?
    ensures Inv(After(s, steps).value)
  {
    if steps != [] {
      InvAfter(s, steps[..|steps| - 1]);
      StepKeeps(After(s, steps[..|steps| - 1]).value, steps[|steps| - 1]);
    }
  }

  lemma ReachableInv(s: State)
    requires Reachable(s)
    ensures Inv(s)
  {
    var steps :| After(INITIAL, steps) == Some(s);
    InvAfter(INITIAL, steps);
  }

  // ----- at most one Anchor per run

  /** No run and no quote is ever passed to Anchor twice. */
  lemma AnchoredAtMostOnce(s: State, i: nat, j: nat)
    requires Reachable(s) && i < j < |s.log|
    ensures s.log[i].run != s.log[j].run && s.log[i].quote.id != s.log[j].quote.id
  {
    ReachableInv(s);
    assert Distinct(s, i, j) && CallOk(s, i) && CallOk(s, j);
    assert RowSound(s.db, s.log[i].run) && RowSound(s.db, s.log[j].run);
  }

  lemma {:induction false} LogGrows(s: State, steps: seq<Step>)
    requires After(s, steps).Some?
    ensures s.log <= After(s, steps).value.log
  {
    if steps != [] {
      LogGrows(s, steps[..|steps| - 1]);
    }
  }

  /** After Anchor was called for a run, its marker is never empty again. */
  lemma MarkerStays(s: State, i: nat, steps: seq<Step>)
    requires Reachable(s) && i < |s.log| && After(s, steps).Some?
    ensures var id := s.log[i].run; var db := After(s, steps).value.db; id in db.outbox && db.outbox[id].tx != NoTx
  {
    ReachableInv(s);
    InvAfter(s, steps);
    LogGrows(s, steps);
    assert CallOk(After(s, steps).value, i);
  }

  // ----- under the run's own authorization

  /** What Anchor is given: the quote in the run's row, consumed for this run alone. */
  lemma AnchorAuthorized(s: State, t: Token)
    requires Reachable(s) && t in s.workers && s.workers[t].pc.Sending?
    ensures var l := s.workers[t].lease;
      && l.run in s.db.outbox && s.db.outbox[l.run].quote == l.quote.id
      && l.quote.id in s.db.quotes && s.db.quotes[l.quote.id] == QuoteRow(l.quote, true) && l.quote.run == l.run
      && s.db.outbox[l.run].attempts == 1
      && forall i | 0 <= i < |s.log| :: s.log[i].run != l.run && s.log[i].quote.id != l.quote.id
  {
    ReachableInv(s);
    var l := s.workers[t].lease;
    assert WorkerOk(s, t) && RowSound(s.db, l.run);
    forall i | 0 <= i < |s.log| ensures s.log[i].run != l.run && s.log[i].quote.id != l.quote.id {
      assert Unsent(s, t, i) && CallOk(s, i) && RowSound(s.db, s.log[i].run);
    }
  }

  /** A replaced authorization had expired unused: no marker is out and Anchor was never called. */
  lemma ReplacedUnused(s: State, step: Step)
    requires Reachable(s) && step.Authorize? && step.id in s.db.outbox
    requires Apply(s, step).db.outbox[step.id].quote != s.db.outbox[step.id].quote
    ensures s.db.outbox[step.id].quote in s.db.quotes
    ensures s.db.quotes[s.db.outbox[step.id].quote].quote.expiresAt <= s.now
    ensures forall u: Token :: !EngagedOn(s, u, step.id)
    ensures forall i | 0 <= i < |s.log| :: s.log[i].run != step.id
  {
    ReachableInv(s);
    assert RowSound(s.db, step.id);
    forall u: Token ensures !EngagedOn(s, u, step.id) {
      UnmarkedUntouched(s, u + 1, step.id);
    }
    UnmarkedUntouched(s, 0, step.id);
  }

  /** A worker whose quote was replaced can neither reserve a broadcast nor be about to send one. */
  lemma ReplacedFenced(s: State, t: Token, now: int)
    requires Reachable(s) && t in s.workers
    requires s.workers[t].lease.run in s.db.outbox
    requires s.db.outbox[s.workers[t].lease.run].quote != s.workers[t].lease.quote.id
    ensures ReserveBroadcast(s.db, s.workers[t].lease, now).Err?
    ensures !Holding(s.workers[t].pc)
  {
    ReachableInv(s);
    assert WorkerOk(s, t) && RowOk(s, s.workers[t].lease.run) && RowSound(s.db, s.workers[t].lease.run);
  }

  // ----- one unsettled broadcast per signer

  /**
   A signer is pinned to a run exactly when it reserved the run's broadcast and
   the run is still submitted, or was confirmed by another signer's worker.
   */
  lemma PinExact(s: State, g: Signer, id: RunId)
    requires Reachable(s)
    ensures Pinned(s.db, g, id) <==>
      && id in s.db.outbox && s.db.outbox[id].tx != NoTx && id in s.sender && s.sender[id] == g
      && id in s.db.runs
      && (s.db.runs[id].status == Submitted || (id in s.confirmer && s.confirmer[id] != g))
  {
    ReachableInv(s);
    assert RowSound(s.db, id) && RowOk(s, id) && SignerOk(s, g);
  }

  /** Every claim of the execution is for signer `g`. */
  predicate OneSigner(steps: seq<Step>, g: Signer) {
    forall i | 0 <= i < |steps| :: steps[i].Claim? ==> steps[i].signer == g
  }

  ghost predicate Only(s: State, g: Signer) {
    && (forall t <- s.workers :: s.workers[t].lease.signer == g)
    && (forall id <- s.sender :: s.sender[id] == g)
    && (forall id <- s.confirmer :: s.confirmer[id] == g)
  }

  lemma {:induction false} OnlySigner(steps: seq<Step>, g: Signer)
    requires OneSigner(steps, g) && After(INITIAL, steps).Some?
    ensures Only(After(INITIAL, steps).value, g)
  {
    if steps != [] {
      OnlySigner(steps[..|steps| - 1], g);
      OnlyStep(After(INITIAL, steps[..|steps| - 1]).value, steps[|steps| - 1], g);
    }
  }

  lemma OnlyStep(s: State, step: Step, g: Signer)
    requires Only(s, g) && Enabled(s, step) && (step.Claim? ==> step.signer == g)
    ensures Only(Apply(s, step), g)
  {
  }

  /** With one signer, `pending_run_id` names exactly the one submitted, unconfirmed run. */
  lemma OneSignerPin(steps: seq<Step>, g: Signer, id: RunId)
    requires OneSigner(steps, g) && After(INITIAL, steps).Some?
    ensures var db := After(INITIAL, steps).value.db;
            Pinned(db, g, id) <==> id in db.runs && db.runs[id].status == Submitted
  {
    var s := After(INITIAL, steps).value;
    OnlySigner(steps, g);
    ReachableInv(s);
    PinExact(s, g, id);
    assert RowSound(s.db, id) && RowOk(s, id);
  }

  /**
   When Anchor is called for a run that nobody confirmed yet, every other run
   the same signer ever anchored is confirmed.
   */
  lemma SettledBeforeNext(s: State, t: Token, i: nat)
    requires Reachable(s) && t in s.workers && s.workers[t].pc.Sending? && i < |s.log|
    requires s.workers[t].lease.run in s.db.runs && s.db.runs[s.workers[t].lease.run].status != Confirmed
    requires s.log[i].signer == s.workers[t].lease.signer
    ensures s.log[i].run in s.db.runs && s.db.runs[s.log[i].run].status == Confirmed
  {
    ReachableInv(s);
    var l := s.workers[t].lease;
    assert WorkerOk(s, t) && RowOk(s, l.run) && CallOk(s, i) && Unsent(s, t, i);
    assert RowSound(s.db, s.log[i].run) && RowOk(s, s.log[i].run);
  }

  // ----- when two broadcasts of a signer overlap

  predicate Logged(s: State, id: RunId) {
    exists i | 0 <= i < |s.log| :: s.log[i].run == id
  }

  predicate Settled(db: Db, id: RunId) {
    id in db.runs && db.runs[id].status == Confirmed
  }

  /** Some run that the signer anchored is not confirmed yet. */
  predicate Unsettled(s: State, g: Signer) {
    exists i | 0 <= i < |s.log| :: s.log[i].signer == g && !Settled(s.db, s.log[i].run)
  }

  /**
   A worker about to call Anchor overlaps with an unsettled broadcast of its
   signer exactly when the signer's `pending_run_id` names another run, anchored
   and not confirmed.
   */
  lemma OverlapExact(s: State, t: Token)
    requires Reachable(s) && t in s.workers && s.workers[t].pc.Sending?
    ensures var l := s.workers[t].lease;
      Unsettled(s, l.signer) <==>
        var p := PendingOf(s.db, l.signer);
        p.Some? && p.value != l.run && !Settled(s.db, p.value) && Logged(s, p.value)
  {
    ReachableInv(s);
    var l := s.workers[t].lease;
    assert SignerOk(s, l.signer);
    if i: nat :| i < |s.log| && s.log[i].signer == l.signer && !Settled(s.db, s.log[i].run) {
      assert CallOk(s, i) && Unsent(s, t, i);
      assert RowSound(s.db, s.log[i].run) && RowOk(s, s.log[i].run);
    }
    if PendingOf(s.db, l.signer).Some? && Logged(s, PendingOf(s.db, l.signer).value) {
      var i: nat :| i < |s.log| && s.log[i].run == PendingOf(s.db, l.signer).value;
      assert CallOk(s, i);
    }
  }

  /** A worker whose signer is still pinned to its own run overlaps with nothing. */
  lemma PinnedAlone(s: State, t: Token)
    requires Reachable(s) && t in s.workers && s.workers[t].pc.Sending?
    requires Pinned(s.db, s.workers[t].lease.signer, s.workers[t].lease.run)
    ensures !Unsettled(s, s.workers[t].lease.signer)
  {
    OverlapExact(s, t);
  }

  // ----- what the deadline inside the lease is for

  /** Until its lease ends, a worker that has not returned owns its row and its signer. */
  predicate LeaseKept(s: State, t: Token) {
    t in s.workers && s.now < s.workers[t].until && !s.workers[t].pc.Done? ==>
      var w := s.workers[t];
      && OwnsRow(s.db, w.lease) && s.db.outbox[w.lease.run].leaseUntil == w.until
      && OwnsSigner(s.db, w.lease) && s.db.signers[w.lease.signer].leaseUntil == w.until
  }

  /** What other owners hold, a transaction of `l` leaves alone. */
  predicate OthersKept(db: Db, db': Db, l: Lease) {
    && (forall id <- db.outbox ::
        id in db'.outbox && (db.outbox[id].owner != Some(l.owner) ==> db'.outbox[id] == db.outbox[id]))
    && (forall g <- db.signers ::
        g in db'.signers && (db.signers[g].owner != l.owner ==> db'.signers[g] == db.signers[g]))
  }

  lemma WorkKeepsOthers(s: State, u: Token, act: Act)
    requires u in s.workers && CanAct(s.workers[u].pc, act)
    ensures OthersKept(s.db, Worked(s, u, act).db, s.workers[u].lease)
  {
  }

  lemma LeaseKeptByOther(s: State, u: Token, act: Act, t: Token)
    requires Inv(s) && u in s.workers && CanAct(s.workers[u].pc, act) && u != t
    requires LeaseKept(s, t)
    ensures LeaseKept(Worked(s, u, act), t)
  {
    assert WorkerOk(s, u) && WorkerOk(s, t);
    WorkKeepsOthers(s, u, act);
  }

  /** Owners and ends of all leases are the same. */
  predicate SameLeases(db: Db, db': Db) {
    && (forall id <- db.outbox :: id in db'.outbox && db'.outbox[id].owner == db.outbox[id].owner
                                  && db'.outbox[id].leaseUntil == db.outbox[id].leaseUntil)
    && (forall g <- db.signers :: g in db'.signers && db'.signers[g].owner == db.signers[g].owner
                                  && db'.signers[g].leaseUntil == db.signers[g].leaseUntil)
  }

  /** Only a worker's last transaction ends its lease. */
  lemma WorkKeepsLeases(s: State, t: Token, act: Act)
    requires t in s.workers && CanAct(s.workers[t].pc, act) && !act.Record? && !act.Settle?
    ensures SameLeases(s.db, Worked(s, t, act).db)
  {
  }

  lemma WorkKeepsUntil(s: State, t: Token, act: Act)
    requires t in s.workers && CanAct(s.workers[t].pc, act)
    ensures var w, w' := s.workers[t], Worked(s, t, act).workers[t];
      && w'.until == w.until && w'.lease.(tx := w.lease.tx) == w.lease
      && (act.Record? || act.Settle? ==> w'.pc.Done?)
    ensures Worked(s, t, act).now >= s.now && !s.workers[t].pc.Done?
  {
  }

  lemma LeaseKeptByWork(s: State, u: Token, act: Act, t: Token)
    requires Inv(s) && u in s.workers && CanAct(s.workers[u].pc, act)
    requires LeaseKept(s, t)
    ensures LeaseKept(Worked(s, u, act), t)
  {
    WorkKeepsUntil(s, u, act);
    if u != t {
      LeaseKeptByOther(s, u, act, t);
    } else if !act.Record? && !act.Settle? {
      assert WorkerOk(s, t);
      WorkKeepsLeases(s, t, act);
    }
  }

  lemma LeaseKeptByUser(s: State, step: Step, t: Token)
    requires Inv(s) && Enabled(s, step) && !step.Work? && LeaseKept(s, t)
    ensures LeaseKept(Apply(s, step), t)
  {
    if t in s.workers {
      assert WorkerOk(s, t) && RowSound(s.db, s.workers[t].lease.run);
    }
  }

  lemma {:induction false} LeaseKeptAfter(steps: seq<Step>, t: Token)
    requires After(INITIAL, steps).Some?
    ensures LeaseKept(After(INITIAL, steps).value, t)
  {
    if steps != [] {
      var before, last := steps[..|steps| - 1], steps[|steps| - 1];
      LeaseKeptAfter(before, t);
      InvAfter(INITIAL, before);
      if last.Work? {
        LeaseKeptByWork(After(INITIAL, before).value, last.token, last.act, t);
      } else {
        LeaseKeptByUser(After(INITIAL, before).value, last, t);
      }
    }
  }

  /**
   A worker that calls Anchor before its lease ends, as the deadline demands,
   never overlaps with an unsettled broadcast of its signer, whatever the chain
   shows.
   */
  lemma PunctualAlone(s: State, t: Token)
    requires Reachable(s) && t in s.workers && s.workers[t].pc.Sending? && s.now < s.workers[t].until
    ensures !Unsettled(s, s.workers[t].lease.signer)
    ensures OwnsRow(s.db, s.workers[t].lease) && OwnsSigner(s.db, s.workers[t].lease)
    ensures Pinned(s.db, s.workers[t].lease.signer, s.workers[t].lease.run)
  {
    var steps :| After(INITIAL, steps) == Some(s);
    LeaseKeptAfter(steps, t);
    ReachableInv(s);
    var l := s.workers[t].lease;
    assert WorkerOk(s, t) && RowOk(s, l.run) && RowSound(s.db, l.run);
    PinnedAlone(s, t);
  }

  // ----- a realm that holds only what this database anchored

  /** A lookup finds an entry only after Anchor was called for it. */
  predicate Honest(s: State, step: Step) {
    step.Work? && step.act.Found? && step.token in s.workers ==> Logged(s, s.workers[step.token].lease.run)
  }

  ghost predicate HonestRun(steps: seq<Step>) {
    forall k | 0 <= k < |steps| ::
      After(INITIAL, steps[..k]).Some? ==> Honest(After(INITIAL, steps[..k]).value, steps[k])
  }

  ghost predicate Anchored(s: State) {
    && (forall id <- s.db.runs :: s.db.runs[id].status == Confirmed ==> Logged(s, id))
    && (forall t <- s.workers :: s.workers[t].pc.Confirming? ==> Logged(s, s.workers[t].lease.run))
  }

  /** Nothing is spent, and no run but `own` is confirmed. */
  ghost predicate Plain(db: Db, db': Db, own: Option<RunId>) {
    && db'.budget == db.budget && db'.spending == db.spending
    && forall id <- db'.runs | db'.runs[id].status == Confirmed ::
         own == Some(id) || (id in db.runs && db.runs[id].status == Confirmed)
  }

  lemma ReserveBroadcastPlain(db: Db, l: Lease, now: int)
    ensures ReserveBroadcast(db, l, now).Ok? ==> Plain(db, ReserveBroadcast(db, l, now).value, None)
  {
  }

  lemma CancelUnsentPlain(db: Db, l: Lease)
    ensures CancelUnsent(db, l).Ok? ==> Plain(db, CancelUnsent(db, l).value, None)
  {
  }

  lemma SaveHashPlain(db: Db, l: Lease, hash: nat)
    ensures SaveHash(db, l, hash).Ok? ==> Plain(db, SaveHash(db, l, hash).value, None)
  {
  }

  lemma SaveAttemptPlain(db: Db, l: Lease, mark: TxMark, now: int)
    ensures SaveAttempt(db, l, mark, now).Ok? ==> Plain(db, SaveAttempt(db, l, mark, now).value, None)
  {
  }

  lemma ConfirmPlain(db: Db, l: Lease, rc: Receipt)
    ensures Confirm(db, l, rc).Ok? ==> Plain(db, Confirm(db, l, rc).value, Some(l.run))
  {
  }

  /** Only a reservation spends allowance, and a worker confirms only its own run. */
  lemma WorkPlain(s: State, t: Token, act: Act)
    requires t in s.workers && CanAct(s.workers[t].pc, act)
    ensures act.Allow? ==> Worked(s, t, act).db.runs == s.db.runs
    ensures !act.Allow? ==>
              Plain(s.db, Worked(s, t, act).db, if act.Settle? then Some(s.workers[t].lease.run) else None)
  {
    var l := s.workers[t].lease;
    match act {
      case Mark(_) => ReserveBroadcastPlain(s.db, l, s.now);
      case Undo(_) => CancelUnsentPlain(s.db, l);
      case Keep(_) => SaveHashPlain(s.db, l, s.workers[t].pc.hash);
      case Record(_) => SaveAttemptPlain(s.db, l, s.workers[t].pc.mark, s.now);
      case Settle(_) => ConfirmPlain(s.db, l, s.workers[t].pc.receipt);
      case _ =>
    }
  }

  lemma UserPlain(s: State, step: Step)
    requires Enabled(s, step) && !step.Work?
    ensures Plain(s.db, Apply(s, step).db, None)
  {
  }

  lemma LoggedGrows(s: State, s': State, id: RunId)
    requires s.log <= s'.log && Logged(s, id)
    ensures Logged(s', id)
  {
    var i :| 0 <= i < |s.log| && s.log[i].run == id;
    assert s'.log[i].run == id;
  }

  lemma ConfirmedStep(s: State, step: Step, id: RunId)
    requires Anchored(s) && Enabled(s, step)
    requires id in Apply(s, step).db.runs && Apply(s, step).db.runs[id].status == Confirmed
    ensures Logged(Apply(s, step), id)
  {
    if step.Work? {
      WorkPlain(s, step.token, step.act);
    } else {
      UserPlain(s, step);
    }
    LoggedGrows(s, Apply(s, step), id);
  }

  lemma ConfirmingWork(s: State, t: Token, act: Act)
    requires t in s.workers && CanAct(s.workers[t].pc, act) && Worked(s, t, act).workers[t].pc.Confirming?
    ensures act.Found?
  {
  }

  lemma ConfirmingStep(s: State, step: Step, t: Token)
    requires Anchored(s) && Enabled(s, step) && Honest(s, step)
    requires t in Apply(s, step).workers && Apply(s, step).workers[t].pc.Confirming?
    ensures Logged(Apply(s, step), Apply(s, step).workers[t].lease.run)
  {
    if step.Work? && step.token == t {
      ConfirmingWork(s, t, step.act);
    } else {
      LoggedGrows(s, Apply(s, step), s.workers[t].lease.run);
    }
  }

  lemma AnchoredStep(s: State, step: Step)
    requires Anchored(s) && Enabled(s, step) && Honest(s, step)
    ensures Anchored(Apply(s, step))
  {
    var s' := Apply(s, step);
    forall id <- s'.db.runs | s'.db.runs[id].status == Confirmed ensures Logged(s', id) {
      ConfirmedStep(s, step, id);
    }
    forall t <- s'.workers | s'.workers[t].pc.Confirming? ensures Logged(s', s'.workers[t].lease.run) {
      ConfirmingStep(s, step, t);
    }
  }

  lemma {:induction false} HonestAnchored(steps: seq<Step>)
    requires HonestRun(steps) && After(INITIAL, steps).Some?
    ensures Anchored(After(INITIAL, steps).value)
  {
    if steps != [] {
      var n := |steps| - 1;
      var first := steps[..n];
      forall k | 0 <= k < n ensures steps[..k] == first[..k] && steps[k] == first[k] {}
      HonestAnchored(first);
      AnchoredStep(After(INITIAL, first).value, steps[n]);
    }
  }

  /**
   If the realm holds only entries this database anchored, no signer calls
   Anchor between the Anchor of another run and that run's confirmation.
   */
  lemma OneUnsettledBroadcast(steps: seq<Step>, t: Token, i: nat)
    requires HonestRun(steps) && After(INITIAL, steps).Some?
    requires var s := After(INITIAL, steps).value;
      t in s.workers && s.workers[t].pc.Sending? && i < |s.log| && s.log[i].signer == s.workers[t].lease.signer
    ensures var s := After(INITIAL, steps).value;
      s.log[i].run in s.db.runs && s.db.runs[s.log[i].run].status == Confirmed
  {
    var s := After(INITIAL, steps).value;
    HonestAnchored(steps);
    ReachableInv(s);
    assert WorkerOk(s, t);
    forall j | 0 <= j < |s.log| ensures s.log[j].run != s.workers[t].lease.run {
      assert Unsent(s, t, j);
    }
    SettledBeforeNext(s, t, i);
  }

  // ----- receipts

  /** A confirmed run carries a receipt for its own entry that names no hash but the recorded one. */
  lemma ConfirmedByReceipt(s: State, id: RunId)
    requires Reachable(s) && id in s.db.runs && s.db.runs[id].status == Confirmed
    ensures var r := s.db.runs[id];
      && id in s.db.outbox && r.receipt.Some?
      && var rc, tx := r.receipt.value, s.db.outbox[id].tx;
         && rc.schema == 2 && rc.entry == r.run.entry && rc.height > 0 && rc.attesterOk
         && (rc.tx == Absent || (rc.tx.Canonical? && (tx.Hash? ==> tx.hash == rc.tx.hash)))
  {
    ReachableInv(s);
    assert RowSound(s.db, id) && RowOk(s, id);
  }

  // ----- confirmation is final

  lemma ConfirmedWork(s: State, t: Token, act: Act, id: RunId)
    requires t in s.workers && CanAct(s.workers[t].pc, act) && WorkerOk(s, t)
    requires RowSound(s.db, id) && RowOk(s, id) && Settled(s.db, id)
    ensures SameRow(s, Worked(s, t, act), id)
  {
    if s.workers[t].lease.run == id && !s.workers[t].pc.Done? {
      assert !OwnsRow(s.db, s.workers[t].lease);
    }
  }

  lemma ConfirmedStays(s: State, step: Step, id: RunId)
    requires Inv(s) && Enabled(s, step) && Settled(s.db, id)
    ensures SameRow(s, Apply(s, step), id)
  {
    assert RowSound(s.db, id) && RowOk(s, id);
    if step.Work? {
      ConfirmedWork(s, step.token, step.act, id);
    }
  }

  /** Nothing in any later step changes a confirmed run or its outbox row. */
  lemma {:induction false} ConfirmedForever(s: State, steps: seq<Step>, id: RunId)
    requires Inv(s) && Settled(s.db, id) && After(s, steps).Some?
    ensures SameRow(s, After(s, steps).value, id)
  {
    if steps != [] {
      var before := steps[..|steps| - 1];
      ConfirmedForever(s, before, id);
      InvAfter(s, before);
      ConfirmedStays(After(s, before).value, steps[|steps| - 1], id);
    }
  }

  // ----- executions whose Anchor calls meet their deadline

  /** An Anchor call comes before its worker's lease ends. */
  predicate Punctual(s: State, step: Step) {
    step.Work? && (step.act.AnchorFails? || step.act.AnchorReturns?) && step.token in s.workers ==>
      s.now < s.workers[step.token].until
  }

  ghost predicate PunctualRun(steps: seq<Step>) {
    forall k | 0 <= k < |steps| ::
      After(INITIAL, steps[..k]).Some? ==> Punctual(After(INITIAL, steps[..k]).value, steps[k])
  }

  /** Of a signer's broadcasts all but the last are confirmed. */
  predicate InTurn(s: State, i: nat, j: nat) {
    i < j < |s.log| && s.log[i].signer == s.log[j].signer ==> Settled(s.db, s.log[i].run)
  }

  lemma InTurnStep(s: State, step: Step, i: nat, j: nat)
    requires Reachable(s) && Enabled(s, step) && Punctual(s, step) && InTurn(s, i, j)
    ensures InTurn(Apply(s, step), i, j)
  {
    ReachableInv(s);
    var s' := Apply(s, step);
    if i < j < |s'.log| && s'.log[i].signer == s'.log[j].signer {
      assert s'.log[i] == s.log[i];
      if j >= |s.log| {
        PunctualAlone(s, step.token);
      }
      ConfirmedStays(s, step, s.log[i].run);
    }
  }

  /** If every Anchor call meets its deadline, no signer ever has two unsettled broadcasts. */
  lemma {:induction false} BroadcastsInTurn(steps: seq<Step>, i: nat, j: nat)
    requires PunctualRun(steps) && After(INITIAL, steps).Some?
    ensures InTurn(After(INITIAL, steps).value, i, j)
  {
    if steps != [] {
      var n := |steps| - 1;
      var first := steps[..n];
      forall k | 0 <= k < n ensures steps[..k] == first[..k] && steps[k] == first[k] {}
      BroadcastsInTurn(first, i, j);
      assert Reachable(After(INITIAL, first).value);
      InTurnStep(After(INITIAL, first).value, steps[n], i, j);
    }
  }

  lemma {:induction false} AfterJoin(s: State, first: seq<Step>, then_: seq<Step>)
    requires After(s, first).Some?
    ensures After(s, first + then_) == After(After(s, first).value, then_)
  {
    if then_ == [] {
      assert first + then_ == first;
    } else {
      var n := |then_| - 1;
      assert (first + then_)[..|first + then_| - 1] == first + then_[..n];
      AfterJoin(s, first, then_[..n]);
    }
  }

  lemma ReachableAfter(s: State, steps: seq<Step>)
    requires Reachable(s) && After(s, steps).Some?
    ensures Reachable(After(s, steps).value)
  {
    var past :| After(INITIAL, past) == Some(s);
    AfterJoin(INITIAL, past, steps);
  }

  /**
   A signer whose reserved run another signer's worker confirmed stays pinned
   to it: no claim for that signer finds a row ever after.
   */
  lemma PinnedForever(s: State, g: Signer, id: RunId, steps: seq<Step>, now: int, row: RunId)
    requires Reachable(s) && Pinned(s.db, g, id) && Settled(s.db, id) && After(s, steps).Some?
    ensures !Eligible(After(s, steps).value.db, g, now, row)
  {
    var s' := After(s, steps).value;
    ReachableInv(s);
    ReachableAfter(s, steps);
    ConfirmedForever(s, steps, id);
    PinExact(s, g, id);
    PinExact(s', g, id);
  }
}
