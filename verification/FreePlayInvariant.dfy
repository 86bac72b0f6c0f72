/**
 What every reachable state of the publication protocol keeps.

 Each predicate speaks of one row, one worker or one signer, so that a step,
 which touches one of each, has only these to re-establish.
 */
module FreePlayInvariant {
  import opened Wrappers
  import opened FreePlayTables
  import opened FreePlayProtocol

  /** The worker called Anchor and may still write the outcome to the row. */
  predicate Sent(pc: Pc) {
    pc.Saving? || pc.Reading? || (pc.Failing? && pc.mark != NoTx)
  }

  predicate EngagedOn(s: State, t: Token, id: RunId) {
    t in s.workers && s.workers[t].lease.run == id && (Holding(s.workers[t].pc) || Sent(s.workers[t].pc))
  }

  /** Row, run and quote of `id` agree. */
  predicate RowSound(db: Db, id: RunId) {
    if id in db.outbox then
      var o := db.outbox[id];
      && id in db.runs && db.runs[id].status != Verified
      && o.quote in db.quotes && db.quotes[o.quote].consumed
      && db.quotes[o.quote].quote.id == o.quote && db.quotes[o.quote].quote.run == id
      && db.quotes[o.quote].quote.nonce == o.nonce
      && o.attempts == (if o.tx == NoTx then 0 else 1)
      && (db.runs[id].status == Queued ==> o.tx == NoTx)
      && (db.runs[id].status == Submitted ==> o.tx != NoTx)
    else
      id in db.runs ==> db.runs[id].status == Verified
  }

  /** The row carries a broadcast marker that worker `w` put there or knows of. */
  predicate Marked(s: State, w: Worker) {
    && w.lease.run in s.db.outbox && s.db.outbox[w.lease.run].tx != NoTx
    && s.db.outbox[w.lease.run].quote == w.lease.quote.id
    && w.lease.run in s.sender && s.sender[w.lease.run] == w.lease.signer
  }

  /** The reservation of the spending table is for this run and quote, at the quote's limits. */
  predicate Backed(db: Db, run: RunId, q: Quote, reservation: nat) {
    && reservation < |db.spending|
    && var r := db.spending[reservation];
       r.run == run && r.quote == q.id && r.fee == q.maxFee && r.deposit == q.maxDeposit
  }

  predicate WorkerOk(s: State, t: Token) {
    t in s.workers ==>
      var w := s.workers[t];
      var l := w.lease;
      && l.owner == t && l.run in s.db.outbox && l.run in s.db.runs
      && l.quote.id in s.db.quotes && s.db.quotes[l.quote.id].quote == l.quote && l.quote.run == l.run
      && (Holding(w.pc) || Sent(w.pc) ==> Marked(s, w))
      && (w.pc.Allowed? || Holding(w.pc) ==> Backed(s.db, l.run, l.quote, w.reservation))
      && (w.pc.Confirming? ==> Agrees(l.tx, w.pc.receipt) && ValidReceipt(s.db.runs[l.run].run, w.pc.receipt))
  }

  /** Row `id` is worker `t`'s: what the worker still knows about it. */
  predicate RowOf(s: State, id: RunId, t: Token)
    requires id in s.db.outbox && id in s.db.runs
  {
    && t in s.workers && s.workers[t].lease.run == id
    && s.workers[t].lease.quote.id == s.db.outbox[id].quote
    && (s.db.runs[id].status == Confirmed ==> s.workers[t].pc == Done)
    && (Live(s.workers[t].pc) || s.workers[t].pc.Confirming? ==> s.db.outbox[id].tx == s.workers[t].lease.tx)
  }

  /** The signer `g` is pinned to `id`. */
  predicate Pinned(db: Db, g: Signer, id: RunId) {
    g in db.signers && db.signers[g].pending == Some(id)
  }

  predicate RowOk(s: State, id: RunId) {
    (id in s.confirmer ==> id in s.db.outbox && id in s.db.runs && s.db.runs[id].status == Confirmed)
    && (id in s.db.outbox && id in s.db.runs ==>
      var o, r := s.db.outbox[id], s.db.runs[id];
      && (o.owner.Some? ==> RowOf(s, id, o.owner.value))
      && (r.status == Confirmed ==>
            && id in s.confirmer && r.receipt.Some?
            && ValidReceipt(r.run, r.receipt.value) && Agrees(o.tx, r.receipt.value))
      && (o.tx != NoTx ==>
            && id in s.sender
            && (r.status != Confirmed || s.confirmer[id] != s.sender[id] ==> Pinned(s.db, s.sender[id], id))))
  }

  predicate SignerOk(s: State, g: Signer) {
    g in s.db.signers ==>
      var sg := s.db.signers[g];
      && sg.owner in s.workers && s.workers[sg.owner].lease.signer == g
      && (sg.pending.Some? ==>
            var id := sg.pending.value;
            && id in s.db.outbox && id in s.db.runs && s.db.outbox[id].tx != NoTx
            && id in s.sender && s.sender[id] == g
            && (s.db.runs[id].status == Confirmed ==> id in s.confirmer && s.confirmer[id] != g)
            && (s.db.outbox[id].owner.Some? && s.db.runs[id].status != Confirmed ==>
                  var t := s.db.outbox[id].owner.value;
                  t in s.workers && (s.workers[t].lease.signer == g ==> sg.owner == t)))
  }

  /** A worker holding a marker is the only one engaged on its run. */
  predicate Alone(s: State, t: Token, u: Token) {
    t != u && t in s.workers && Holding(s.workers[t].pc) ==> !EngagedOn(s, u, s.workers[t].lease.run)
  }

  predicate CallOk(s: State, i: nat) {
    i < |s.log| ==>
      var c := s.log[i];
      && c.run in s.db.outbox && s.db.outbox[c.run].tx != NoTx && s.db.outbox[c.run].quote == c.quote.id
      && c.quote.id in s.db.quotes && s.db.quotes[c.quote.id].quote == c.quote
      && c.run in s.sender && s.sender[c.run] == c.signer
      && Backed(s.db, c.run, c.quote, c.reservation)
  }

  /** No marker is held for a run whose Anchor was already called. */
  predicate Unsent(s: State, t: Token, i: nat) {
    i < |s.log| && t in s.workers && Holding(s.workers[t].pc) ==> s.log[i].run != s.workers[t].lease.run
  }

  predicate Distinct(s: State, i: nat, j: nat) {
    i < j < |s.log| ==> s.log[i].run != s.log[j].run
  }

  predicate QuoteOk(db: Db, q: QuoteId) {
    q in db.quotes ==> db.quotes[q].quote.id == q
  }

  ghost predicate Inv(s: State) {
    && (forall q :: QuoteOk(s.db, q))
    && (forall id :: RowSound(s.db, id))
    && (forall t :: WorkerOk(s, t))
    && (forall id :: RowOk(s, id))
    && (forall g :: SignerOk(s, g))
    && (forall t, u :: Alone(s, t, u))
    && (forall i: nat :: CallOk(s, i))
    && (forall t: Token, i: nat :: Unsent(s, t, i))
    && (forall i: nat, j: nat :: Distinct(s, i, j))
  }

  // ----- steps that touch one worker, one row and one signer

  ghost predicate SameWorker(s: State, s': State, u: Token) {
    (u in s.workers <==> u in s'.workers) && (u in s.workers ==> s.workers[u] == s'.workers[u])
  }

  ghost predicate SameRow(s: State, s': State, r: RunId) {
    && (r in s.db.outbox <==> r in s'.db.outbox) && (r in s.db.outbox ==> s.db.outbox[r] == s'.db.outbox[r])
    && (r in s.db.runs <==> r in s'.db.runs) && (r in s.db.runs ==> s.db.runs[r] == s'.db.runs[r])
    && (r in s.sender <==> r in s'.sender) && (r in s.sender ==> s.sender[r] == s'.sender[r])
    && (r in s.confirmer <==> r in s'.confirmer) && (r in s.confirmer ==> s.confirmer[r] == s'.confirmer[r])
  }

  ghost predicate SameSigner(s: State, s': State, h: Signer) {
    (h in s.db.signers <==> h in s'.db.signers) && (h in s.db.signers ==> s.db.signers[h] == s'.db.signers[h])
  }

  /** A marker on `id`, with its quote and sender, is still there. */
  predicate Steady(s: State, s': State, id: RunId) {
    id in s.db.outbox && s.db.outbox[id].tx != NoTx ==>
      && id in s'.db.outbox && s'.db.outbox[id].tx != NoTx && s'.db.outbox[id].quote == s.db.outbox[id].quote
      && (id in s.sender ==> id in s'.sender && s'.sender[id] == s.sender[id])
  }

  ghost predicate Untouched(s: State, t: Token, id: RunId) {
    && (forall u :: u != t ==> !EngagedOn(s, u, id))
    && (forall i :: 0 <= i < |s.log| ==> s.log[i].run != id)
  }

  /** Outside worker `t`, row `id` and signer `g`, and the end of the spending table, nothing changed. */
  ghost predicate Local(s: State, s': State, t: Token, id: RunId, g: Signer) {
    && (forall u :: u != t ==> SameWorker(s, s', u))
    && (forall r :: r != id ==> SameRow(s, s', r))
    && (forall h :: h != g ==> SameSigner(s, s', h))
    && s'.db.quotes == s.db.quotes
    && s.db.spending <= s'.db.spending
    && t in s'.workers && s'.workers[t].lease.run == id && s'.workers[t].lease.signer == g
    && (t in s.workers ==> s.workers[t].lease.run == id && s.workers[t].lease.signer == g)
    && id in s.db.outbox && id in s'.db.outbox && id in s.db.runs && id in s'.db.runs
    && s'.db.runs[id].run == s.db.runs[id].run
    && (Steady(s, s', id) || Untouched(s, t, id))
    && (PendingOf(s.db, g) != PendingOf(s'.db, g) ==> PendingOf(s.db, g) in {None, Some(id)})
  }

  lemma LocalRowSound(s: State, s': State, t: Token, id: RunId, g: Signer, r: RunId)
    requires Local(s, s', t, id, g) && r != id && RowSound(s.db, r)
    ensures RowSound(s'.db, r)
  {
    assert SameRow(s, s', r);
  }

  lemma LocalWorker(s: State, s': State, t: Token, id: RunId, g: Signer, u: Token)
    requires Local(s, s', t, id, g) && u != t && WorkerOk(s, u)
    ensures WorkerOk(s', u)
  {
    assert SameWorker(s, s', u);
    if u in s.workers {
      assert SameRow(s, s', s.workers[u].lease.run) || s.workers[u].lease.run == id;
      if s.workers[u].lease.run == id && !Steady(s, s', id) {
        assert !EngagedOn(s, u, id);
      }
    }
  }

  lemma LocalRow(s: State, s': State, t: Token, id: RunId, g: Signer, r: RunId)
    requires Local(s, s', t, id, g) && r != id && RowOk(s, r)
    requires t in s.workers || forall x <- s.db.outbox :: s.db.outbox[x].owner != Some(t)
    ensures RowOk(s', r)
  {
    assert SameRow(s, s', r);
    if r in s.db.outbox && r in s.db.runs {
      var o := s.db.outbox[r];
      if o.owner.Some? {
        assert SameWorker(s, s', o.owner.value);
      }
      if o.tx != NoTx {
        assert SameSigner(s, s', s.sender[r]) || s.sender[r] == g;
      }
    }
  }

  lemma LocalSigner(s: State, s': State, t: Token, id: RunId, g: Signer, h: Signer)
    requires Local(s, s', t, id, g) && h != g && SignerOk(s, h)
    requires forall r :: RowOk(s, r)
    requires t in s.workers || forall x <- s.db.outbox :: s.db.outbox[x].owner != Some(t)
    requires t in s.workers || forall x <- s.db.signers :: s.db.signers[x].owner != t
    requires Pinned(s.db, h, id) ==> SignerOk(s', h)
    ensures SignerOk(s', h)
  {
    assert SameSigner(s, s', h);
    if h in s.db.signers {
      var sg := s.db.signers[h];
      assert SameWorker(s, s', sg.owner);
      if sg.pending.Some? && sg.pending.value != id {
        var r := sg.pending.value;
        assert SameRow(s, s', r) && RowOk(s, r);
        if s.db.outbox[r].owner.Some? {
          assert SameWorker(s, s', s.db.outbox[r].owner.value);
        }
      }
    }
  }

  lemma LocalCall(s: State, s': State, t: Token, id: RunId, g: Signer, i: nat)
    requires Local(s, s', t, id, g) && i < |s.log| && s.log <= s'.log && CallOk(s, i)
    ensures CallOk(s', i)
  {
    assert s'.log[i] == s.log[i];
    assert SameRow(s, s', s.log[i].run) || s.log[i].run == id;
  }

  ghost predicate Known(s: State, t: Token) {
    t in s.workers
    || ((forall x <- s.db.outbox :: s.db.outbox[x].owner != Some(t))
        && (forall x <- s.db.signers :: s.db.signers[x].owner != t))
  }

  /** Worker `t` becomes engaged on its run only if nobody was, or if it was already. */
  ghost predicate Engages(s: State, s': State, t: Token, id: RunId)
    requires t in s'.workers
  {
    && (Holding(s'.workers[t].pc) ==> (t in s.workers && Holding(s.workers[t].pc)) || Untouched(s, t, id))
    && (Sent(s'.workers[t].pc) ==> EngagedOn(s, t, id))
    && (s'.log == s.log
        || (|s'.log| == |s.log| + 1 && s.log <= s'.log && s'.log[|s.log|].run == id
            && t in s.workers && Holding(s.workers[t].pc) && !Holding(s'.workers[t].pc)
            && CallOk(s', |s.log|)))
  }

  lemma LocalAlone(s: State, s': State, t: Token, id: RunId, g: Signer, u: Token, v: Token)
    requires Local(s, s', t, id, g) && Engages(s, s', t, id) && Alone(s, u, v)
    ensures Alone(s', u, v)
  {
    assert SameWorker(s, s', u) || u == t;
    assert SameWorker(s, s', v) || v == t;
    assert u == t && v != t && EngagedOn(s', v, id) ==> EngagedOn(s, v, id);
    assert v == t && u != t && EngagedOn(s', u, id) ==> EngagedOn(s, u, id);
  }

  lemma LocalUnsent(s: State, s': State, t: Token, id: RunId, g: Signer, u: Token, i: nat)
    requires Local(s, s', t, id, g) && Engages(s, s', t, id) && Unsent(s, u, i) && Alone(s, t, u) && i < |s'.log|
    ensures Unsent(s', u, i)
  {
    assert SameWorker(s, s', u) || u == t;
    if i < |s.log| {
      assert s'.log[i] == s.log[i];
    } else if u != t && u in s.workers && Holding(s.workers[u].pc) {
      assert !EngagedOn(s, u, id);
    }
  }

  lemma LocalDistinct(s: State, s': State, t: Token, id: RunId, g: Signer, i: nat, j: nat)
    requires Local(s, s', t, id, g) && Engages(s, s', t, id) && Distinct(s, i, j) && Unsent(s, t, i)
    ensures Distinct(s', i, j)
  {
    if i < j < |s'.log| {
      assert s'.log[i] == s.log[i];
      if j < |s.log| {
        assert s'.log[j] == s.log[j];
      }
    }
  }

  /** Another signer pinned to `id` stays right about it. */
  ghost predicate OthersOk(s: State, s': State, id: RunId, g: Signer) {
    forall h :: h != g && Pinned(s.db, h, id) && SignerOk(s, h) ==> SignerOk(s', h)
  }

  /** A local step that re-establishes the invariant for what it touched. */
  ghost predicate Touches(s: State, s': State, t: Token, id: RunId, g: Signer) {
    && Local(s, s', t, id, g) && Engages(s, s', t, id)
    && RowSound(s'.db, id) && WorkerOk(s', t) && RowOk(s', id) && SignerOk(s', g)
    && OthersOk(s, s', id, g)
  }

  lemma LocalStep(s: State, s': State, t: Token, id: RunId, g: Signer)
    requires Inv(s) && Touches(s, s', t, id, g) && Known(s, t)
    ensures Inv(s')
  {
    forall q ensures QuoteOk(s'.db, q) { assert QuoteOk(s.db, q); }
    forall r ensures RowSound(s'.db, r) {
      if r != id { LocalRowSound(s, s', t, id, g, r); }
    }
    forall u ensures WorkerOk(s', u) {
      if u != t { LocalWorker(s, s', t, id, g, u); }
    }
    forall r ensures RowOk(s', r) {
      if r != id { LocalRow(s, s', t, id, g, r); }
    }
    forall h ensures SignerOk(s', h) {
      if h != g { LocalSigner(s, s', t, id, g, h); }
    }
    forall u, v ensures Alone(s', u, v) {
      LocalAlone(s, s', t, id, g, u, v);
    }
    forall i: nat ensures CallOk(s', i) {
      if i < |s.log| { LocalCall(s, s', t, id, g, i); }
    }
    forall u: Token, i: nat ensures Unsent(s', u, i) {
      if i < |s'.log| { LocalUnsent(s, s', t, id, g, u, i); }
    }
    forall i: nat, j: nat ensures Distinct(s', i, j) {
      assert Distinct(s, i, j) && Unsent(s, t, i);
      LocalDistinct(s, s', t, id, g, i, j);
    }
  }

  // ----- the steps of one worker

  /** The facts of the invariant about worker `t`, its row and its signer. */
  ghost predicate Ready(s: State, t: Token) {
    t in s.workers && WorkerOk(s, t)
    && var l := s.workers[t].lease; RowSound(s.db, l.run) && RowOk(s, l.run) && SignerOk(s, l.signer)
  }

  /** Nobody is engaged on a run without a marker, and its Anchor was never called. */
  lemma UnmarkedUntouched(s: State, t: Token, id: RunId)
    requires Inv(s) && id in s.db.outbox && s.db.outbox[id].tx == NoTx
    ensures Untouched(s, t, id)
  {
    forall u ensures !EngagedOn(s, u, id) {
      assert WorkerOk(s, u);
    }
    forall i | 0 <= i < |s.log| ensures s.log[i].run != id {
      assert CallOk(s, i);
    }
  }

  lemma HoldingUntouched(s: State, t: Token)
    requires Inv(s) && t in s.workers && Holding(s.workers[t].pc)
    ensures Untouched(s, t, s.workers[t].lease.run)
  {
    forall u | u != t ensures !EngagedOn(s, u, s.workers[t].lease.run) {
      assert Alone(s, t, u);
    }
    forall i | 0 <= i < |s.log| ensures s.log[i].run != s.workers[t].lease.run {
      assert Unsent(s, t, i);
    }
  }

  /** A worker that moves alone, as every refused transaction, decision and crash makes it. */
  lemma MoveTouches(s: State, s': State, t: Token, w: Worker)
    requires Ready(s, t) && s' == s.(workers := s.workers[t := w], now := s'.now, log := s'.log)
    requires w.lease.run == s.workers[t].lease.run && w.lease.signer == s.workers[t].lease.signer
    requires WorkerOk(s', t) && RowOk(s', w.lease.run) && Engages(s, s', t, w.lease.run)
    ensures Touches(s, s', t, w.lease.run, w.lease.signer)
  {
  }

  lemma AllowTouches(s: State, s': State, t: Token, db': Db, pc: Pc)
    requires Ready(s, t) && s.workers[t].pc.Authorized? && pc in {Allowed, Failing(NoTx)}
    requires var l := s.workers[t].lease;
      && db' == s.db.(budget := db'.budget, spending := db'.spending) && s.db.spending <= db'.spending
      && Backed(db', l.run, l.quote, |s.db.spending|)
      && s' == s.(db := db', now := s'.now,
                  workers := s.workers[t := Worker(l, pc, |s.db.spending|, s.workers[t].until)])
    ensures var l := s.workers[t].lease; Touches(s, s', t, l.run, l.signer)
  {
  }

  lemma MarkTouches(s: State, s': State, t: Token, pc: Pc)
    requires Ready(s, t) && s.workers[t].pc.Allowed? && pc in {Reserved, Failing(NoTx)}
    requires Untouched(s, t, s.workers[t].lease.run)
    requires var l := s.workers[t].lease; var o := ReserveBroadcast(s.db, l, s.now);
      o.Ok? && s' == Move(s, t, pc).(db := o.value, sender := s.sender[l.run := l.signer])
    ensures var l := s.workers[t].lease; Touches(s, s', t, l.run, l.signer)
  {
  }

  lemma UndoTouches(s: State, s': State, t: Token, pc: Pc)
    requires Ready(s, t) && s.workers[t].pc.Cancelling? && pc in {Failing(NoTx), Done}
    requires Untouched(s, t, s.workers[t].lease.run)
    requires var l := s.workers[t].lease; var o := CancelUnsent(s.db, l);
      o.Ok? && s' == Move(s, t, pc).(db := o.value)
    ensures var l := s.workers[t].lease; Touches(s, s', t, l.run, l.signer)
  {
  }

  lemma KeepTouches(s: State, s': State, t: Token, pc: Pc)
    requires Ready(s, t) && s.workers[t].pc.Saving? && pc in {Reading, Done}
    requires var w := s.workers[t]; var o := SaveHash(s.db, w.lease, w.pc.hash);
      && o.Ok?
      && s' == s.(db := o.value,
                  workers := s.workers[t := Worker(w.lease.(tx := Hash(w.pc.hash)), pc, w.reservation, w.until)])
    ensures var l := s.workers[t].lease; Touches(s, s', t, l.run, l.signer)
  {
  }

  lemma RecordTouches(s: State, s': State, t: Token)
    requires Ready(s, t) && s.workers[t].pc.Failing?
    requires var l := s.workers[t].lease; var o := SaveAttempt(s.db, l, s.workers[t].pc.mark, s.now);
      o.Ok? && s' == Move(s, t, Done).(db := o.value)
    ensures var l := s.workers[t].lease; Touches(s, s', t, l.run, l.signer)
  {
  }

  lemma SettleTouches(s: State, s': State, t: Token)
    requires Ready(s, t) && s.workers[t].pc.Confirming?
    requires var l := s.workers[t].lease; var o := Confirm(s.db, l, s.workers[t].pc.receipt);
      o.Ok? && s' == Move(s, t, Done).(db := o.value, confirmer := s.confirmer[l.run := l.signer])
    ensures var l := s.workers[t].lease; Touches(s, s', t, l.run, l.signer)
  {
  }

  ghost predicate Steps(s: State, t: Token, act: Act)
    requires t in s.workers && CanAct(s.workers[t].pc, act)
  {
    Touches(s, Worked(s, t, act), t, s.workers[t].lease.run, s.workers[t].lease.signer)
  }

  lemma DecisionSteps(s: State, t: Token, act: Act)
    requires Ready(s, t) && CanAct(s.workers[t].pc, act)
    requires act.GiveUp? || act.Found? || act.NotFound? || act.Check? || act.Crash?
    ensures Steps(s, t, act)
  {
    var s' := Worked(s, t, act);
    MoveTouches(s, s', t, s'.workers[t]);
  }

  lemma AnchorSteps(s: State, t: Token, act: Act)
    requires Ready(s, t) && s.workers[t].pc.Sending? && (act.AnchorFails? || act.AnchorReturns?)
    ensures Steps(s, t, act)
  {
    var s' := Worked(s, t, act);
    MoveTouches(s, s', t, s'.workers[t]);
  }

  lemma AllowSteps(s: State, t: Token, act: Act)
    requires Ready(s, t) && s.workers[t].pc.Authorized? && act.Allow?
    ensures Steps(s, t, act)
  {
    var s' := Worked(s, t, act);
    var l := s.workers[t].lease;
    var o := ReserveAllowance(s.db, act.settings, l.run, l.quote, s.now, act.locked, act.after);
    if Lands(o, act.commit) {
      AllowTouches(s, s', t, o.value, s'.workers[t].pc);
    } else {
      MoveTouches(s, s', t, s'.workers[t]);
    }
  }

  lemma MarkSteps(s: State, t: Token, act: Act)
    requires Ready(s, t) && s.workers[t].pc.Allowed? && act.Mark?
    requires s.db.outbox[s.workers[t].lease.run].tx == NoTx ==> Untouched(s, t, s.workers[t].lease.run)
    ensures Steps(s, t, act)
  {
    var s' := Worked(s, t, act);
    if Lands(ReserveBroadcast(s.db, s.workers[t].lease, s.now), act.commit) {
      MarkTouches(s, s', t, s'.workers[t].pc);
    } else {
      MoveTouches(s, s', t, s'.workers[t]);
    }
  }

  lemma UndoSteps(s: State, t: Token, act: Act)
    requires Ready(s, t) && s.workers[t].pc.Cancelling? && act.Undo? && Untouched(s, t, s.workers[t].lease.run)
    ensures Steps(s, t, act)
  {
    var s' := Worked(s, t, act);
    if Lands(CancelUnsent(s.db, s.workers[t].lease), act.commit) {
      UndoTouches(s, s', t, s'.workers[t].pc);
    } else {
      MoveTouches(s, s', t, s'.workers[t]);
    }
  }

  lemma KeepSteps(s: State, t: Token, act: Act)
    requires Ready(s, t) && s.workers[t].pc.Saving? && act.Keep?
    ensures Steps(s, t, act)
  {
    var s' := Worked(s, t, act);
    var w := s.workers[t];
    if Lands(SaveHash(s.db, w.lease, w.pc.hash), act.commit) {
      KeepTouches(s, s', t, s'.workers[t].pc);
    } else {
      MoveTouches(s, s', t, s'.workers[t]);
    }
  }

  lemma RecordSteps(s: State, t: Token, act: Act)
    requires Ready(s, t) && s.workers[t].pc.Failing? && act.Record?
    ensures Steps(s, t, act)
  {
    var s' := Worked(s, t, act);
    var w := s.workers[t];
    if Lands(SaveAttempt(s.db, w.lease, w.pc.mark, s.now), act.commit) {
      RecordTouches(s, s', t);
    } else {
      MoveTouches(s, s', t, s'.workers[t]);
    }
  }

  lemma SettleSteps(s: State, t: Token, act: Act)
    requires Ready(s, t) && s.workers[t].pc.Confirming? && act.Settle?
    ensures Steps(s, t, act)
  {
    var s' := Worked(s, t, act);
    var w := s.workers[t];
    if Lands(Confirm(s.db, w.lease, w.pc.receipt), act.commit) {
      SettleTouches(s, s', t);
    } else {
      MoveTouches(s, s', t, s'.workers[t]);
    }
  }

  lemma WorkKeeps(s: State, t: Token, act: Act)
    requires Inv(s) && Enabled(s, Work(t, act))
    ensures Inv(Worked(s, t, act))
  {
    var w := s.workers[t];
    var l := w.lease;
    assert WorkerOk(s, t) && RowSound(s.db, l.run) && RowOk(s, l.run) && SignerOk(s, l.signer);
    if s.db.outbox[l.run].tx == NoTx { UnmarkedUntouched(s, t, l.run); }
    if Holding(w.pc) { HoldingUntouched(s, t); }
    match act {
      case Allow(_, _, _, _) => AllowSteps(s, t, act);
      case Mark(_) => MarkSteps(s, t, act);
      case Undo(_) => UndoSteps(s, t, act);
      case AnchorFails => AnchorSteps(s, t, act);
      case AnchorReturns(_) => AnchorSteps(s, t, act);
      case Keep(_) => KeepSteps(s, t, act);
      case Record(_) => RecordSteps(s, t, act);
      case Settle(_) => SettleSteps(s, t, act);
      case _ => DecisionSteps(s, t, act);
    }
    LocalStep(s, Worked(s, t, act), t, l.run, l.signer);
  }

  // ----- the steps of users, and claims

  /** No quote appears or changes, except that quotes are consumed. */
  ghost predicate SameQuotes(db: Db, db': Db) {
    forall q {:trigger q in db'.quotes} {:trigger q in db.quotes} ::
      && (q in db.quotes <==> q in db'.quotes)
      && (q in db.quotes ==> db'.quotes[q].quote == db.quotes[q].quote
                             && (db.quotes[q].consumed ==> db'.quotes[q].consumed))
  }

  /** Row `id` may appear or be authorized again: no worker or signer moves. */
  ghost predicate Authorizing(s: State, s': State, id: RunId) {
    && s'.workers == s.workers && s'.log == s.log && s'.sender == s.sender && s'.confirmer == s.confirmer
    && s'.db.signers == s.db.signers && s'.db.spending == s.db.spending
    && SameQuotes(s.db, s'.db)
    && (forall r :: r != id ==> SameRow(s, s', r))
    && (id in s.db.outbox ==> id in s'.db.outbox && s.db.outbox[id].tx == NoTx)
    && (id in s.db.runs ==>
        id in s'.db.runs && s'.db.runs[id].run == s.db.runs[id].run && s.db.runs[id].status != Confirmed)
    && (id in s'.db.outbox ==> s'.db.outbox[id].owner == None && s'.db.outbox[id].tx == NoTx)
    && (id in s'.db.runs ==> s'.db.runs[id].status in {Verified, Queued})
    && RowSound(s'.db, id)
  }

  lemma AuthorizingKeeps(s: State, s': State, id: RunId)
    requires Inv(s) && Authorizing(s, s', id)
    ensures Inv(s')
  {
    forall q' ensures QuoteOk(s'.db, q') { assert QuoteOk(s.db, q'); }
    forall r ensures RowSound(s'.db, r) && RowOk(s', r) {
      assert r != id ==> SameRow(s, s', r);
      assert RowSound(s.db, r) && RowOk(s, r);
    }
    forall t ensures WorkerOk(s', t) {
      assert WorkerOk(s, t);
      if t in s.workers && s.workers[t].lease.run != id { assert SameRow(s, s', s.workers[t].lease.run); }
    }
    forall g ensures SignerOk(s', g) {
      assert SignerOk(s, g);
      if g in s.db.signers && s.db.signers[g].pending.Some? { assert SameRow(s, s', s.db.signers[g].pending.value); }
    }
    forall t, u ensures Alone(s', t, u) {
      assert Alone(s, t, u);
      assert t in s.workers ==> EngagedOn(s', u, s.workers[t].lease.run) ==> EngagedOn(s, u, s.workers[t].lease.run);
    }
    forall i: nat ensures CallOk(s', i) {
      assert CallOk(s, i);
      if i < |s.log| { assert SameRow(s, s', s.log[i].run); }
    }
    forall t: Token, i: nat ensures Unsent(s', t, i) { assert Unsent(s, t, i); }
    forall i: nat, j: nat ensures Distinct(s', i, j) { assert Distinct(s, i, j); }
  }

  lemma TickKeeps(s: State, s': State)
    requires Inv(s) && s' == s.(now := s'.now)
    ensures Inv(s')
  {
    forall q' ensures QuoteOk(s'.db, q') { assert QuoteOk(s.db, q'); }
    forall r ensures RowSound(s'.db, r) && RowOk(s', r) { assert RowSound(s.db, r) && RowOk(s, r); }
    forall t ensures WorkerOk(s', t) { assert WorkerOk(s, t); }
    forall g ensures SignerOk(s', g) { assert SignerOk(s, g); }
    forall t, u ensures Alone(s', t, u) {
      assert Alone(s, t, u);
      assert t in s.workers ==> EngagedOn(s', u, s.workers[t].lease.run) ==> EngagedOn(s, u, s.workers[t].lease.run);
    }
    forall i: nat ensures CallOk(s', i) { assert CallOk(s, i); }
    forall t: Token, i: nat ensures Unsent(s', t, i) { assert Unsent(s, t, i); }
    forall i: nat, j: nat ensures Distinct(s', i, j) { assert Distinct(s, i, j); }
  }

  lemma AuthorKeeps(s: State, id: RunId, run: Run)
    requires Inv(s)
    ensures Inv(Apply(s, Author(id, run)))
  {
    assert RowSound(s.db, id);
    if id !in s.db.runs {
      AuthorizingKeeps(s, Apply(s, Author(id, run)), id);
    }
  }

  lemma OfferKeeps(s: State, q: Quote)
    requires Inv(s)
    ensures Inv(Apply(s, Offer(q)))
  {
    var s' := Apply(s, Offer(q));
    forall q' ensures QuoteOk(s'.db, q') { assert QuoteOk(s.db, q'); }
    forall r ensures RowSound(s'.db, r) && RowOk(s', r) { assert RowSound(s.db, r) && RowOk(s, r); }
    forall t ensures WorkerOk(s', t) { assert WorkerOk(s, t); }
    forall g ensures SignerOk(s', g) { assert SignerOk(s, g); }
    forall t, u ensures Alone(s', t, u) {
      assert Alone(s, t, u);
      assert t in s.workers ==> EngagedOn(s', u, s.workers[t].lease.run) ==> EngagedOn(s, u, s.workers[t].lease.run);
    }
    forall i: nat ensures CallOk(s', i) { assert CallOk(s, i); }
    forall t: Token, i: nat ensures Unsent(s', t, i) { assert Unsent(s, t, i); }
    forall i: nat, j: nat ensures Distinct(s', i, j) { assert Distinct(s, i, j); }
  }

  lemma AuthorizeKeeps(s: State, step: Step)
    requires Inv(s) && step.Authorize?
    ensures Inv(Apply(s, step))
  {
    var s' := Apply(s, step);
    assert RowSound(s.db, step.id) && QuoteOk(s.db, step.quoteId);
    if s'.db != s.db {
      AuthorizingKeeps(s, s', step.id);
    }
  }

  lemma ClaimKeeps(s: State, step: Step)
    requires Inv(s) && step.Claim? && Enabled(s, step)
    ensures Inv(Apply(s, step))
  {
    var s' := Apply(s, step);
    assert RowSound(s.db, step.row) && RowOk(s, step.row) && SignerOk(s, step.signer);
    forall g <- s.db.signers ensures s.db.signers[g].owner != step.token { assert SignerOk(s, g); }
    LocalStep(s, s', step.token, step.row, step.signer);
  }

  lemma StepKeeps(s: State, step: Step)
    requires Inv(s) && Enabled(s, step)
    ensures Inv(Apply(s, step))
  {
    match step
    case Tick(_) => TickKeeps(s, Apply(s, step));
    case Author(id, run) => AuthorKeeps(s, id, run);
    case Offer(q) => OfferKeeps(s, q);
    case Authorize(_, _, _, _, _) => AuthorizeKeeps(s, step);
    case Claim(_, _, _, _, _) => ClaimKeeps(s, step);
    case Work(t, act) => WorkKeeps(s, t, act);
  }
}
