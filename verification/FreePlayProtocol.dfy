/**
 Any number of `PublishOne` calls over one database, interleaved in any order,
 each stopping anywhere, while users author runs and authorize quotes.

 A step is one committed transaction, one call to the chain, or one decision of
 one worker. `Anchor` calls are recorded in `log`: each may spend money. The
 histories `sender` and `confirmer` say which signer reserved a run's broadcast
 and which signer's worker confirmed it.
 */
module FreePlayProtocol {
  import opened FreePlayTables

  /** Where a worker is in `PublishOne`. */
  datatype Pc =
    | Looking                       // claimed; the first lookup comes next
    | Authorized                    // not on chain and authorized; allowance comes next
    | Allowed                       // allowance reserved; the marker comes next
    | Reserved                      // marker committed; authorization is checked again
    | Sending                       // checked; Anchor comes next
    | Cancelling                    // not authorized any more; the marker is to be undone
    | Saving(hash: nat)             // Anchor returned a hash
    | Reading                       // hash saved; the second lookup comes next
    | Confirming(receipt: Receipt)  // a receipt was read and checked
    | Failing(mark: TxMark)         // the failure is to be recorded
    | Done                          // returned, or dead

  /**
   `reservation` is the worker's row of the spending table, once it has one, and `until` the end of its
   lease. The source runs the whole operation, Anchor included, under a deadline of 45 seconds inside a
   lease of 60; here a worker may stall past it, and what the deadline is for is proved.
   */
  datatype Worker = Worker(lease: Lease, pc: Pc, reservation: nat, until: int)

  /** One call of Anchor. */
  datatype Call = Call(token: Token, signer: Signer, run: RunId, quote: Quote, reservation: nat)

  datatype State = State(db: Db, now: int, workers: map<Token, Worker>, log: seq<Call>,
                         sender: map<RunId, Signer>, confirmer: map<RunId, Signer>)

  datatype Act =
    | GiveUp                        // a lookup failed, or authorization or time ran out
    | Found(receipt: Receipt)       // a lookup found the entry
    | NotFound                      // a lookup found nothing
    | Allow(settings: Settings, locked: int, after: int, commit: Commit)
    | Mark(commit: Commit)          // reserveBroadcast
    | Check(live: bool)             // the check after the marker
    | Undo(commit: Commit)          // cancelUnsentBroadcast
    | AnchorFails                   // Anchor ran and returned an error or no hash
    | AnchorReturns(hash: nat)
    | Keep(commit: Commit)          // saveBroadcastHash
    | Record(commit: Commit)        // saveAttempt
    | Settle(commit: Commit)        // confirm
    | Crash

  datatype Step =
    | Tick(seconds: nat)
    | Author(id: RunId, run: Run)
    | Offer(quote: Quote)
    | Authorize(id: RunId, player: nat, payload: nat, quoteId: QuoteId, nonce: nat)
    | Claim(token: Token, signer: Signer, until: int, row: RunId, replies: bool)
    | Work(token: Token, act: Act)

  const INITIAL := State(EMPTY_DB, 0, map[], [], map[], map[])

  predicate Live(pc: Pc) {
    pc.Looking? || pc.Authorized? || pc.Allowed? || pc.Reading?
  }

  /** The worker committed the marker and has neither undone it nor called Anchor. */
  predicate Holding(pc: Pc) {
    pc.Reserved? || pc.Sending? || pc.Cancelling?
  }

  predicate CanAct(pc: Pc, act: Act) {
    match act
    case GiveUp => Live(pc)
    case Found(_) => pc.Looking? || pc.Reading?
    case NotFound => pc.Looking? || pc.Reading?
    case Allow(_, _, _, _) => pc.Authorized?
    case Mark(_) => pc.Allowed?
    case Check(_) => pc.Reserved?
    case Undo(_) => pc.Cancelling?
    case AnchorFails => pc.Sending?
    case AnchorReturns(_) => pc.Sending?
    case Keep(_) => pc.Saving?
    case Record(_) => pc.Failing?
    case Settle(_) => pc.Confirming?
    case Crash => !pc.Done?
  }

  ghost predicate Enabled(s: State, step: Step) {
    match step
    case Tick(_) => true
    case Author(_, _) => true
    case Offer(_) => true
    case Authorize(_, _, _, _, _) => true
    case Claim(token, signer, until, row, _) =>
      && token !in s.workers && until > s.now && SignerFree(s.db, signer, s.now)
      && !TokenUsed(s.db, token) && Selected(s.db, signer, s.now, row)
    case Work(token, act) =>
      && token in s.workers && CanAct(s.workers[token].pc, act)
      && (act.Check? && act.live ==> s.workers[token].lease.quote.expiresAt > s.now)
      && (act.Allow? ==> ValidSettings(act.settings) && s.now <= act.locked <= act.after)
  }

  function Move(s: State, token: Token, pc: Pc): State
    requires token in s.workers
  {
    s.(workers := s.workers[token := s.workers[token].(pc := pc)])
  }

  /** A worker's transaction: its effect on the tables, and where the worker goes. */
  function Transact(s: State, token: Token, o: Outcome, commit: Commit, then_: Pc, else_: Pc): State
    requires token in s.workers
  {
    Move(s, token, if Succeeds(o, commit) then then_ else else_).(db := Tables(s.db, o, commit))
  }

  function AfterLookup(w: Worker, rc: Receipt, db: Db): Pc {
    if !Agrees(w.lease.tx, rc) then Failing(NoTx)
    else if w.lease.run !in db.runs || !ValidReceipt(db.runs[w.lease.run].run, rc) then Failing(NoTx)
    else Confirming(rc)
  }

  function Called(s: State, token: Token, pc: Pc): State
    requires token in s.workers
  {
    var w := s.workers[token];
    Move(s, token, pc).(log := s.log + [Call(token, w.lease.signer, w.lease.run, w.lease.quote, w.reservation)])
  }

  function Worked(s: State, token: Token, act: Act): State
    requires token in s.workers && CanAct(s.workers[token].pc, act)
  {
    var w := s.workers[token];
    var l := w.lease;
    match act
    case GiveUp => Move(s, token, Failing(NoTx))
    case Found(rc) => Move(s, token, AfterLookup(w, rc, s.db))
    case NotFound =>
      Move(s, token, if w.pc.Reading? || l.tx != NoTx || l.quote.expiresAt <= s.now then Failing(NoTx) else Authorized)
    case Allow(st, locked, after, commit) =>
      var o := ReserveAllowance(s.db, st, l.run, l.quote, s.now, locked, after);
      var s' := Transact(s, token, o, commit, Allowed, Failing(NoTx));
      s'.(now := if after > s.now then after else s.now,
          workers := s'.workers[token := s'.workers[token].(reservation := |s.db.spending|)])
    case Mark(commit) =>
      var o := ReserveBroadcast(s.db, l, s.now);
      Transact(s, token, o, commit, Reserved, Failing(NoTx))
        .(sender := if Lands(o, commit) then s.sender[l.run := l.signer] else s.sender)
    case Check(live) => Move(s, token, if live then Sending else Cancelling)
    case Undo(commit) => Transact(s, token, CancelUnsent(s.db, l), commit, Failing(NoTx), Done)
    case AnchorFails => Called(s, token, Failing(Unknown))
    case AnchorReturns(hash) => Called(s, token, Saving(hash))
    case Keep(commit) =>
      var o := SaveHash(s.db, l, w.pc.hash);
      var s' := Transact(s, token, o, commit, Reading, Done);
      s'.(workers := s'.workers[token := s'.workers[token].(lease := l.(tx := Hash(w.pc.hash)))])
    case Record(commit) => Transact(s, token, SaveAttempt(s.db, l, w.pc.mark, s.now), commit, Done, Done)
    case Settle(commit) =>
      var o := Confirm(s.db, l, w.pc.receipt);
      Transact(s, token, o, commit, Done, Done)
        .(confirmer := if Lands(o, commit) then s.confirmer[l.run := l.signer] else s.confirmer)
    case Crash => Move(s, token, Done)
  }

  ghost function Apply(s: State, step: Step): State
    requires Enabled(s, step)
  {
    match step
    case Tick(seconds) => s.(now := s.now + seconds)
    case Author(id, run) => s.(db := PutVerified(s.db, id, run))
    case Offer(q) => s.(db := Tables(s.db, PutQuote(s.db, q, s.now), Applied))
    case Authorize(id, player, payload, quoteId, nonce) =>
      s.(db := Tables(s.db, Queue(s.db, id, player, payload, quoteId, nonce, s.now), Applied))
    case Claim(token, signer, until, row, replies) =>
      s.(db := Claimed(s.db, signer, token, until, row),
         workers := s.workers[token := Worker(LeaseOn(s.db, signer, token, row),
                                              if replies then Looking else Done, 0, until)])
    case Work(token, act) => Worked(s, token, act)
  }
}
