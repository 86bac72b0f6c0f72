/**
 The tables of the Free play publication outbox and, for each SQL transaction
 on them, the function from the tables it finds to the tables it commits.

 Identifiers that the source keeps as 64 hex digits are natural numbers here,
 ordered as their text. A store serves one chain and one realm, so the tables
 hold the rows of that target only. `last_error` is diagnostic text and is left
 out.
 */
module FreePlayTables {
  import opened Wrappers

  type RunId = nat
  type QuoteId = nat
  type Token = nat
  type Signer = nat

  /** The largest integer a JSON number carries exactly: 2^53 - 1. */
  const MAX_AMOUNT: int := 9007199254740991
  const MAX_FAILURES: nat := 8
  const SECONDS_PER_DAY: int := 86400

  datatype Status = Verified | Queued | Submitted | Confirmed

  /** The `tx_hash` column: empty, the ambiguous marker, or a canonical hash. */
  datatype TxMark = NoTx | Unknown | Hash(hash: nat)

  datatype HashText = Absent | Canonical(hash: nat) | Garbled

  datatype Receipt = Receipt(schema: int, entry: nat, height: int, attesterOk: bool, tx: HashText)

  datatype Run = Run(player: nat, payload: nat, entry: nat, createdAt: int)

  datatype RunRow = RunRow(run: Run, status: Status, receipt: Option<Receipt>)

  datatype Quote = Quote(id: QuoteId, run: RunId, payload: nat, nonce: nat,
                         expiresAt: int, maxFee: int, maxDeposit: int)

  datatype QuoteRow = QuoteRow(quote: Quote, consumed: bool)

  datatype OutboxRow = OutboxRow(quote: QuoteId, nonce: nat, owner: Option<Token>, leaseUntil: int,
                                 attempts: nat, failures: nat, polls: nat, nextCheck: int, tx: TxMark)

  datatype SignerRow = SignerRow(owner: Token, leaseUntil: int, pending: Option<RunId>)

  datatype BudgetKey = BudgetKey(signer: Signer, day: int)

  datatype BudgetRow = BudgetRow(attempts: int, fee: int, deposit: int,
                                 maxAttempts: int, maxFee: int, maxDeposit: int)

  datatype Spend = Spend(key: BudgetKey, run: RunId, quote: QuoteId, fee: int, deposit: int)

  /** `spending` is append-only; a row's index stands for its random reservation id. */
  datatype Db = Db(runs: map<RunId, RunRow>, quotes: map<QuoteId, QuoteRow>,
                   outbox: map<RunId, OutboxRow>, signers: map<Signer, SignerRow>,
                   budget: map<BudgetKey, BudgetRow>, spending: seq<Spend>)

  datatype Settings = Settings(signer: Signer, maxAttempts: int, maxFee: int, maxDeposit: int)

  /** What a worker holds after a successful claim: the rows as it read them. */
  datatype Lease = Lease(signer: Signer, owner: Token, run: RunId, quote: Quote,
                         tx: TxMark, failures: nat, polls: nat)

  datatype Failure = Paused | Missing | Conflict | Duplicate | QuoteExpired | SignerLeaseLost | LeaseLost
                   | BudgetUnavailable | ReceiptMismatch | CommitFailed

  type Outcome = Result<Db, Failure>

  /** A transaction that was to commit: it did, it did but reported an error, or it did not. */
  datatype Commit = Applied | ReplyLost | Refused

  function Lands(o: Outcome, commit: Commit): bool {
    o.Ok? && !commit.Refused?
  }

  function Succeeds(o: Outcome, commit: Commit): bool {
    o.Ok? && commit.Applied?
  }

  function Tables(db: Db, o: Outcome, commit: Commit): Db {
    if Lands(o, commit) then o.value else db
  }

  const EMPTY_DB := Db(map[], map[], map[], map[], map[], [])

  predicate ValidSettings(st: Settings) {
    && 0 < st.maxAttempts <= MAX_AMOUNT
    && 0 < st.maxFee <= MAX_AMOUNT
    && 0 < st.maxDeposit <= MAX_AMOUNT
  }

  function Day(now: int): int {
    now / SECONDS_PER_DAY
  }

  predicate OwnsSigner(db: Db, l: Lease) {
    l.signer in db.signers && db.signers[l.signer].owner == l.owner
  }

  predicate OwnsRow(db: Db, l: Lease) {
    l.run in db.outbox && db.outbox[l.run].owner == Some(l.owner)
  }

  predicate PendingAllows(row: SignerRow, run: RunId) {
    row.pending == None || row.pending == Some(run)
  }

  /** `UPDATE runs SET status=to WHERE run_id=id AND status=from`. */
  function Restatus(runs: map<RunId, RunRow>, id: RunId, from: Status, to: Status): map<RunId, RunRow> {
    if id in runs && runs[id].status == from then runs[id := runs[id].(status := to)] else runs
  }

  // ----- authorship and authorization

  function PutVerified(db: Db, id: RunId, run: Run): Db {
    if id in db.runs then db else db.(runs := db.runs[id := RunRow(run, Verified, None)])
  }

  function PutQuote(db: Db, q: Quote, now: int): Outcome {
    if q.expiresAt <= now || q.maxFee <= 0 || q.maxDeposit <= 0 then Err(Paused)
    else if q.run !in db.runs then Err(Missing)
    else if db.runs[q.run].run.payload != q.payload then Err(Conflict)
    else if q.id in db.quotes || exists k | k in db.quotes :: db.quotes[k].quote.nonce == q.nonce then Err(Duplicate)
    else Ok(db.(quotes := db.quotes[q.id := QuoteRow(q, false)]))
  }

  /** No broadcast is reserved, nobody holds the row, and its authorization ran out. */
  predicate Replaceable(db: Db, id: RunId, now: int)
    requires id in db.runs && id in db.outbox && db.outbox[id].quote in db.quotes
  {
    var o := db.outbox[id];
    && db.runs[id].status == Queued && o.tx == NoTx && o.attempts == 0
    && o.leaseUntil <= now && db.quotes[o.quote].quote.expiresAt <= now
  }

  predicate Consumable(db: Db, id: RunId, payload: nat, quote: QuoteId, nonce: nat, now: int) {
    && quote in db.quotes && !db.quotes[quote].consumed
    && var q := db.quotes[quote].quote;
       q.run == id && q.payload == payload && q.nonce == nonce && q.expiresAt > now
  }

  function Queue(db: Db, id: RunId, player: nat, payload: nat, quote: QuoteId, nonce: nat, now: int): Outcome {
    if id !in db.runs || db.runs[id].run.player != player then Err(Missing)
    else if db.runs[id].run.payload != payload then Err(Conflict)
    else
      var held := id in db.outbox && db.outbox[id].quote in db.quotes;
      if held && db.outbox[id].quote == quote && db.outbox[id].nonce == nonce then Ok(db)
      else if held && !Replaceable(db, id, now) then Err(Conflict)
      else if !held && db.runs[id].status != Verified then Err(Conflict)
      else if !Consumable(db, id, payload, quote, nonce, now) then Err(QuoteExpired)
      else
        var row := if held
                   then OutboxRow(quote, nonce, None, 0, db.outbox[id].attempts, 0, 0, 0, db.outbox[id].tx)
                   else OutboxRow(quote, nonce, None, 0, 0, 0, 0, 0, NoTx);
        Ok(db.(quotes := db.quotes[quote := db.quotes[quote].(consumed := true)],
               outbox := db.outbox[id := row],
               runs := db.runs[id := db.runs[id].(status := Queued)]))
  }

  // ----- leases

  predicate SignerFree(db: Db, signer: Signer, now: int) {
    signer in db.signers ==> db.signers[signer].leaseUntil <= now
  }

  function PendingOf(db: Db, signer: Signer): Option<RunId> {
    if signer in db.signers then db.signers[signer].pending else None
  }

  predicate Eligible(db: Db, signer: Signer, now: int, id: RunId) {
    && id in db.outbox && id in db.runs && db.outbox[id].quote in db.quotes
    && var o := db.outbox[id];
       && db.runs[id].status in {Queued, Submitted}
       && o.leaseUntil <= now && o.nextCheck <= now
       && (o.tx != NoTx || o.failures < MAX_FAILURES)
       && (PendingOf(db, signer) == None || PendingOf(db, signer) == Some(id))
  }

  /** The ORDER BY of the claim: submitted runs first, then oldest, then by id. */
  predicate Precedes(db: Db, a: RunId, b: RunId)
    requires a in db.runs && b in db.runs
  {
    var ra, rb := db.runs[a], db.runs[b];
    if ra.status == Submitted && rb.status != Submitted then true
    else if ra.status != Submitted && rb.status == Submitted then false
    else if ra.run.createdAt != rb.run.createdAt then ra.run.createdAt < rb.run.createdAt
    else a <= b
  }

  /** `id` is the row the claim of `signer` takes. */
  ghost predicate Selected(db: Db, signer: Signer, now: int, id: RunId) {
    && Eligible(db, signer, now, id)
    && forall other :: Eligible(db, signer, now, other) ==> Precedes(db, id, other)
  }

  predicate TokenUsed(db: Db, owner: Token) {
    exists id | id in db.outbox :: db.outbox[id].owner == Some(owner)
  }

  function Claimed(db: Db, signer: Signer, owner: Token, until: int, id: RunId): Db
    requires id in db.outbox
  {
    db.(signers := db.signers[signer := SignerRow(owner, until, PendingOf(db, signer))],
        outbox := db.outbox[id := db.outbox[id].(owner := Some(owner), leaseUntil := until)])
  }

  function LeaseOn(db: Db, signer: Signer, owner: Token, id: RunId): Lease
    requires id in db.outbox && db.outbox[id].quote in db.quotes
  {
    var o := db.outbox[id];
    Lease(signer, owner, id, db.quotes[o.quote].quote, o.tx, o.failures, o.polls)
  }

  // ----- allowance

  /** Why a quote does not cover its run under the operator's limits, if it does not. */
  function Objection(db: Db, st: Settings, run: RunId, q: Quote, now: int): Option<Failure> {
    if run !in db.runs || q.run != run || q.payload != db.runs[run].run.payload then Some(Conflict)
    else if q.expiresAt <= now then Some(QuoteExpired)
    else if q.maxFee <= 0 || q.maxDeposit <= 0 || q.maxFee > st.maxFee || q.maxDeposit > st.maxDeposit
    then Some(BudgetUnavailable)
    else None
  }

  /** The join of run, outbox, quote and signer that a reservation must find. */
  predicate Leased(db: Db, st: Settings, run: RunId, q: Quote, now: int) {
    && run in db.runs && db.runs[run].status == Queued
    && run in db.outbox && st.signer in db.signers
    && q.id in db.quotes && db.quotes[q.id] == QuoteRow(q, true)
    && var o, s := db.outbox[run], db.signers[st.signer];
       && o.quote == q.id && o.nonce == q.nonce
       && o.tx == NoTx && o.attempts == 0 && o.owner.Some? && o.leaseUntil > now
       && s.owner == o.owner.value && s.leaseUntil > now && PendingAllows(s, run)
  }

  function BudgetAt(db: Db, st: Settings, key: BudgetKey): BudgetRow {
    if key in db.budget then db.budget[key]
    else BudgetRow(0, 0, 0, st.maxAttempts, st.maxFee, st.maxDeposit)
  }

  predicate Allows(st: Settings, row: BudgetRow, q: Quote) {
    && row.maxAttempts == st.maxAttempts && row.maxFee == st.maxFee && row.maxDeposit == st.maxDeposit
    && row.attempts >= 0 && row.fee >= 0 && row.deposit >= 0
    && row.attempts < row.maxAttempts
    && row.fee <= row.maxFee - q.maxFee && row.deposit <= row.maxDeposit - q.maxDeposit
  }

  /** `before`, `locked` and `after` are the three readings of the clock. */
  function ReserveAllowance(db: Db, st: Settings, run: RunId, q: Quote, before: int, locked: int, after: int): Outcome {
    var key := BudgetKey(st.signer, Day(locked));
    if Objection(db, st, run, q, before).Some? then Err(Objection(db, st, run, q, before).value)
    else if Objection(db, st, run, q, locked).Some? then Err(Objection(db, st, run, q, locked).value)
    else if !Leased(db, st, run, q, locked) then Err(Conflict)
    else if !Allows(st, BudgetAt(db, st, key), q) then Err(BudgetUnavailable)
    else if Objection(db, st, run, q, after).Some? then Err(Objection(db, st, run, q, after).value)
    else if Day(after) != Day(locked) then Err(BudgetUnavailable)
    else
      var row := BudgetAt(db, st, key);
      Ok(db.(budget := db.budget[key := row.(attempts := row.attempts + 1,
                                             fee := row.fee + q.maxFee,
                                             deposit := row.deposit + q.maxDeposit)],
             spending := db.spending + [Spend(key, run, q.id, q.maxFee, q.maxDeposit)]))
  }

  // ----- broadcast markers

  function ReserveBroadcast(db: Db, l: Lease, now: int): Outcome {
    if !OwnsSigner(db, l) || !PendingAllows(db.signers[l.signer], l.run) then Err(SignerLeaseLost)
    else if l.quote.expiresAt <= now then Err(QuoteExpired)
    else if !OwnsRow(db, l) || db.outbox[l.run].tx != NoTx then Err(LeaseLost)
    else
      var o := db.outbox[l.run];
      Ok(db.(signers := db.signers[l.signer := db.signers[l.signer].(pending := Some(l.run))],
             outbox := db.outbox[l.run := o.(tx := Unknown, attempts := o.attempts + 1)],
             runs := Restatus(db.runs, l.run, Queued, Submitted)))
  }

  function CancelUnsent(db: Db, l: Lease): Outcome {
    if !OwnsSigner(db, l) || db.signers[l.signer].pending != Some(l.run) then Err(SignerLeaseLost)
    else if !OwnsRow(db, l) then Err(LeaseLost)
    else
      var o := db.outbox[l.run];
      if o.quote != l.quote.id || o.tx != Unknown || o.attempts != 1 then Err(LeaseLost)
      else
        Ok(db.(signers := db.signers[l.signer := db.signers[l.signer].(pending := None)],
               outbox := db.outbox[l.run := o.(tx := NoTx, attempts := 0)],
               runs := Restatus(db.runs, l.run, Submitted, Queued)))
  }

  function SaveHash(db: Db, l: Lease, hash: nat): Outcome {
    if !OwnsRow(db, l) || db.outbox[l.run].tx != Unknown then Err(LeaseLost)
    else Ok(db.(outbox := db.outbox[l.run := db.outbox[l.run].(tx := Hash(hash))]))
  }

  function CheckDelay(previous: nat): (d: int)
    ensures 5 <= d <= 300
    ensures forall earlier: nat :: earlier <= previous ==> CheckDelay(earlier) <= d
  {
    if previous == 0 then 5 else if previous == 1 then 10 else if previous == 2 then 20
    else if previous == 3 then 40 else if previous == 4 then 80 else if previous == 5 then 160 else 300
  }

  /** The delay doubles with every check until it reaches five minutes. */
  lemma DelayDoubles(previous: nat)
    ensures CheckDelay(0) == 5
    ensures CheckDelay(previous + 1) == if 2 * CheckDelay(previous) < 300 then 2 * CheckDelay(previous) else 300
  {
  }

  /** Records a failed try before sending, or one more poll of a sent one. */
  function SaveAttempt(db: Db, l: Lease, mark: TxMark, now: int): Outcome {
    if !OwnsRow(db, l) then Err(LeaseLost)
    else
      var o := db.outbox[l.run];
      var sent := o.tx != NoTx || mark != NoTx;
      var previous := if l.tx != NoTx || mark != NoTx then l.polls else l.failures;
      var row := o.(tx := if mark == NoTx then o.tx else mark,
                    polls := if sent then o.polls + 1 else o.polls,
                    failures := if sent then o.failures else o.failures + 1,
                    nextCheck := now + CheckDelay(previous),
                    leaseUntil := 0);
      Ok(db.(outbox := db.outbox[l.run := row],
             signers := if OwnsSigner(db, l)
                        then db.signers[l.signer := db.signers[l.signer].(leaseUntil := 0)]
                        else db.signers))
  }

  // ----- receipts

  predicate ValidReceipt(run: Run, rc: Receipt) {
    rc.schema == 2 && rc.entry == run.entry && rc.height > 0 && rc.attesterOk && rc.tx != Garbled
  }

  /** A receipt that names a hash must name the hash the outbox knows. */
  predicate Agrees(tx: TxMark, rc: Receipt) {
    tx.Hash? && rc.tx != Absent ==> rc.tx == Canonical(tx.hash)
  }

  function Confirm(db: Db, l: Lease, rc: Receipt): Outcome {
    if l.run !in db.runs || !ValidReceipt(db.runs[l.run].run, rc) then Err(ReceiptMismatch)
    else if !OwnsRow(db, l) then Err(LeaseLost)
    else
      Ok(db.(runs := db.runs[l.run := db.runs[l.run].(status := Confirmed, receipt := Some(rc))],
             outbox := db.outbox[l.run := db.outbox[l.run].(leaseUntil := 0, nextCheck := 0)],
             signers := if OwnsSigner(db, l) && PendingAllows(db.signers[l.signer], l.run)
                        then db.signers[l.signer := db.signers[l.signer].(leaseUntil := 0, pending := None)]
                        else db.signers))
  }
}
