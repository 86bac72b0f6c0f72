/**
 The retry budget of an authorization: a run whose broadcast was never reserved costs at most
 eight recorded failures, and then no worker takes it until it is authorized again.
 */
module FreePlayRetries {
  import opened Wrappers
  import opened FreePlayTables
  import opened FreePlayProtocol
  import opened FreePlayInvariant
  import opened FreePlaySafety

  /** The row has an owner that has not returned yet. */
  predicate Held(s: State, id: RunId)
    requires id in s.db.outbox
  {
    var owner := s.db.outbox[id].owner;
    owner.Some? && owner.value in s.workers && !s.workers[owner.value].pc.Done?
  }

  /** Eight failures at most, and fewer while a worker may add one or a marker may be undone. */
  predicate RetryOk(s: State, id: RunId) {
    id in s.db.outbox ==>
      var o := s.db.outbox[id];
      o.failures <= 8 && (o.tx != NoTx || Held(s, id) ==> o.failures < 8)
  }

  lemma ClaimRetry(s: State, step: Step, id: RunId)
    requires Inv(s) && Enabled(s, step) && step.Claim? && RetryOk(s, id)
    ensures RetryOk(Apply(s, step), id)
  {
    if id in s.db.outbox && s.db.outbox[id].owner.Some? { assert RowOk(s, id) && RowSound(s.db, id); }
  }

  lemma UserRetry(s: State, step: Step, id: RunId)
    requires Inv(s) && Enabled(s, step) && !step.Claim? && !step.Work? && RetryOk(s, id)
    ensures RetryOk(Apply(s, step), id)
  {
    assert RowSound(s.db, id);
  }

  lemma WorkRetry(s: State, t: Token, act: Act, id: RunId)
    requires Inv(s) && t in s.workers && CanAct(s.workers[t].pc, act) && RetryOk(s, id)
    ensures RetryOk(Worked(s, t, act), id)
  {
    assert WorkerOk(s, t) && RowSound(s.db, id) && RowOk(s, id);
    WorkKeepsUntil(s, t, act);
    match act {
      case Mark(_) =>
      case Undo(_) =>
      case Keep(_) =>
      case Record(_) =>
      case Settle(_) =>
      case _ =>
    }
  }

  lemma {:induction false} RetryAfter(steps: seq<Step>, id: RunId)
    requires After(INITIAL, steps).Some?
    ensures RetryOk(After(INITIAL, steps).value, id)
  {
    if steps != [] {
      var before, last := steps[..|steps| - 1], steps[|steps| - 1];
      var s := After(INITIAL, before).value;
      RetryAfter(before, id);
      InvAfter(INITIAL, before);
      match last
      case Claim(_, _, _, _, _) => ClaimRetry(s, last, id);
      case Work(t, act) => WorkRetry(s, t, act, id);
      case _ => UserRetry(s, last, id);
    }
  }

  /** In every reachable state no row has more than eight failures, and fewer once its broadcast is reserved. */
  lemma FailuresBounded(s: State, id: RunId)
    requires Reachable(s) && id in s.db.outbox
    ensures s.db.outbox[id].failures <= 8
    ensures s.db.outbox[id].tx != NoTx ==> s.db.outbox[id].failures < 8
  {
    var steps :| After(INITIAL, steps) == Some(s);
    RetryAfter(steps, id);
  }

  // ----- counting the failures of one authorization

  /** The step records a failure of `id` before its broadcast was reserved. */
  predicate FailureRecorded(s: State, step: Step, id: RunId) {
    && step.Work? && step.act.Record? && !step.act.commit.Refused? && step.token in s.workers
    && var w := s.workers[step.token];
       && w.pc == Failing(NoTx) && w.lease.run == id
       && id in s.db.outbox && s.db.outbox[id].owner == Some(step.token) && s.db.outbox[id].tx == NoTx
  }

  ghost function FailuresRecorded(s: State, steps: seq<Step>, id: RunId): nat {
    if steps == [] then 0
    else
      var before, last := After(s, steps[..|steps| - 1]), steps[|steps| - 1];
      FailuresRecorded(s, steps[..|steps| - 1], id)
      + if before.Some? && FailureRecorded(before.value, last, id) then 1 else 0
  }

  /** The run is authorized by the quote in the state after each number of steps. */
  ghost predicate StaysAuthorized(s: State, steps: seq<Step>, id: RunId, quote: QuoteId) {
    forall k | 0 <= k <= |steps| ::
      After(s, steps[..k]).Some? ==>
        id in After(s, steps[..k]).value.db.outbox && After(s, steps[..k]).value.db.outbox[id].quote == quote
  }

  /** Only a recorded failure adds to the count, until another quote takes its place. */
  lemma FailureCounted(s: State, step: Step, id: RunId)
    requires Inv(s) && Enabled(s, step) && id in s.db.outbox && id in Apply(s, step).db.outbox
    requires Apply(s, step).db.outbox[id].quote == s.db.outbox[id].quote
    ensures Apply(s, step).db.outbox[id].failures ==
      s.db.outbox[id].failures + if FailureRecorded(s, step, id) then 1 else 0
  {
    assert RowSound(s.db, id);
    match step
    case Work(t, act) => WorkCounted(s, t, act, id);
    case _ =>
  }

  lemma WorkCounted(s: State, t: Token, act: Act, id: RunId)
    requires Inv(s) && Enabled(s, Work(t, act)) && id in s.db.outbox && id in Worked(s, t, act).db.outbox
    ensures Worked(s, t, act).db.outbox[id].failures ==
      s.db.outbox[id].failures + if FailureRecorded(s, Work(t, act), id) then 1 else 0
  {
    assert WorkerOk(s, t) && RowOk(s, id) && RowSound(s.db, id);
    if !act.Record? { OthersCounted(s, t, act, id); }
  }

  lemma OthersCounted(s: State, t: Token, act: Act, id: RunId)
    requires t in s.workers && CanAct(s.workers[t].pc, act) && !act.Record?
    requires id in s.db.outbox && id in Worked(s, t, act).db.outbox
    ensures Worked(s, t, act).db.outbox[id].failures == s.db.outbox[id].failures
  {
  }

  lemma {:induction false} FailuresAdd(s: State, steps: seq<Step>, id: RunId, quote: QuoteId)
    requires Inv(s) && After(s, steps).Some? && StaysAuthorized(s, steps, id, quote)
    requires id in s.db.outbox && s.db.outbox[id].quote == quote
    ensures id in After(s, steps).value.db.outbox
    ensures After(s, steps).value.db.outbox[id].failures == s.db.outbox[id].failures + FailuresRecorded(s, steps, id)
  {
    if steps != [] {
      var n := |steps| - 1;
      var before := steps[..n];
      forall k | 0 <= k <= n ensures before[..k] == steps[..k] {}
      assert steps[..n + 1] == steps;
      assert After(s, steps[..n + 1]).Some? && After(s, steps[..n]).Some?;
      FailuresAdd(s, before, id, quote);
      InvAfter(s, before);
      FailureCounted(After(s, before).value, steps[n], id);
    }
  }

  /** Until another quote takes its place, an authorization costs at most eight recorded failures before a broadcast. */
  lemma RetryBudget(s: State, steps: seq<Step>, id: RunId, quote: QuoteId)
    requires Reachable(s) && After(s, steps).Some? && StaysAuthorized(s, steps, id, quote)
    requires id in s.db.outbox && s.db.outbox[id].quote == quote
    ensures FailuresRecorded(s, steps, id) <= 8 - s.db.outbox[id].failures
  {
    ReachableInv(s);
    FailuresAdd(s, steps, id, quote);
    ReachableAfter(s, steps);
    FailuresBounded(After(s, steps).value, id);
  }
}
