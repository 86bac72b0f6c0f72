/**
 The day-close attester as the object it is: the store's rows, the realm it writes
 to, and the cycle that works the boards off. `AttesterTables` says what every
 state of it satisfies.
 */
module Attester {
  import opened Wrappers
  import opened AttesterTables

  class Realm {
    var entries: map<Line, Entry>
    var bound: map<nat, nat> // an input log belongs to the first address it was attested for
    ghost var received: map<nat, nat> // the broadcasts of each log

    constructor ()
      ensures entries == map[] && bound == map[] && received == map[]
    {
      entries, bound, received := map[], map[], map[];
    }

    method AttestScore(h: nat, r: Run, net: Net) returns (a: Answer)
      modifies this
      ensures a == AnswerTo(old(entries), old(bound), h, r, net)
      ensures entries == if Taken(old(entries), old(bound), h, r, net)
                         then old(entries)[LineOf(r) := Entry(h, r.score)] else old(entries)
      ensures bound == if Taken(old(entries), old(bound), h, r, net) then old(bound)[h := r.addr] else old(bound)
      ensures received == Bump(old(received), h)
    {
      received := Bump(received, h);
      a := AnswerTo(entries, bound, h, r, net);
      if Taken(entries, bound, h, r, net) {
        entries, bound := entries[LineOf(r) := Entry(h, r.score)], bound[h := r.addr];
      }
    }
  }

  class Batcher {
    var rows: Runs
    const realm: Realm
    ghost var clock: int
    ghost var receipts: map<nat, Entry>
    ghost var refused: set<nat>
    ghost var lost: map<nat, nat>
    ghost var foreign: set<nat>

    ghost function Snapshot(): World
      reads this, realm
    {
      World(rows, realm.entries, realm.bound, receipts, refused, realm.received, lost, clock, foreign)
    }

    ghost predicate Valid()
      reads this, realm
    {
      Sane(Snapshot())
    }

    constructor (r: Realm)
      requires r.received == map[]
      ensures realm == r && Valid()
      ensures Snapshot() == Opening(r.entries, r.bound)
    {
      realm := r;
      rows, clock := map[], 0;
      receipts, refused, lost, foreign := map[], {}, map[], HashesOf(r.entries);
    }

    /** The first submitter of a log wins; daily runs are submitted on their day or the next. */
    method InsertRun(h: nat, r: Run, today: int) returns (ok: bool)
      requires Valid() && clock <= today
      requires r.status.Verified? && r.failures == 0 && (r.daily ==> r.day == today || r.day == today - 1)
      modifies this
      ensures Valid()
      ensures ok <==> h !in old(rows)
      ensures Snapshot() == old(Snapshot()).(rows := if ok then old(rows)[h := r] else old(rows), clock := today)
    {
      ok := h !in rows;
      if ok {
        InsertKeeps(Snapshot(), h, r, today);
        InsertRightful(Snapshot(), h, r, today);
        rows := rows[h := r];
      } else {
        ClockKeeps(Snapshot(), today);
        SameRights(Snapshot(), Snapshot().(clock := today));
      }
      clock := today;
    }

    /** Counts a failed broadcast, and parks the run at the cap; `before` is the state without the broadcast. */
    method RecordAttestFailure(h: nat, o: Attempt, ghost before: World) returns (ok: bool)
      requires h in before.rows && before.rows[h].status.Verified?
      requires Snapshot() == before.(calls := Bump(before.calls, h))
      modifies this`rows, this`lost
      ensures Snapshot() == AfterRecord(before, h, o)
      ensures ok == RecordedOk(before.rows[h], o)
    {
      if Applied(o.count) { rows := Counted(rows, h); }
      if !o.count.Done? {
        lost := Bump(lost, h);
        return false;
      }
      if rows[h].failures >= MAX_RETRIES {
        if Applied(o.park) { rows := Retire(rows, h, Errored); }
        if !o.park.Done? {
          lost := Bump(lost, h);
          return false;
        }
      }
      ok := true;
    }

    /** `ResolveSupersededDaily` on the line of `h`. */
    method ResolveSuperseded(h: nat, keep: Option<nat>, write: Write)
      requires h in rows
      modifies this`rows, this`lost
      ensures rows == if Applied(write) then Superseded(old(rows), LineOf(old(rows)[h]), keep) else old(rows)
      ensures lost == if write.Done? then old(lost) else Bump(old(lost), h)
    {
      if Applied(write) { rows := Superseded(rows, LineOf(rows[h]), keep); }
      if !write.Done? { lost := Bump(lost, h); }
    }

    /** `MarkAttested`, and `ResolveSupersededDaily` for the address's other runs of the board. */
    method Mark(h: nat, o: Attempt, ghost before: World) returns (res: Outcome)
      requires h in before.rows && before.rows[h].status.Verified? && LineOf(before.rows[h]) in before.entries
      requires Snapshot() == before.(calls := Bump(before.calls, h))
      modifies this`rows, this`receipts, this`lost
      ensures Snapshot() == AfterMark(before, h, o)
      ensures res == Ending(Receipt, before.rows[h], o)
    {
      if Applied(o.mark) {
        rows, receipts := SetStatus(rows, h, Attested), receipts[h := realm.entries[LineOf(rows[h])]];
      }
      match o.mark {
        case Done =>
          ResolveSuperseded(h, Some(h), o.resolve);
          res := if o.resolve.Done? then Marked else Stopped(true);
        case Lost =>
          lost := Bump(lost, h);
          var ok := RecordAttestFailure(h, o, before.(lost := Bump(before.lost, h)));
          res := if ok then Unmarked else Stopped(false);
        case Unsure | Crash => // no verified row is left to count the failure on, or nobody to count it
          lost := Bump(lost, h);
          res := Stopped(false);
      }
    }

    /** The run's own entry is on chain: mark it attested and retire the address's other runs of the board. */
    method Settle(h: nat, o: Attempt, ghost before: World) returns (res: Outcome)
      requires Sane(before) && Best(before.rows, h) && before.rows[h].day + 2 <= before.clock
      requires EntryOf(before.entries, LineOf(before.rows[h])) == Some(Entry(h, before.rows[h].score))
      requires Snapshot() == before.(calls := Bump(before.calls, h))
      modifies this`rows, this`receipts, this`lost
      ensures Booked(before, Snapshot(), h, o, Receipt)
      ensures Smooth(o) ==> Drained(rows, LineOf(before.rows[h]))
      ensures res == Ending(Receipt, before.rows[h], o)
    {
      MarkBooked(before, h, o);
      res := Mark(h, o, before);
    }

    /** The board holds a better entry: skip the address's runs there. */
    method Yield(h: nat, o: Attempt, ghost before: World) returns (res: Outcome)
      requires Sane(before) && Best(before.rows, h)
      requires LineOf(before.rows[h]) in before.entries
      requires before.entries[LineOf(before.rows[h])].score >= before.rows[h].score
      requires before.entries[LineOf(before.rows[h])] != Entry(h, before.rows[h].score)
      requires Snapshot() == before.(calls := Bump(before.calls, h))
      modifies this`rows, this`lost
      ensures Booked(before, Snapshot(), h, o, Better)
      ensures Smooth(o) ==> Drained(rows, LineOf(before.rows[h]))
      ensures res == Ending(Better, before.rows[h], o)
    {
      YieldBooked(before, h, o);
      ResolveSuperseded(h, None, o.resolve);
      res := if o.resolve.Done? then Unmarked else Stopped(false);
    }

    /** `MarkSkipped`. */
    method Skip(h: nat, o: Attempt, ghost before: World)
      requires h in before.rows && Snapshot() == before.(calls := Bump(before.calls, h))
      modifies this`rows, this`lost, this`refused
      ensures Snapshot() == AfterSkip(before, h, o)
    {
      if Applied(o.skip) {
        rows, refused := Retire(rows, h, Skipped), refused + {h};
      }
      if !o.skip.Done? { lost := Bump(lost, h); }
    }

    /** The realm will never take the run: skip it. */
    method Refuse(h: nat, o: Attempt, ghost before: World) returns (res: Outcome)
      requires Sane(before) && Best(before.rows, h)
      requires Snapshot() == before.(calls := Bump(before.calls, h))
      modifies this`rows, this`lost, this`refused
      ensures Booked(before, Snapshot(), h, o, Refusal)
      ensures res == Ending(Refusal, before.rows[h], o)
    {
      SkipBooked(before, h, o);
      Skip(h, o, before);
      res := if o.skip.Done? then Unmarked else Stopped(false);
    }

    /** A transient failure is recorded, or ends the cycle. */
    method Fail(h: nat, o: Attempt, ghost before: World) returns (res: Outcome)
      requires Sane(before) && Best(before.rows, h)
      requires Snapshot() == before.(calls := Bump(before.calls, h))
      modifies this`rows, this`lost
      ensures Booked(before, Snapshot(), h, o, Unknown)
      ensures res == Ending(Unknown, before.rows[h], o)
    {
      RecordBooked(before, h, o);
      var ok := RecordAttestFailure(h, o, before);
      res := if ok then Unmarked else Stopped(false);
    }

    /** The realm's entry is not improved: read it back to tell a retry of this run from a better one. */
    method AlreadyHeld(h: nat, o: Attempt, ghost before: World) returns (res: Outcome)
      requires Sane(before) && Best(before.rows, h) && before.rows[h].day + 2 <= before.clock
      requires LineOf(before.rows[h]) in before.entries
      requires before.entries[LineOf(before.rows[h])].score >= before.rows[h].score
      requires Snapshot() == before.(calls := Bump(before.calls, h))
      modifies this`rows, this`receipts, this`lost
      ensures var v := ReadBack(before.entries[LineOf(before.rows[h])], h, before.rows[h], o);
        Booked(before, Snapshot(), h, o, v) && res == Ending(v, before.rows[h], o)
      ensures Smooth(o) ==> Drained(rows, LineOf(before.rows[h]))
    {
      var run := rows[h];
      var line := LineOf(run);
      var found := if line in realm.entries && o.readable then Some(realm.entries[line]) else None;
      if found.None? || found.value.score < run.score {
        res := Fail(h, o, before);
      } else if found.value != Entry(h, run.score) {
        res := Yield(h, o, before);
      } else {
        res := Settle(h, o, before);
      }
    }

    /**
     One run of the work list: broadcast, and act on the realm's answer. When everything answers, the address
     has nothing pending on the board any more.
     */
    method AttestRun(h: nat, o: Attempt) returns (res: Outcome)
      requires Valid() && Best(rows, h) && rows[h].day + 2 <= clock
      modifies this`rows, this`receipts, this`refused, this`lost, realm
      ensures Valid() && clock == old(clock)
      ensures OnlyLine(old(rows), rows, LineOf(old(rows[h])))
      ensures Accounted(old(Snapshot()), Snapshot(), h, o)
      ensures res == Ending(VerdictOn(old(Snapshot()), h, o), old(rows[h]), o)
      ensures Smooth(o) && !Foreign(old(realm.bound), h, old(rows[h])) ==> Drained(rows, LineOf(old(rows[h])))
      ensures var own := Entry(h, old(rows[h]).score);
        EntryOf(realm.entries, LineOf(old(rows[h]))) == Some(own) && !Foreign(old(realm.bound), h, old(rows[h]))
        && o.net.Answered? && o.readable && Applied(o.mark) ==>
          rows[h].status.Attested? && h in receipts && receipts[h] == own
    {
      var run := rows[h];
      ghost var was := Snapshot();
      ghost var before := Broadcast(was, h, o.net);
      BroadcastKeeps(was, h, o.net);
      BroadcastRightful(was, h, o.net);
      var answer := realm.AttestScore(h, run, o.net);
      assert before == Snapshot().(calls := was.calls);
      match answer {
        case AlreadyOnChain =>
          res := AlreadyHeld(h, o, before);
        case BoundElsewhere | PermanentReject =>
          res := Refuse(h, o, before);
        case Transient =>
          res := Fail(h, o, before);
        case Sent =>
          res := Settle(h, o, before);
      }
      Reported(was, Snapshot(), h, o);
    }

    /** `PendingDailyGameDays`: the closed boards with a pending run, by day, then game. */
    method PendingBoards(closeBefore: int) returns (boards: seq<Board>)
      ensures SortedBy(BoardBefore, boards) && ExactlyPending(rows, boards, closeBefore)
      ensures forall b | b in boards :: b.day < closeBefore
    {
      boards := [];
      var todo := rows.Keys;
      while todo != {}
        invariant todo <= rows.Keys
        invariant SortedBy(BoardBefore, boards)
        invariant forall b: Board :: b in boards <==>
          exists h :: h in rows && h !in todo && Pending(rows[h], closeBefore) && BoardOf(rows[h]) == b
      {
        var h :| h in todo;
        if Pending(rows[h], closeBefore) {
          InsertSorted(BoardBefore, boards, BoardOf(rows[h]));
          boards := InsertBy(BoardBefore, boards, BoardOf(rows[h]));
        }
        todo := todo - {h};
      }
    }

    /** `BestVerifiedDaily`: at most `limit` of the board's best runs, one per address, best first. */
    method BestRuns(board: Board, limit: nat) returns (best: seq<nat>)
      ensures SortedBy(RunBefore(rows), best) && Distinct(best) && |best| <= limit
      ensures forall h :: h in best ==> BestOn(rows, h, board)
      ensures forall h :: BestOn(rows, h, board) && h !in best ==>
        |best| == limit && forall g | g in best :: g in rows && Before(g, rows[g], h, rows[h])
    {
      best := [];
      var todo := rows.Keys;
      while todo != {}
        invariant todo <= rows.Keys
        invariant SortedBy(RunBefore(rows), best)
        invariant forall h :: h in best <==> h !in todo && BestOn(rows, h, board)
      {
        var h :| h in todo;
        if BestOn(rows, h, board) {
          assert h !in best;
          InsertSorted(RunBefore(rows), best, h);
          best := InsertBy(RunBefore(rows), best, h);
        }
        todo := todo - {h};
      }
      if |best| > limit {
        ghost var all := best;
        best := best[..limit];
        forall h | h in all && h !in best ensures forall g | g in best :: g in rows && Before(g, rows[g], h, rows[h]) {
          var j := Dropped(all, limit, h);
          forall g | g in best ensures g in rows && Before(g, rows[g], h, rows[h]) {
            var i :| 0 <= i < |best| && best[i] == g;
            assert RunBefore(rows)(all[i], all[j]);
          }
        }
      }
    }

    /**
     The work list of one board; `attempts` says what happens around each broadcast, `used` are the runs
     broadcast.
     */
    method AttestBoard(board: Board, limit: nat, attempts: seq<Attempt>)
      returns (attested: nat, attempted: nat, go: bool, ghost used: map<nat, Attempt>)
      requires Valid() && board.day + 2 <= clock && |attempts| >= limit
      modifies this`rows, this`receipts, this`refused, this`lost, realm
      ensures Valid() && clock == old(clock) && attested <= attempted == |used|
      ensures BoardWorked(old(Snapshot()), Snapshot(), used, board, limit, attempts, go)
    {
      var best := BestRuns(board, limit);
      ghost var start := Snapshot();
      attested, attempted, go, used := 0, 0, true, map[];
      while go && attempted < |best|
        invariant 0 <= attempted <= |best| && attested <= attempted
        invariant Valid() && clock == old(clock) && Working(start, Snapshot(), best, used, attempted, board)
        invariant FromList(used, attempts) && (AllUndisturbed(attempts) ==> go)
      {
        var h, o := best[attempted], attempts[attempted];
        NextWaits(start, Snapshot(), best, used, attempted, board);
        assert o in attempts;
        if o.cancelled {
          go := false;
        } else {
          ghost var was := Snapshot();
          var res := AttestRun(h, o);
          WorkingStep(start, was, Snapshot(), best, used, attempted, board, o);
          GoesOn(VerdictOn(was, h, o), was.rows[h], o);
          attempted, used, go := attempted + 1, used[h := o], !res.Stopped?;
          if res == Marked || res == Stopped(true) { attested := attested + 1; }
        }
      }
      WorkedBoard(start, Snapshot(), best, used, attempted, board, limit, attempts, go);
    }

    /**
     One cycle. `readable(k)` says whether the k-th query of the work lists succeeds, `attempts(k)` what
     happens around the broadcasts of the k-th board.
     */
    method RunBatchOnce(maxPerCycle: int, today: int, readable: nat -> bool, attempts: nat -> seq<Attempt>)
      returns (attested: nat, done: bool, ghost used: map<nat, Attempt>)
      requires Valid() && clock <= today
      requires forall k: nat :: |attempts(k)| >= Cap(maxPerCycle)
      modifies this, realm
      ensures Valid() && attested <= |used|
      ensures WorkedOff(old(Snapshot()), Snapshot(), used, maxPerCycle, today, readable, attempts)
      ensures done ==> forall h | ClosedBest(old(rows), h, today) :: h in used
      ensures Unhindered(readable, attempts) ==> done || |used| == Cap(maxPerCycle)
    {
      ghost var start := Snapshot();
      Tick(today);
      attested, done, used := 0, false, map[];
      if !readable(0) {
        NothingWorked(start, maxPerCycle, readable, attempts, today);
        return;
      }
      var boards := PendingBoards(today - 1);
      var cap := Cap(maxPerCycle);
      CyclingStarts(start, boards, cap, readable, attempts, today);
      var attempted, k, go;
      attested, attempted, k, go, used := WorkBoards(start, boards, cap, readable, attempts);
      done := go && k == |boards| && attempted < cap;
      CycleEnds(start, Snapshot(), used, boards, k, go, maxPerCycle, readable, attempts, today);
    }

    /** The realm gets a better entry from elsewhere. */
    method Overtaken(line: Line, entry: Entry)
      requires Valid() && Outdoes(realm.entries, line, entry)
      modifies this`foreign, realm`entries
      ensures Valid()
      ensures Snapshot() == FromElsewhere(old(Snapshot()), line, entry)
    {
      ImproveKeeps(Snapshot(), line, entry, realm.bound, foreign + {entry.hash});
      ForeignRightful(Snapshot(), line, entry);
      foreign := foreign + {entry.hash};
      realm.entries := realm.entries[line := entry];
    }

    /** The day on the clock. */
    ghost method Tick(today: int)
      requires Valid() && clock <= today
      modifies this`clock
      ensures Valid() && Snapshot() == old(Snapshot()).(clock := today)
    {
      ClockKeeps(Snapshot(), today);
      SameRights(Snapshot(), Snapshot().(clock := today));
      clock := today;
    }

    /** The loop over the boards, `k` of which it worked. */
    method WorkBoards(ghost start: World, boards: seq<Board>, cap: nat, readable: nat -> bool,
                      attempts: nat -> seq<Attempt>)
      returns (attested: nat, attempted: nat, k: nat, go: bool, ghost used: map<nat, Attempt>)
      requires Valid() && Cycling(start, Snapshot(), map[], boards, 0, true, cap, readable, attempts)
      requires SortedBy(BoardBefore, boards) && forall b | b in boards :: b.day + 2 <= clock
      requires forall k: nat :: |attempts(k)| >= cap
      modifies this`rows, this`receipts, this`refused, this`lost, realm
      ensures Valid() && clock == old(clock) && attested <= attempted == |used|
      ensures Cycling(start, Snapshot(), used, boards, k, go, cap, readable, attempts)
      ensures go && |used| < cap ==> k == |boards| || !readable(k + 1)
    {
      attested, attempted, k, go, used := 0, 0, 0, true, map[];
      while go && k < |boards| && attempted < cap && readable(k + 1)
        invariant k <= |boards| && attested <= attempted == |used|
        invariant Valid() && clock == old(clock)
        invariant Cycling(start, Snapshot(), used, boards, k, go, cap, readable, attempts)
      {
        ghost var was, more := Snapshot(), map[];
        var marked, count;
        marked, count, go, more := AttestBoard(boards[k], cap - attempted, attempts(k));
        CyclingNext(start, was, Snapshot(), used, more, boards, k, go, cap, readable, attempts);
        attested, attempted, k, used := attested + marked, attempted + count, k + 1, used + more;
      }
    }
  }

  /** What can happen between two states: a submission, a cycle, a better entry from elsewhere. */
  datatype Event =
    | Submitted(hash: nat, run: Run)
    | Cycled(maxPerCycle: int, readable: nat -> bool, attempts: nat -> seq<Attempt>)
    | Improved(line: Line, entry: Entry)

  predicate Possible(e: Event, today: int) {
    match e
    case Submitted(_, r) => r.status.Verified? && r.failures == 0 && (r.daily ==> r.day == today || r.day == today - 1)
    case _ => true
  }

  /** No store write fails in any of the cycles. */
  ghost predicate Flawless(events: seq<Event>) {
    forall i, k: nat, o | 0 <= i < |events| && events[i].Cycled? && o in events[i].attempts(k) :: AllDone(o)
  }

  /** One event between two states; `used` are the broadcasts of a cycle. */
  ghost predicate Happened(e: Event, today: int, w: World, w': World, used: map<nat, Attempt>) {
    match e
    case Submitted(h, r) => w' == w.(rows := if h in w.rows then w.rows else w.rows[h := r], clock := today)
    case Cycled(cap, readable, attempts) => WorkedOff(w, w', used, cap, today, readable, attempts)
    case Improved(line, entry) =>
      w' == if Outdoes(w.entries, line, entry) then FromElsewhere(w, line, entry) else w
  }

  /** No run yet: every entry that the realm holds came from elsewhere. */
  function Opening(entries: map<Line, Entry>, bound: map<nat, nat>): World {
    World(map[], entries, bound, map[], {}, map[], map[], 0, HashesOf(entries))
  }

  function HashesOf(entries: map<Line, Entry>): set<nat> {
    set line | line in entries :: entries[line].hash
  }

  predicate Outdoes(entries: map<Line, Entry>, line: Line, entry: Entry) {
    line !in entries || entries[line].score < entry.score
  }

  /** The `i`-th event, between the `i`-th state and the next. */
  ghost predicate HappenedAt(events: seq<Event>, days: seq<int>, states: seq<World>, used: seq<map<nat, Attempt>>,
                             i: nat) {
    i < |events| && i < |days| && i + 1 < |states| && i < |used| ==>
      Happened(events[i], days[i], states[i], states[i + 1], used[i])
  }

  lemma HappenedNext(events: seq<Event>, days: seq<int>, states: seq<World>, used: seq<map<nat, Attempt>>, w: World,
                     more: map<nat, Attempt>)
    requires |states| == |used| + 1 && |used| < |events| == |days|
    requires forall i: nat :: HappenedAt(events, days, states, used, i)
    requires Happened(events[|used|], days[|used|], states[|used|], w, more)
    ensures forall i: nat :: HappenedAt(events, days, states + [w], used + [more], i)
  {
    var states', used' := states + [w], used + [more];
    forall i: nat ensures HappenedAt(events, days, states', used', i) {
      assert HappenedAt(events, days, states, used, i);
    }
  }

  /**
   Any number of submissions, cycles and restarts, on days that never go back: each run is broadcast at most
   eight times, and once more for every write about it that failed.
   */
  method Run(realm: Realm, events: seq<Event>, days: seq<int>)
    returns (b: Batcher, ghost states: seq<World>, ghost used: seq<map<nat, Attempt>>)
    requires |days| == |events| && realm.received == map[]
    requires forall i, j | 0 <= i <= j < |days| :: 0 <= days[i] <= days[j]
    requires forall i | 0 <= i < |events| :: Possible(events[i], days[i])
    requires forall i, k: nat | 0 <= i < |events| && events[i].Cycled? ::
      |events[i].attempts(k)| >= Cap(events[i].maxPerCycle)
    modifies realm
    ensures b.realm == realm && b.Valid()
    ensures |states| == |events| + 1 && |used| == |events|
    ensures states[0] == Opening(old(realm.entries), old(realm.bound))
    ensures states[|events|] == b.Snapshot() && forall i: nat :: HappenedAt(events, days, states, used, i)
    ensures forall h :: Get(realm.received, h) <= MAX_RETRIES + Get(b.lost, h)
    ensures Flawless(events) ==> forall h :: Get(realm.received, h) <= MAX_RETRIES
  {
    b := new Batcher(realm);
    states, used := [b.Snapshot()], [];
    for i := 0 to |events|
      invariant b.realm == realm && fresh(b) && b.Valid()
      invariant b.clock <= if i < |days| then days[i] else b.clock
      invariant |states| == i + 1 && |used| == i && states[i] == b.Snapshot()
      invariant states[0] == Opening(old(realm.entries), old(realm.bound))
      invariant forall k: nat :: HappenedAt(events, days, states, used, k)
      invariant Flawless(events) ==> forall h: nat :: Get(b.lost, h) == 0
    {
      ghost var was, more := b.Snapshot(), map[];
      match events[i] {
        case Submitted(h, r) =>
          var _ := b.InsertRun(h, r, days[i]);
        case Cycled(cap, readable, attempts) =>
          var _, _, tried := b.RunBatchOnce(cap, days[i], readable, attempts);
          more := tried;
          if Flawless(events) { NothingLost(was, b.Snapshot(), tried, days[i]); }
        case Improved(line, entry) =>
          if Outdoes(realm.entries, line, entry) {
            b.Overtaken(line, entry);
          }
      }
      HappenedNext(events, days, states, used, b.Snapshot(), more);
      states, used := states + [b.Snapshot()], used + [more];
    }
    forall h ensures Get(realm.received, h) <= MAX_RETRIES + Get(b.lost, h) {
      BroadcastsBounded(b.Snapshot(), h);
    }
  }

  /** `maxPerCycle`, or the default. */
  function Cap(maxPerCycle: int): (cap: nat)
    ensures maxPerCycle > 0 ==> cap == maxPerCycle
    ensures maxPerCycle <= 0 ==> cap == 100
  {
    if maxPerCycle <= 0 then 100 else maxPerCycle
  }

  /** What was recorded of each run is what its attempt came to, and nothing of the runs without one. */
  ghost predicate Effects(w: World, w': World, used: map<nat, Attempt>) {
    forall g: nat :: EffectAt(w, w', used, g)
  }

  predicate EffectAt(w: World, w': World, used: map<nat, Attempt>, g: nat) {
    if g in used then Attempted(w, w', g, used[g]) else Untouched(w, w', g)
  }

  /** Neither a cancellation nor a failed write. */
  predicate Undisturbed(o: Attempt) {
    !o.cancelled && AllDone(o)
  }

  ghost predicate AllUndisturbed(attempts: seq<Attempt>) {
    forall o | o in attempts :: Undisturbed(o)
  }

  lemma GoesOn(v: Verdict, r: Run, o: Attempt)
    requires r.status.Verified?
    ensures Undisturbed(o) ==> !Ending(v, r, o).Stopped?
  {
  }

  ghost predicate FromList(used: map<nat, Attempt>, attempts: seq<Attempt>) {
    forall h | h in used :: used[h] in attempts
  }

  ghost predicate Unhindered(readable: nat -> bool, attempts: nat -> seq<Attempt>) {
    (forall k: nat :: readable(k)) && forall k: nat :: AllUndisturbed(attempts(k))
  }

  /**
   What a cycle did: no more broadcasts than the cap, none of a run twice, and only of the best run of a line
   of a closed day; all of those, if nothing hindered it and the cap was not reached. What is recorded of each
   run is what its own attempt came to, and rows of open days stay.
   */
  ghost predicate WorkedOff(w: World, w': World, used: map<nat, Attempt>, maxPerCycle: int, today: int,
                            readable: nat -> bool, attempts: nat -> seq<Attempt>) {
    && w'.clock == today && |used| <= Cap(maxPerCycle)
    && Effects(w, w', used) && Drawn(used, attempts)
    && (forall h | h in used :: ClosedBest(w.rows, h, today))
    && (Unhindered(readable, attempts) && |used| < Cap(maxPerCycle) ==>
          forall h | ClosedBest(w.rows, h, today) :: h in used)
    && OnlyClosed(w.rows, w'.rows, today)
  }

  ghost predicate OnlyClosed(rows: Runs, rows': Runs, today: int) {
    && rows'.Keys == rows.Keys
    && forall g | g in rows :: Kept(rows[g], rows'[g]) && (rows[g].day > today - 2 ==> rows'[g] == rows[g])
  }

  lemma OpenKept(rows0: Runs, rows: Runs, boards: seq<Board>, k: nat, today: int)
    requires k <= |boards| && Elsewhere(rows0, rows, boards[..k]) && forall b | b in boards :: b.day < today - 1
    ensures OnlyClosed(rows0, rows, today)
  {
    forall g | g in rows0 && rows0[g].day > today - 2 ensures rows[g] == rows0[g] {
      assert BoardOf(rows0[g]) !in boards;
    }
  }

  lemma DisjointCount(a: map<nat, Attempt>, b: map<nat, Attempt>)
    requires forall h | h in b :: h !in a
    ensures |a + b| == |a| + |b|
  {
    assert (a + b).Keys == a.Keys + b.Keys && a.Keys !! b.Keys;
  }

  /** Each attempt is one of those that a board was worked with. */
  ghost predicate Drawn(used: map<nat, Attempt>, attempts: nat -> seq<Attempt>) {
    forall h | h in used :: exists k: nat :: used[h] in attempts(k)
  }

  lemma DrawnMore(used: map<nat, Attempt>, more: map<nat, Attempt>, attempts: nat -> seq<Attempt>, k: nat)
    requires Drawn(used, attempts) && FromList(more, attempts(k))
    ensures Drawn(used + more, attempts)
  {
  }

  /** No write fails, none is counted. */
  lemma NothingLost(w: World, w': World, used: map<nat, Attempt>, today: int)
    requires Effects(w, w', used)
    requires forall h | h in used :: ClosedBest(w.rows, h, today) && AllDone(used[h])
    ensures forall g: nat :: Get(w'.lost, g) == Get(w.lost, g)
  {
    forall g: nat ensures Get(w'.lost, g) == Get(w.lost, g) {
      assert EffectAt(w, w', used, g);
    }
  }

  predicate BestOn(rows: Runs, h: nat, board: Board) {
    Best(rows, h) && BoardOf(rows[h]) == board
  }

  /** The best run of a line of a day that is closed. */
  predicate ClosedBest(rows: Runs, h: nat, today: int) {
    Best(rows, h) && rows[h].day <= today - 2
  }

  /** The list holds the boards with a pending run, and no others. */
  ghost predicate ExactlyPending(rows: Runs, boards: seq<Board>, closeBefore: int) {
    forall b: Board :: b in boards <==> exists h :: h in rows && Pending(rows[h], closeBefore) && BoardOf(rows[h]) == b
  }

  // ----- one board

  /** Nothing that decides about `g` has changed. */
  predicate Waits(w0: World, w: World, g: nat) {
    && Best(w0.rows, g) && Best(w.rows, g) && w.rows[g] == w0.rows[g]
    && EntryOf(w.entries, LineOf(w.rows[g])) == EntryOf(w0.entries, LineOf(w.rows[g]))
  }

  /** The runs from `i` on are still waiting. */
  ghost predicate Waiting(w0: World, w: World, best: seq<nat>, i: nat) {
    forall j | i <= j < |best| :: Waits(w0, w, best[j])
  }

  /** Nothing changed on the lines of other boards. */
  ghost predicate EntriesElsewhere(w0: World, w: World, done: seq<Board>) {
    forall l: Line :: Board(l.game, l.day) !in done ==> EntryOf(w.entries, l) == EntryOf(w0.entries, l)
  }

  /** The first `i` runs of the work list were broadcast, and nothing else happened. */
  ghost predicate Working(w0: World, w: World, best: seq<nat>, used: map<nat, Attempt>, i: nat, board: Board) {
    && i <= |best| && OnlyBoard(w0.rows, w.rows, board) && EntriesElsewhere(w0, w, [board])
    && (forall j | 0 <= j < |best| :: BestOn(w0.rows, best[j], board)) && Distinct(best)
    && Waiting(w0, w, best, i) && Effects(w0, w, used)
    && |used| == i && forall h :: h in used <==> h in best[..i]
  }

  lemma WorkingStep(w0: World, w: World, w': World, best: seq<nat>, used: map<nat, Attempt>, i: nat, board: Board,
                    o: Attempt)
    requires Working(w0, w, best, used, i, board) && i < |best| && Distinct(best)
    requires BoardOf(w.rows[best[i]]) == board && OnlyLine(w.rows, w'.rows, LineOf(w.rows[best[i]]))
    requires Accounted(w, w', best[i], o)
    ensures Working(w0, w', best, used[best[i] := o], i + 1, board)
  {
    var h := best[i];
    WaitingStep(w0, w, w', best, i, o);
    forall g | g in used ensures LineOf(w0.rows[g]) != LineOf(w0.rows[h]) && g != h {
      var j :| 0 <= j < i && best[..i][j] == g;
      OneBestPerLine(w0.rows, g, h);
    }
    EffectsStep(w0, w, w', used, h, o);
    OnlyBoardStep(w0.rows, w.rows, w'.rows, h, board);
    OneMoreUsed(best, i, used, o);
  }

  lemma OneMoreUsed(best: seq<nat>, i: nat, used: map<nat, Attempt>, o: Attempt)
    requires i < |best| && best[i] !in used && |used| == i && forall h :: h in used <==> h in best[..i]
    ensures var more := used[best[i] := o]; |more| == i + 1 && forall h :: h in more <==> h in best[..i + 1]
  {
    assert best[..i + 1] == best[..i] + [best[i]];
  }

  /** The next run of the work list is the best of its line. */
  lemma NextWaits(w0: World, w: World, best: seq<nat>, used: map<nat, Attempt>, i: nat, board: Board)
    requires Working(w0, w, best, used, i, board) && i < |best|
    ensures Best(w.rows, best[i]) && BoardOf(w.rows[best[i]]) == board
  {
    assert Waits(w0, w, best[i]) && best[i] in best;
  }

  /**
   What the work on one board did: best runs of the board were broadcast, at most `limit`, and all of them when
   nothing ended it below that; what is recorded of each is what its attempt came to.
   */
  ghost predicate BoardWorked(w: World, w': World, used: map<nat, Attempt>, board: Board, limit: nat,
                              attempts: seq<Attempt>, go: bool) {
    && OnlyBoard(w.rows, w'.rows, board) && EntriesElsewhere(w, w', [board])
    && |used| <= limit && Effects(w, w', used) && FromList(used, attempts)
    && (forall h | h in used :: BestOn(w.rows, h, board))
    && (go && |used| < limit ==> forall h | BestOn(w.rows, h, board) :: h in used)
    && (AllUndisturbed(attempts) ==> go)
  }

  lemma WorkedBoard(w0: World, w: World, best: seq<nat>, used: map<nat, Attempt>, i: nat, board: Board, limit: nat,
                    attempts: seq<Attempt>, go: bool)
    requires Working(w0, w, best, used, i, board) && |best| <= limit && (go ==> i == |best|)
    requires forall h | BestOn(w0.rows, h, board) :: h in best || |best| == limit
    requires FromList(used, attempts) && (AllUndisturbed(attempts) ==> go)
    ensures BoardWorked(w0, w, used, board, limit, attempts, go)
  {
    assert best[..|best|] == best;
    forall h | h in used ensures BestOn(w0.rows, h, board) {
      assert h in best[..i];
    }
  }

  lemma WaitingStep(w0: World, w: World, w': World, best: seq<nat>, i: nat, o: Attempt)
    requires i < |best| && Distinct(best) && Waiting(w0, w, best, i)
    requires OnlyLine(w.rows, w'.rows, LineOf(w.rows[best[i]])) && Accounted(w, w', best[i], o)
    ensures Waiting(w0, w', best, i + 1)
  {
    forall j | i < j < |best| ensures Waits(w0, w', best[j]) {
      OneBestPerLine(w.rows, best[i], best[j]);
      BestElsewhere(w.rows, w'.rows, LineOf(w.rows[best[i]]), best[j]);
    }
  }

  /** An attempt on a line where there was none is judged as it would have been at the start. */
  lemma EffectsStep(w0: World, w: World, w': World, used: map<nat, Attempt>, h: nat, o: Attempt)
    requires Effects(w0, w, used) && Waits(w0, w, h) && Accounted(w, w', h, o)
    requires w0.rows.Keys == w.rows.Keys == w'.rows.Keys
    requires h !in used && forall g | g in used :: g in w0.rows && LineOf(w0.rows[g]) != LineOf(w0.rows[h])
    ensures Effects(w0, w', used[h := o])
  {
    var after := used[h := o];
    forall g: nat ensures EffectAt(w0, w', after, g) {
      assert EffectAt(w0, w, used, g);
      if g == h {
        AttemptedLater(w0, w, w', h, o);
      } else {
        assert Untouched(w, w', g);
        if g in used { AttemptedBefore(w0, w, w', g, used[g]); }
      }
    }
  }

  lemma AttemptedLater(w0: World, w: World, w': World, h: nat, o: Attempt)
    requires Untouched(w0, w, h) && Attempted(w, w', h, o) && h in w0.rows && w.rows[h] == w0.rows[h]
    requires EntryOf(w.entries, LineOf(w.rows[h])) == EntryOf(w0.entries, LineOf(w.rows[h]))
    ensures Attempted(w0, w', h, o)
  {
  }

  lemma AttemptedBefore(w0: World, w: World, w': World, g: nat, o: Attempt)
    requires Attempted(w0, w, g, o) && Untouched(w, w', g) && g in w'.rows
    requires EntryOf(w'.entries, LineOf(w0.rows[g])) == EntryOf(w.entries, LineOf(w0.rows[g]))
    ensures Attempted(w0, w', g, o)
  {
  }

  lemma OnlyBoardStep(rows0: Runs, rows: Runs, rows': Runs, h: nat, board: Board)
    requires OnlyBoard(rows0, rows, board) && h in rows0 && BoardOf(rows0[h]) == board
    requires OnlyLine(rows, rows', LineOf(rows0[h]))
    ensures OnlyBoard(rows0, rows', board)
  {
    forall g | g in rows0 ensures Kept(rows0[g], rows'[g]) && (BoardOf(rows0[g]) != board ==> rows'[g] == rows0[g]) {
      assert Kept(rows0[g], rows[g]) && Kept(rows[g], rows'[g]);
    }
  }

  // ----- the boards of a cycle

  lemma BoardsAhead(boards: seq<Board>, k: nat)
    requires k < |boards| && SortedBy(BoardBefore, boards)
    ensures boards[k] in boards && boards[k] !in boards[..k]
  {
  }

  /** Nothing changed on boards that are not done. */
  ghost predicate Elsewhere(rows0: Runs, rows: Runs, done: seq<Board>) {
    && rows.Keys == rows0.Keys
    && forall g | g in rows0 :: Kept(rows0[g], rows[g]) && (BoardOf(rows0[g]) !in done ==> rows[g] == rows0[g])
  }

  lemma ElsewhereStep(rows0: Runs, rows: Runs, rows': Runs, done: seq<Board>, board: Board)
    requires Elsewhere(rows0, rows, done) && OnlyBoard(rows, rows', board)
    ensures Elsewhere(rows0, rows', done + [board])
  {
    forall g | g in rows0
      ensures Kept(rows0[g], rows'[g]) && (BoardOf(rows0[g]) !in done + [board] ==> rows'[g] == rows0[g])
    {
      assert Kept(rows0[g], rows[g]) && Kept(rows[g], rows'[g]);
    }
  }

  /** Work on other boards changes nothing about which run is the best of its line. */
  lemma BestKept(rows0: Runs, rows: Runs, done: seq<Board>, h: nat)
    requires Elsewhere(rows0, rows, done) && h in rows0 && BoardOf(rows0[h]) !in done
    ensures Best(rows, h) <==> Best(rows0, h)
  {
    forall g | g in rows0
      ensures Blocked(rows[h], rows[g]) <==> Blocked(rows0[h], rows0[g])
      ensures Beaten(h, rows[h], g, rows[g]) <==> Beaten(h, rows0[h], g, rows0[g])
    {
      assert Kept(rows0[g], rows[g]);
    }
  }

  /** The runs broadcast so far: best runs of the boards done, and all of them if nothing was cut short. */
  ghost predicate Tried(rows0: Runs, used: map<nat, Attempt>, done: seq<Board>, complete: bool) {
    && (forall h | h in used :: Best(rows0, h) && BoardOf(rows0[h]) in done)
    && (complete ==> forall h | Best(rows0, h) && BoardOf(rows0[h]) in done :: h in used)
  }

  lemma TriedStep(rows0: Runs, rows: Runs, used: map<nat, Attempt>, more: map<nat, Attempt>, done: seq<Board>,
                  board: Board, complete: bool)
    requires Elsewhere(rows0, rows, done) && board !in done && Tried(rows0, used, done, true)
    requires forall h | h in more :: BestOn(rows, h, board)
    requires complete ==> forall h | BestOn(rows, h, board) :: h in more
    ensures Tried(rows0, used + more, done + [board], complete)
  {
    forall h | h in more ensures Best(rows0, h) && BoardOf(rows0[h]) == board {
      assert Kept(rows0[h], rows[h]);
      BestKept(rows0, rows, done, h);
    }
    if complete {
      forall h | Best(rows0, h) && BoardOf(rows0[h]) in done + [board] ensures h in used + more {
        if BoardOf(rows0[h]) == board {
          assert Kept(rows0[h], rows[h]);
          BestKept(rows0, rows, done, h);
        }
      }
    }
  }

  /** The attempts on a new board are judged as they would have been at the start of the cycle. */
  lemma EffectsMore(w0: World, w: World, w': World, used: map<nat, Attempt>, more: map<nat, Attempt>, done: seq<Board>,
                    board: Board)
    requires Effects(w0, w, used) && Effects(w, w', more) && board !in done
    requires Elsewhere(w0.rows, w.rows, done) && w'.rows.Keys == w.rows.Keys
    requires EntriesElsewhere(w0, w, done) && EntriesElsewhere(w, w', [board])
    requires forall g | g in used :: g in w0.rows && BoardOf(w0.rows[g]) in done
    requires forall g | g in more :: g in w0.rows && BoardOf(w0.rows[g]) == board
    ensures Effects(w0, w', used + more)
  {
    forall g: nat ensures EffectAt(w0, w', used + more, g) {
      assert EffectAt(w0, w, used, g) && EffectAt(w, w', more, g);
      if g in more {
        AttemptedLater(w0, w, w', g, more[g]);
      } else if g in used {
        AttemptedBefore(w0, w, w', g, used[g]);
      }
    }
  }

  /** What holds between two boards of a cycle. */
  ghost predicate Progress(w0: World, w: World, used: map<nat, Attempt>, done: seq<Board>, complete: bool) {
    && Elsewhere(w0.rows, w.rows, done) && EntriesElsewhere(w0, w, done)
    && Effects(w0, w, used) && Tried(w0.rows, used, done, complete)
  }

  lemma ProgressStep(w0: World, w: World, w': World, used: map<nat, Attempt>, more: map<nat, Attempt>,
                     boards: seq<Board>, k: nat, complete: bool)
    requires k < |boards| && boards[k] !in boards[..k] && Progress(w0, w, used, boards[..k], true)
    requires OnlyBoard(w.rows, w'.rows, boards[k]) && EntriesElsewhere(w, w', [boards[k]]) && Effects(w, w', more)
    requires forall h | h in more :: BestOn(w.rows, h, boards[k])
    requires complete ==> forall h | BestOn(w.rows, h, boards[k]) :: h in more
    ensures Progress(w0, w', used + more, boards[..k + 1], complete)
  {
    assert boards[..k + 1] == boards[..k] + [boards[k]];
    TriedStep(w0.rows, w.rows, used, more, boards[..k], boards[k], complete);
    forall g | g in more ensures g in w0.rows && BoardOf(w0.rows[g]) == boards[k] {
      assert Kept(w0.rows[g], w.rows[g]);
    }
    EffectsMore(w0, w, w', used, more, boards[..k], boards[k]);
    ElsewhereStep(w0.rows, w.rows, w'.rows, boards[..k], boards[k]);
  }

  /** The new board's runs were not broadcast before. */
  lemma ProgressCount(w0: World, w: World, used: map<nat, Attempt>, more: map<nat, Attempt>, boards: seq<Board>, k: nat)
    requires k < |boards| && boards[k] !in boards[..k] && Progress(w0, w, used, boards[..k], true)
    requires forall h | h in more :: BestOn(w.rows, h, boards[k])
    ensures |used + more| == |used| + |more|
  {
    forall h | h in more ensures h !in used {
      assert Kept(w0.rows[h], w.rows[h]);
    }
    DisjointCount(used, more);
  }

  /** The cycle after `k` boards; `go` if nothing ended it. */
  ghost predicate Cycling(w0: World, w: World, used: map<nat, Attempt>, boards: seq<Board>, k: nat, go: bool, cap: nat,
                          readable: nat -> bool, attempts: nat -> seq<Attempt>) {
    && k <= |boards| && |used| <= cap && Progress(w0, w, used, boards[..k], go && |used| < cap)
    && Drawn(used, attempts) && (Unhindered(readable, attempts) ==> go)
  }

  lemma CyclingStarts(w: World, boards: seq<Board>, cap: nat, readable: nat -> bool, attempts: nat -> seq<Attempt>,
                      today: int)
    ensures Cycling(w, w.(clock := today), map[], boards, 0, true, cap, readable, attempts)
  {
  }

  /** The list of boards cannot be read. */
  lemma NothingWorked(w: World, maxPerCycle: int, readable: nat -> bool, attempts: nat -> seq<Attempt>, today: int)
    requires !readable(0)
    ensures WorkedOff(w, w.(clock := today), map[], maxPerCycle, today, readable, attempts)
    ensures !Unhindered(readable, attempts)
  {
  }

  lemma CyclingNext(w0: World, w: World, w': World, used: map<nat, Attempt>, more: map<nat, Attempt>,
                    boards: seq<Board>,
                    k: nat, go: bool, cap: nat, readable: nat -> bool, attempts: nat -> seq<Attempt>)
    requires Cycling(w0, w, used, boards, k, true, cap, readable, attempts) && |used| < cap
    requires k < |boards| && SortedBy(BoardBefore, boards)
    requires BoardWorked(w, w', more, boards[k], cap - |used|, attempts(k), go)
    ensures Cycling(w0, w', used + more, boards, k + 1, go, cap, readable, attempts)
    ensures |used + more| == |used| + |more|
  {
    BoardsAhead(boards, k);
    ProgressCount(w0, w, used, more, boards, k);
    ProgressStep(w0, w, w', used, more, boards, k, go && |used + more| < cap);
    DrawnMore(used, more, attempts, k);
  }

  lemma CycleEnds(w0: World, w: World, used: map<nat, Attempt>, boards: seq<Board>, k: nat, go: bool, maxPerCycle: int,
                  readable: nat -> bool, attempts: nat -> seq<Attempt>, today: int)
    requires Cycling(w0, w, used, boards, k, go, Cap(maxPerCycle), readable, attempts) && w.clock == today
    requires go && |used| < Cap(maxPerCycle) ==> k == |boards| || !readable(k + 1)
    requires forall b | b in boards :: b.day < today - 1
    requires go ==> ExactlyPending(w0.rows, boards, today - 1)
    ensures WorkedOff(w0, w, used, maxPerCycle, today, readable, attempts)
    ensures go && k == |boards| && |used| < Cap(maxPerCycle) ==> forall h | ClosedBest(w0.rows, h, today) :: h in used
    ensures Unhindered(readable, attempts) ==> go && (k == |boards| || |used| == Cap(maxPerCycle))
  {
    TriedClosed(w0.rows, used, boards, k, go && k == |boards| && |used| < Cap(maxPerCycle), today);
    OpenKept(w0.rows, w.rows, boards, k, today);
  }

  lemma TriedClosed(rows0: Runs, used: map<nat, Attempt>, boards: seq<Board>, k: nat, done: bool, today: int)
    requires k <= |boards| && Tried(rows0, used, boards[..k], done) && (done ==> k == |boards|)
    requires forall b | b in boards :: b.day < today - 1
    requires done ==> ExactlyPending(rows0, boards, today - 1)
    ensures forall h | h in used :: ClosedBest(rows0, h, today)
    ensures done ==> forall h | ClosedBest(rows0, h, today) :: h in used
  {
    forall h | h in used ensures ClosedBest(rows0, h, today) {
      assert BoardOf(rows0[h]) in boards;
    }
    if done {
      assert boards[..|boards|] == boards;
      forall h | ClosedBest(rows0, h, today) ensures h in used {
        assert Pending(rows0[h], today - 1) && BoardOf(rows0[h]) in boards;
      }
    }
  }
}
