/**
 The day-close attester: for every closed (game, day) board it broadcasts each
 address's best verified run to the realm and retires the address's other runs.

 The realm keeps one best entry per (game, day, address) and rejects a write that
 does not improve it. Broadcasts and store writes may fail in every way: before
 they act, after they acted, or by a crash. Text columns that are only compared
 are numbers here; days are day numbers.
 */
module AttesterTables {
  import opened Wrappers

  datatype Status = Verified | Attested | Skipped | Errored

  datatype Run = Run(addr: nat, game: nat, day: int, daily: bool, score: int, created: int, status: Status,
                     failures: nat)

  /** One line of the realm: a game, a day and an address. */
  datatype Line = Line(game: nat, day: int, addr: nat)

  datatype Entry = Entry(hash: nat, score: int)

  type Runs = map<nat, Run>

  function LineOf(r: Run): Line {
    Line(r.game, r.day, r.addr)
  }

  predicate Rivals(a: Run, b: Run) {
    a.daily && b.daily && LineOf(a) == LineOf(b)
  }

  // ----- the store's writes

  function SetStatus(rows: Runs, h: nat, s: Status): Runs
    requires h in rows
  {
    rows[h := rows[h].(status := s)]
  }

  /** `MarkSkipped` and `MarkErrored` touch a verified run only. */
  function Retire(rows: Runs, h: nat, s: Status): Runs
    requires h in rows
  {
    if rows[h].status.Verified? then SetStatus(rows, h, s) else rows
  }

  /** A write that happened; that failed without effect; that failed after it took effect; a crash before it. */
  datatype Write = Done | Lost | Unsure | Crash

  predicate Applied(w: Write) {
    w.Done? || w.Unsure?
  }

  function Counted(rows: Runs, h: nat): Runs
    requires h in rows
  {
    rows[h := rows[h].(failures := rows[h].failures + 1)]
  }

  /** `ResolveSupersededDaily`: skip every verified run of the line but `keep`. */
  function Superseded(rows: Runs, line: Line, keep: Option<nat>): Runs {
    map g | g in rows ::
      if rows[g].daily && LineOf(rows[g]) == line && rows[g].status.Verified? && keep != Some(g)
      then rows[g].(status := Skipped) else rows[g]
  }

  // ----- the store's queries

  /** The order of the board: score descending, then age, then hash. */
  predicate Before(h: nat, a: Run, g: nat, b: Run) {
    || a.score > b.score
    || (a.score == b.score && a.created < b.created)
    || (a.score == b.score && a.created == b.created && h < g)
  }

  predicate Pending(r: Run, closeBefore: int) {
    r.daily && r.status.Verified? && r.day < closeBefore
  }

  /** A parked run of the same line that scores no less keeps `r` off the board. */
  predicate Blocked(r: Run, b: Run) {
    Rivals(r, b) && b.status.Errored? && b.score >= r.score
  }

  predicate Beaten(h: nat, r: Run, g: nat, b: Run) {
    Rivals(r, b) && b.status.Verified? && Before(g, b, h, r)
  }

  /** `BestVerifiedDaily` selects `h`. */
  predicate Best(rows: Runs, h: nat) {
    && h in rows
    && rows[h].daily && rows[h].status.Verified?
    && forall g | g in rows :: !Blocked(rows[h], rows[g]) && !Beaten(h, rows[h], g, rows[g])
  }

  /**
   The best run of a line: a verified daily run whose score no parked run of the line reaches, and which is the
   highest, among equals the oldest, and then the one with the least hash, of the verified ones.
   */
  lemma BestMeans(rows: Runs, h: nat)
    requires h in rows
    ensures Best(rows, h) <==>
      && rows[h].daily && rows[h].status.Verified?
      && forall g | g in rows && g != h && rows[g].daily
              && rows[g].game == rows[h].game && rows[g].day == rows[h].day && rows[g].addr == rows[h].addr ::
           && (rows[g].status.Errored? ==> rows[g].score < rows[h].score)
           && (rows[g].status.Verified? ==>
                 || rows[g].score < rows[h].score
                 || (rows[g].score == rows[h].score && rows[g].created > rows[h].created)
                 || (rows[g].score == rows[h].score && rows[g].created == rows[h].created && g > h))
  {
    forall g | g in rows && g != h ensures Blocked(rows[h], rows[g]) || Beaten(h, rows[h], g, rows[g]) <==>
      && rows[g].daily && rows[h].daily
      && rows[g].game == rows[h].game && rows[g].day == rows[h].day && rows[g].addr == rows[h].addr
      && ((rows[g].status.Errored? && rows[g].score >= rows[h].score)
          || (rows[g].status.Verified?
              && (rows[g].score > rows[h].score
                  || (rows[g].score == rows[h].score && rows[g].created < rows[h].created)
                  || (rows[g].score == rows[h].score && rows[g].created == rows[h].created && g < h))))
    {
    }
  }

  /** A line with a verified run that no parked one keeps off the board has a best run, at least as good. */
  lemma BestExists(rows: Runs, h: nat) returns (best: nat)
    requires h in rows && rows[h].daily && rows[h].status.Verified?
    requires forall g | g in rows && Rivals(rows[h], rows[g]) ::
      rows[g].status.Errored? ==> rows[g].score < rows[h].score
    ensures Best(rows, best) && LineOf(rows[best]) == LineOf(rows[h]) && rows[best].score >= rows[h].score
  {
    var line := set g | g in rows && Rivals(rows[h], rows[g]) && rows[g].status.Verified?;
    assert h in line;
    best := TopOf(rows, line, h);
    assert !Beaten(best, rows[best], h, rows[h]);
    forall g | g in rows ensures !Blocked(rows[best], rows[g]) && !Beaten(best, rows[best], g, rows[g]) {
      assert Rivals(rows[best], rows[g]) ==> Rivals(rows[h], rows[g]);
    }
  }

  lemma {:induction false} TopOf(rows: Runs, line: set<nat>, h: nat) returns (top: nat)
    requires h in line && forall g <- line :: g in rows
    ensures top in line && forall g <- line :: !Before(g, rows[g], top, rows[top])
    decreases line
  {
    top := h;
    var rest := line - {h};
    if rest != {} {
      var other :| other in rest;
      var next := TopOf(rows, rest, other);
      if Before(next, rows[next], h, rows[h]) { top := next; }
      forall g <- line ensures !Before(g, rows[g], top, rows[top]) {
        assert g == h || !Before(g, rows[g], next, rows[next]);
      }
    } else {
      forall g <- line ensures g == h {
        assert g !in rest;
      }
    }
  }

  // ----- sorted results

  datatype Board = Board(game: nat, day: int)

  function BoardOf(r: Run): Board {
    Board(r.game, r.day)
  }

  predicate BoardBefore(a: Board, b: Board) {
    a.day < b.day || (a.day == b.day && a.game < b.game)
  }

  function RunBefore(rows: Runs): (nat, nat) -> bool {
    (h: nat, g: nat) => h in rows && g in rows && Before(h, rows[h], g, rows[g])
  }

  ghost predicate SortedBy<T>(before: (T, T) -> bool, s: seq<T>) {
    forall i, j | 0 <= i < j < |s| :: before(s[i], s[j])
  }

  /** `x` in its place, unless it is there already. */
  function InsertBy<T(!new, ==)>(before: (T, T) -> bool, s: seq<T>, x: T): (r: seq<T>)
    ensures forall y :: y in r <==> y == x || y in s
  {
    if s == [] then [x]
    else if s[0] == x then s
    else if before(x, s[0]) then [x] + s
    else [s[0]] + InsertBy(before, s[1..], x)
  }

  /** Inserting keeps the order, if it is a total one. */
  lemma {:induction false} InsertSorted<T(!new)>(before: (T, T) -> bool, s: seq<T>, x: T)
    requires SortedBy(before, s)
    requires forall y | y in s :: y == x || before(x, y) || before(y, x)
    requires forall a, b, c :: before(a, b) && before(b, c) ==> before(a, c)
    ensures SortedBy(before, InsertBy(before, s, x))
  {
    if s != [] && s[0] != x && !before(x, s[0]) {
      InsertSorted(before, s[1..], x);
      assert s[0] in s && before(s[0], x);
      forall y | y in InsertBy(before, s[1..], x) ensures before(s[0], y) {
        if y != x { var j :| 1 <= j < |s| && s[j] == y; }
      }
    }
  }

  ghost predicate Distinct(s: seq<nat>) {
    forall i, j | 0 <= i < j < |s| :: s[i] != s[j]
  }

  lemma Dropped<T>(s: seq<T>, n: nat, x: T) returns (j: nat)
    requires n <= |s| && x in s && x !in s[..n]
    ensures n <= j < |s| && s[j] == x
  {
    assert s == s[..n] + s[n..];
    var k :| 0 <= k < |s[n..]| && s[n..][k] == x;
    j := n + k;
  }

  // ----- what holds of every state

  /** The tables, the realm's entries, and what the proof remembers. */
  datatype World = World(
    rows: Runs,
    entries: map<Line, Entry>,
    bound: map<nat, nat>,      // an input log belongs to the first address it was attested for
    receipts: map<nat, Entry>, // the realm's entry of the line when a run was marked
    refused: set<nat>,         // runs that the realm rejected for good
    calls: map<nat, nat>,      // broadcasts of a run
    lost: map<nat, nat>,       // failed store writes about a run
    clock: int,                // the latest day seen
    foreign: set<nat>)         // logs whose entries the realm got from elsewhere

  function Get(m: map<nat, nat>, h: nat): nat {
    if h in m then m[h] else 0
  }

  function Bump(m: map<nat, nat>, h: nat): map<nat, nat> {
    m[h := Get(m, h) + 1]
  }

  const MAX_RETRIES: nat := 8

  /** No more broadcasts than counted failures and failed writes account for. */
  ghost predicate WithinBudget(w: World, h: nat) {
    if h !in w.rows then Get(w.calls, h) == 0
    else if w.rows[h].status.Verified? then
      Get(w.calls, h) <= (if w.rows[h].failures < MAX_RETRIES then w.rows[h].failures else MAX_RETRIES - 1)
        + Get(w.lost, h)
    else Get(w.calls, h) <= MAX_RETRIES + Get(w.lost, h)
  }

  /** The realm's line holds a run's entry, or a better one. */
  predicate OnChain(entries: map<Line, Entry>, h: nat, r: Run) {
    && LineOf(r) in entries
    && (entries[LineOf(r)] == Entry(h, r.score) || entries[LineOf(r)].score > r.score)
  }

  ghost predicate AttestedSound(w: World, h: nat) {
    h in w.rows && w.rows[h].status.Attested? ==>
      && w.rows[h].daily && w.rows[h].day + 2 <= w.clock
      && h in w.receipts && w.receipts[h] == Entry(h, w.rows[h].score)
      && OnChain(w.entries, h, w.rows[h])
  }

  /** A run is retired only for an entry at least as good, or because the realm rejected it. */
  ghost predicate SkippedSound(w: World, h: nat) {
    h in w.rows && w.rows[h].status.Skipped? ==>
      || h in w.refused
      || (LineOf(w.rows[h]) in w.entries && w.entries[LineOf(w.rows[h])].score >= w.rows[h].score)
  }

  /** An attested run is the only one of its line, and nothing pending or parked there scores more. */
  predicate Dominates(h: nat, a: Run, g: nat, b: Run) {
    a.status.Attested? && g != h && Rivals(a, b) ==>
      !b.status.Attested? && (b.status.Verified? || b.status.Errored? ==> b.score <= a.score)
  }

  ghost predicate Sound(w: World) {
    && (forall h :: WithinBudget(w, h))
    && (forall h :: AttestedSound(w, h))
    && (forall h :: SkippedSound(w, h))
    && forall h, g | h in w.rows && g in w.rows :: Dominates(h, w.rows[h], g, w.rows[g])
  }

  // ----- every write keeps it

  /** A better entry on a line, from whatever source. */
  lemma ImproveKeeps(w: World, line: Line, e: Entry, bound: map<nat, nat>, foreign: set<nat>)
    requires Sound(w) && (line !in w.entries || w.entries[line].score < e.score)
    ensures Sound(w.(entries := w.entries[line := e], bound := bound, foreign := foreign))
  {
    var w' := w.(entries := w.entries[line := e], bound := bound, foreign := foreign);
    forall h ensures WithinBudget(w', h) && AttestedSound(w', h) && SkippedSound(w', h) {
      assert WithinBudget(w, h) && AttestedSound(w, h) && SkippedSound(w, h);
    }
  }

  /** The best verified run of a line with its own entry on chain is the first attested run there. */
  lemma NoneAttested(w: World, h: nat, g: nat)
    requires Sound(w) && Best(w.rows, h)
    requires LineOf(w.rows[h]) in w.entries && w.entries[LineOf(w.rows[h])] == Entry(h, w.rows[h].score)
    requires g in w.rows && Rivals(w.rows[h], w.rows[g])
    ensures !w.rows[g].status.Attested?
  {
    assert AttestedSound(w, g);
    assert Dominates(g, w.rows[g], h, w.rows[h]);
  }

  lemma MarkKeeps(w: World, h: nat)
    requires Sound(w) && Best(w.rows, h) && w.rows[h].day + 2 <= w.clock
    requires LineOf(w.rows[h]) in w.entries && w.entries[LineOf(w.rows[h])] == Entry(h, w.rows[h].score)
    ensures Sound(w.(rows := SetStatus(w.rows, h, Attested), receipts := w.receipts[h := w.entries[LineOf(w.rows[h])]],
                     calls := Bump(w.calls, h)))
  {
    var w' := w.(rows := SetStatus(w.rows, h, Attested), receipts := w.receipts[h := w.entries[LineOf(w.rows[h])]],
                 calls := Bump(w.calls, h));
    forall g ensures WithinBudget(w', g) && AttestedSound(w', g) && SkippedSound(w', g) {
      assert WithinBudget(w, g) && AttestedSound(w, g) && SkippedSound(w, g);
    }
    forall g, k | g in w'.rows && k in w'.rows ensures Dominates(g, w'.rows[g], k, w'.rows[k]) {
      assert Dominates(g, w.rows[g], k, w.rows[k]);
      if Rivals(w.rows[h], w.rows[g]) { NoneAttested(w, h, g); }
      if Rivals(w.rows[h], w.rows[k]) { NoneAttested(w, h, k); }
      assert !Blocked(w.rows[h], w.rows[k]) && !Beaten(h, w.rows[h], k, w.rows[k]);
    }
  }

  /** One more failed write pays for anything the budget allows. */
  lemma LossKeeps(w: World, h: nat)
    requires Sound(w) && h in w.rows
    ensures Sound(w.(lost := Bump(w.lost, h)))
  {
    var w' := w.(lost := Bump(w.lost, h));
    forall g ensures WithinBudget(w', g) && AttestedSound(w', g) && SkippedSound(w', g) {
      assert WithinBudget(w, g) && AttestedSound(w, g) && SkippedSound(w, g);
    }
  }

  /** A broadcast whose outcome could not be written. */
  lemma LostCallKeeps(w: World, h: nat)
    requires Sound(w) && h in w.rows
    ensures Sound(w.(lost := Bump(w.lost, h), calls := Bump(w.calls, h)))
  {
    var w' := w.(lost := Bump(w.lost, h), calls := Bump(w.calls, h));
    forall g ensures WithinBudget(w', g) && AttestedSound(w', g) && SkippedSound(w', g) {
      assert WithinBudget(w, g) && AttestedSound(w, g) && SkippedSound(w, g);
    }
  }

  /** A broadcast that failed, was counted, and did not reach the cap. */
  lemma CountKeeps(w: World, h: nat)
    requires Sound(w) && h in w.rows && w.rows[h].status.Verified? && w.rows[h].failures + 1 < MAX_RETRIES
    ensures Sound(w.(rows := Counted(w.rows, h), calls := Bump(w.calls, h)))
  {
    var w' := w.(rows := Counted(w.rows, h), calls := Bump(w.calls, h));
    forall g ensures WithinBudget(w', g) && AttestedSound(w', g) && SkippedSound(w', g) {
      assert WithinBudget(w, g) && AttestedSound(w, g) && SkippedSound(w, g);
    }
    StatusKept(w, w');
  }

  /** The count is written, but parking the run is not, or the cycle ends before it. */
  lemma CountLossKeeps(w: World, h: nat)
    requires Sound(w) && h in w.rows && w.rows[h].status.Verified?
    ensures Sound(w.(rows := Counted(w.rows, h), calls := Bump(w.calls, h), lost := Bump(w.lost, h)))
  {
    var w' := w.(rows := Counted(w.rows, h), calls := Bump(w.calls, h), lost := Bump(w.lost, h));
    forall g ensures WithinBudget(w', g) && AttestedSound(w', g) && SkippedSound(w', g) {
      assert WithinBudget(w, g) && AttestedSound(w, g) && SkippedSound(w, g);
    }
    StatusKept(w, w');
  }

  /** A broadcast whose failure reached the cap: the run is parked. */
  lemma ParkKeeps(w: World, h: nat)
    requires Sound(w) && h in w.rows && w.rows[h].status.Verified?
    ensures Sound(w.(rows := SetStatus(Counted(w.rows, h), h, Errored), calls := Bump(w.calls, h)))
  {
    var w' := w.(rows := SetStatus(Counted(w.rows, h), h, Errored), calls := Bump(w.calls, h));
    forall g ensures WithinBudget(w', g) && AttestedSound(w', g) && SkippedSound(w', g) {
      assert WithinBudget(w, g) && AttestedSound(w, g) && SkippedSound(w, g);
    }
    StatusKept(w, w');
  }

  /** A broadcast that the realm rejected for good: the run is skipped. */
  lemma SkipKeeps(w: World, h: nat)
    requires Sound(w) && h in w.rows && w.rows[h].status.Verified?
    ensures Sound(w.(rows := SetStatus(w.rows, h, Skipped), calls := Bump(w.calls, h), refused := w.refused + {h}))
  {
    var w' := w.(rows := SetStatus(w.rows, h, Skipped), calls := Bump(w.calls, h), refused := w.refused + {h});
    forall g ensures WithinBudget(w', g) && AttestedSound(w', g) && SkippedSound(w', g) {
      assert WithinBudget(w, g) && AttestedSound(w, g) && SkippedSound(w, g);
    }
    StatusKept(w, w');
  }

  /** Rows that only leave the verified state, and not for the attested one, keep the order of each line. */
  lemma StatusKept(w: World, w': World)
    requires Sound(w) && w'.rows.Keys == w.rows.Keys
    requires forall g | g in w.rows :: Lowered(w.rows[g], w'.rows[g])
    ensures forall h, g | h in w'.rows && g in w'.rows :: Dominates(h, w'.rows[h], g, w'.rows[g])
  {
    forall h, g | h in w'.rows && g in w'.rows ensures Dominates(h, w'.rows[h], g, w'.rows[g]) {
      assert Lowered(w.rows[h], w'.rows[h]) && Lowered(w.rows[g], w'.rows[g]);
      assert Dominates(h, w.rows[h], g, w.rows[g]);
    }
  }

  predicate Lowered(a: Run, b: Run) {
    && a.(status := b.status, failures := b.failures) == b
    && (b.status == a.status || (a.status.Verified? && !b.status.Attested?))
  }

  /** An entry at least as good as every verified run of a line retires them all. */
  lemma SupersedeKeeps(w: World, line: Line, keep: Option<nat>)
    requires Sound(w) && line in w.entries
    requires forall g | g in w.rows :: Covered(w.rows[g], line, w.entries[line].score)
    ensures Sound(w.(rows := Superseded(w.rows, line, keep)))
  {
    var w' := w.(rows := Superseded(w.rows, line, keep));
    forall g ensures WithinBudget(w', g) && AttestedSound(w', g) && SkippedSound(w', g) {
      assert WithinBudget(w, g) && AttestedSound(w, g) && SkippedSound(w, g);
      assert g in w.rows ==> Covered(w.rows[g], line, w.entries[line].score);
    }
    StatusKept(w, w');
  }

  predicate Covered(r: Run, line: Line, score: int) {
    r.daily && LineOf(r) == line && r.status.Verified? ==> r.score <= score
  }

  lemma BestCovers(w: World, h: nat, score: int)
    requires Best(w.rows, h) && score >= w.rows[h].score
    ensures forall g | g in w.rows :: Covered(w.rows[g], LineOf(w.rows[h]), score)
  {
    forall g | g in w.rows ensures Covered(w.rows[g], LineOf(w.rows[h]), score) {
      assert !Beaten(h, w.rows[h], g, w.rows[g]);
    }
  }

  /** A new submission, for today or yesterday. */
  lemma InsertKeeps(w: World, h: nat, r: Run, today: int)
    requires Sound(w) && h !in w.rows && r.status.Verified? && r.failures == 0
    requires w.clock <= today && (r.daily ==> r.day == today || r.day == today - 1)
    ensures Sound(w.(rows := w.rows[h := r], clock := today))
  {
    var w' := w.(rows := w.rows[h := r], clock := today);
    forall g ensures WithinBudget(w', g) && AttestedSound(w', g) && SkippedSound(w', g) {
      assert WithinBudget(w, g) && AttestedSound(w, g) && SkippedSound(w, g);
    }
    forall g, k | g in w'.rows && k in w'.rows ensures Dominates(g, w'.rows[g], k, w'.rows[k]) {
      assert AttestedSound(w, g);
      if g in w.rows && k in w.rows { assert Dominates(g, w.rows[g], k, w.rows[k]); }
    }
  }

  lemma ClockKeeps(w: World, today: int)
    requires Sound(w) && w.clock <= today
    ensures Sound(w.(clock := today))
  {
    var w' := w.(clock := today);
    forall g ensures WithinBudget(w', g) && AttestedSound(w', g) && SkippedSound(w', g) {
      assert WithinBudget(w, g) && AttestedSound(w, g) && SkippedSound(w, g);
    }
  }

  /** An attested run's entry covers its line. */
  lemma AttestedCovers(w: World, h: nat)
    requires Sound(w) && h in w.rows && w.rows[h].status.Attested?
    ensures LineOf(w.rows[h]) in w.entries
    ensures forall g | g in w.rows :: Covered(w.rows[g], LineOf(w.rows[h]), w.entries[LineOf(w.rows[h])].score)
  {
    assert AttestedSound(w, h);
    forall g | g in w.rows ensures Covered(w.rows[g], LineOf(w.rows[h]), w.entries[LineOf(w.rows[h])].score) {
      assert Dominates(h, w.rows[h], g, w.rows[g]);
    }
  }

  // ----- what a write on one line leaves alone

  predicate Kept(a: Run, b: Run) {
    a.(status := b.status, failures := b.failures) == b
  }

  /** Only the status and the failures of runs on `line` changed. */
  ghost predicate OnlyLine(rows: Runs, rows': Runs, line: Line) {
    && rows'.Keys == rows.Keys
    && forall g | g in rows :: Kept(rows[g], rows'[g]) && (LineOf(rows[g]) != line ==> rows'[g] == rows[g])
  }

  lemma BestElsewhere(rows: Runs, rows': Runs, line: Line, h: nat)
    requires OnlyLine(rows, rows', line) && Best(rows, h) && LineOf(rows[h]) != line
    ensures Best(rows', h)
  {
    forall g | g in rows' ensures !Blocked(rows'[h], rows'[g]) && !Beaten(h, rows'[h], g, rows'[g]) {
      assert Kept(rows[g], rows'[g]);
      assert !Blocked(rows[h], rows[g]) && !Beaten(h, rows[h], g, rows[g]);
    }
  }

  // ----- one attempt, by the realm's answer: the state after it, and that it is sound

  /** Sent but rejected for its shape; lost on the way there or back; answered. */
  datatype Net = NotSent | Unanswered | Misshapen | Answered

  datatype Answer = Sent | AlreadyOnChain | BoundElsewhere | PermanentReject | Transient

  /** What happens around one broadcast. */
  datatype Attempt = Attempt(cancelled: bool, net: Net, readable: bool,
                             mark: Write, count: Write, park: Write, skip: Write, resolve: Write)

  /** The broadcast is made, and the write about it is paid for when it fails. */
  function Charged(w: World, h: nat, ok: bool): World {
    w.(calls := Bump(w.calls, h), lost := if ok then w.lost else Bump(w.lost, h))
  }

  /** `recordAttestFailure` went well. */
  predicate RecordedOk(r: Run, o: Attempt) {
    r.status.Verified? && o.count.Done? && (r.failures + 1 >= MAX_RETRIES ==> o.park.Done?)
  }

  function RecordedRows(rows: Runs, h: nat, o: Attempt): Runs
    requires h in rows
  {
    if !rows[h].status.Verified? || !Applied(o.count) then rows
    else if o.count.Done? && rows[h].failures + 1 >= MAX_RETRIES && Applied(o.park)
    then SetStatus(Counted(rows, h), h, Errored)
    else Counted(rows, h)
  }

  function AfterRecord(w: World, h: nat, o: Attempt): World
    requires h in w.rows
  {
    Charged(w, h, RecordedOk(w.rows[h], o)).(rows := RecordedRows(w.rows, h, o))
  }

  lemma RecordKeeps(w: World, h: nat, o: Attempt)
    requires Sound(w) && h in w.rows && w.rows[h].status.Verified?
    ensures Sound(AfterRecord(w, h, o))
  {
    if !Applied(o.count) {
      LostCallKeeps(w, h);
    } else if !o.count.Done? {
      CountLossKeeps(w, h);
    } else if w.rows[h].failures + 1 < MAX_RETRIES {
      CountKeeps(w, h);
    } else if !Applied(o.park) {
      CountLossKeeps(w, h);
    } else {
      ParkKeeps(w, h);
      if !o.park.Done? {
        LossKeeps(w.(rows := SetStatus(Counted(w.rows, h), h, Errored), calls := Bump(w.calls, h)), h);
      }
    }
  }

  function AfterSkip(w: World, h: nat, o: Attempt): World
    requires h in w.rows
  {
    var c := Charged(w, h, o.skip.Done?);
    if Applied(o.skip) then c.(rows := Retire(w.rows, h, Skipped), refused := w.refused + {h}) else c
  }

  lemma RefusalKeeps(w: World, h: nat, o: Attempt)
    requires Sound(w) && h in w.rows && w.rows[h].status.Verified?
    ensures Sound(AfterSkip(w, h, o)) && OnlyLine(w.rows, AfterSkip(w, h, o).rows, LineOf(w.rows[h]))
  {
    if !Applied(o.skip) {
      LostCallKeeps(w, h);
    } else {
      SkipKeeps(w, h);
      if !o.skip.Done? {
        LossKeeps(w.(rows := SetStatus(w.rows, h, Skipped), calls := Bump(w.calls, h), refused := w.refused + {h}), h);
      }
    }
  }

  /** The line holds a better entry: all its verified runs are skipped. */
  function AfterYield(w: World, h: nat, o: Attempt): World
    requires h in w.rows
  {
    var c := Charged(w, h, o.resolve.Done?);
    if Applied(o.resolve) then c.(rows := Superseded(w.rows, LineOf(w.rows[h]), None)) else c
  }

  lemma YieldKeeps(w: World, h: nat, o: Attempt)
    requires Sound(w) && Best(w.rows, h)
    requires LineOf(w.rows[h]) in w.entries && w.entries[LineOf(w.rows[h])].score >= w.rows[h].score
    ensures Sound(AfterYield(w, h, o)) && OnlyLine(w.rows, AfterYield(w, h, o).rows, LineOf(w.rows[h]))
  {
    if !Applied(o.resolve) {
      LostCallKeeps(w, h);
    } else {
      var line := LineOf(w.rows[h]);
      BestCovers(w, h, w.entries[line].score);
      SupersedeKeeps(w, line, None);
      RetiredCharge(w.(rows := Superseded(w.rows, line, None)), w, h, o.resolve.Done?);
    }
  }

  /** Charging a run that just left the verified state. */
  lemma RetiredCharge(v: World, w: World, h: nat, ok: bool)
    requires Sound(v) && Sound(w) && v.calls == w.calls && v.lost == w.lost
    requires h in v.rows && h in w.rows && w.rows[h].status.Verified? && !v.rows[h].status.Verified?
    ensures Sound(Charged(v, h, ok))
  {
    var w' := Charged(v, h, ok);
    forall g ensures WithinBudget(w', g) && AttestedSound(w', g) && SkippedSound(w', g) {
      assert WithinBudget(w, g) && WithinBudget(v, g) && AttestedSound(v, g) && SkippedSound(v, g);
    }
  }

  /** The line holds the run's entry: mark it, then retire the line's other runs. */
  function AfterMark(w: World, h: nat, o: Attempt): World
    requires h in w.rows && LineOf(w.rows[h]) in w.entries
  {
    if o.mark.Crash? then Charged(w, h, false)
    else if o.mark.Lost? then AfterRecord(w.(lost := Bump(w.lost, h)), h, o)
    else
      var m := Charged(w, h, o.mark.Done? && o.resolve.Done?)
               .(rows := SetStatus(w.rows, h, Attested), receipts := w.receipts[h := w.entries[LineOf(w.rows[h])]]);
      if o.mark.Done? && Applied(o.resolve) then m.(rows := Superseded(m.rows, LineOf(w.rows[h]), Some(h))) else m
  }

  lemma ReceiptKeeps(w: World, h: nat, o: Attempt)
    requires Sound(w) && Best(w.rows, h) && w.rows[h].day + 2 <= w.clock
    requires LineOf(w.rows[h]) in w.entries && w.entries[LineOf(w.rows[h])] == Entry(h, w.rows[h].score)
    ensures Sound(AfterMark(w, h, o))
  {
    var line := LineOf(w.rows[h]);
    if o.mark.Crash? {
      LostCallKeeps(w, h);
    } else if o.mark.Lost? {
      LossKeeps(w, h);
      RecordKeeps(w.(lost := Bump(w.lost, h)), h, o);
    } else {
      MarkKeeps(w, h);
      var m := w.(rows := SetStatus(w.rows, h, Attested), receipts := w.receipts[h := w.entries[line]],
                  calls := Bump(w.calls, h));
      LossKeeps(m, h);
      OthersRetired(m, h, line);
      OthersRetired(m.(lost := Bump(m.lost, h)), h, line);
    }
  }

  lemma OthersRetired(m: World, h: nat, line: Line)
    requires Sound(m) && h in m.rows && m.rows[h].status.Attested? && line == LineOf(m.rows[h])
    ensures Sound(m.(rows := Superseded(m.rows, line, Some(h))))
  {
    AttestedCovers(m, h);
    SupersedeKeeps(m, line, Some(h));
  }

  /** Everything about the attempt goes well. */
  predicate Smooth(o: Attempt) {
    o.net.Answered? && o.readable && o.mark.Done? && o.resolve.Done?
  }

  ghost predicate Drained(rows: Runs, line: Line) {
    forall g | g in rows :: rows[g].daily && LineOf(rows[g]) == line ==> !rows[g].status.Verified?
  }

  lemma YieldDrains(w: World, h: nat, o: Attempt)
    requires h in w.rows
    ensures Smooth(o) ==> Drained(AfterYield(w, h, o).rows, LineOf(w.rows[h]))
  {
  }

  lemma MarkDrains(w: World, h: nat, o: Attempt)
    requires h in w.rows && LineOf(w.rows[h]) in w.entries
    ensures Smooth(o) ==> Drained(AfterMark(w, h, o).rows, LineOf(w.rows[h]))
    ensures OnlyLine(w.rows, AfterMark(w, h, o).rows, LineOf(w.rows[h]))
  {
    MarkTouchesLine(w, h, o);
  }

  lemma MarkTouchesLine(w: World, h: nat, o: Attempt)
    requires h in w.rows && LineOf(w.rows[h]) in w.entries
    ensures OnlyLine(w.rows, AfterMark(w, h, o).rows, LineOf(w.rows[h]))
  {
    var line := LineOf(w.rows[h]);
    var marked := SetStatus(w.rows, h, Attested);
    if o.mark.Lost? {
      RecordTouchesLine(w.(lost := Bump(w.lost, h)), h, o);
    } else if !o.mark.Crash? {
      SupersedeTouchesLine(marked, line, Some(h));
      OnlyLineThrough(w.rows, marked, Superseded(marked, line, Some(h)), line);
    }
  }

  lemma SupersedeTouchesLine(rows: Runs, line: Line, keep: Option<nat>)
    ensures OnlyLine(rows, Superseded(rows, line, keep), line)
  {
  }

  lemma OnlyLineThrough(a: Runs, b: Runs, c: Runs, line: Line)
    requires OnlyLine(a, b, line) && OnlyLine(b, c, line)
    ensures OnlyLine(a, c, line)
  {
    forall g | g in a ensures Kept(a[g], c[g]) && (LineOf(a[g]) != line ==> c[g] == a[g]) {
      assert Kept(a[g], b[g]) && Kept(b[g], c[g]);
    }
  }

  lemma RecordTouchesLine(w: World, h: nat, o: Attempt)
    requires h in w.rows
    ensures OnlyLine(w.rows, AfterRecord(w, h, o).rows, LineOf(w.rows[h]))
  {
  }

  // ----- one attempt as a whole

  predicate Foreign(bound: map<nat, nat>, h: nat, r: Run) {
    h in bound && bound[h] != r.addr
  }

  predicate Improves(entries: map<Line, Entry>, r: Run) {
    LineOf(r) !in entries || entries[LineOf(r)].score < r.score
  }

  /** The realm's answer to a run, as far as it gets through. */
  function AnswerTo(entries: map<Line, Entry>, bound: map<nat, nat>, h: nat, r: Run, net: Net): (a: Answer)
    ensures a.AlreadyOnChain? ==> LineOf(r) in entries && entries[LineOf(r)].score >= r.score
  {
    if net.NotSent? || net.Unanswered? then Transient
    else if net.Misshapen? then PermanentReject
    else if Foreign(bound, h, r) then BoundElsewhere
    else if !Improves(entries, r) then AlreadyOnChain
    else Sent
  }

  /** The broadcast reaches the realm and is taken, whether or not its answer comes back. */
  predicate Taken(entries: map<Line, Entry>, bound: map<nat, nat>, h: nat, r: Run, net: Net) {
    (net.Unanswered? || net.Answered?) && !Foreign(bound, h, r) && Improves(entries, r)
  }

  /** What an attempt learns: the realm holds the run's entry, or a better one, or will never take it; or nothing. */
  datatype Verdict = Receipt | Better | Refusal | Unknown

  /** Reading back an entry that the run does not improve. */
  function ReadBack(e: Entry, h: nat, r: Run, o: Attempt): Verdict {
    if !o.readable then Unknown else if e == Entry(h, r.score) then Receipt else Better
  }

  function VerdictOn(w: World, h: nat, o: Attempt): (v: Verdict)
    requires h in w.rows
  {
    match AnswerTo(w.entries, w.bound, h, w.rows[h], o.net)
    case Sent => Receipt
    case AlreadyOnChain => ReadBack(w.entries[LineOf(w.rows[h])], h, w.rows[h], o)
    case BoundElsewhere | PermanentReject => Refusal
    case Transient => Unknown
  }

  /**
   What the cycle makes of a broadcast: the run is refused if its shape is wrong or its log is another address's; it
   is attested if the realm took it now, or has exactly its entry; it yields to another entry that is as good; and
   whatever does not come back counts as a failure.
   */
  lemma VerdictMeans(w: World, h: nat, o: Attempt)
    requires h in w.rows
    ensures var r, line := w.rows[h], LineOf(w.rows[h]);
      var foreign := h in w.bound && w.bound[h] != r.addr;
      var held := line in w.entries && w.entries[line].score >= r.score;
      && (VerdictOn(w, h, o) == Refusal <==> o.net.Misshapen? || (o.net.Answered? && foreign))
      && (VerdictOn(w, h, o) == Receipt <==>
            o.net.Answered? && !foreign && (held ==> o.readable && w.entries[line] == Entry(h, r.score)))
      && (VerdictOn(w, h, o) == Better <==>
            o.net.Answered? && !foreign && held && o.readable && w.entries[line] != Entry(h, r.score))
      && (VerdictOn(w, h, o) == Unknown <==>
            o.net.NotSent? || o.net.Unanswered? || (o.net.Answered? && !foreign && held && !o.readable))
  {
  }

  /** A failure is counted, and the eighth parks the run. */
  lemma FailureCounted(w: World, h: nat, o: Attempt)
    requires h in w.rows && w.rows[h].status.Verified?
    ensures var r, r' := w.rows[h], AfterRecord(w, h, o).rows[h];
      && r'.failures == r.failures + (if Applied(o.count) then 1 else 0)
      && (r'.status.Errored? <==> o.count.Done? && r.failures + 1 >= 8 && Applied(o.park))
      && (!r'.status.Errored? ==> r'.status.Verified?)
  {
  }

  /** The realm after the broadcast. */
  function Broadcast(w: World, h: nat, net: Net): World
    requires h in w.rows
  {
    if Taken(w.entries, w.bound, h, w.rows[h], net)
    then w.(entries := w.entries[LineOf(w.rows[h]) := Entry(h, w.rows[h].score)], bound := w.bound[h := w.rows[h].addr])
    else w
  }

  lemma BroadcastKeeps(w: World, h: nat, net: Net)
    requires Sound(w) && h in w.rows
    ensures Sound(Broadcast(w, h, net))
  {
    if Improves(w.entries, w.rows[h]) {
      ImproveKeeps(w, LineOf(w.rows[h]), Entry(h, w.rows[h].score), Broadcast(w, h, net).bound, w.foreign);
    }
  }

  // ----- whose entry the realm holds

  function EntryOf(entries: map<Line, Entry>, line: Line): Option<Entry> {
    if line in entries then Some(entries[line]) else None
  }

  /** The work list holds one run per address. */
  lemma OneBestPerLine(rows: Runs, h: nat, g: nat)
    requires Best(rows, h) && Best(rows, g) && h != g
    ensures LineOf(rows[h]) != LineOf(rows[g])
  {
    assert !Beaten(h, rows[h], g, rows[g]) && !Beaten(g, rows[g], h, rows[h]);
  }

  /** An entry that did not come from elsewhere is that of a daily run of its line. */
  predicate EntryKnown(w: World, l: Line) {
    l in w.entries ==>
      var e := w.entries[l];
      e.hash in w.foreign
      || (e.hash in w.rows && w.rows[e.hash].daily && LineOf(w.rows[e.hash]) == l && e.score == w.rows[e.hash].score)
  }

  /** The realm's line holds the run's own entry, which did not come from elsewhere. */
  predicate Landed(w: World, h: nat) {
    && h in w.rows && h !in w.foreign
    && EntryOf(w.entries, LineOf(w.rows[h])) == Some(Entry(h, w.rows[h].score))
  }

  /** A pending run that landed is still the best of its line, and its day is closed. */
  ghost predicate OwnerBest(w: World, h: nat) {
    Landed(w, h) && w.rows[h].status.Verified? ==> Best(w.rows, h) && w.rows[h].day + 2 <= w.clock
  }

  /** A run that landed is not skipped, unless the realm rejected it before. */
  predicate SkippedApart(w: World, h: nat) {
    Landed(w, h) && w.rows[h].status.Skipped? ==> h in w.refused
  }

  ghost predicate Rightful(w: World) {
    && (forall l: Line :: EntryKnown(w, l))
    && (forall h: nat :: OwnerBest(w, h))
    && (forall h: nat :: SkippedApart(w, h))
  }

  ghost predicate Sane(w: World) {
    Sound(w) && Rightful(w)
  }

  /** Nothing becomes pending, and whatever is newly skipped was rejected or has not landed. */
  predicate Retires(w: World, w': World, g: nat) {
    g in w.rows && g in w'.rows ==> RetiresRow(w.rows[g], w'.rows[g], g in w'.refused || !Landed(w, g))
  }

  predicate RetiresRow(a: Run, b: Run, excused: bool) {
    && Kept(a, b) && (b.status.Verified? ==> a.status.Verified?)
    && (b.status.Skipped? && !a.status.Skipped? ==> excused)
  }

  lemma SupersedeRetires(rows: Runs, line: Line, keep: Option<nat>, g: nat)
    requires g in rows
    ensures RetiresRow(rows[g], Superseded(rows, line, keep)[g], LineOf(rows[g]) == line && keep != Some(g))
  {
  }

  /** Writes on the line of a best run keep every line rightful. */
  lemma LineRightful(w: World, w': World, h: nat)
    requires Rightful(w) && Best(w.rows, h) && OnlyLine(w.rows, w'.rows, LineOf(w.rows[h]))
    requires w'.entries == w.entries && w'.foreign == w.foreign && w'.clock == w.clock && w.refused <= w'.refused
    requires w'.rows[h].status.Verified? ==> Best(w'.rows, h)
    requires forall g: nat :: Retires(w, w', g)
    ensures Rightful(w')
  {
    forall l: Line ensures EntryKnown(w', l) {
      assert EntryKnown(w, l);
    }
    forall g: nat ensures OwnerBest(w', g) && SkippedApart(w', g) {
      assert OwnerBest(w, g) && SkippedApart(w, g) && Retires(w, w', g);
      if Landed(w', g) && w'.rows[g].status.Verified? && g != h {
        OneBestPerLine(w.rows, g, h);
        BestElsewhere(w.rows, w'.rows, LineOf(w.rows[h]), g);
      }
    }
  }

  lemma BestCounted(rows: Runs, h: nat)
    requires Best(rows, h)
    ensures Best(Counted(rows, h), h)
  {
    var rows' := Counted(rows, h);
    forall g | g in rows' ensures !Blocked(rows'[h], rows'[g]) && !Beaten(h, rows'[h], g, rows'[g]) {
      assert !Blocked(rows[h], rows[g]) && !Beaten(h, rows[h], g, rows[g]);
    }
  }

  lemma RecordRightful(w: World, h: nat, o: Attempt)
    requires Rightful(w) && Best(w.rows, h)
    ensures Rightful(AfterRecord(w, h, o))
  {
    BestCounted(w.rows, h);
    RecordTouchesLine(w, h, o);
    LineRightful(w, AfterRecord(w, h, o), h);
  }

  lemma SkipRightful(w: World, h: nat, o: Attempt)
    requires Rightful(w) && Best(w.rows, h)
    ensures Rightful(AfterSkip(w, h, o))
  {
    LineRightful(w, AfterSkip(w, h, o), h);
  }

  /** A run that yields to another's entry takes no run with it that landed. */
  lemma YieldRightful(w: World, h: nat, o: Attempt)
    requires Rightful(w) && Best(w.rows, h)
    requires EntryOf(w.entries, LineOf(w.rows[h])) != Some(Entry(h, w.rows[h].score))
    ensures Rightful(AfterYield(w, h, o))
  {
    var w' := AfterYield(w, h, o);
    SupersedeTouchesLine(w.rows, LineOf(w.rows[h]), None);
    forall g: nat ensures Retires(w, w', g) {
      YieldRetires(w, h, o, g);
    }
    assert w'.rows[h].status.Verified? ==> w'.rows == w.rows;
    LineRightful(w, w', h);
  }

  lemma YieldRetires(w: World, h: nat, o: Attempt, g: nat)
    requires OwnerBest(w, g) && Best(w.rows, h)
    requires EntryOf(w.entries, LineOf(w.rows[h])) != Some(Entry(h, w.rows[h].score))
    ensures Retires(w, AfterYield(w, h, o), g)
  {
    if Landed(w, g) && w.rows[g].status.Verified? { NotRival(w, h, g); }
  }

  lemma NotRival(w: World, h: nat, g: nat)
    requires Best(w.rows, h) && Best(w.rows, g) && Landed(w, g)
    requires EntryOf(w.entries, LineOf(w.rows[h])) != Some(Entry(h, w.rows[h].score))
    ensures LineOf(w.rows[g]) != LineOf(w.rows[h])
  {
    if g != h { OneBestPerLine(w.rows, g, h); }
  }

  lemma MarkRightful(w: World, h: nat, o: Attempt)
    requires Rightful(w) && Best(w.rows, h)
    requires EntryOf(w.entries, LineOf(w.rows[h])) == Some(Entry(h, w.rows[h].score))
    ensures Rightful(AfterMark(w, h, o))
  {
    if o.mark.Lost? {
      var w' := w.(lost := Bump(w.lost, h));
      SameRights(w, w');
      RecordRightful(w', h, o);
    } else {
      MarkedRightful(w, h, o);
    }
  }

  lemma MarkedRightful(w: World, h: nat, o: Attempt)
    requires Rightful(w) && Best(w.rows, h) && !o.mark.Lost?
    requires EntryOf(w.entries, LineOf(w.rows[h])) == Some(Entry(h, w.rows[h].score))
    ensures Rightful(AfterMark(w, h, o))
  {
    var w' := AfterMark(w, h, o);
    MarkTouchesLine(w, h, o);
    forall g: nat ensures Retires(w, w', g) {
      MarkRetires(w, h, o, g);
    }
    assert w'.rows[h].status.Verified? ==> w'.rows == w.rows;
    LineRightful(w, w', h);
  }

  lemma MarkRetires(w: World, h: nat, o: Attempt, g: nat)
    requires h in w.rows && !o.mark.Lost?
    requires EntryOf(w.entries, LineOf(w.rows[h])) == Some(Entry(h, w.rows[h].score))
    ensures Retires(w, AfterMark(w, h, o), g)
  {
    if g in w.rows {
      SupersedeRetires(SetStatus(w.rows, h, Attested), LineOf(w.rows[h]), Some(h), g);
    }
  }

  lemma SameRights(w: World, w': World)
    requires Rightful(w) && w'.rows == w.rows && w'.entries == w.entries && w'.foreign == w.foreign
    requires w'.refused == w.refused && w.clock <= w'.clock
    ensures Rightful(w')
  {
    forall l: Line ensures EntryKnown(w', l) {
      assert EntryKnown(w, l);
    }
    forall g: nat ensures OwnerBest(w', g) && SkippedApart(w', g) {
      assert OwnerBest(w, g) && SkippedApart(w, g);
    }
  }

  lemma BroadcastRightful(w: World, h: nat, net: Net)
    requires Rightful(w) && Best(w.rows, h) && w.rows[h].day + 2 <= w.clock
    ensures Rightful(Broadcast(w, h, net))
  {
    var b := Broadcast(w, h, net);
    forall l: Line ensures EntryKnown(b, l) {
      assert EntryKnown(w, l);
    }
    forall g: nat ensures OwnerBest(b, g) && SkippedApart(b, g) {
      assert OwnerBest(w, g) && SkippedApart(w, g);
    }
  }

  /** An entry from elsewhere. */
  function FromElsewhere(w: World, line: Line, e: Entry): World {
    w.(entries := w.entries[line := e], foreign := w.foreign + {e.hash})
  }

  /** A better entry from elsewhere. */
  lemma ForeignRightful(w: World, line: Line, e: Entry)
    requires Rightful(w)
    ensures Rightful(FromElsewhere(w, line, e))
  {
    var w' := FromElsewhere(w, line, e);
    forall l: Line ensures EntryKnown(w', l) {
      assert EntryKnown(w, l);
    }
    forall g: nat ensures OwnerBest(w', g) && SkippedApart(w', g) {
      assert OwnerBest(w, g) && SkippedApart(w, g);
    }
  }

  /** A new submission is for an open day, and no entry of its own is there that did not come from elsewhere. */
  lemma InsertRightful(w: World, h: nat, r: Run, today: int)
    requires Rightful(w) && h !in w.rows && r.status.Verified? && w.clock <= today
    requires r.daily ==> r.day == today || r.day == today - 1
    ensures Rightful(w.(rows := w.rows[h := r], clock := today))
  {
    var w' := w.(rows := w.rows[h := r], clock := today);
    forall l: Line ensures EntryKnown(w', l) {
      assert EntryKnown(w, l);
    }
    forall g: nat ensures OwnerBest(w', g) && SkippedApart(w', g) {
      assert OwnerBest(w, g) && SkippedApart(w, g) && EntryKnown(w, LineOf(r));
      if g != h && OwnerBest(w, g) && Landed(w, g) && w.rows[g].status.Verified? {
        BestAmongMore(w.rows, h, r, g);
      }
    }
  }

  lemma BestAmongMore(rows: Runs, h: nat, r: Run, g: nat)
    requires Best(rows, g) && h !in rows && (r.daily ==> r.day != rows[g].day)
    ensures Best(rows[h := r], g)
  {
    var rows' := rows[h := r];
    forall k | k in rows' ensures !Blocked(rows'[g], rows'[k]) && !Beaten(g, rows'[g], k, rows'[k]) {
      if k != h { assert !Blocked(rows[g], rows[k]) && !Beaten(g, rows[g], k, rows[k]); }
    }
  }

  // ----- what an attempt leaves in the books

  /** The store writes of an attempt that did not go well. */
  function FailedWrites(v: Verdict, r: Run, o: Attempt): nat {
    var unrecorded := if RecordedOk(r, o) then 0 else 1;
    match v
    case Unknown => unrecorded
    case Refusal => if o.skip.Done? then 0 else 1
    case Better => if o.resolve.Done? then 0 else 1
    case Receipt =>
      match o.mark {
        case Done => if o.resolve.Done? then 0 else 1
        case Lost => 1 + unrecorded
        case Unsure | Crash => 1
      }
  }

  /** How an attempt ended: with a receipt, without one, or by ending the cycle. */
  datatype Outcome = Marked | Unmarked | Stopped(marked: bool)

  /** A write that fails ends the cycle, except for a lost mark whose failure is recorded. */
  function Ending(v: Verdict, r: Run, o: Attempt): Outcome {
    var recorded := if RecordedOk(r, o) then Unmarked else Stopped(false);
    match v
    case Unknown => recorded
    case Refusal => if o.skip.Done? then Unmarked else Stopped(false)
    case Better => if o.resolve.Done? then Unmarked else Stopped(false)
    case Receipt =>
      match o.mark {
        case Done => if o.resolve.Done? then Marked else Stopped(true)
        case Lost => recorded
        case Unsure | Crash => Stopped(false)
      }
  }

  /** No store write about the run fails. */
  predicate AllDone(o: Attempt) {
    o.mark.Done? && o.count.Done? && o.park.Done? && o.skip.Done? && o.resolve.Done?
  }

  /**
   The attempt `o` at `h` between two states: one broadcast, and as many failed writes as the realm's answer
   and the store account for. The run is refused only if the realm said so, and attested only if the realm
   holds its entry, which is the receipt.
   */
  predicate Attempted(w: World, w': World, h: nat, o: Attempt) {
    && h in w.rows && h in w'.rows
    && var r, v := w.rows[h], VerdictOn(w, h, o);
    && Get(w'.calls, h) == Get(w.calls, h) + 1
    && Get(w'.lost, h) == Get(w.lost, h) + FailedWrites(v, r, o)
    && (h in w'.refused <==> h in w.refused || (v.Refusal? && Applied(o.skip)))
    && (w'.rows[h].status.Attested? <==> v.Receipt? && Applied(o.mark))
    && (v.Receipt? ==> EntryOf(w'.entries, LineOf(r)) == Some(Entry(h, r.score)))
    && (if v.Receipt? && Applied(o.mark) then h in w'.receipts && w'.receipts[h] == Entry(h, r.score)
        else h in w'.receipts <==> h in w.receipts)
  }

  /** The writes after a broadcast of `h`: `failed` of them did, and the run was refused or attested. */
  predicate Wrote(w: World, w': World, h: nat, failed: nat, refused: bool, attested: bool) {
    && h in w.rows && h in w'.rows && w'.entries == w.entries && w'.bound == w.bound
    && Get(w'.calls, h) == Get(w.calls, h) + 1 && Get(w'.lost, h) == Get(w.lost, h) + failed
    && (h in w'.refused <==> h in w.refused || refused)
    && (w'.rows[h].status.Attested? <==> attested)
    && (if attested then h in w'.receipts && w'.receipts[h] == Entry(h, w.rows[h].score)
        else h in w'.receipts <==> h in w.receipts)
  }

  /** Nothing was sent or written about `g`. */
  predicate Untouched(w: World, w': World, g: nat) {
    && Get(w'.calls, g) == Get(w.calls, g) && Get(w'.lost, g) == Get(w.lost, g)
    && (g in w'.refused <==> g in w.refused)
    && (g in w'.receipts <==> g in w.receipts) && (g in w.receipts ==> w'.receipts[g] == w.receipts[g])
    && (g in w'.bound <==> g in w.bound) && (g in w.bound ==> w'.bound[g] == w.bound[g])
    && (g in w.rows && g in w'.rows ==> (w'.rows[g].status.Attested? <==> w.rows[g].status.Attested?))
  }

  ghost predicate Alone(w: World, w': World, h: nat) {
    forall g: nat :: g != h ==> Untouched(w, w', g)
  }

  lemma RecordWrote(w: World, h: nat, o: Attempt)
    requires h in w.rows && w.rows[h].status.Verified?
    ensures Wrote(w, AfterRecord(w, h, o), h, FailedWrites(Unknown, w.rows[h], o), false, false)
    ensures Alone(w, AfterRecord(w, h, o), h)
  {
  }

  lemma SkipWrote(w: World, h: nat, o: Attempt)
    requires h in w.rows && w.rows[h].status.Verified?
    ensures Wrote(w, AfterSkip(w, h, o), h, FailedWrites(Refusal, w.rows[h], o), Applied(o.skip), false)
    ensures Alone(w, AfterSkip(w, h, o), h)
  {
  }

  lemma YieldWrote(w: World, h: nat, o: Attempt)
    requires h in w.rows && w.rows[h].status.Verified?
    ensures Wrote(w, AfterYield(w, h, o), h, FailedWrites(Better, w.rows[h], o), false, false)
    ensures Alone(w, AfterYield(w, h, o), h)
  {
    YieldAlone(w, h, o);
  }

  lemma YieldAlone(w: World, h: nat, o: Attempt)
    requires h in w.rows
    ensures Alone(w, AfterYield(w, h, o), h)
  {
  }

  lemma MarkWrote(w: World, h: nat, o: Attempt)
    requires h in w.rows && w.rows[h].status.Verified?
    requires EntryOf(w.entries, LineOf(w.rows[h])) == Some(Entry(h, w.rows[h].score))
    ensures Wrote(w, AfterMark(w, h, o), h, FailedWrites(Receipt, w.rows[h], o), false, Applied(o.mark))
    ensures Alone(w, AfterMark(w, h, o), h)
  {
    if o.mark.Lost? {
      MarkLostWrote(w, h, o);
    } else {
      if Applied(o.mark) { MarkMadeWrote(w, h, o); }
      MarkAlone(w, h, o);
    }
  }

  /** The mark takes effect. */
  lemma MarkMadeWrote(w: World, h: nat, o: Attempt)
    requires h in w.rows && w.rows[h].status.Verified? && Applied(o.mark)
    requires EntryOf(w.entries, LineOf(w.rows[h])) == Some(Entry(h, w.rows[h].score))
    ensures Wrote(w, AfterMark(w, h, o), h, FailedWrites(Receipt, w.rows[h], o), false, true)
  {
  }

  /** The mark is lost: the failure is recorded, on top of one write that failed. */
  lemma MarkLostWrote(w: World, h: nat, o: Attempt)
    requires h in w.rows && w.rows[h].status.Verified? && LineOf(w.rows[h]) in w.entries && o.mark.Lost?
    ensures Wrote(w, AfterMark(w, h, o), h, FailedWrites(Receipt, w.rows[h], o), false, false)
    ensures Alone(w, AfterMark(w, h, o), h)
  {
    var w' := w.(lost := Bump(w.lost, h));
    RecordWrote(w', h, o);
    forall g: nat | g != h ensures Untouched(w, AfterMark(w, h, o), g) {
      assert Untouched(w', AfterRecord(w', h, o), g);
    }
  }

  lemma MarkAlone(w: World, h: nat, o: Attempt)
    requires h in w.rows && LineOf(w.rows[h]) in w.entries && !o.mark.Lost?
    ensures Alone(w, AfterMark(w, h, o), h)
  {
    var w' := AfterMark(w, h, o);
    forall g: nat | g != h ensures Untouched(w, w', g) {
      MarkTouchesOne(w, h, o, g);
    }
  }

  lemma MarkTouchesOne(w: World, h: nat, o: Attempt, g: nat)
    requires h in w.rows && LineOf(w.rows[h]) in w.entries && !o.mark.Lost? && g != h
    ensures Untouched(w, AfterMark(w, h, o), g)
  {
  }

  /** The writes on one line that the verdict `v` calls for; the state stays sound. */
  ghost predicate Booked(w: World, w': World, h: nat, o: Attempt, v: Verdict) {
    && h in w.rows && Sane(w') && w'.clock == w.clock && OnlyLine(w.rows, w'.rows, LineOf(w.rows[h]))
    && Alone(w, w', h)
    && Wrote(w, w', h, FailedWrites(v, w.rows[h], o), v.Refusal? && Applied(o.skip), v.Receipt? && Applied(o.mark))
  }

  lemma RecordBooked(w: World, h: nat, o: Attempt)
    requires Sane(w) && Best(w.rows, h)
    ensures Booked(w, AfterRecord(w, h, o), h, o, Unknown)
  {
    RecordRightful(w, h, o);
    RecordKeeps(w, h, o);
    RecordTouchesLine(w, h, o);
    RecordWrote(w, h, o);
  }

  lemma SkipBooked(w: World, h: nat, o: Attempt)
    requires Sane(w) && Best(w.rows, h)
    ensures Booked(w, AfterSkip(w, h, o), h, o, Refusal)
  {
    SkipRightful(w, h, o);
    RefusalKeeps(w, h, o);
    SkipWrote(w, h, o);
  }

  lemma YieldBooked(w: World, h: nat, o: Attempt)
    requires Sane(w) && Best(w.rows, h)
    requires LineOf(w.rows[h]) in w.entries && w.entries[LineOf(w.rows[h])].score >= w.rows[h].score
    requires w.entries[LineOf(w.rows[h])] != Entry(h, w.rows[h].score)
    ensures Booked(w, AfterYield(w, h, o), h, o, Better)
    ensures Smooth(o) ==> Drained(AfterYield(w, h, o).rows, LineOf(w.rows[h]))
  {
    YieldRightful(w, h, o);
    YieldKeeps(w, h, o);
    YieldWrote(w, h, o);
    YieldDrains(w, h, o);
  }

  lemma MarkBooked(w: World, h: nat, o: Attempt)
    requires Sane(w) && Best(w.rows, h) && w.rows[h].day + 2 <= w.clock
    requires EntryOf(w.entries, LineOf(w.rows[h])) == Some(Entry(h, w.rows[h].score))
    ensures Booked(w, AfterMark(w, h, o), h, o, Receipt)
    ensures Smooth(o) ==> Drained(AfterMark(w, h, o).rows, LineOf(w.rows[h]))
  {
    MarkRightful(w, h, o);
    ReceiptKeeps(w, h, o);
    MarkWrote(w, h, o);
    MarkDrains(w, h, o);
  }

  /** Everything an attempt did: to its run, to the other runs, and to the realm. */
  ghost predicate Accounted(w: World, w': World, h: nat, o: Attempt) {
    && Attempted(w, w', h, o) && Alone(w, w', h)
    && forall l: Line :: l != LineOf(w.rows[h]) ==> EntryOf(w'.entries, l) == EntryOf(w.entries, l)
  }

  lemma Reported(w: World, w': World, h: nat, o: Attempt)
    requires h in w.rows && Booked(Broadcast(w, h, o.net), w', h, o, VerdictOn(w, h, o))
    ensures Accounted(w, w', h, o)
  {
    BroadcastAlone(w, h, o.net);
    forall g: nat | g != h ensures Untouched(w, w', g) {
      assert Untouched(Broadcast(w, h, o.net), w', g);
    }
  }

  lemma BroadcastAlone(w: World, h: nat, net: Net)
    requires h in w.rows
    ensures var b := Broadcast(w, h, net);
      b == w.(entries := b.entries, bound := b.bound) && Alone(w, b, h)
      && forall l: Line :: l != LineOf(w.rows[h]) ==> EntryOf(b.entries, l) == EntryOf(w.entries, l)
  {
  }

  ghost predicate OnlyBoard(rows: Runs, rows': Runs, board: Board) {
    && rows'.Keys == rows.Keys
    && forall g | g in rows :: Kept(rows[g], rows'[g]) && (BoardOf(rows[g]) != board ==> rows'[g] == rows[g])
  }

  // ----- what a sound state promises

  /** Each run is broadcast at most eight times plus once per failed store write. */
  lemma BroadcastsBounded(w: World, h: nat)
    requires Sound(w)
    ensures Get(w.calls, h) <= MAX_RETRIES + Get(w.lost, h)
  {
    assert WithinBudget(w, h);
  }

  /**
   An attested run was the realm's own entry when it was marked: the same log and score. The realm holds
   it still, or a better one, and its day was closed.
   */
  lemma AttestedByReceipt(w: World, h: nat)
    requires Sound(w) && h in w.rows && w.rows[h].status.Attested?
    ensures h in w.receipts && w.receipts[h] == Entry(h, w.rows[h].score)
    ensures OnChain(w.entries, h, w.rows[h])
    ensures w.rows[h].daily && w.rows[h].day + 2 <= w.clock
  {
    assert AttestedSound(w, h);
  }

  /** A retired run was refused by the realm itself, or its line holds an entry at least as good. */
  lemma RetiredForReason(w: World, h: nat)
    requires Sound(w) && h in w.rows && w.rows[h].status.Skipped? && h !in w.refused
    ensures LineOf(w.rows[h]) in w.entries && w.entries[LineOf(w.rows[h])].score >= w.rows[h].score
  {
    assert SkippedSound(w, h);
  }

  /**
   A run that the realm took, and still holds, is not retired, unless the realm rejected it before or got its
   entry from elsewhere.
   */
  lemma LandedNotSkipped(w: World, h: nat)
    requires Sane(w) && h in w.rows && w.rows[h].status.Skipped? && h !in w.refused && h !in w.foreign
    ensures LineOf(w.rows[h]) in w.entries && w.entries[LineOf(w.rows[h])].score >= w.rows[h].score
    ensures w.entries[LineOf(w.rows[h])].hash != h
  {
    assert SkippedSound(w, h) && SkippedApart(w, h) && EntryKnown(w, LineOf(w.rows[h]));
  }

  /** It happens with an entry from elsewhere: run 1 yields to the entry of run 2, which is retired with it. */
  lemma ForeignRunSkipped()
    ensures var r := Run(9, 0, 0, true, 50, 1, Verified, 0);
      var w := World(map[1 := r, 2 := r.(created := 2)], map[LineOf(r) := Entry(2, 50)], map[], map[], {}, map[], map[],
                     2, {2});
      var o := Attempt(false, Answered, true, Done, Done, Done, Done, Done);
      Sane(w) && Best(w.rows, 1) && VerdictOn(w, 1, o) == Better && AfterYield(w, 1, o).rows[2].status.Skipped?
  {
    var r := Run(9, 0, 0, true, 50, 1, Verified, 0);
    var w := World(map[1 := r, 2 := r.(created := 2)], map[LineOf(r) := Entry(2, 50)], map[], map[], {}, map[], map[],
                   2, {2});
    assert forall g | g in w.rows :: g == 1 || g == 2;
    assert forall h :: WithinBudget(w, h) && AttestedSound(w, h) && SkippedSound(w, h);
  }

  /** At most one run of a line is ever attested, and no run of the line that is still pending or parked scores more. */
  lemma OneAttestedPerLine(w: World, h: nat, g: nat)
    requires Sound(w) && h in w.rows && g in w.rows && h != g && Rivals(w.rows[h], w.rows[g])
    requires w.rows[h].status.Attested?
    ensures !w.rows[g].status.Attested?
    ensures !w.rows[g].status.Skipped? ==> w.rows[g].score <= w.rows[h].score
    ensures w.rows[g].status.Skipped? && g !in w.refused ==>
      LineOf(w.rows[h]) in w.entries && w.rows[g].score <= w.entries[LineOf(w.rows[h])].score
  {
    assert Dominates(h, w.rows[h], g, w.rows[g]);
    assert AttestedSound(w, h) && SkippedSound(w, g);
  }
}
