/**
 The tables of the block tailer, what a cycle does to them, and when they are right.

 The chain is fixed within a cycle and may be reorganized between cycles. RPC
 failures, database failures and a stop at any point are choices of `Env`.
 */
module IndexerTables {
  import opened Wrappers

  type Realm = nat
  type Hash = nat

  const MAX_BLOCKS_PER_CYCLE: int := 500

  /** Where an event stands in its block: unique, as the transaction and event indexes are. */
  datatype Pos = Pos(tx: nat, index: nat)

  datatype Event = Event(pos: Pos, realm: Realm, data: nat)

  datatype Block = Block(hash: Hash, events: seq<Event>)

  datatype Key = Key(height: int, pos: Pos)

  datatype Row = Row(realm: Realm, data: nat, hash: Hash)

  /** A realm's stored state; a seeded or missing row has no hash. */
  datatype Cursor = Cursor(height: int, hash: Option<Hash>)

  /** How far the writes for one event got: all, all but with an error reported, the raw row alone, none. */
  datatype Dispatch = Projected | Unsure | RawOnly | Nothing

  /** Which events of a watched realm are sales; the data holds the event's type and attributes. */
  type Sales = (Realm, nat) -> bool

  datatype Env = Env(latest: Option<int>, checked: bool, rolledBack: bool,
                     fetched: int -> bool, dispatched: (int, nat) -> Dispatch, saved: int -> nat)

  type Chain = seq<Block>
  type Ledger = map<Key, Row>

  predicate WellFormed(chain: Chain) {
    forall h, i, j | 0 <= h < |chain| && 0 <= i < j < |chain[h].events| ::
      chain[h].events[i].pos != chain[h].events[j].pos
  }

  /** The ledger row of a watched event of the chain. */
  ghost predicate IsRow(chain: Chain, watched: set<Realm>, k: Key, row: Row) {
    && 0 <= k.height < |chain|
    && exists i | 0 <= i < |chain[k.height].events| ::
         var e := chain[k.height].events[i];
         e.pos == k.pos && e.realm in watched && row == Row(e.realm, e.data, chain[k.height].hash)
  }

  /** The ledger holds the watched events of block `h`. */
  ghost predicate Complete(raw: Ledger, chain: Chain, watched: set<Realm>, h: int) {
    0 <= h < |chain| ==>
      forall i | 0 <= i < |chain[h].events| && chain[h].events[i].realm in watched ::
        var e := chain[h].events[i];
        Key(h, e.pos) in raw && raw[Key(h, e.pos)] == Row(e.realm, e.data, chain[h].hash)
  }

  /** Between the heights the ledger is exactly the watched events of the chain. */
  ghost predicate Exact(raw: Ledger, chain: Chain, watched: set<Realm>, lo: int, hi: int) {
    && (forall k <- raw | lo <= k.height <= hi :: IsRow(chain, watched, k, raw[k]))
    && (forall h | lo <= h <= hi :: Complete(raw, chain, watched, h))
  }

  /** From the height on, the ledger has no row that is not the chain's. */
  ghost predicate Faithful(raw: Ledger, chain: Chain, watched: set<Realm>, lo: int) {
    forall k <- raw | lo <= k.height :: IsRow(chain, watched, k, raw[k])
  }

  predicate IsSale(sells: Sales, row: Row) {
    sells(row.realm, row.data)
  }

  predicate Matches(chain: Chain, c: Cursor) {
    c.hash == None || (0 <= c.height < |chain| && chain[c.height].hash == c.hash.value)
  }

  /**
   The ledger is right up to the cursor and ahead of it, or the stored hash is
   not the chain's, which the next cycle sees, and the ledger is right below.
   */
  ghost predicate Good(raw: Ledger, chain: Chain, watched: set<Realm>, start: int, c: Cursor) {
    && start - 1 <= c.height && (c.hash == None ==> c.height == start - 1)
    && (forall k <- raw :: start <= k.height)
    && if Matches(chain, c)
       then Exact(raw, chain, watched, start, c.height) && Faithful(raw, chain, watched, c.height + 1)
       else Exact(raw, chain, watched, start, c.height - 1)
  }

  /** The highest block that is safe to process this cycle. */
  function ConfirmedEnd(latest: int, confirmations: int, cursor: int, maxPerCycle: int): (end: int)
    requires maxPerCycle >= 0
    ensures cursor <= end <= cursor + maxPerCycle
    ensures end > cursor ==> end <= latest - confirmations || end <= 0
    ensures end >= cursor + maxPerCycle || end >= latest - confirmations
  {
    var safe := if latest - confirmations < 0 then 0 else latest - confirmations;
    var capped := if safe > cursor + maxPerCycle then cursor + maxPerCycle else safe;
    if capped < cursor then cursor else capped
  }

  function StateOf(cursors: map<Realm, Cursor>, start: int, r: Realm): Cursor {
    if r in cursors then cursors[r] else Cursor(start - 1, None)
  }

  /** The first realm, in the configured order, that is furthest behind. */
  predicate IsBehind(cursors: map<Realm, Cursor>, realms: seq<Realm>, start: int, i: nat)
    requires i < |realms|
  {
    var h := StateOf(cursors, start, realms[i]).height;
    && (forall j | 0 <= j < |realms| :: h <= StateOf(cursors, start, realms[j]).height)
    && (forall j | 0 <= j < i :: h < StateOf(cursors, start, realms[j]).height)
  }

  function Behind(cursors: map<Realm, Cursor>, realms: seq<Realm>, start: int): Cursor {
    if |realms| <= 1 then StateOf(cursors, start, if realms == [] then 0 else realms[0])
    else
      var n := |realms| - 1;
      var c, last := Behind(cursors, realms[..n], start), StateOf(cursors, start, realms[n]);
      if last.height < c.height then last else c
  }

  lemma {:induction false} BehindIsBehind(cursors: map<Realm, Cursor>, realms: seq<Realm>, start: int) returns (i: nat)
    requires realms != []
    ensures i < |realms| && IsBehind(cursors, realms, start, i)
    ensures Behind(cursors, realms, start) == StateOf(cursors, start, realms[i])
  {
    if |realms| == 1 {
      i := 0;
    } else {
      var n := |realms| - 1;
      var j := BehindIsBehind(cursors, realms[..n], start);
      assert forall k | 0 <= k < n :: realms[..n][k] == realms[k];
      i := if StateOf(cursors, start, realms[n]).height < StateOf(cursors, start, realms[j]).height then n else j;
    }
  }

  // ----- what a cycle does to the tables

  datatype Settings = Settings(realms: seq<Realm>, watched: set<Realm>, start: int, confirmations: int, sells: Sales)

  /** The cursors, the raw ledger and the sales table; nothing reads the hash of a sales row. */
  datatype Tables = Tables(cursors: map<Realm, Cursor>, raw: Ledger, sold: Ledger)

  /** The tables after a step, and whether the cycle goes on. */
  datatype Progress = Progress(tables: Tables, ok: bool)

  function RowOf(chain: Chain, h: int, i: int): Row
    requires 0 <= h < |chain| && 0 <= i < |chain[h].events|
  {
    Row(chain[h].events[i].realm, chain[h].events[i].data, chain[h].hash)
  }

  /** A row whose key is there already is ignored. */
  function Added(table: Ledger, k: Key, row: Row): Ledger {
    if k in table then table else table[k := row]
  }

  function Dispatched(t: Tables, sells: Sales, chain: Chain, h: int, i: nat, d: Dispatch): Tables
    requires 0 <= h < |chain| && i < |chain[h].events|
  {
    var k, row := Key(h, chain[h].events[i].pos), RowOf(chain, h, i);
    Tables(t.cursors, if d == Nothing then t.raw else Added(t.raw, k, row),
           if (d == Projected || d == Unsure) && IsSale(sells, row) then Added(t.sold, k, row) else t.sold)
  }

  /** The first `n` events of a block, up to the first failure. */
  function Applied(t: Tables, s: Settings, chain: Chain, h: int, env: Env, n: nat): Progress
    requires 0 <= h < |chain| && n <= |chain[h].events|
  {
    if n == 0 then Progress(t, true)
    else
      var p := Applied(t, s, chain, h, env, n - 1);
      if !p.ok || chain[h].events[n - 1].realm !in s.watched then p
      else
        var d := env.dispatched(h, n - 1);
        Progress(Dispatched(p.tables, s.sells, chain, h, n - 1, d), d == Projected)
  }

  /** The cursor written for the first `n` realms. */
  function Written(cursors: map<Realm, Cursor>, realms: seq<Realm>, n: nat, c: Cursor): map<Realm, Cursor>
    requires n <= |realms|
  {
    if n == 0 then cursors else Written(cursors, realms, n - 1, c)[realms[n - 1] := c]
  }

  function BlockTaken(t: Tables, s: Settings, chain: Chain, h: int, env: Env): Progress {
    if !env.fetched(h) || !(0 <= h < |chain|) then Progress(t, false)
    else
      var p := Applied(t, s, chain, h, env, |chain[h].events|);
      if !p.ok then p
      else
        var n := if env.saved(h) < |s.realms| then env.saved(h) else |s.realms|;
        var c := Cursor(h, Some(chain[h].hash));
        Progress(p.tables.(cursors := Written(p.tables.cursors, s.realms, n, c)), n == |s.realms|)
  }

  /** The blocks after `cursor` up to `h`, or as many as it can. */
  function BlocksTaken(t: Tables, s: Settings, chain: Chain, cursor: int, h: int, env: Env): Progress
    requires cursor <= h
    decreases h - cursor
  {
    if h == cursor then Progress(t, true)
    else
      var p := BlocksTaken(t, s, chain, cursor, h - 1, env);
      if p.ok then BlockTaken(p.tables, s, chain, h, env) else p
  }

  function SavedIn(t: Tables, s: Settings): Cursor {
    Behind(t.cursors, s.realms, s.start)
  }

  function Below(table: Ledger, height: int): Ledger {
    map k | k in table && k.height < height :: table[k]
  }

  /** The check of the cursor block. */
  function Rechecked(t: Tables, s: Settings, chain: Chain, env: Env): Progress {
    var c := SavedIn(t, s);
    if c.hash.None? then Progress(t, true)
    else if !env.checked || !(0 <= c.height < |chain|) then Progress(t, false)
    else if chain[c.height].hash == c.hash.value then Progress(t, true)
    else if !env.rolledBack then Progress(t, false)
    else Progress(t.(raw := Below(t.raw, c.height), sold := Below(t.sold, c.height)), true)
  }

  /** One cycle. */
  function Cycled(t: Tables, s: Settings, chain: Chain, env: Env): Tables {
    var p := Rechecked(t, s, chain, env);
    var cursor, end := From(SavedIn(t, s), chain), NextEnd(SavedIn(t, s), chain, env, s.confirmations);
    if env.latest.None? then t
    else if !p.ok || end <= cursor then p.tables
    else BlocksTaken(p.tables, s, chain, cursor, end, env).tables
  }

  // ----- what a block adds

  ghost predicate RowsKept(t: Tables, t': Tables) {
    forall k <- t.raw :: k in t'.raw && t'.raw[k] == t.raw[k]
  }

  lemma RowsKeptThrough(a: Tables, b: Tables, c: Tables)
    requires RowsKept(a, b) && RowsKept(b, c)
    ensures RowsKept(a, c)
  {
  }

  lemma BlocksNext(t: Tables, s: Settings, chain: Chain, cursor: int, h: int, env: Env, before: Tables)
    requires cursor < h && BlocksTaken(t, s, chain, cursor, h - 1, env) == Progress(before, true)
    ensures BlocksTaken(t, s, chain, cursor, h, env) == BlockTaken(before, s, chain, h, env)
  {
  }

  /** Every hash is known, and the sales are rows of the ledger. */
  ghost predicate Kept(t: Tables, s: Settings, seen: set<Hash>) {
    && (forall r <- t.cursors ::
        t.cursors[r].hash.Some? && t.cursors[r].height >= s.start && t.cursors[r].hash.value in seen)
    && (forall k <- t.raw :: t.raw[k].hash in seen)
    && (forall k <- t.sold :: k in t.raw && t.sold[k] == t.raw[k] && IsSale(s.sells, t.raw[k]))
  }

  /** The ledger gains rows of block `h`, the sales table sales of it, and nothing else changes. */
  ghost predicate GrowsAt(t: Tables, t': Tables, chain: Chain, watched: set<Realm>, h: int) {
    && t'.cursors == t.cursors
    && (forall k <- t.raw :: k in t'.raw && t'.raw[k] == t.raw[k])
    && (forall k <- t'.raw :: k in t.raw || (k.height == h && IsRow(chain, watched, k, t'.raw[k])))
    && (forall k <- t.sold :: k in t'.sold && t'.sold[k] == t.sold[k])
    && (forall k <- t'.sold :: k in t.sold || (k.height == h && IsRow(chain, watched, k, t'.sold[k])))
  }

  /** The event is recorded, and its sale if it is one. */
  predicate DoneAt(raw: Ledger, sold: Ledger, sells: Sales, chain: Chain, h: int, i: int)
    requires 0 <= h < |chain| && 0 <= i < |chain[h].events|
  {
    var k := Key(h, chain[h].events[i].pos);
    && k in raw && raw[k] == RowOf(chain, h, i)
    && (IsSale(sells, RowOf(chain, h, i)) ==> k in sold)
  }

  /** So are the first `n` events of the block, as far as they are watched. */
  ghost predicate DoneUpto(raw: Ledger, sold: Ledger, sells: Sales, chain: Chain, watched: set<Realm>, h: int, n: int)
    requires 0 <= h < |chain| && n <= |chain[h].events|
  {
    forall j | 0 <= j < n :: chain[h].events[j].realm in watched ==> DoneAt(raw, sold, sells, chain, h, j)
  }

  /** One more event: its row, and its sale. */
  lemma DispatchedGrows(t: Tables, s: Settings, chain: Chain, h: int, i: nat, d: Dispatch, seen: set<Hash>)
    requires WellFormed(chain) && 0 <= h < |chain| && i < |chain[h].events| && chain[h].events[i].realm in s.watched
    requires Kept(t, s, seen) && chain[h].hash in seen
    requires forall k <- t.raw | k.height == h :: IsRow(chain, s.watched, k, t.raw[k])
    ensures var t' := Dispatched(t, s.sells, chain, h, i, d);
      Kept(t', s, seen) && GrowsAt(t, t', chain, s.watched, h)
      && (d == Projected ==> DoneAt(t'.raw, t'.sold, s.sells, chain, h, i))
  {
    var k, row := Key(h, chain[h].events[i].pos), RowOf(chain, h, i);
    assert IsRow(chain, s.watched, k, row);
    if k in t.raw { OneRow(chain, s.watched, h, i, t.raw[k]); }
  }

  lemma GrowsThrough(a: Tables, b: Tables, c: Tables, chain: Chain, watched: set<Realm>, h: int)
    requires GrowsAt(a, b, chain, watched, h) && GrowsAt(b, c, chain, watched, h)
    ensures GrowsAt(a, c, chain, watched, h)
  {
  }

  lemma DoneGrows(a: Tables, b: Tables, s: Settings, chain: Chain, h: int, n: nat)
    requires 0 <= h < |chain| && n <= |chain[h].events| && GrowsAt(a, b, chain, s.watched, h)
    requires DoneUpto(a.raw, a.sold, s.sells, chain, s.watched, h, n)
    ensures DoneUpto(b.raw, b.sold, s.sells, chain, s.watched, h, n)
  {
    forall j | 0 <= j < n && chain[h].events[j].realm in s.watched ensures DoneAt(b.raw, b.sold, s.sells, chain, h, j) {
      assert DoneAt(a.raw, a.sold, s.sells, chain, h, j);
    }
  }

  /** Any part of a block grows the tables at its height; if nothing failed it is recorded whole. */
  lemma {:induction false} AppliedGrows(t: Tables, s: Settings, chain: Chain, h: int, env: Env, n: nat, seen: set<Hash>)
    requires WellFormed(chain) && 0 <= h < |chain| && n <= |chain[h].events|
    requires Kept(t, s, seen) && chain[h].hash in seen
    requires forall k <- t.raw | k.height == h :: IsRow(chain, s.watched, k, t.raw[k])
    ensures var p := Applied(t, s, chain, h, env, n);
      && Kept(p.tables, s, seen) && GrowsAt(t, p.tables, chain, s.watched, h)
      && (p.ok ==> DoneUpto(p.tables.raw, p.tables.sold, s.sells, chain, s.watched, h, n))
    decreases n
  {
    if n > 0 {
      var p := Applied(t, s, chain, h, env, n - 1);
      AppliedGrows(t, s, chain, h, env, n - 1, seen);
      if p.ok && chain[h].events[n - 1].realm in s.watched {
        var d := env.dispatched(h, n - 1);
        var after := Dispatched(p.tables, s.sells, chain, h, n - 1, d);
        DispatchedGrows(p.tables, s, chain, h, n - 1, d, seen);
        GrowsThrough(t, p.tables, after, chain, s.watched, h);
        DoneGrows(p.tables, after, s, chain, h, n - 1);
      }
    }
  }

  /** Nothing fails in a block whose events all get through. */
  lemma {:induction false} AppliedWhole(t: Tables, s: Settings, chain: Chain, h: int, env: Env, n: nat)
    requires 0 <= h < |chain| && n <= |chain[h].events| && forall i: nat :: env.dispatched(h, i) == Projected
    ensures Applied(t, s, chain, h, env, n).ok
    decreases n
  {
    if n > 0 { AppliedWhole(t, s, chain, h, env, n - 1); }
  }

  /** The sales table has every sale of the ledger at the height. */
  ghost predicate SoldAt(t: Tables, sells: Sales, h: int) {
    forall k <- t.raw | k.height == h :: IsSale(sells, t.raw[k]) ==> k in t.sold
  }

  /** Nothing at the height is wrong yet. */
  ghost predicate RightAt(t: Tables, s: Settings, chain: Chain, h: int, seen: set<Hash>) {
    Kept(t, s, seen) && forall k <- t.raw | k.height == h :: IsRow(chain, s.watched, k, t.raw[k])
  }

  lemma AllDone(t: Tables, s: Settings, chain: Chain, h: int)
    requires WellFormed(chain) && 0 <= h < |chain|
    requires DoneUpto(t.raw, t.sold, s.sells, chain, s.watched, h, |chain[h].events|)
    requires forall k <- t.raw | k.height == h :: IsRow(chain, s.watched, k, t.raw[k])
    ensures Complete(t.raw, chain, s.watched, h) && SoldAt(t, s.sells, h)
  {
    var raw, sold, sells, watched := t.raw, t.sold, s.sells, s.watched;
    forall k <- raw | k.height == h ensures IsSale(sells, raw[k]) ==> k in sold {
      var i :| 0 <= i < |chain[h].events| && chain[h].events[i].pos == k.pos && chain[h].events[i].realm in watched;
      assert DoneAt(raw, sold, sells, chain, h, i) && k == Key(h, k.pos);
    }
    forall i | 0 <= i < |chain[h].events| && chain[h].events[i].realm in watched
      ensures var e := chain[h].events[i]; Key(h, e.pos) in raw && raw[Key(h, e.pos)] == RowOf(chain, h, i)
    {
      assert DoneAt(raw, sold, sells, chain, h, i);
    }
  }

  /** An event that fails ends the block. */
  lemma {:induction false} AppliedStop(t: Tables, s: Settings, chain: Chain, h: int, env: Env, i: nat, n: nat)
    requires 0 <= h < |chain| && i <= n <= |chain[h].events| && !Applied(t, s, chain, h, env, i).ok
    ensures Applied(t, s, chain, h, env, n) == Applied(t, s, chain, h, env, i)
    decreases n
  {
    if i < n { AppliedStop(t, s, chain, h, env, i, n - 1); }
  }

  /** A block that fails ends the cycle. */
  lemma {:induction false} BlocksStop(t: Tables, s: Settings, chain: Chain, cursor: int, h: int, end: int, env: Env)
    requires cursor <= h <= end && !BlocksTaken(t, s, chain, cursor, h, env).ok
    ensures BlocksTaken(t, s, chain, cursor, end, env) == BlocksTaken(t, s, chain, cursor, h, env)
    decreases end - h
  {
    if h < end { BlocksStop(t, s, chain, cursor, h, end - 1, env); }
  }

  /** Everything goes well this cycle. */
  ghost predicate Quiet(env: Env, realms: nat) {
    && env.latest.Some? && env.checked && env.rolledBack
    && (forall h :: env.fetched(h)) && (forall h, i: nat :: env.dispatched(h, i) == Projected)
    && (forall h :: env.saved(h) >= realms)
  }

  /** The cursor a cycle starts from: one block back when the cursor block changed. */
  function From(c: Cursor, chain: Chain): int {
    if Matches(chain, c) then c.height else c.height - 1
  }

  function NextEnd(c: Cursor, chain: Chain, env: Env, confirmations: int): int {
    if env.latest.None? then From(c, chain)
    else ConfirmedEnd(env.latest.value, confirmations, From(c, chain), MAX_BLOCKS_PER_CYCLE)
  }

  /** The ledger is right up to the height, and has nothing wrong after it. */
  ghost predicate Upto(raw: Ledger, chain: Chain, watched: set<Realm>, start: int, h: int) {
    Exact(raw, chain, watched, start, h) && Faithful(raw, chain, watched, h + 1) && forall k <- raw :: start <= k.height
  }

  lemma UptoIsGood(raw: Ledger, chain: Chain, watched: set<Realm>, start: int, h: int, c: Cursor)
    requires Upto(raw, chain, watched, start, h)
    requires start - 1 <= c.height && (c.hash == None ==> c.height == start - 1)
    requires c.height <= h || (c.height == h + 1 && !Matches(chain, c))
    ensures Good(raw, chain, watched, start, c)
  {
  }

  lemma RolledBackUpto(raw: Ledger, raw': Ledger, chain: Chain, watched: set<Realm>, start: int, h: int)
    requires Exact(raw, chain, watched, start, h - 1) && forall k <- raw :: start <= k.height
    requires raw' == map k | k in raw && k.height < h :: raw[k]
    ensures Upto(raw', chain, watched, start, h - 1)
  {
    forall g | start <= g <= h - 1 ensures Complete(raw', chain, watched, g) {
      assert Complete(raw, chain, watched, g);
    }
  }

  lemma AppliedUpto(raw: Ledger, raw': Ledger, chain: Chain, watched: set<Realm>, start: int, h: int)
    requires Upto(raw, chain, watched, start, h - 1) && start <= h
    requires forall k <- raw :: k in raw' && raw'[k] == raw[k]
    requires forall k <- raw' :: k in raw || (k.height == h && IsRow(chain, watched, k, raw'[k]))
    ensures Upto(raw', chain, watched, start, h - 1)
    ensures Complete(raw', chain, watched, h) ==> Upto(raw', chain, watched, start, h)
  {
    forall g | start <= g <= h - 1 ensures Complete(raw', chain, watched, g) {
      assert Complete(raw, chain, watched, g);
    }
  }

  lemma SavedInRange(cursors: map<Realm, Cursor>, realms: seq<Realm>, start: int)
    requires realms != [] && forall r <- cursors :: cursors[r].hash.Some? && cursors[r].height >= start
    ensures var c := Behind(cursors, realms, start);
      && start - 1 <= c.height <= StateOf(cursors, start, realms[0]).height
      && (c.hash == None <==> c.height == start - 1)
  {
    var i := BehindIsBehind(cursors, realms, start);
  }

  lemma SavedHeight(t: Tables, s: Settings)
    requires s.realms != [] && forall r <- t.cursors :: t.cursors[r].height >= s.start
    ensures SavedIn(t, s).height >= s.start - 1 && (SavedIn(t, s).hash.Some? ==> SavedIn(t, s).height >= s.start)
  {
    var i := BehindIsBehind(t.cursors, s.realms, s.start);
  }

  /** A block has one row per position. */
  lemma OneRow(chain: Chain, watched: set<Realm>, h: int, i: nat, row: Row)
    requires WellFormed(chain) && 0 <= h < |chain| && i < |chain[h].events| && chain[h].events[i].realm in watched
    ensures var e := chain[h].events[i];
            IsRow(chain, watched, Key(h, e.pos), row) <==> row == Row(e.realm, e.data, chain[h].hash)
  {
  }

  // ----- every step keeps the ledger right

  ghost predicate Known(chain: Chain, seen: set<Hash>) {
    forall h | 0 <= h < |chain| :: chain[h].hash in seen
  }

  /** The sales table has every sale of the ledger up to the height. */
  ghost predicate SoldUpto(t: Tables, sells: Sales, h: int) {
    forall k <- t.raw | k.height <= h :: IsSale(sells, t.raw[k]) ==> k in t.sold
  }

  /** The ledger is good, and every sale of it is in the sales table, as far as the cycle will go back. */
  ghost predicate Right(t: Tables, s: Settings, chain: Chain, seen: set<Hash>) {
    && s.realms != [] && s.start >= 1 && Kept(t, s, seen)
    && Good(t.raw, chain, s.watched, s.start, SavedIn(t, s)) && SoldUpto(t, s.sells, From(SavedIn(t, s), chain))
  }

  /** The tables are right up to `h` and the saved cursor is not past it, or is of a block that changed. */
  ghost predicate Reached(t: Tables, s: Settings, chain: Chain, h: int, seen: set<Hash>) {
    && s.realms != [] && s.start >= 1 && Kept(t, s, seen)
    && Upto(t.raw, chain, s.watched, s.start, h) && SoldUpto(t, s.sells, h)
    && (SavedIn(t, s).height <= h || (SavedIn(t, s).height == h + 1 && !Matches(chain, SavedIn(t, s))))
  }

  /** Every realm's cursor is at the block. */
  predicate SavedAt(t: Tables, s: Settings, chain: Chain, h: int) {
    0 <= h < |chain| && forall r <- s.realms :: r in t.cursors && t.cursors[r] == Cursor(h, Some(chain[h].hash))
  }

  lemma ReachedIsRight(t: Tables, s: Settings, chain: Chain, h: int, seen: set<Hash>)
    requires Reached(t, s, chain, h, seen)
    ensures Right(t, s, chain, seen)
  {
    SavedInRange(t.cursors, s.realms, s.start);
    UptoIsGood(t.raw, chain, s.watched, s.start, h, SavedIn(t, s));
  }

  /** The first `n` realms have the new cursor, the others what they had. */
  predicate WrittenAt(cursors: map<Realm, Cursor>, cursors': map<Realm, Cursor>, realms: seq<Realm>, n: nat,
                      c: Cursor, r: Realm)
    requires n <= |realms|
  {
    if r in realms[..n] then r in cursors' && cursors'[r] == c
    else (r in cursors' <==> r in cursors) && (r in cursors ==> cursors'[r] == cursors[r])
  }

  lemma {:induction false} WrittenRealm(cursors: map<Realm, Cursor>, realms: seq<Realm>, n: nat, c: Cursor, r: Realm)
    requires n <= |realms|
    ensures WrittenAt(cursors, Written(cursors, realms, n, c), realms, n, c, r)
    decreases n
  {
    if n > 0 {
      WrittenRealm(cursors, realms, n - 1, c, r);
      assert realms[..n] == realms[..n - 1] + [realms[n - 1]];
    }
  }

  ghost predicate WrittenFirst(cursors: map<Realm, Cursor>, cursors': map<Realm, Cursor>, realms: seq<Realm>, n: nat,
                               c: Cursor)
    requires n <= |realms|
  {
    forall r: Realm :: WrittenAt(cursors, cursors', realms, n, c, r)
  }

  lemma WrittenIsFirst(cursors: map<Realm, Cursor>, realms: seq<Realm>, n: nat, c: Cursor)
    requires n <= |realms|
    ensures WrittenFirst(cursors, Written(cursors, realms, n, c), realms, n, c)
  {
    var cursors' := Written(cursors, realms, n, c);
    forall r: Realm ensures WrittenAt(cursors, cursors', realms, n, c, r) {
      WrittenRealm(cursors, realms, n, c, r);
    }
  }

  /** Saving the cursor of a block that was applied, for every realm or for the first few. */
  lemma SavingKeeps(t: Tables, s: Settings, chain: Chain, h: int, n: nat, seen: set<Hash>)
    requires Known(chain, seen) && s.start <= h < |chain| && n <= |s.realms|
    requires Reached(t, s, chain, h, seen) && SavedIn(t, s).height <= h
    ensures var t' := t.(cursors := Written(t.cursors, s.realms, n, Cursor(h, Some(chain[h].hash))));
      && Right(t', s, chain, seen)
      && (n == |s.realms| ==> Reached(t', s, chain, h, seen) && SavedAt(t', s, chain, h))
  {
    var c := Cursor(h, Some(chain[h].hash));
    var t' := t.(cursors := Written(t.cursors, s.realms, n, c));
    WrittenIsFirst(t.cursors, s.realms, n, c);
    forall r <- t'.cursors ensures t'.cursors[r] == c || (r in t.cursors && t'.cursors[r] == t.cursors[r]) {
      assert WrittenAt(t.cursors, t'.cursors, s.realms, n, c, r);
    }
    SavedNotPast(t, t', s, h, n, c);
    ReachedIsRight(t', s, chain, h, seen);
    if n == |s.realms| {
      assert s.realms[..n] == s.realms;
      forall r <- s.realms ensures r in t'.cursors && t'.cursors[r] == c {
        assert WrittenAt(t.cursors, t'.cursors, s.realms, n, c, r);
      }
    }
  }

  lemma SavedNotPast(t: Tables, t': Tables, s: Settings, h: int, n: nat, c: Cursor)
    requires s.realms != [] && n <= |s.realms| && c.height == h && c.hash.Some? && s.start <= h
    requires SavedIn(t, s).height <= h && t' == t.(cursors := Written(t.cursors, s.realms, n, c))
    requires forall r <- t'.cursors :: t'.cursors[r].hash.Some? && t'.cursors[r].height >= s.start
    ensures SavedIn(t', s).height <= h
  {
    if n == 0 {
      assert t' == t;
    } else {
      assert s.realms[0] in s.realms[..n];
      WrittenRealm(t.cursors, s.realms, n, c, s.realms[0]);
      SavedInRange(t'.cursors, s.realms, s.start);
    }
  }

  /** The next block: its events, then every realm's cursor. */
  lemma BlockKeeps(t: Tables, s: Settings, chain: Chain, h: int, env: Env, seen: set<Hash>)
    requires WellFormed(chain) && Known(chain, seen) && s.start <= h && Reached(t, s, chain, h - 1, seen)
    ensures var p := BlockTaken(t, s, chain, h, env);
      && Right(p.tables, s, chain, seen) && RowsKept(t, p.tables)
      && (p.ok ==> Reached(p.tables, s, chain, h, seen) && SavedAt(p.tables, s, chain, h))
      && (Quiet(env, |s.realms|) && h < |chain| ==> p.ok)
  {
    ReachedIsRight(t, s, chain, h - 1, seen);
    if env.fetched(h) && h < |chain| {
      var n := |chain[h].events|;
      var p := Applied(t, s, chain, h, env, n);
      AppliedGrows(t, s, chain, h, env, n, seen);
      AppliedUpto(t.raw, p.tables.raw, chain, s.watched, s.start, h);
      if p.ok {
        AllDone(p.tables, s, chain, h);
        SavingKeeps(p.tables, s, chain, h, if env.saved(h) < |s.realms| then env.saved(h) else |s.realms|, seen);
      } else {
        SoldBelow(t, p.tables, s, chain, h);
        ReachedIsRight(p.tables, s, chain, h - 1, seen);
      }
      if Quiet(env, |s.realms|) { AppliedWhole(t, s, chain, h, env, n); }
    }
  }

  /** A block adds no sale below it. */
  lemma SoldBelow(t: Tables, t': Tables, s: Settings, chain: Chain, h: int)
    requires GrowsAt(t, t', chain, s.watched, h) && SoldUpto(t, s.sells, h - 1)
    ensures SoldUpto(t', s.sells, h - 1)
  {
  }

  /** The blocks after a cursor, or as many as get through. */
  lemma {:induction false} BlocksKeep(t: Tables, s: Settings, chain: Chain, cursor: int, h: int, env: Env,
                                      seen: set<Hash>)
    requires WellFormed(chain) && Known(chain, seen) && s.start - 1 <= cursor <= h && Reached(t, s, chain, cursor, seen)
    ensures var p := BlocksTaken(t, s, chain, cursor, h, env);
      && Right(p.tables, s, chain, seen) && RowsKept(t, p.tables)
      && (p.ok ==> Reached(p.tables, s, chain, h, seen) && (cursor < h ==> SavedAt(p.tables, s, chain, h)))
      && (Quiet(env, |s.realms|) && h < |chain| ==> p.ok)
    decreases h - cursor
  {
    if cursor == h {
      ReachedIsRight(t, s, chain, h, seen);
    } else {
      BlocksKeep(t, s, chain, cursor, h - 1, env, seen);
      var p := BlocksTaken(t, s, chain, cursor, h - 1, env);
      if p.ok {
        BlockKeeps(p.tables, s, chain, h, env, seen);
        RowsKeptThrough(t, p.tables, BlockTaken(p.tables, s, chain, h, env).tables);
      }
    }
  }

  /** The check of the cursor block: a changed one is rolled back and walked back by one. */
  lemma RecheckKeeps(t: Tables, s: Settings, chain: Chain, env: Env, seen: set<Hash>)
    requires Right(t, s, chain, seen)
    ensures var p, cursor := Rechecked(t, s, chain, env), From(SavedIn(t, s), chain);
      && Right(p.tables, s, chain, seen)
      && (p.ok ==> Reached(p.tables, s, chain, cursor, seen) && s.start - 1 <= cursor)
      && (!p.ok || Matches(chain, SavedIn(t, s)) ==> p.tables == t)
      && (env.checked && env.rolledBack && cursor < |chain| - 1 ==> p.ok)
  {
    var p, c := Rechecked(t, s, chain, env), SavedIn(t, s);
    SavedInRange(t.cursors, s.realms, s.start);
    if p.ok && !Matches(chain, c) {
      RolledBackUpto(t.raw, p.tables.raw, chain, s.watched, s.start, c.height);
      ReachedIsRight(p.tables, s, chain, c.height - 1, seen);
    }
  }

  /**
   After a cycle the tables are right; a matching cursor keeps every row, a cycle without failures gets to its
   end.
   */
  ghost predicate CycleIsRight(t: Tables, t': Tables, s: Settings, chain: Chain, env: Env, seen: set<Hash>) {
    && Right(t', s, chain, seen)
    && (Matches(chain, SavedIn(t, s)) ==> RowsKept(t, t'))
    && var end := NextEnd(SavedIn(t, s), chain, env, s.confirmations);
       Quiet(env, |s.realms|) && From(SavedIn(t, s), chain) < end < |chain| ==>
         SavedAt(t', s, chain, end) && Exact(t'.raw, chain, s.watched, s.start, end)
  }

  /** Every realm is at the height, or past it. */
  predicate UpTo(t: Tables, s: Settings, h: int) {
    forall r <- s.realms :: StateOf(t.cursors, s.start, r).height >= h
  }

  function Least(a: int, b: int): int {
    if a < b then a else b
  }

  /**
   A cycle without failures on the chain of the stored hash takes every realm to the confirmed tip, or 500 blocks
   on from the one furthest behind.
   */
  ghost predicate MovesOn(t: Tables, t': Tables, s: Settings, chain: Chain, env: Env) {
    Quiet(env, |s.realms|) && Matches(chain, SavedIn(t, s)) && env.latest.value - s.confirmations < |chain| ==>
      && Matches(chain, SavedIn(t', s))
      && UpTo(t', s, Least(env.latest.value - s.confirmations, SavedIn(t, s).height + 500))
  }

  lemma CycleMovesOn(t: Tables, s: Settings, chain: Chain, env: Env, seen: set<Hash>)
    requires WellFormed(chain) && Known(chain, seen) && Right(t, s, chain, seen)
    ensures MovesOn(t, Cycled(t, s, chain, env), s, chain, env)
  {
    CycleKeeps(t, s, chain, env, seen);
    var i := BehindIsBehind(t.cursors, s.realms, s.start);
    var j := BehindIsBehind(Cycled(t, s, chain, env).cursors, s.realms, s.start);
    SavedInRange(t.cursors, s.realms, s.start);
  }

  /** Any number of cycles on one chain. */
  function Cycles(t: Tables, s: Settings, chain: Chain, envs: seq<Env>): Tables {
    if envs == [] then t
    else Cycled(Cycles(t, s, chain, envs[..|envs| - 1]), s, chain, envs[|envs| - 1])
  }

  /** Cycles without failures on one chain, whose confirmed tip is at least `tip`. */
  ghost predicate AllQuiet(s: Settings, chain: Chain, envs: seq<Env>, tip: int) {
    forall i | 0 <= i < |envs| ::
      Quiet(envs[i], |s.realms|) && tip <= envs[i].latest.value - s.confirmations < |chain|
  }

  /** Any gap is closed: after `k` cycles every realm is at the confirmed tip, or `500 * k` blocks on. */
  lemma {:induction false} CatchesUp(t: Tables, s: Settings, chain: Chain, envs: seq<Env>, tip: int, seen: set<Hash>)
    requires WellFormed(chain) && Known(chain, seen) && Right(t, s, chain, seen) && Matches(chain, SavedIn(t, s))
    requires AllQuiet(s, chain, envs, tip)
    ensures var t' := Cycles(t, s, chain, envs);
      && Right(t', s, chain, seen) && Matches(chain, SavedIn(t', s))
      && UpTo(t', s, Least(tip, SavedIn(t, s).height + 500 * |envs|))
  {
    if envs == [] {
      var i := BehindIsBehind(t.cursors, s.realms, s.start);
    } else {
      var n := |envs| - 1;
      var before := Cycles(t, s, chain, envs[..n]);
      CatchesUp(t, s, chain, envs[..n], tip, seen);
      assert Quiet(envs[n], |s.realms|);
      CycleKeeps(before, s, chain, envs[n], seen);
      CycleMovesOn(before, s, chain, envs[n], seen);
      OneMoreCycle(before, Cycles(t, s, chain, envs), s, chain, envs[n], tip, SavedIn(t, s).height + 500 * n);
    }
  }

  lemma OneMoreCycle(t: Tables, t': Tables, s: Settings, chain: Chain, env: Env, tip: int, h: int)
    requires s.realms != [] && UpTo(t, s, Least(tip, h)) && MovesOn(t, t', s, chain, env)
    requires Quiet(env, |s.realms|) && Matches(chain, SavedIn(t, s))
    requires tip <= env.latest.value - s.confirmations < |chain|
    ensures Matches(chain, SavedIn(t', s)) && UpTo(t', s, Least(tip, h + 500))
  {
    var i := BehindIsBehind(t.cursors, s.realms, s.start);
    assert s.realms[i] in s.realms;
  }

  /** No cursor and no row is ever of a block that is not confirmed. */
  ghost predicate OnlyUpTo(t: Tables, t': Tables, h: int) {
    && (forall r <- t'.cursors :: (r in t.cursors && t'.cursors[r] == t.cursors[r]) || t'.cursors[r].height <= h)
    && (forall k <- t'.raw :: k in t.raw || k.height <= h)
    && (forall k <- t'.sold :: k in t.sold || k.height <= h)
  }

  lemma {:induction false} AppliedOnly(t: Tables, s: Settings, chain: Chain, h: int, env: Env, n: nat)
    requires 0 <= h < |chain| && n <= |chain[h].events|
    ensures OnlyUpTo(t, Applied(t, s, chain, h, env, n).tables, h)
    decreases n
  {
    if n > 0 { AppliedOnly(t, s, chain, h, env, n - 1); }
  }

  lemma BlockOnly(t: Tables, s: Settings, chain: Chain, h: int, env: Env)
    ensures OnlyUpTo(t, BlockTaken(t, s, chain, h, env).tables, h)
  {
    if 0 <= h < |chain| {
      AppliedOnly(t, s, chain, h, env, |chain[h].events|);
      var p := Applied(t, s, chain, h, env, |chain[h].events|);
      var n := if env.saved(h) < |s.realms| then env.saved(h) else |s.realms|;
      WrittenIsFirst(p.tables.cursors, s.realms, n, Cursor(h, Some(chain[h].hash)));
      var after := BlockTaken(t, s, chain, h, env).tables;
      forall r <- after.cursors
        ensures (r in t.cursors && after.cursors[r] == t.cursors[r]) || after.cursors[r].height <= h
      {
        assert WrittenAt(p.tables.cursors, Written(p.tables.cursors, s.realms, n, Cursor(h, Some(chain[h].hash))),
                         s.realms, n, Cursor(h, Some(chain[h].hash)), r);
      }
    }
  }

  lemma {:induction false} BlocksOnly(t: Tables, s: Settings, chain: Chain, cursor: int, h: int, env: Env)
    requires cursor <= h
    ensures OnlyUpTo(t, BlocksTaken(t, s, chain, cursor, h, env).tables, h)
    decreases h - cursor
  {
    if cursor < h {
      BlocksOnly(t, s, chain, cursor, h - 1, env);
      var p := BlocksTaken(t, s, chain, cursor, h - 1, env);
      if p.ok { BlockOnly(p.tables, s, chain, h, env); }
    }
  }

  /** Whatever fails, a cycle takes confirmed blocks only. */
  lemma NothingUnconfirmed(t: Tables, s: Settings, chain: Chain, env: Env)
    requires env.latest.Some? && From(SavedIn(t, s), chain) >= 0
    ensures OnlyUpTo(t, Cycled(t, s, chain, env), env.latest.value - s.confirmations)
  {
    var p, cursor := Rechecked(t, s, chain, env), From(SavedIn(t, s), chain);
    var end := NextEnd(SavedIn(t, s), chain, env, s.confirmations);
    if cursor < end { BlocksOnly(p.tables, s, chain, cursor, end, env); }
  }

  lemma CycleKeeps(t: Tables, s: Settings, chain: Chain, env: Env, seen: set<Hash>)
    requires WellFormed(chain) && Known(chain, seen) && Right(t, s, chain, seen)
    ensures CycleIsRight(t, Cycled(t, s, chain, env), s, chain, env, seen)
  {
    var p, cursor := Rechecked(t, s, chain, env), From(SavedIn(t, s), chain);
    var end := NextEnd(SavedIn(t, s), chain, env, s.confirmations);
    RecheckKeeps(t, s, chain, env, seen);
    if env.latest.Some? && p.ok && cursor < end {
      BlocksKeep(p.tables, s, chain, cursor, end, env, seen);
    }
  }

  // ----- reorganizations between cycles

  /** The chain keeps its blocks below `n`; the blocks from there are new, and no replaced hash returns. */
  predicate Reorganizes(chain: Chain, chain': Chain, n: nat, seen: set<Hash>) {
    && n <= |chain| && n <= |chain'| && chain[..n] == chain'[..n]
    && (forall h | n <= h < |chain'| :: chain'[h].hash !in seen)
  }

  /** Every hash the database holds was once the chain's. */
  predicate Seen(raw: Ledger, chain: Chain, c: Cursor, seen: set<Hash>) {
    && (forall h | 0 <= h < |chain| :: chain[h].hash in seen)
    && (forall k <- raw :: raw[k].hash in seen)
    && (c.hash.Some? ==> c.hash.value in seen)
  }

  predicate NoWatched(b: Block, watched: set<Realm>) {
    forall i | 0 <= i < |b.events| :: b.events[i].realm !in watched
  }

  /**
   What a reorganization from `n` must leave alone. At or below a cursor with a
   hash, the change is seen, and only the cursor block is rolled back: no
   watched event may be lost or gained below it. Above the cursor, or before any
   cursor was saved, nothing is rolled back: no row may be there already.
   */
  predicate Harmless(raw: Ledger, chain: Chain, chain': Chain, watched: set<Realm>, start: int, c: Cursor, n: nat) {
    if c.hash.Some? && n <= c.height then
      && (forall k <- raw :: !(n <= k.height < c.height))
      && (forall h | n <= h < c.height && h < |chain'| && start <= h :: NoWatched(chain'[h], watched))
    else
      !Matches(chain, c) || forall k <- raw :: k.height < n
  }

  /** New blocks on top, and a change of the cursor block itself, are harmless. */
  lemma OrdinaryReorganizations(raw: Ledger, chain: Chain, chain': Chain, watched: set<Realm>, start: int, c: Cursor,
                                n: nat)
    requires Good(raw, chain, watched, start, c)
    ensures n >= |chain| && n > c.height ==> Harmless(raw, chain, chain', watched, start, c, n)
    ensures c.hash.Some? && n == c.height ==> Harmless(raw, chain, chain', watched, start, c, n)
  {
    if n >= |chain| && n > c.height && Matches(chain, c) {
      forall k <- raw ensures k.height < n {
        assert k.height > c.height ==> IsRow(chain, watched, k, raw[k]);
      }
    }
  }

  lemma SameBelow(raw: Ledger, chain: Chain, chain': Chain, watched: set<Realm>, n: nat, h: int)
    requires n <= |chain| && n <= |chain'| && chain[..n] == chain'[..n] && h < n
    ensures Complete(raw, chain, watched, h) <==> Complete(raw, chain', watched, h)
    ensures forall pos, row :: IsRow(chain, watched, Key(h, pos), row) <==> IsRow(chain', watched, Key(h, pos), row)
  {
    if 0 <= h {
      assert chain[..n][h] == chain'[..n][h];
    }
  }

  /** Below `n` the two chains agree about the ledger. */
  lemma ExactBelow(raw: Ledger, chain: Chain, chain': Chain, watched: set<Realm>, n: nat, lo: int, hi: int)
    requires n <= |chain| && n <= |chain'| && chain[..n] == chain'[..n] && hi < n
    ensures Exact(raw, chain, watched, lo, hi) <==> Exact(raw, chain', watched, lo, hi)
  {
    forall h | h < n
      ensures Complete(raw, chain, watched, h) <==> Complete(raw, chain', watched, h)
      ensures forall pos, row :: IsRow(chain, watched, Key(h, pos), row) <==> IsRow(chain', watched, Key(h, pos), row)
    {
      SameBelow(raw, chain, chain', watched, n, h);
    }
    assert forall k <- raw :: k == Key(k.height, k.pos);
  }

  /** A row of a replaced block is not a row of the new chain. */
  lemma ReplacedRow(raw: Ledger, chain': Chain, watched: set<Realm>, n: nat, seen: set<Hash>, k: Key)
    requires k in raw && n <= k.height && raw[k].hash in seen
    requires forall h | n <= h < |chain'| :: chain'[h].hash !in seen
    ensures !IsRow(chain', watched, k, raw[k])
  {
  }

  /** A watched event of a new block is not in the ledger yet. */
  lemma NewBlock(raw: Ledger, chain': Chain, watched: set<Realm>, n: nat, seen: set<Hash>, h: int)
    requires n <= h < |chain'| && (forall g | n <= g < |chain'| :: chain'[g].hash !in seen)
    requires forall k <- raw :: raw[k].hash in seen
    ensures Complete(raw, chain', watched, h) <==> NoWatched(chain'[h], watched)
  {
  }

  /** Between `n` and the cursor, the ledger is exact for new blocks just when there is nothing to hold. */
  lemma ExactAbove(raw: Ledger, chain': Chain, watched: set<Realm>, n: nat, seen: set<Hash>, lo: int, hi: int)
    requires n <= lo && (forall g | n <= g < |chain'| :: chain'[g].hash !in seen)
    requires forall k <- raw :: raw[k].hash in seen
    ensures Exact(raw, chain', watched, lo, hi) <==>
      && (forall k <- raw :: !(lo <= k.height <= hi))
      && (forall h | lo <= h <= hi && h < |chain'| :: NoWatched(chain'[h], watched))
  {
    forall k <- raw | n <= k.height ensures !IsRow(chain', watched, k, raw[k]) {
      ReplacedRow(raw, chain', watched, n, seen, k);
    }
    forall h | n <= h < |chain'| ensures Complete(raw, chain', watched, h) <==> NoWatched(chain'[h], watched) {
      NewBlock(raw, chain', watched, n, seen, h);
    }
  }

  /**
   After a reorganization between cycles the ledger is still good exactly when
   the reorganization was harmless.
   */
  lemma ReorganizedGood(raw: Ledger, chain: Chain, chain': Chain, watched: set<Realm>, start: int, c: Cursor, n: nat,
                        seen: set<Hash>)
    requires Good(raw, chain, watched, start, c) && Seen(raw, chain, c, seen) && Reorganizes(chain, chain', n, seen)
    requires start >= 1
    ensures Good(raw, chain', watched, start, c) <==> Harmless(raw, chain, chain', watched, start, c, n)
  {
    if c.hash.Some? && n <= c.height {
      assert !Matches(chain', c);
      var lo := if n < start then start else n;
      ExactBelow(raw, chain, chain', watched, n, start, n - 1);
      ExactAbove(raw, chain', watched, n, seen, lo, c.height - 1);
    } else {
      assert Matches(chain', c) <==> Matches(chain, c) by {
        if c.hash.Some? { assert chain[..n][c.height] == chain'[..n][c.height]; }
      }
      ReorganizedAbove(raw, chain, chain', watched, start, c, n, seen);
    }
  }

  lemma ReorganizedAbove(raw: Ledger, chain: Chain, chain': Chain, watched: set<Realm>, start: int, c: Cursor, n: nat,
                         seen: set<Hash>)
    requires Good(raw, chain, watched, start, c) && Seen(raw, chain, c, seen) && Reorganizes(chain, chain', n, seen)
    requires start >= 1 && (c.hash.Some? ==> c.height < n) && (Matches(chain', c) <==> Matches(chain, c))
    ensures Good(raw, chain', watched, start, c) <==> Harmless(raw, chain, chain', watched, start, c, n)
  {
    if c.hash.Some? {
      ExactBelow(raw, chain, chain', watched, n, start, c.height);
      ExactBelow(raw, chain, chain', watched, n, start, c.height - 1);
    }
    forall k <- raw ensures if k.height < n then IsRow(chain, watched, k, raw[k]) <==> IsRow(chain', watched, k, raw[k])
                            else !IsRow(chain', watched, k, raw[k]) {
      if k.height < n {
        SameBelow(raw, chain, chain', watched, n, k.height);
        assert k == Key(k.height, k.pos);
      } else {
        ReplacedRow(raw, chain', watched, n, seen, k);
      }
    }
  }

  // ----- a harmful reorganization

  lemma {:induction false} AppliedKeepsRows(t: Tables, s: Settings, chain: Chain, h: int, env: Env, n: nat)
    requires 0 <= h < |chain| && n <= |chain[h].events|
    ensures RowsKept(t, Applied(t, s, chain, h, env, n).tables)
    ensures Applied(t, s, chain, h, env, n).tables.cursors == t.cursors
    decreases n
  {
    if n > 0 { AppliedKeepsRows(t, s, chain, h, env, n - 1); }
  }

  /** Every stored hash is the chain's. */
  ghost predicate AllMatch(cursors: map<Realm, Cursor>, chain: Chain) {
    forall r <- cursors :: Matches(chain, cursors[r])
  }

  lemma {:induction false} WrittenMatch(cursors: map<Realm, Cursor>, realms: seq<Realm>, n: nat, c: Cursor,
                                        chain: Chain)
    requires n <= |realms| && AllMatch(cursors, chain) && Matches(chain, c)
    ensures AllMatch(Written(cursors, realms, n, c), chain)
    decreases n
  {
    if n > 0 { WrittenMatch(cursors, realms, n - 1, c, chain); }
  }

  lemma {:induction false} BlocksKeepRows(t: Tables, s: Settings, chain: Chain, cursor: int, h: int, env: Env)
    requires cursor <= h && AllMatch(t.cursors, chain)
    ensures var t' := BlocksTaken(t, s, chain, cursor, h, env).tables; RowsKept(t, t') && AllMatch(t'.cursors, chain)
    decreases h - cursor
  {
    if cursor < h {
      BlocksKeepRows(t, s, chain, cursor, h - 1, env);
      var p := BlocksTaken(t, s, chain, cursor, h - 1, env);
      if p.ok { BlockKeepsRows(p.tables, s, chain, h, env); }
    }
  }

  lemma BlockKeepsRows(t: Tables, s: Settings, chain: Chain, h: int, env: Env)
    requires AllMatch(t.cursors, chain)
    ensures var t' := BlockTaken(t, s, chain, h, env).tables; RowsKept(t, t') && AllMatch(t'.cursors, chain)
  {
    if 0 <= h < |chain| {
      AppliedKeepsRows(t, s, chain, h, env, |chain[h].events|);
      var n := if env.saved(h) < |s.realms| then env.saved(h) else |s.realms|;
      WrittenMatch(t.cursors, s.realms, n, Cursor(h, Some(chain[h].hash)), chain);
    }
  }

  /** While the stored hashes are the chain's, no row is ever taken back. */
  lemma {:induction false} CyclesKeepRows(t: Tables, s: Settings, chain: Chain, envs: seq<Env>)
    requires s.realms != [] && AllMatch(t.cursors, chain)
    ensures var t' := Cycles(t, s, chain, envs); RowsKept(t, t') && AllMatch(t'.cursors, chain)
  {
    if envs != [] {
      var before, env := Cycles(t, s, chain, envs[..|envs| - 1]), envs[|envs| - 1];
      CyclesKeepRows(t, s, chain, envs[..|envs| - 1]);
      var i := BehindIsBehind(before.cursors, s.realms, s.start);
      assert Matches(chain, SavedIn(before, s));
      var cursor, end := From(SavedIn(before, s), chain), NextEnd(SavedIn(before, s), chain, env, s.confirmations);
      if cursor < end { BlocksKeepRows(before, s, chain, cursor, end, env); }
    }
  }

  const ONE_REALM := Settings([7], {7}, 1, 0, (realm, data) => true)
  const EMPTY_TABLES := Tables(map[], map[], map[])
  const OLD_CHAIN: Chain := [Block(0, []), Block(1, []), Block(2, [Event(Pos(0, 0), 7, 5)])]
  const NEW_CHAIN: Chain := [Block(0, []), Block(1, []), Block(3, [])]
  const STALE := Key(2, Pos(0, 0))

  /** The projection of the event in block 2 fails. */
  const HALF_APPLIED := Env(Some(2), true, true, h => true, (h, i) => if h == 2 then RawOnly else Projected, h => 1)

  lemma HalfApplied()
    ensures Cycled(EMPTY_TABLES, ONE_REALM, OLD_CHAIN, HALF_APPLIED)
         == Tables(map[7 := Cursor(1, Some(1))], map[STALE := Row(7, 5, 2)], map[])
  {
    var t, s, e := EMPTY_TABLES, ONE_REALM, HALF_APPLIED;
    var one := Tables(map[7 := Cursor(1, Some(1))], map[], map[]);
    assert SavedIn(t, s) == Cursor(0, None);
    assert Written(t.cursors, s.realms, 0, Cursor(1, Some(1))) == map[];
    assert Written(t.cursors, s.realms, 1, Cursor(1, Some(1))) == map[7 := Cursor(1, Some(1))];
    assert Applied(t, s, OLD_CHAIN, 1, e, 0) == Progress(t, true);
    assert BlockTaken(t, s, OLD_CHAIN, 1, e) == Progress(one, true);
    assert BlocksTaken(t, s, OLD_CHAIN, 0, 0, e) == Progress(t, true);
    assert BlocksTaken(t, s, OLD_CHAIN, 0, 1, e) == Progress(one, true);
    assert Applied(one, s, OLD_CHAIN, 2, e, 0) == Progress(one, true);
    assert Applied(one, s, OLD_CHAIN, 2, e, 1) == Progress(Dispatched(one, s.sells, OLD_CHAIN, 2, 0, RawOnly), false);
    assert BlocksTaken(t, s, OLD_CHAIN, 0, 2, e) == Applied(one, s, OLD_CHAIN, 2, e, 1);
  }

  /**
   A cycle leaves block 2 half applied, above its cursor; the block is replaced before the retry. The row
   that is not the new chain's stays through any number of cycles.
   */
  lemma HarmfulReorganization(envs: seq<Env>)
    ensures var t := Cycled(EMPTY_TABLES, ONE_REALM, OLD_CHAIN, HALF_APPLIED);
      && Good(t.raw, OLD_CHAIN, {7}, 1, SavedIn(t, ONE_REALM)) && Reorganizes(OLD_CHAIN, NEW_CHAIN, 2, {0, 1, 2})
      && !Harmless(t.raw, OLD_CHAIN, NEW_CHAIN, {7}, 1, SavedIn(t, ONE_REALM), 2)
      && var later := Cycles(t, ONE_REALM, NEW_CHAIN, envs).raw;
         STALE in later && !IsRow(NEW_CHAIN, {7}, STALE, later[STALE])
  {
    var t := Cycled(EMPTY_TABLES, ONE_REALM, OLD_CHAIN, HALF_APPLIED);
    HalfApplied();
    assert SavedIn(t, ONE_REALM) == Cursor(1, Some(1));
    assert STALE in t.raw;
    assert OLD_CHAIN[2].events[0].pos == STALE.pos && IsRow(OLD_CHAIN, {7}, STALE, t.raw[STALE]);
    assert OLD_CHAIN[..2] == NEW_CHAIN[..2];
    CyclesKeepRows(t, ONE_REALM, NEW_CHAIN, envs);
  }

  lemma SavedSeen(cursors: map<Realm, Cursor>, realms: seq<Realm>, start: int, seen: set<Hash>)
    requires realms != [] && forall r <- cursors :: cursors[r].hash.Some? && cursors[r].hash.value in seen
    ensures var c := Behind(cursors, realms, start); c.hash.Some? ==> c.hash.value in seen
  {
    var i := BehindIsBehind(cursors, realms, start);
  }

  /** A reorganization never makes a cursor match that did not. */
  lemma FromFalls(chain: Chain, chain': Chain, c: Cursor, n: nat, seen: set<Hash>)
    requires Reorganizes(chain, chain', n, seen) && (c.hash.Some? ==> c.hash.value in seen)
    ensures From(c, chain') <= From(c, chain)
  {
    if c.hash.Some? && 0 <= c.height < n { assert chain[..n][c.height] == chain'[..n][c.height]; }
  }

  /** Up to the height the sales table is exactly the sale events of the chain. */
  ghost predicate Canonical(sold: Ledger, chain: Chain, watched: set<Realm>, sells: Sales, start: int, h: int) {
    forall k: Key, row | k.height <= h ::
      k in sold && sold[k] == row <==> start <= k.height && IsRow(chain, watched, k, row) && IsSale(sells, row)
  }

  /** A good ledger with all its sales in the table makes the table canonical. */
  lemma CanonicalSales(raw: Ledger, sold: Ledger, sells: Sales, chain: Chain, watched: set<Realm>, start: int,
                       c: Cursor)
    requires WellFormed(chain) && Good(raw, chain, watched, start, c)
    requires forall k <- sold :: k in raw && sold[k] == raw[k] && IsSale(sells, raw[k])
    requires forall k <- raw | k.height <= From(c, chain) :: IsSale(sells, raw[k]) ==> k in sold
    ensures Canonical(sold, chain, watched, sells, start, From(c, chain))
  {
    forall k: Key, row | k.height <= From(c, chain)
      ensures k in sold && sold[k] == row <==> start <= k.height && IsRow(chain, watched, k, row) && IsSale(sells, row)
    {
      if start <= k.height && IsRow(chain, watched, k, row) {
        assert Complete(raw, chain, watched, k.height);
        var i :| 0 <= i < |chain[k.height].events| && chain[k.height].events[i].pos == k.pos
          && chain[k.height].events[i].realm in watched && row == RowOf(chain, k.height, i);
        assert k == Key(k.height, chain[k.height].events[i].pos);
      }
    }
  }

  /** The next chain, the height from which it is new, and what happens in the cycle after it. */
  datatype Turn = Turn(chain: Chain, n: nat, env: Env)

  function HashesIn(chain: Chain): set<Hash> {
    set b <- chain :: b.hash
  }

  function ChainAfter(turns: seq<Turn>, n: nat): Chain
    requires n <= |turns|
  {
    if n == 0 then [] else turns[n - 1].chain
  }

  function HashesOf(turns: seq<Turn>, n: nat): set<Hash>
    requires n <= |turns|
  {
    if n == 0 then {} else HashesOf(turns, n - 1) + HashesIn(turns[n - 1].chain)
  }

  /** The tables after the first `n` turns. */
  function Followed(turns: seq<Turn>, n: nat, s: Settings): Tables
    requires n <= |turns|
  {
    if n == 0 then EMPTY_TABLES else Cycled(Followed(turns, n - 1, s), s, turns[n - 1].chain, turns[n - 1].env)
  }

  /** The chain is reorganized harmlessly. */
  predicate Allowed(turn: Turn, chain: Chain, t: Tables, s: Settings, seen: set<Hash>) {
    && WellFormed(turn.chain) && Reorganizes(chain, turn.chain, turn.n, seen)
    && Harmless(t.raw, chain, turn.chain, s.watched, s.start, SavedIn(t, s), turn.n)
  }

  /** So it is at the `i`-th turn. */
  predicate AllowedAt(turns: seq<Turn>, i: nat, s: Settings)
    requires i < |turns|
  {
    Allowed(turns[i], ChainAfter(turns, i), Followed(turns, i, s), s, HashesOf(turns, i))
  }

  ghost predicate AllowedUpto(turns: seq<Turn>, n: nat, s: Settings)
    requires n <= |turns|
  {
    forall i | 0 <= i < n :: AllowedAt(turns, i, s)
  }

  lemma AllowedNext(turns: seq<Turn>, n: nat, s: Settings)
    requires n < |turns| && AllowedUpto(turns, n, s) && AllowedAt(turns, n, s)
    ensures AllowedUpto(turns, n + 1, s)
  {
  }

  lemma MoreSeen(t: Tables, s: Settings, chain: Chain, seen: set<Hash>, more: set<Hash>)
    requires Right(t, s, chain, seen) && seen <= more
    ensures Right(t, s, chain, more)
  {
  }

  /** A harmless reorganization, and the cycle after it. */
  lemma TurnKeeps(t: Tables, s: Settings, chain: Chain, turn: Turn, seen: set<Hash>)
    requires Right(t, s, chain, seen) && Known(chain, seen) && Allowed(turn, chain, t, s, seen)
    ensures Right(Cycled(t, s, turn.chain, turn.env), s, turn.chain, seen + HashesIn(turn.chain))
    ensures Known(turn.chain, seen + HashesIn(turn.chain))
  {
    var c, more := SavedIn(t, s), seen + HashesIn(turn.chain);
    SavedSeen(t.cursors, s.realms, s.start, seen);
    ReorganizedGood(t.raw, chain, turn.chain, s.watched, s.start, c, turn.n, seen);
    FromFalls(chain, turn.chain, c, turn.n, seen);
    MoreSeen(t, s, turn.chain, seen, more);
    CycleKeeps(t, s, turn.chain, turn.env, more);
  }

  lemma EmptyIsRight(s: Settings)
    requires s.realms != [] && s.start >= 1
    ensures Right(EMPTY_TABLES, s, [], {})
  {
    var i := BehindIsBehind(map[], s.realms, s.start);
  }

  /** Over any run of harmless reorganizations and cycles the tables stay right. */
  lemma {:induction false} FollowedIsRight(turns: seq<Turn>, n: nat, s: Settings)
    requires s.realms != [] && s.start >= 1 && n <= |turns| && AllowedUpto(turns, n, s)
    ensures Right(Followed(turns, n, s), s, ChainAfter(turns, n), HashesOf(turns, n))
    ensures WellFormed(ChainAfter(turns, n)) && Known(ChainAfter(turns, n), HashesOf(turns, n))
    decreases n
  {
    if n == 0 {
      EmptyIsRight(s);
    } else {
      FollowedIsRight(turns, n - 1, s);
      assert AllowedAt(turns, n - 1, s);
      TurnKeeps(Followed(turns, n - 1, s), s, ChainAfter(turns, n - 1), turns[n - 1], HashesOf(turns, n - 1));
    }
  }
}
