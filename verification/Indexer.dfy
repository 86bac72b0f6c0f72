/**
 The block tailer as the object it is: per-realm cursors, an idempotent raw ledger
 with the sales table beside it, retry of a half-applied block, and rollback when the
 cursor block's hash changed. `IndexerTables` says what every state of it satisfies.
 */
module Indexer {
  import opened Wrappers
  import opened IndexerTables

  class Tailer {
    const realms: seq<Realm>
    const watched: set<Realm>
    const start: int
    const confirmations: int
    const sells: Sales
    var cursors: map<Realm, Cursor>
    var raw: Ledger
    var sold: Ledger

    constructor (realms: seq<Realm>, start: int, confirmations: int, sells: Sales)
      requires realms != [] && start >= 1
      ensures Valid() && Now() == EMPTY_TABLES
      ensures Setup() == Settings(realms, (set r | r in realms), start, confirmations, sells)
    {
      this.realms, this.start, this.confirmations, this.sells := realms, start, confirmations, sells;
      watched := set r | r in realms;
      cursors, raw, sold := map[], map[], map[];
    }

    function Setup(): Settings {
      Settings(realms, watched, start, confirmations, sells)
    }

    function Now(): Tables
      reads this
    {
      Tables(cursors, raw, sold)
    }

    predicate Valid()
      reads this`cursors
    {
      realms != [] && start >= 1 && forall r <- cursors :: cursors[r].height >= start
    }

    method LoadCursor() returns (c: Cursor)
      requires Valid()
      ensures c == SavedIn(Now(), Setup())
      ensures c.height >= start - 1
    {
      var min := -1;
      var hash: Option<Hash> := None;
      var i := 0;
      while i < |realms|
        invariant 0 <= i <= |realms|
        invariant i == 0 ==> min == -1
        invariant i > 0 ==> Cursor(min, hash) == Behind(cursors, realms[..i], start) && min >= start - 1
      {
        var s := StateOf(cursors, start, realms[i]);
        assert realms[..i + 1][..i] == realms[..i];
        if min < 0 || s.height < min {
          min, hash := s.height, s.hash;
        }
        i := i + 1;
      }
      assert realms[..i] == realms;
      c := Cursor(min, hash);
    }

    /** Saves the cursor of the first `done` realms; the write after them failed, if any is left. */
    method SaveCursor(h: int, hash: Hash, done: nat) returns (ok: bool)
      requires Valid() && start <= h
      modifies this`cursors
      ensures Valid()
      ensures ok <==> done >= |realms|
      ensures WrittenFirst(old(cursors), cursors, realms, if ok then |realms| else done, Cursor(h, Some(hash)))
      ensures cursors == Written(old(cursors), realms, if ok then |realms| else done, Cursor(h, Some(hash)))
    {
      var i := 0;
      while i < |realms|
        invariant 0 <= i <= |realms| && i <= done && Valid()
        invariant cursors == Written(old(cursors), realms, i, Cursor(h, Some(hash)))
      {
        if i == done {
          break;
        }
        cursors := cursors[realms[i] := Cursor(h, Some(hash))];
        i := i + 1;
      }
      ok := i == |realms|;
      WrittenIsFirst(old(cursors), realms, i, Cursor(h, Some(hash)));
    }

    /** One watched event: the raw row first, then the sale, each only if it is not there yet. */
    method DispatchEvent(chain: Chain, h: int, i: nat, d: Dispatch) returns (ok: bool)
      requires 0 <= h < |chain| && i < |chain[h].events|
      modifies this`raw, this`sold
      ensures Now() == Dispatched(old(Now()), sells, chain, h, i, d)
      ensures ok <==> d == Projected
    {
      var e := chain[h].events[i];
      var k := Key(h, e.pos);
      if d == Nothing {
        return false;
      }
      if k !in raw {
        raw := raw[k := Row(e.realm, e.data, chain[h].hash)];
      }
      if d == RawOnly {
        return false;
      }
      if sells(e.realm, e.data) && k !in sold {
        sold := sold[k := Row(e.realm, e.data, chain[h].hash)];
      }
      return d == Projected;
    }

    /**
     Records the watched events of a block, and its sales; on an error the rest of the block is left for a
     retry. Where the ledger was right at the block, it gains rows of the block only, and all of them on success.
     */
    method ApplyBlock(chain: Chain, h: int, env: Env, ghost seen: set<Hash>) returns (ok: bool)
      requires 0 <= h < |chain|
      modifies this`raw, this`sold
      ensures Progress(Now(), ok) == Applied(old(Now()), Setup(), chain, h, env, |chain[h].events|)
      ensures WellFormed(chain) && Known(chain, seen) && RightAt(old(Now()), Setup(), chain, h, seen) ==>
        && GrowsAt(old(Now()), Now(), chain, watched, h)
        && (ok ==> Complete(raw, chain, watched, h) && SoldAt(Now(), sells, h))
    {
      ok := ApplyEvents(chain, h, env);
      if WellFormed(chain) && Known(chain, seen) && RightAt(old(Now()), Setup(), chain, h, seen) {
        AppliedGrows(old(Now()), Setup(), chain, h, env, |chain[h].events|, seen);
        if ok { AllDone(Now(), Setup(), chain, h); }
      }
    }

    /** The loop over the events of a block. */
    method ApplyEvents(chain: Chain, h: int, env: Env) returns (ok: bool)
      requires 0 <= h < |chain|
      modifies this`raw, this`sold
      ensures Progress(Now(), ok) == Applied(old(Now()), Setup(), chain, h, env, |chain[h].events|)
    {
      var events := chain[h].events;
      var i := 0;
      while i < |events|
        invariant 0 <= i <= |events|
        invariant Progress(Now(), true) == Applied(old(Now()), Setup(), chain, h, env, i)
      {
        if events[i].realm in watched {
          ok := DispatchEvent(chain, h, i, env.dispatched(h, i));
          if !ok {
            AppliedStop(old(Now()), Setup(), chain, h, env, i + 1, |events|);
            return;
          }
        }
        i := i + 1;
      }
      return true;
    }

    method Rollback(height: int)
      modifies this`raw, this`sold
      ensures raw == Below(old(raw), height) && sold == Below(old(sold), height)
    {
      raw, sold := Below(raw, height), Below(sold, height);
    }

    /** The next block: its events, then every realm's cursor. */
    method TakeBlock(chain: Chain, h: int, env: Env) returns (ok: bool)
      requires Valid() && start <= h
      modifies this
      ensures Valid() && Progress(Now(), ok) == BlockTaken(old(Now()), Setup(), chain, h, env)
    {
      if !env.fetched(h) || h >= |chain| {
        return false;
      }
      ok := ApplyBlock(chain, h, env, {});
      if ok {
        ok := SaveCursor(h, chain[h].hash, env.saved(h));
      }
    }

    /**
     Compares the cursor block's hash with the chain's and rolls it back when it changed. Right tables stay
     right, and from then on the cycle takes the blocks after `cursor`.
     */
    method Recheck(chain: Chain, env: Env, ghost seen: set<Hash>) returns (go: bool, cursor: int)
      requires Valid()
      modifies this`raw, this`sold
      ensures Progress(Now(), go) == Rechecked(old(Now()), Setup(), chain, env)
      ensures go ==> cursor == From(SavedIn(old(Now()), Setup()), chain) && cursor >= start - 1
      ensures Right(old(Now()), Setup(), chain, seen) ==>
        Right(Now(), Setup(), chain, seen) && (go ==> Reached(Now(), Setup(), chain, cursor, seen))
    {
      if Right(Now(), Setup(), chain, seen) { RecheckKeeps(Now(), Setup(), chain, env, seen); }
      var c := LoadCursor();
      cursor := c.height;
      if c.hash.Some? {
        SavedHeight(Now(), Setup());
        if !env.checked || cursor >= |chain| {
          return false, cursor;
        }
        if chain[cursor].hash != c.hash.value {
          if !env.rolledBack {
            return false, cursor;
          }
          Rollback(cursor);
          cursor := cursor - 1;
        }
      }
      return true, cursor;
    }

    /** Takes the blocks after `cursor` up to `end`, or as many as it can. */
    method TakeBlocks(chain: Chain, cursor: int, end: int, env: Env)
      requires Valid() && start - 1 <= cursor <= end
      modifies this
      ensures Valid() && Now() == BlocksTaken(old(Now()), Setup(), chain, cursor, end, env).tables
    {
      ghost var was, s := Now(), Setup();
      var h := cursor + 1;
      while h <= end
        invariant cursor + 1 <= h <= end + 1 && Valid()
        invariant Progress(Now(), true) == BlocksTaken(was, s, chain, cursor, h - 1, env)
      {
        ghost var before := Now();
        var ok := TakeBlock(chain, h, env);
        BlocksNext(was, s, chain, cursor, h, env, before);
        if !ok {
          BlocksStop(was, s, chain, cursor, h, end, env);
          return;
        }
        h := h + 1;
      }
    }

    /**
     One cycle: detect a changed cursor block, roll back, and take the next confirmed blocks. Right tables stay
     right under any failures, and a cycle without failures gets to its end.
     */
    method TailOnce(chain: Chain, env: Env, ghost seen: set<Hash>)
      requires Valid()
      modifies this
      ensures Valid() && Now() == Cycled(old(Now()), Setup(), chain, env)
      ensures WellFormed(chain) && Known(chain, seen) && Right(old(Now()), Setup(), chain, seen) ==>
        CycleIsRight(old(Now()), Now(), Setup(), chain, env, seen) && MovesOn(old(Now()), Now(), Setup(), chain, env)
    {
      if WellFormed(chain) && Known(chain, seen) && Right(Now(), Setup(), chain, seen) {
        CycleKeeps(Now(), Setup(), chain, env, seen);
        CycleMovesOn(Now(), Setup(), chain, env, seen);
      }
      if env.latest.None? {
        return;
      }
      var go, cursor := Recheck(chain, env, seen);
      if !go {
        return;
      }
      var end := ConfirmedEnd(env.latest.value, confirmations, cursor, MAX_BLOCKS_PER_CYCLE);
      if end <= cursor {
        return;
      }
      TakeBlocks(chain, cursor, end, env);
    }
  }

  /**
   Over any run of harmless reorganizations and cycles, with any failures, the
   ledger up to the saved cursor is exactly the chain's watched events, and the
   sales table its sales; or the stored hash is not the chain's and the next cycle
   rolls back. The run takes every turn up to the first harmful reorganization.
   */
  method Follow(t: Tailer, turns: seq<Turn>) returns (chain: Chain, n: nat)
    requires t.Valid() && t.Now() == EMPTY_TABLES
    modifies t
    ensures n <= |turns| && chain == ChainAfter(turns, n) && t.Now() == Followed(turns, n, t.Setup())
    ensures AllowedUpto(turns, n, t.Setup())
    ensures n < |turns| ==> !AllowedAt(turns, n, t.Setup())
    ensures Good(t.raw, chain, t.watched, t.start, SavedIn(t.Now(), t.Setup()))
    ensures Canonical(t.sold, chain, t.watched, t.sells, t.start, From(SavedIn(t.Now(), t.Setup()), chain))
  {
    chain, n := [], 0;
    var hashes: set<Hash> := {};
    while n < |turns|
      invariant n <= |turns| && chain == ChainAfter(turns, n) && hashes == HashesOf(turns, n)
      invariant t.Valid() && t.Now() == Followed(turns, n, t.Setup())
      invariant AllowedUpto(turns, n, t.Setup())
    {
      if !Allowed(turns[n], chain, t.Now(), t.Setup(), hashes) {
        break;
      }
      AllowedNext(turns, n, t.Setup());
      t.TailOnce(turns[n].chain, turns[n].env, {});
      chain, hashes, n := turns[n].chain, hashes + HashesIn(turns[n].chain), n + 1;
    }
    FollowedIsRight(turns, n, t.Setup());
    CanonicalSales(t.raw, t.sold, t.sells, chain, t.watched, t.start, SavedIn(t.Now(), t.Setup()));
  }
}
