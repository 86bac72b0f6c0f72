/** The binary search for the block that seeds a day. Block times need not be ordered. */
module DailyBlock {
  import opened Wrappers

  datatype Block = Block(height: int, hash: nat, time: int)

  datatype Error = NotReady | Unavailable

  /** The chain as the fetcher answers: a block, or nothing. */
  type Chain = int -> Option<Block>

  predicate Late(chain: Chain, h: int, midnight: int) {
    chain(h).Some? && chain(h).value.time >= midnight
  }

  /** The first late block after an early one, or the very first block. */
  predicate Crossing(chain: Chain, h: int, midnight: int) {
    Late(chain, h, midnight) && (h == 1 || (chain(h - 1).Some? && !Late(chain, h - 1, midnight)))
  }

  ghost predicate OrderedTimes(chain: Chain, latest: int) {
    forall i, j | 1 <= i <= j <= latest && chain(i).Some? && chain(j).Some? ::
      chain(i).value.time <= chain(j).value.time
  }

  /** The search between `lo` and `hi` meets a block that cannot be read. */
  predicate Broken(chain: Chain, lo: int, hi: int, midnight: int)
    decreases hi - lo + 1
  {
    lo <= hi &&
    var mid := lo + (hi - lo) / 2;
    chain(mid).None?
    || if Late(chain, mid, midnight) then Broken(chain, lo, mid - 1, midnight) else Broken(chain, mid + 1, hi, midnight)
  }

  /** Then there is such a block. */
  lemma {:induction false} BrokenAt(chain: Chain, lo: int, hi: int, midnight: int) returns (h: int)
    requires Broken(chain, lo, hi, midnight)
    ensures lo <= h <= hi && chain(h).None?
    decreases hi - lo + 1
  {
    var mid := lo + (hi - lo) / 2;
    if chain(mid).None? {
      h := mid;
    } else if Late(chain, mid, midnight) {
      h := BrokenAt(chain, lo, mid - 1, midnight);
    } else {
      h := BrokenAt(chain, mid + 1, hi, midnight);
    }
  }

  method SelectDailyBlock(chain: Chain, latest: Option<int>, midnight: int) returns (r: Result<Block, Error>)
    ensures r == Err(NotReady) <==>
      latest.Some? && (latest.value < 1 || (chain(latest.value).Some? && !Late(chain, latest.value, midnight)))
    ensures r == Err(Unavailable) <==>
      || latest.None?
      || (latest.value >= 1 && chain(latest.value).None?)
      || (latest.value >= 1 && Late(chain, latest.value, midnight) && Broken(chain, 1, latest.value, midnight))
    ensures r.Ok? ==>
      latest.Some? && exists h :: 1 <= h <= latest.value && chain(h) == Some(r.value) && Crossing(chain, h, midnight)
    ensures r.Ok? ==> r.value.time >= midnight
    ensures latest.Some? && latest.value >= 1 && (forall h | 1 <= h <= latest.value :: chain(h).Some?) ==>
      if chain(latest.value).value.time >= midnight then r.Ok? else r == Err(NotReady)
  {
    if latest.None? {
      return Err(Unavailable);
    }
    if latest.value < 1 {
      return Err(NotReady);
    }
    var top := chain(latest.value);
    if top.None? {
      return Err(Unavailable);
    }
    if top.value.time < midnight {
      return Err(NotReady);
    }
    var lo, hi := 1, latest.value;
    var ans := top.value;
    while lo <= hi
      invariant 1 <= lo <= hi + 1 <= latest.value + 1
      invariant Broken(chain, 1, latest.value, midnight) <==> Broken(chain, lo, hi, midnight)
      invariant lo > 1 ==> chain(lo - 1).Some? && !Late(chain, lo - 1, midnight)
      invariant hi < latest.value ==> chain(hi + 1) == Some(ans) && Late(chain, hi + 1, midnight)
    {
      var mid := lo + (hi - lo) / 2;
      var b := chain(mid);
      if b.None? {
        return Err(Unavailable);
      }
      if b.value.time >= midnight {
        ans := b.value;
        hi := mid - 1;
      } else {
        lo := mid + 1;
      }
    }
    assert hi < latest.value; // the tip is late, so something was found
    assert Crossing(chain, lo, midnight);
    r := Ok(ans);
  }

  /** If block times never go back, a crossing is the first block at or after midnight: all before it are earlier. */
  lemma NothingLateBefore(chain: Chain, latest: int, midnight: int, h: int, k: int)
    requires OrderedTimes(chain, latest) && 1 <= k < h <= latest
    requires Crossing(chain, h, midnight) && chain(k).Some?
    ensures chain(h).value.time >= midnight && chain(k).value.time < midnight
  {
    assert chain(k).value.time <= chain(h - 1).value.time;
  }
}
