/**
 The free-play limiter: a bounded table that refuses new identities rather than
 forget an active one.
 */
module FreePlayLimiter {
  import opened Windows
  import opened Wrappers

  const MAX_KEY: nat := 256

  datatype Entry = Entry(used: nat, expires: int)

  /** The length of a window, in any unit. */
  type Span = n: nat | n > 0 witness 1

  type Table = map<string, Entry>

  predicate ActiveAt(e: Entry, now: int) {
    e.expires > now
  }

  /** The entries that have not expired. */
  function Pruned(entries: Table, now: int): (r: Table)
    ensures r.Keys <= entries.Keys
  {
    map key | key in entries && ActiveAt(entries[key], now) :: entries[key]
  }

  function Lookup(entries: Table, key: string): Option<Entry> {
    if key in entries then Some(entries[key]) else None
  }

  /** The entry of an identity as far as it is active. */
  function Live(entries: Table, key: string, now: int): Option<Entry> {
    if key in entries && ActiveAt(entries[key], now) then Some(entries[key]) else None
  }

  lemma PrunedSize(entries: Table, now: int)
    ensures |Pruned(entries, now)| <= |entries|
  {
    Fewer(Pruned(entries, now).Keys, entries.Keys);
  }

  lemma {:induction false} Fewer<T>(a: set<T>, b: set<T>)
    requires a <= b
    ensures |a| <= |b|
  {
    if a != {} {
      var x :| x in a;
      Fewer(a - {x}, b - {x});
    }
  }

  /** The request is well formed, and there is room for its identity. */
  predicate Admissible(entries: Table, key: string, now: int, maximum: int, limit: nat) {
    && key != "" && |key| <= MAX_KEY
    && match Live(entries, key, now)
       case Some(e) => e.used < maximum
       case None => 0 < maximum && |Pruned(entries, now)| < limit
  }

  /** The identity already had `maximum` requests admitted in a window that is still open. */
  predicate Spent(ws: seq<Window>, window: nat, maximum: int, now: int) {
    ws != [] && now < Last(ws).start + window && |Last(ws).times| >= maximum
  }

  function Active(entries: Table, now: int): set<string> {
    set key | key in entries && entries[key].expires > now
  }

  lemma ActiveSize(entries: Table, now: int)
    ensures |Pruned(entries, now)| == |Active(entries, now)|
  {
    assert Pruned(entries, now).Keys == Active(entries, now);
  }

  class Limiter {
    var entries: Table
    const limit: nat // the most entries kept
    const window: Span
    ghost var windows: map<string, seq<Window>> // what was admitted
    ghost var caps: string -> nat // the maximum of each identity
    ghost var clock: int

    ghost predicate KeyOk(key: string)
      reads this`entries, this`windows, this`caps, this`clock
    {
      Recorded(Lookup(entries, key), WindowsOf(windows, key), window, caps(key), clock)
    }

    ghost predicate Valid()
      reads this`entries, this`windows, this`caps, this`clock
    {
      |entries| <= limit && forall key :: KeyOk(key)
    }

    constructor (limit: nat, window: Span, ghost caps: string -> nat)
      requires limit >= 2
      ensures Valid() && entries == map[] && this.limit == limit && this.window == window && this.caps == caps
    {
      this.limit, this.window, this.caps := limit, window, caps;
      entries, windows, clock := map[], map[], 0;
    }

    /** Removes what has expired, and nothing else. */
    method Prune(now: int)
      requires Valid() && clock <= now
      modifies this`entries, this`clock
      ensures Valid() && clock == now && entries == Pruned(old(entries), now)
    {
      PrunedSize(entries, now);
      entries := Pruned(entries, now);
      clock := now;
      forall key ensures KeyOk(key) {
        assert old(KeyOk(key));
      }
    }

    /** Forgets an identity whose entry has expired. */
    method Forget(key: string, now: int)
      requires Valid() && clock <= now && Live(entries, key, now).None?
      modifies this`entries, this`clock
      ensures Valid() && clock == now && entries == old(entries) - {key}
    {
      RemovedSize(entries, key);
      entries := entries - {key};
      clock := now;
      forall k ensures KeyOk(k) {
        assert old(KeyOk(k));
      }
    }

    /** Room for a new identity, whose own expired entry goes first. */
    method MakeRoom(key: string, now: int) returns (room: bool)
      requires Valid() && clock <= now && Live(entries, key, now).None?
      modifies this`entries, this`clock
      ensures Valid() && clock == now && key !in entries
      ensures room <==> |Pruned(old(entries), now)| < limit
      ensures room ==> |entries| < limit
      ensures forall k :: Live(entries, k, now) == Live(old(entries), k, now)
    {
      SamePruned(entries, key, now);
      Forget(key, now);
      PrunedSize(entries, now);
      if |entries| >= limit {
        Prune(now);
      }
      room := |entries| < limit;
    }

    /** One request of an identity whose maximum is `maximum`. */
    method Allow(cancelled: bool, key: string, maximum: int, now: int) returns (ok: bool)
      requires Valid() && clock <= now && maximum == caps(key)
      modifies this`entries, this`windows, this`clock
      ensures Valid()
      ensures ok <==> !cancelled && Admissible(old(entries), key, now, maximum, limit)
      ensures !cancelled && key != "" && |key| <= 256 && maximum > 0 && !ok ==>
        Spent(WindowsOf(old(windows), key), window, maximum, now) || |Active(old(entries), now)| >= limit
      ensures forall k | k != key || !ok :: Live(entries, k, now) == Live(old(entries), k, now)
      ensures ok ==> Live(entries, key, now) == Some(Used(Live(old(entries), key, now), now, window))
      ensures windows == if ok then
          old(windows)[key := Admit(WindowsOf(old(windows), key), Live(old(entries), key, now), now)]
                         else old(windows)
    {
      ActiveSize(entries, now);
      assert KeyOk(key);
      if cancelled || key == "" || |key| > MAX_KEY {
        return false;
      }
      var live := Live(entries, key, now);
      if live.None? {
        var room := MakeRoom(key, now);
        if !room {
          return false;
        }
      }
      if (if live.Some? then live.value.used else 0) >= maximum {
        return false;
      }
      Record(key, live, now);
      ok := true;
    }

    /** Counts one more use of an identity that may have it. */
    method Record(key: string, live: Option<Entry>, now: int)
      requires Valid() && clock <= now && Lookup(entries, key) == live
      requires match live
               case Some(e) => now < e.expires && e.used < caps(key)
               case None => caps(key) > 0 && |entries| < limit
      modifies this`entries, this`windows, this`clock
      ensures Valid() && clock == now
      ensures entries == old(entries)[key := Used(live, now, window)]
      ensures windows == old(windows)[key := Admit(WindowsOf(old(windows), key), live, now)]
    {
      assert KeyOk(key);
      ghost var ws := WindowsOf(windows, key);
      RequestRecorded(live, ws, window, caps(key), clock, now);
      AddedSize(entries, key, Used(live, now, window));
      entries := entries[key := Used(live, now, window)];
      windows := windows[key := Admit(ws, live, now)];
      clock := now;
      forall k ensures KeyOk(k) {
        assert old(KeyOk(k));
      }
    }

    /** Any interval of one window length admits at most twice the identity's maximum. */
    lemma AtMostTwice(key: string, t: int)
      requires Valid()
      ensures Admitted(WindowsOf(windows, key), t, t + window) <= 2 * caps(key)
    {
      assert KeyOk(key);
      AdmittedInInterval(WindowsOf(windows, key), window, caps(key), t);
    }
  }

  function WindowsOf(windows: map<string, seq<Window>>, key: string): seq<Window> {
    if key in windows then windows[key] else []
  }

  /** One more use, in the live window or a new one. */
  function Used(e: Option<Entry>, now: int, window: nat): Entry {
    if e.Some? then e.value.(used := e.value.used + 1) else Entry(1, now + window)
  }

  /** The entry counts exactly the last window, or that window has passed. */
  ghost predicate Recorded(e: Option<Entry>, ws: seq<Window>, window: nat, cap: nat, clock: int) {
    && Spaced(ws, window, cap)
    && (ws != [] ==>
      Last(ws).start <= clock && forall k | 0 <= k < |Last(ws).times| :: Last(ws).times[k] < Last(ws).start + window)
    && if e.None? then ws != [] ==> Last(ws).start + window <= clock
       else ws != [] && e.value.expires == Last(ws).start + window && |Last(ws).times| == e.value.used
  }

  function Admit(ws: seq<Window>, e: Option<Entry>, now: int): seq<Window> {
    if e.None? || ws == [] then ws + [Window(now, [now])] else Join(ws, now)
  }

  lemma RequestRecorded(e: Option<Entry>, ws: seq<Window>, window: nat, cap: nat, clock: int, now: int)
    requires Recorded(e, ws, window, cap, clock) && clock <= now && window > 0
    requires if e.Some? then now < e.value.expires && e.value.used < cap else cap > 0
    ensures Recorded(Some(Used(e, now, window)), Admit(ws, e, now), window, cap, now)
  {
    if e.None? {
      WindowOpened(ws, window, cap, now);
    } else {
      WindowJoined(ws, window, cap, now);
    }
  }

  lemma RemovedSize(entries: Table, key: string)
    ensures |entries - {key}| <= |entries|
  {
    Fewer((entries - {key}).Keys, entries.Keys);
  }

  lemma AddedSize(entries: Table, key: string, e: Entry)
    ensures |entries[key := e]| <= |entries| + if key in entries then 0 else 1
  {
    assert entries[key := e].Keys == entries.Keys + {key};
  }

  lemma SamePruned(entries: Table, key: string, now: int)
    requires Live(entries, key, now).None?
    ensures Pruned(entries - {key}, now) == Pruned(entries, now)
  {
  }
}
