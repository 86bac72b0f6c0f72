/**
 The per-key request limiter and its collector. The source joins identity and
 endpoint into one string; here they are a pair.
 */
module RateLimit {
  import opened Windows
  import opened Wrappers

  datatype Config = Config(maxRequests: int, window: nat)

  /** An identity and an endpoint. */
  datatype Key = Key(id: string, endpoint: string)

  datatype Entry = Entry(count: nat, expiry: int)

  // ----- one request, and what cleaning up cannot change

  /** The answer to a request. */
  function Answer(e: Option<Entry>, cfg: Config, now: int): bool {
    e.None? || now > e.value.expiry || e.value.count + 1 <= cfg.maxRequests
  }

  function Counted(e: Option<Entry>, cfg: Config, now: int): Entry {
    if e.None? || now > e.value.expiry then Entry(1, now + cfg.window) else e.value.(count := e.value.count + 1)
  }

  function Lookup<T>(m: map<Key, T>, key: Key): Option<T> {
    if key in m then Some(m[key]) else None
  }

  datatype Event = Request(key: Key, now: int) | Gc(now: int)

  function After(entries: map<Key, Entry>, e: Event, configs: string -> Config): map<Key, Entry> {
    match e
    case Request(key, now) => entries[key := Counted(Lookup(entries, key), configs(key.endpoint), now)]
    case Gc(now) => map key | key in entries && !(now > entries[key].expiry) :: entries[key]
  }

  /** The answers to the requests among the events, in order. */
  function Answers(entries: map<Key, Entry>, events: seq<Event>, configs: string -> Config): seq<bool>
    decreases events
  {
    if events == [] then []
    else
      var e := events[0];
      (if e.Request? then [Answer(Lookup(entries, e.key), configs(e.key.endpoint), e.now)] else [])
      + Answers(After(entries, e, configs), events[1..], configs)
  }

  function Requests(events: seq<Event>): seq<Event> {
    if events == [] then []
    else (if events[0].Request? then [events[0]] else []) + Requests(events[1..])
  }

  ghost predicate InOrder(events: seq<Event>, clock: int) {
    events != [] ==> clock <= events[0].now && InOrder(events[1..], events[0].now)
  }

  /** The tables differ only in entries that have expired. */
  ghost predicate SameAt(a: map<Key, Entry>, b: map<Key, Entry>, clock: int, key: Key) {
    Lookup(a, key) == Lookup(b, key) || (key !in b && key in a && a[key].expiry < clock)
  }

  ghost predicate SameButExpired(a: map<Key, Entry>, b: map<Key, Entry>, clock: int) {
    forall key :: SameAt(a, b, clock, key)
  }

  /** Cleaning up at any moments changes no answer. */
  lemma {:induction false} GcChangesNothing(a: map<Key, Entry>, b: map<Key, Entry>, events: seq<Event>, clock: int,
                                            configs: string -> Config)
    requires SameButExpired(a, b, clock) && InOrder(events, clock)
    ensures Answers(b, events, configs) == Answers(a, Requests(events), configs)
    decreases events
  {
    if events != [] {
      var e := events[0];
      var b' := After(b, e, configs);
      if e.Request? {
        var a' := After(a, e, configs);
        assert SameAt(a, b, clock, e.key);
        forall key ensures SameAt(a', b', e.now, key) {
          assert SameAt(a, b, clock, key);
        }
        GcChangesNothing(a', b', events[1..], e.now, configs);
        assert ([e] + Requests(events[1..]))[1..] == Requests(events[1..]);
      } else {
        forall key ensures SameAt(a, b', e.now, key) {
          assert SameAt(a, b, clock, key);
        }
        GcChangesNothing(a, b', events[1..], e.now, configs);
        assert Requests(events) == Requests(events[1..]);
      }
    }
  }

  // ----- a whole window

  /** The answers to the requests of one key among the events. */
  function AnswersTo(key: Key, entries: map<Key, Entry>, events: seq<Event>, configs: string -> Config): seq<bool>
    decreases events
  {
    if events == [] then []
    else
      var e := events[0];
      (if e.Request? && e.key == key then [Answer(Lookup(entries, key), configs(key.endpoint), e.now)] else [])
      + AnswersTo(key, After(entries, e, configs), events[1..], configs)
  }

  /** Those of the answers are positive that a count from `used` on leaves within the maximum. */
  predicate CountsOn(answers: seq<bool>, used: nat, maxRequests: int) {
    forall j | 0 <= j < |answers| :: answers[j] == (used + j + 1 <= maxRequests)
  }

  lemma CountsOneMore(ok: bool, answers: seq<bool>, used: nat, maxRequests: int)
    requires ok == (used + 1 <= maxRequests) && CountsOn(answers, used + 1, maxRequests)
    ensures CountsOn([ok] + answers, used, maxRequests)
  {
  }

  /** Until the entry expires its count goes on, whatever other keys and the collector do. */
  lemma {:induction false} CountGoesOn(key: Key, entries: map<Key, Entry>, events: seq<Event>,
                                       configs: string -> Config)
    requires key in entries && forall i | 0 <= i < |events| :: events[i].now <= entries[key].expiry
    ensures CountsOn(AnswersTo(key, entries, events, configs), entries[key].count, configs(key.endpoint).maxRequests)
    decreases events
  {
    if events != [] {
      var e, rest := events[0], events[1..];
      var entries' := After(entries, e, configs);
      assert key in entries' && entries'[key].expiry == entries[key].expiry;
      forall i | 0 <= i < |rest| ensures rest[i].now <= entries'[key].expiry {
        assert rest[i] == events[i + 1];
      }
      CountGoesOn(key, entries', rest, configs);
      var tail := AnswersTo(key, entries', rest, configs);
      if e.Request? && e.key == key {
        var ok := Answer(Some(entries[key]), configs(key.endpoint), e.now);
        CountsOneMore(ok, tail, entries[key].count, configs(key.endpoint).maxRequests);
        assert AnswersTo(key, entries, events, configs) == [ok] + tail;
      } else {
        assert AnswersTo(key, entries, events, configs) == tail;
      }
    }
  }

  /** Of the requests of a key in the window which its first one opens, the first `Cap` are admitted, no more. */
  lemma FirstOnesAdmitted(key: Key, entries: map<Key, Entry>, now: int, events: seq<Event>, configs: string -> Config)
    requires key in entries ==> now > entries[key].expiry
    requires forall i | 0 <= i < |events| :: events[i].now <= now + configs(key.endpoint).window
    ensures var answers := AnswersTo(key, entries, [Request(key, now)] + events, configs);
      forall j | 0 <= j < |answers| :: answers[j] == (j < Cap(configs(key.endpoint)))
  {
    var all, e, cfg := [Request(key, now)] + events, Request(key, now), configs(key.endpoint);
    assert all[0] == e && all[1..] == events;
    var entries' := After(entries, e, configs);
    CountGoesOn(key, entries', events, configs);
    var answers, tail := AnswersTo(key, entries, all, configs), AnswersTo(key, entries', events, configs);
    assert answers == [true] + tail;
    forall j | 0 <= j < |answers| ensures answers[j] == (j < Cap(cfg)) {
      if j > 0 { assert tail[j - 1] == (1 + (j - 1) + 1 <= cfg.maxRequests); }
    }
  }

  // ----- the limiter

  function Cap(cfg: Config): nat {
    if cfg.maxRequests < 1 then 1 else cfg.maxRequests
  }

  class Limiter {
    var entries: map<Key, Entry>
    const configs: string -> Config // the endpoint's, or the default
    ghost var windows: map<Key, seq<Window>> // what was admitted
    ghost var clock: int

    ghost predicate KeyOk(key: Key)
      reads this
    {
      Recorded(Lookup(entries, key), WindowsOf(windows, key), configs(key.endpoint), clock)
    }

    ghost predicate Valid()
      reads this
    {
      forall key :: KeyOk(key)
    }

    constructor (c: string -> Config)
      ensures Valid() && entries == map[] && configs == c && clock == 0
    {
      entries, configs, windows, clock := map[], c, map[], 0;
    }

    method AllowKey(key: Key, now: int) returns (ok: bool)
      requires Valid() && clock <= now
      modifies this
      ensures Valid() && clock == now
      ensures ok == Answer(Lookup(old(entries), key), configs(key.endpoint), now)
      ensures entries == After(old(entries), Request(key, now), configs)
      ensures var ws := WindowsOf(old(windows), key);
        windows == old(windows)[key := if ok then Admit(ws, Lookup(old(entries), key), now) else ws]
    {
      var cfg := configs(key.endpoint);
      ghost var e, ws := Lookup(entries, key), WindowsOf(windows, key);
      assert KeyOk(key);
      RequestRecorded(e, ws, cfg, clock, now);
      if key !in entries || now > entries[key].expiry {
        entries := entries[key := Entry(1, now + cfg.window)];
        ok := true;
      } else {
        entries := entries[key := entries[key].(count := entries[key].count + 1)];
        ok := entries[key].count <= cfg.maxRequests;
      }
      windows := windows[key := if ok then Admit(ws, e, now) else ws];
      clock := now;
      forall k ensures KeyOk(k) {
        assert old(KeyOk(k));
      }
    }

    /** The collector's loop over the entries. */
    method Collect(now: int)
      requires Valid() && clock <= now
      modifies this
      ensures Valid() && clock == now
      ensures entries == After(old(entries), Gc(now), configs) && windows == old(windows)
    {
      var todo := entries.Keys;
      while todo != {}
        invariant todo <= old(entries).Keys && windows == old(windows) && clock == old(clock)
        invariant forall k :: Lookup(entries, k) == Left(old(entries), todo, now, k)
      {
        var k :| k in todo;
        assert Lookup(entries, k) == Left(old(entries), todo, now, k);
        ghost var was, open := entries, todo;
        if now > entries[k].expiry {
          entries := entries - {k};
        }
        todo := todo - {k};
        forall q ensures Lookup(entries, q) == Left(old(entries), todo, now, q) {
          assert Lookup(was, q) == Left(old(entries), open, now, q);
        }
      }
      assert entries == After(old(entries), Gc(now), configs) by {
        forall k ensures Lookup(entries, k) == Lookup(After(old(entries), Gc(now), configs), k) {
        }
        SameMap(entries, After(old(entries), Gc(now), configs));
      }
      clock := now;
      forall k ensures KeyOk(k) {
        assert old(KeyOk(k));
      }
    }

    /** Any interval of one window length admits at most twice the endpoint's maximum. */
    lemma AtMostTwice(key: Key, t: int)
      requires Valid()
      ensures Admitted(WindowsOf(windows, key), t, t + configs(key.endpoint).window) <= 2 * Cap(configs(key.endpoint))
    {
      assert KeyOk(key);
      AdmittedInInterval(WindowsOf(windows, key), configs(key.endpoint).window, Cap(configs(key.endpoint)), t);
    }
  }

  function WindowsOf(windows: map<Key, seq<Window>>, key: Key): seq<Window> {
    if key in windows then windows[key] else []
  }

  /** The entry counts the last window, or that window has passed. */
  ghost predicate Recorded(e: Option<Entry>, ws: seq<Window>, cfg: Config, clock: int) {
    && Spaced(ws, cfg.window, Cap(cfg))
    && (ws != [] ==>
      Last(ws).start <= clock && forall k | 0 <= k < |Last(ws).times| ::
        Last(ws).times[k] <= Last(ws).start + cfg.window)
    && if e.None? then ws != [] ==> Last(ws).start + cfg.window < clock
       else ws != [] && e.value.expiry == Last(ws).start + cfg.window && |Last(ws).times| <= e.value.count
  }

  /** What cleaning up has left of `k`. */
  function Left(entries: map<Key, Entry>, todo: set<Key>, now: int, k: Key): Option<Entry> {
    if k in entries && k !in todo && now > entries[k].expiry then None else Lookup(entries, k)
  }

  function Admit(ws: seq<Window>, e: Option<Entry>, now: int): seq<Window> {
    if e.None? || now > e.value.expiry || ws == [] then ws + [Window(now, [now])] else Join(ws, now)
  }

  lemma RequestRecorded(e: Option<Entry>, ws: seq<Window>, cfg: Config, clock: int, now: int)
    requires Recorded(e, ws, cfg, clock) && clock <= now
    ensures Recorded(Some(Counted(e, cfg, now)), if Answer(e, cfg, now) then Admit(ws, e, now) else ws, cfg, now)
  {
    if e.None? || now > e.value.expiry {
      WindowOpened(ws, cfg.window, Cap(cfg), now);
    } else if Answer(e, cfg, now) {
      WindowJoined(ws, cfg.window, Cap(cfg), now);
    }
  }

  lemma SameMap(a: map<Key, Entry>, b: map<Key, Entry>)
    requires forall k :: Lookup(a, k) == Lookup(b, k)
    ensures a == b
  {
    forall k ensures k in a <==> k in b {
      assert Lookup(a, k) == Lookup(b, k);
    }
    forall k | k in a ensures a[k] == b[k] {
      assert Lookup(a, k) == Lookup(b, k);
    }
  }
}
