/**
 Fixed-window request limiters. What they admit is recorded by window; two windows
 bound every interval as long as one window.
 */
module Windows {
  /** A window: when it began and when it admitted. */
  datatype Window = Window(start: int, times: seq<int>)

  function Last(ws: seq<Window>): Window
    requires ws != []
  {
    ws[|ws| - 1]
  }

  predicate WindowAt(ws: seq<Window>, length: nat, cap: nat, i: int) {
    0 <= i < |ws| ==>
      && |ws[i].times| <= cap
      && (forall k | 0 <= k < |ws[i].times| :: ws[i].start <= ws[i].times[k])
      && (i + 1 < |ws| ==>
        && ws[i].start + length <= ws[i + 1].start
        && forall k | 0 <= k < |ws[i].times| :: ws[i].times[k] < ws[i + 1].start)
  }

  /** Windows begin at least a length apart, admit between, and no more than the cap each. */
  ghost predicate Spaced(ws: seq<Window>, length: nat, cap: nat) {
    forall i :: WindowAt(ws, length, cap, i)
  }

  /** How many times lie in the closed interval. */
  function Within(times: seq<int>, from: int, to: int): (n: nat)
    ensures n <= |times|
  {
    if times == [] then 0
    else Within(times[..|times| - 1], from, to) + if from <= times[|times| - 1] <= to then 1 else 0
  }

  function Admitted(ws: seq<Window>, from: int, to: int): nat {
    if ws == [] then 0 else Admitted(ws[..|ws| - 1], from, to) + Within(Last(ws).times, from, to)
  }

  lemma {:induction false} NoneWithin(times: seq<int>, from: int, to: int)
    requires forall k | 0 <= k < |times| :: times[k] < from || times[k] > to
    ensures Within(times, from, to) == 0
  {
    if times != [] { NoneWithin(times[..|times| - 1], from, to); }
  }

  lemma SpacedPrefix(ws: seq<Window>, length: nat, cap: nat, n: nat)
    requires Spaced(ws, length, cap) && n <= |ws|
    ensures Spaced(ws[..n], length, cap)
  {
    var front := ws[..n];
    forall i ensures WindowAt(front, length, cap, i) {
      assert WindowAt(ws, length, cap, i);
    }
  }

  /** Windows that all admitted before `from` count nothing. */
  lemma {:induction false} NoneAdmitted(ws: seq<Window>, length: nat, cap: nat, from: int, to: int)
    requires Spaced(ws, length, cap)
    requires ws != [] ==> forall k | 0 <= k < |Last(ws).times| :: Last(ws).times[k] < from
    requires ws != [] ==> Last(ws).start <= from
    ensures Admitted(ws, from, to) == 0
  {
    if ws != [] {
      var n := |ws| - 1;
      NoneWithin(Last(ws).times, from, to);
      SpacedPrefix(ws, length, cap, n);
      assert WindowAt(ws, length, cap, n - 1);
      NoneAdmitted(ws[..n], length, cap, from, to);
    }
  }

  /** Any interval as long as a window holds at most two windows' worth. */
  lemma {:induction false} AdmittedInInterval(ws: seq<Window>, length: nat, cap: nat, t: int)
    requires Spaced(ws, length, cap)
    ensures Admitted(ws, t, t + length) <= 2 * cap
  {
    if ws != [] {
      var n := |ws| - 1;
      var front := ws[..n];
      SpacedPrefix(ws, length, cap, n);
      assert WindowAt(ws, length, cap, n);
      if Last(ws).start > t + length {
        NoneWithin(Last(ws).times, t, t + length);
        AdmittedInInterval(front, length, cap, t);
      } else if front != [] {
        TwoWindows(ws, length, cap, t);
      }
    }
  }

  /** If the last window reaches into the interval, only the one before may, too. */
  lemma TwoWindows(ws: seq<Window>, length: nat, cap: nat, t: int)
    requires Spaced(ws, length, cap) && |ws| >= 2 && Last(ws).start <= t + length
    ensures Admitted(ws, t, t + length) <= 2 * cap
  {
    var n := |ws| - 1;
    var front := ws[..n];
    var older := front[..n - 1];
    assert WindowAt(ws, length, cap, n) && WindowAt(ws, length, cap, n - 1) && WindowAt(ws, length, cap, n - 2);
    SpacedPrefix(ws, length, cap, n);
    SpacedPrefix(front, length, cap, n - 1);
    assert front[n - 1].start <= t;
    NoneAdmitted(older, length, cap, t, t + length);
  }

  /** A first admission in a new window. */
  lemma WindowOpened(ws: seq<Window>, length: nat, cap: nat, now: int)
    requires Spaced(ws, length, cap) && cap >= 1
    requires ws != [] ==>
      Last(ws).start + length <= now && forall k | 0 <= k < |Last(ws).times| :: Last(ws).times[k] < now
    ensures Spaced(ws + [Window(now, [now])], length, cap)
  {
    var more := ws + [Window(now, [now])];
    forall i ensures WindowAt(more, length, cap, i) {
      assert WindowAt(ws, length, cap, i);
    }
  }

  function Join(ws: seq<Window>, now: int): seq<Window>
    requires ws != []
  {
    ws[|ws| - 1 := Window(Last(ws).start, Last(ws).times + [now])]
  }

  /** One more admission in the last window. */
  lemma WindowJoined(ws: seq<Window>, length: nat, cap: nat, now: int)
    requires Spaced(ws, length, cap) && ws != [] && |Last(ws).times| < cap && Last(ws).start <= now
    ensures Spaced(Join(ws, now), length, cap)
  {
    var more := Join(ws, now);
    forall i ensures WindowAt(more, length, cap, i) {
      assert WindowAt(ws, length, cap, i) && WindowAt(ws, length, cap, |ws| - 1);
    }
  }
}
