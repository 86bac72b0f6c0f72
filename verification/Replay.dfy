/**
 Replaying a free-play log with undos. The game engine is not part of this model:
 it is a parameter, four arbitrary functions.
 */
module Replay {
  import opened Wrappers

  const MAX_ACTIONS: nat := 100000

  /** A state is over, and counts the draws made so far; a move that draws nothing changed nothing. */
  datatype Engine<!S> = Engine(init: S, step: (S, char) -> S, over: S -> bool, draws: S -> int)

  datatype Error = InvalidReplaySize | InvalidUndo | InvalidAction | MoveAfterTerminal | NoopMove | NotTerminal

  predicate IsMove(a: char) {
    a == 'U' || a == 'R' || a == 'D' || a == 'L'
  }

  /** Why a move is refused in a state, if it is. */
  function Refusal<S>(e: Engine<S>, s: S, a: char): Option<Error> {
    if !IsMove(a) then Some(InvalidAction)
    else if e.over(s) then Some(MoveAfterTerminal)
    else if e.draws(e.step(s, a)) == e.draws(s) then Some(NoopMove)
    else None
  }

  // ----- the reference: undo cancels the last move not cancelled yet

  /** The moves that no undo cancels, unless an undo has nothing to cancel. */
  function Survivors(log: seq<char>): Option<seq<char>> {
    if log == [] then Some([])
    else
      var k := |log| - 1;
      var before := Survivors(log[..k]);
      if before.None? then None
      else if log[k] != 'Z' then Some(before.value + [log[k]])
      else if before.value == [] then None
      else Some(before.value[..|before.value| - 1])
  }

  /** The state after a play without undos, unless one of its moves is refused. */
  function Play<S>(e: Engine<S>, moves: seq<char>): Option<S> {
    if moves == [] then Some(e.init)
    else
      var k := |moves| - 1;
      var before := Play(e, moves[..k]);
      if before.Some? && Refusal(e, before.value, moves[k]).None? then Some(e.step(before.value, moves[k])) else None
  }

  /** Each of the four moves is legal while the game goes on and the move draws something, and nothing else is. */
  predicate Legal<S>(e: Engine<S>, s: S, a: char) {
    (a == 'U' || a == 'R' || a == 'D' || a == 'L') && !e.over(s) && e.draws(e.step(s, a)) != e.draws(s)
  }

  /** A play goes through exactly if every move is legal in the state that it finds. */
  lemma {:induction false} PlaysExactly<S>(e: Engine<S>, moves: seq<char>)
    ensures Play(e, moves).Some? <==>
      forall i | 0 <= i < |moves| :: Play(e, moves[..i]).Some? && Legal(e, Play(e, moves[..i]).value, moves[i])
  {
    if moves != [] {
      var k := |moves| - 1;
      PlaysExactly(e, moves[..k]);
      assert forall i | 0 <= i < k :: moves[..k][..i] == moves[..i];
    }
  }

  /** Why a move is refused: it is none, or comes after the end, or draws nothing. */
  lemma RefusedFor<S>(e: Engine<S>, log: seq<char>, i: nat, why: Error)
    requires FailsAt(e, log, i, why) && log[i] != 'Z'
    ensures var s, move := StateOf(e, log[..i]), log[i] in "URDL";
      if !move then why == InvalidAction
      else if e.over(s) then why == MoveAfterTerminal
      else why == NoopMove && e.draws(e.step(s, log[i])) == e.draws(s)
  {
  }

  /** The log so far stands for a play. */
  predicate Stands<S>(e: Engine<S>, log: seq<char>) {
    Survivors(log).Some? && Play(e, Survivors(log).value).Some?
  }

  function StateOf<S>(e: Engine<S>, log: seq<char>): S
    requires Stands(e, log)
  {
    Play(e, Survivors(log).value).value
  }

  /** A log is good exactly when it stands for a play at every moment and the last one is over. */
  ghost predicate Accepted<S>(e: Engine<S>, log: seq<char>) {
    && 0 < |log| <= MAX_ACTIONS
    && (forall i | 0 <= i <= |log| :: Stands(e, log[..i]))
    && e.over(StateOf(e, log[..|log|]))
  }

  /** The `i`-th action is the first bad one, for the reason `why`. */
  ghost predicate FailsAt<S>(e: Engine<S>, log: seq<char>, i: nat, why: Error) {
    && i < |log| && (forall k | 0 <= k <= i :: Stands(e, log[..k]))
    && if log[i] == 'Z' then why == InvalidUndo && Survivors(log[..i]).value == []
       else Refusal(e, StateOf(e, log[..i]), log[i]) == Some(why)
  }

  // ----- the replay

  /** The states before each surviving move. */
  ghost predicate Remembers<S>(e: Engine<S>, history: seq<S>, moves: seq<char>) {
    |history| == |moves| && forall j | 0 <= j < |moves| :: Play(e, moves[..j]) == Some(history[j])
  }

  lemma PlayUndone<S>(e: Engine<S>, history: seq<S>, moves: seq<char>)
    requires Remembers(e, history, moves) && moves != []
    ensures var k := |moves| - 1; Play(e, moves[..k]) == Some(history[k]) && Remembers(e, history[..k], moves[..k])
  {
    var k := |moves| - 1;
    forall j | 0 <= j < k ensures Play(e, moves[..k][..j]) == Some(history[..k][j]) {
      assert moves[..k][..j] == moves[..j];
    }
  }

  lemma PlayMoved<S>(e: Engine<S>, history: seq<S>, moves: seq<char>, s: S, a: char)
    requires Remembers(e, history, moves) && Play(e, moves) == Some(s) && Refusal(e, s, a).None?
    ensures Play(e, moves + [a]) == Some(e.step(s, a)) && Remembers(e, history + [s], moves + [a])
  {
    var more := moves + [a];
    forall j | 0 <= j < |more| ensures Play(e, more[..j]) == Some((history + [s])[j]) {
      assert more[..j] == moves[..j];
      assert moves[..|moves|] == moves;
    }
    assert more[..|moves|] == moves;
  }

  /** A log stops standing for a play at its first bad action. */
  lemma FailureShows<S>(e: Engine<S>, log: seq<char>, i: nat, why: Error)
    requires FailsAt(e, log, i, why)
    ensures !Stands(e, log[..i + 1])
  {
    var ms := Survivors(log[..i]).value;
    assert log[..i + 1][..i] == log[..i];
    if log[i] != 'Z' {
      assert (ms + [log[i]])[..|ms|] == ms;
    }
  }

  /** The log up to `i` stands for a play that ends in `state`, with its states remembered. */
  ghost predicate Tracks<S>(e: Engine<S>, log: seq<char>, i: nat, history: seq<S>, state: S) {
    && i <= |log| && Stands(e, log[..i]) && StateOf(e, log[..i]) == state
    && Remembers(e, history, Survivors(log[..i]).value)
  }

  lemma UndoStep<S>(e: Engine<S>, log: seq<char>, i: nat, history: seq<S>, state: S)
    requires i < |log| && log[i] == 'Z' && Tracks(e, log, i, history, state)
    requires forall k | 0 <= k <= i :: Stands(e, log[..k])
    ensures if history == [] then FailsAt(e, log, i, InvalidUndo)
            else Tracks(e, log, i + 1, history[..|history| - 1], history[|history| - 1])
  {
    if history != [] {
      assert log[..i + 1][..i] == log[..i];
      PlayUndone(e, history, Survivors(log[..i]).value);
    }
  }

  lemma MoveStep<S>(e: Engine<S>, log: seq<char>, i: nat, history: seq<S>, state: S)
    requires i < |log| && log[i] != 'Z' && Tracks(e, log, i, history, state)
    requires forall k | 0 <= k <= i :: Stands(e, log[..k])
    ensures var refusal := Refusal(e, state, log[i]);
      if refusal.Some? then FailsAt(e, log, i, refusal.value)
      else Tracks(e, log, i + 1, history + [state], e.step(state, log[i]))
  {
    if Refusal(e, state, log[i]).None? {
      assert log[..i + 1][..i] == log[..i];
      PlayMoved(e, history, Survivors(log[..i]).value, state, log[i]);
    }
  }

  method VerifyFreePlay<S>(e: Engine<S>, log: seq<char>) returns (r: Result<S, Error>)
    ensures r.Ok? <==> Accepted(e, log)
    ensures r.Ok? ==> Stands(e, log) && r.value == StateOf(e, log)
    ensures r == Err(InvalidReplaySize) <==> !(0 < |log| <= MAX_ACTIONS)
    ensures r == Err(NotTerminal) ==> Stands(e, log) && !e.over(StateOf(e, log))
    ensures r.Err? && !r.error.InvalidReplaySize? && !r.error.NotTerminal? ==>
      exists i: nat :: FailsAt(e, log, i, r.error)
  {
    if |log| == 0 || |log| > MAX_ACTIONS {
      return Err(InvalidReplaySize);
    }
    var state := e.init;
    var history: seq<S> := [];
    for i := 0 to |log|
      invariant forall k | 0 <= k <= i :: Stands(e, log[..k])
      invariant Tracks(e, log, i, history, state)
    {
      var action := log[i];
      if action == 'Z' {
        UndoStep(e, log, i, history, state);
        if |history| == 0 {
          FailureShows(e, log, i, InvalidUndo);
          return Err(InvalidUndo);
        }
        state := history[|history| - 1];
        history := history[..|history| - 1];
      } else {
        MoveStep(e, log, i, history, state);
        var refusal := Refusal(e, state, action);
        if refusal.Some? {
          FailureShows(e, log, i, refusal.value);
          return Err(refusal.value);
        }
        history := history + [state];
        state := e.step(state, action);
      }
    }
    assert log[..|log|] == log;
    r := if e.over(state) then Ok(state) else Err(NotTerminal);
  }

  /** There is only one first bad action, and one reason. */
  lemma OneFailure<S>(e: Engine<S>, log: seq<char>, i: nat, why: Error, j: nat, other: Error)
    requires FailsAt(e, log, i, why) && FailsAt(e, log, j, other)
    ensures i == j && why == other
  {
    FailureShows(e, log, i, why);
    FailureShows(e, log, j, other);
  }

  // ----- what undo means

  lemma {:induction false} NoUndo(moves: seq<char>)
    requires forall i | 0 <= i < |moves| :: moves[i] != 'Z'
    ensures Survivors(moves) == Some(moves)
  {
    if moves != [] {
      var k := |moves| - 1;
      NoUndo(moves[..k]);
      assert moves[..k] + [moves[k]] == moves;
    }
  }

  lemma {:induction false} SurvivorsAreMoves<S>(e: Engine<S>, moves: seq<char>)
    requires Play(e, moves).Some?
    ensures forall i | 0 <= i < |moves| :: IsMove(moves[i])
  {
    if moves != [] { SurvivorsAreMoves(e, moves[..|moves| - 1]); }
  }

  lemma {:induction false} PlayPrefix<S>(e: Engine<S>, moves: seq<char>, i: nat)
    requires Play(e, moves).Some? && i <= |moves|
    ensures Play(e, moves[..i]).Some?
    decreases |moves|
  {
    if i < |moves| {
      PlayPrefix(e, moves[..|moves| - 1], i);
      assert moves[..|moves| - 1][..i] == moves[..i];
    } else {
      assert moves[..i] == moves;
    }
  }

  lemma {:induction false} FewerSurvive(log: seq<char>)
    requires Survivors(log).Some?
    ensures |Survivors(log).value| <= |log|
  {
    if log != [] { FewerSurvive(log[..|log| - 1]); }
  }

  /** A play without undos stands for itself, at every moment. */
  lemma PlaysStand<S>(e: Engine<S>, moves: seq<char>)
    requires Play(e, moves).Some?
    ensures forall i | 0 <= i <= |moves| :: Stands(e, moves[..i])
    ensures Survivors(moves) == Some(moves)
  {
    SurvivorsAreMoves(e, moves);
    forall i | 0 <= i <= |moves| ensures Stands(e, moves[..i]) {
      PlayPrefix(e, moves, i);
      NoUndo(moves[..i]);
    }
    NoUndo(moves);
  }

  /** The empty play is not over when anything was accepted after it. */
  lemma StartIsNotOver<S>(e: Engine<S>, log: seq<char>)
    requires log != [] && Stands(e, log[..1])
    ensures !e.over(e.init)
  {
    var first := [log[0]];
    assert log[..1] == first && first[..0] == [];
    assert Survivors([]) == Some([]);
    assert log[0] != 'Z';
    assert Survivors(first) == Some(first) by {
      assert [] + [log[0]] == first;
    }
    assert Play(e, first[..0]) == Some(e.init);
    assert Play(e, first).Some?;
  }

  /** An accepted log and its surviving moves alone come to the same state: undos leave no trace. */
  lemma UndoLeavesNoTrace<S>(e: Engine<S>, log: seq<char>)
    requires Accepted(e, log)
    ensures Survivors(log).Some? && Accepted(e, Survivors(log).value)
    ensures Stands(e, log) && Stands(e, Survivors(log).value)
    ensures StateOf(e, Survivors(log).value) == StateOf(e, log)
  {
    assert Stands(e, log) by {
      assert log[..|log|] == log;
    }
    var moves := Survivors(log).value;
    FewerSurvive(log);
    PlaysStand(e, moves);
    assert moves[..|moves|] == moves && log[..|log|] == log;
    assert Stands(e, log[..1]);
    StartIsNotOver(e, log);
  }
}
