/**
 What the executions put on record and what they can achieve: every record is its call's own, column by column; a
 call can be carried through from any state; a lost acknowledgement loses neither the record nor the result; and a
 terminal record is tried exactly as often as configured.
 */
module PluginEvidence {
  import opened Prelude
  import opened PluginLedger
  import opened PluginExecution

  // ---------------------------------------------------------------------------
  // What is on record
  // ---------------------------------------------------------------------------

  /** The columns that a record takes over from its call. */
  predicate Of(r: Row, c: Call) {
    && r.key == c.key && r.plan == c.plan && r.run == c.run && r.installation == c.installation
    && r.tool == c.tool && r.effect == c.effect && r.request == c.input && !r.legacyPlan
  }

  predicate IsBeginning(r: Row) {
    && r.sequence == 1 && r.state == Running
    && r.response == None && r.latencyMs == None && r.costUsd == None && r.error == None
  }

  predicate IsSuccess(r: Row) {
    && r.sequence == 2 && r.state == Succeeded && r.response.Some? && r.latencyMs.Some? && r.error == None
  }

  /** A failure names its code; being disabled, losing authority or being cancelled counts as cancelled. */
  predicate IsFailure(r: Row) {
    && r.sequence == 2 && r.response == None && r.latencyMs.Some? && r.costUsd == None && r.error.Some?
    && r.state == if r.error.value in {"PLUGIN_DISABLED", "PLUGIN_AUTHORITY_INACTIVE", "PLUGIN_AUTHORITY_CHANGED",
                                       "PLUGIN_CALL_CANCELLED", "RUN_CANCELLED"}
                  then EventState.Cancelled else EventState.Failed
  }

  predicate Tells(r: Row, c: Call) {
    Of(r, c) && (IsBeginning(r) || IsSuccess(r) || IsFailure(r))
  }

  /** What is on its way, or about to be sent, tells of its own call. */
  predicate Sends(x: Execution) {
    match x.phase
    case Closing(event, _, _) => Tells(RowOf(event), x.call)
    case AwaitingClose(event, _, _) => Tells(RowOf(event), x.call)
    case _ => true
  }

  ghost predicate Told(s: System, r: Row) {
    exists i :: 0 <= i < |s.execs| && Tells(r, s.execs[i].call)
  }

  ghost predicate Honest(s: System) {
    && (forall i :: 0 <= i < |s.execs| ==> Sends(s.execs[i]))
    && (forall f :: f in s.pool ==> f.exec < |s.execs| && Tells(RowOf(f.event), s.execs[f.exec].call))
    && (forall r :: r in s.rows ==> Told(s, r))
  }

  /** Calls stay what they are, whoever else arrives. */
  predicate SameCalls(s: System, s': System) {
    |s.execs| <= |s'.execs| && forall i :: 0 <= i < |s.execs| ==> s'.execs[i].call == s.execs[i].call
  }

  lemma ToldStays(s: System, s': System, r: Row)
    requires Told(s, r) && SameCalls(s, s')
    ensures Told(s', r)
  {
    var i :| 0 <= i < |s.execs| && Tells(r, s.execs[i].call);
    assert s'.execs[i].call == s.execs[i].call;
  }

  lemma ActionKeepsCalls(s: System, a: Action, s': System)
    requires Takes(s, a, s')
    ensures SameCalls(s, s')
  {
  }

  lemma ActionKeepsSenders(s: System, a: Action, s': System)
    requires Honest(s) && Takes(s, a, s')
    ensures forall i :: 0 <= i < |s'.execs| ==> Sends(s'.execs[i])
  {
  }

  lemma ActionKeepsFlights(s: System, a: Action, s': System)
    requires Honest(s) && Takes(s, a, s')
    ensures forall f :: f in s'.pool ==> f.exec < |s'.execs| && Tells(RowOf(f.event), s'.execs[f.exec].call)
  {
    ActionKeepsCalls(s, a, s');
  }

  lemma ActionKeepsHonest(s: System, a: Action, s': System)
    requires Honest(s) && Takes(s, a, s')
    ensures Honest(s')
  {
    ActionKeepsCalls(s, a, s');
    ActionKeepsSenders(s, a, s');
    ActionKeepsFlights(s, a, s');
    forall r | r in s'.rows ensures Told(s', r) {
      if r in s.rows {
        ToldStays(s, s', r);
      } else {
        assert a.Process? && r == RowOf(a.flight.event);
        assert Tells(r, s'.execs[a.flight.exec].call);
      }
    }
  }

  lemma {:induction false} BehaviourIsHonest(states: seq<System>, actions: seq<Action>, n: nat)
    requires Behaviour(states, actions) && n <= |actions|
    ensures Honest(states[n])
  {
    if n > 0 {
      BehaviourIsHonest(states, actions, n - 1);
      ActionKeepsHonest(states[n - 1], actions[n - 1], states[n]);
    }
  }

  /** Every record of a behaviour is the beginning, the success or the failure of a call that was made, in full. */
  lemma RecordsAreTheirCalls(states: seq<System>, actions: seq<Action>, n: nat, r: Row)
    requires Behaviour(states, actions) && n <= |actions| && r in states[n].rows
    ensures exists i :: 0 <= i < |states[n].execs| && Tells(r, states[n].execs[i].call)
  {
    BehaviourIsHonest(states, actions, n);
    assert Told(states[n], r);
  }

  // ---------------------------------------------------------------------------
  // What an execution can achieve
  // ---------------------------------------------------------------------------

  ghost predicate Path(states: seq<System>, actions: seq<Action>) {
    |states| == |actions| + 1 && forall k :: 0 <= k < |actions| ==> Takes(states[k], actions[k], states[k + 1])
  }

  lemma PathJoins(first: seq<System>, a: seq<Action>, second: seq<System>, b: seq<Action>)
    requires Path(first, a) && Path(second, b) && first[|a|] == second[0]
    ensures Path(first + second[1..], a + b)
  {
    var states, actions := first + second[1..], a + b;
    forall k | 0 <= k < |actions| ensures Takes(states[k], actions[k], states[k + 1]) {
      if k < |a| {
        assert states[k] == first[k] && states[k + 1] == first[k + 1];
      } else {
        assert states[k] == second[k - |a|] && states[k + 1] == second[k - |a| + 1];
      }
    }
  }

  /** One more execution, with the given records and flights. */
  function Joined(s: System, x: Execution, rows: seq<Row>, pool: set<Flight>): System {
    s.(execs := s.execs + [x], rows := rows, pool := pool)
  }

  lemma JoinedMoves(s: System, x: Execution, rows: seq<Row>, pool: set<Flight>, phase: Phase, event: Event)
    ensures var t, n := Joined(s, x, rows, pool), |s.execs|;
            && SetPhase(t, n, phase) == Joined(s, x.(phase := phase), rows, pool)
            && Send(t, n, phase, event) ==
               Joined(s, x.(phase := phase, attempt := x.attempt + 1), rows,
                      pool + {Flight(n, x.attempt + 1, event)})
  {
    assert (s.execs + [x])[|s.execs| := x.(phase := phase)] == s.execs + [x.(phase := phase)];
    var y := x.(phase := phase, attempt := x.attempt + 1);
    assert (s.execs + [x])[|s.execs| := y] == s.execs + [y];
  }

  /** The run, the plugin and the grant stand as the call needs them. */
  predicate Standing(a: Ambient, c: Call, starts: int) {
    && a.rowsExist && a.sameWorkspace && a.runRunning && a.leaseOwner == Some(c.worker) && !a.cancelRequested
    && a.enabled && a.planned && a.grantActive && a.matchingScopes == 1 && starts < a.limit
  }

  lemma BeginningIsInserted(rows: seq<Row>, c: Call, a: Ambient)
    requires Standing(a, c, Sum(rows, StartOf(c.run, c.installation, c.tool)))
    requires forall r :: r in rows ==> r.key != c.key
    ensures Appends(rows, BeginEvent(c), a, Inserted, rows + [RowOf(BeginEvent(c))])
    ensures Tells(RowOf(BeginEvent(c)), c) && IsBeginning(RowOf(BeginEvent(c)))
  {
    assert RowOf(BeginEvent(c)).key == c.key;
  }

  /** From any state, a call under a new key gets as far as its effect. */
  lemma CallCanStart(s: System, c: Call, a: Ambient) returns (states: seq<System>, actions: seq<Action>, begun: Row)
    requires Standing(a, c, Sum(s.rows, StartOf(c.run, c.installation, c.tool)))
    requires forall r :: r in s.rows ==> r.key != c.key
    ensures Path(states, actions) && states[0] == s && Tells(begun, c) && IsBeginning(begun)
    ensures var t := states[|actions|];
            t.rows == s.rows + [begun] && t.execs == s.execs + [Execution(c, Calling, 1, true, 1)]
            && t.terminalAttempts == s.terminalAttempts
  {
    var n, event := |s.execs|, BeginEvent(c);
    var flight := Flight(n, 1, event);
    begun := RowOf(event);
    BeginningIsInserted(s.rows, c, a);
    var x := Execution(c, Preparing, 0, false, 0);
    var y := Execution(c, Begun, 1, true, 0);
    var arrived := Joined(s, x, s.rows, s.pool);
    var sent := Joined(s, x.(phase := AwaitingBegin, attempt := 1), s.rows, s.pool + {flight});
    var won := Joined(s, y, s.rows + [begun], s.pool + {flight} - {flight});
    var calling := Joined(s, y.(phase := Calling, starts := 1), s.rows + [begun], s.pool + {flight} - {flight});
    JoinedMoves(s, x, s.rows, s.pool, AwaitingBegin, event);
    assert sent.execs[n := y] == won.execs;
    assert won.execs[n := y.(phase := Calling, starts := 1)] == calling.execs;
    states := [s, arrived, sent, won, calling];
    actions := [Arrive(c), SendBegin(n), Process(flight, a, Inserted, true), Start(n)];
  }

  lemma SuccessIsInserted(rows: seq<Row>, c: Call, begun: Row, output: Digest, latencyMs: nat, costUsd: Option<int>,
                          a: Ambient)
    requires Standing(a, c, 0) && begun in rows && Tells(begun, c) && IsBeginning(begun)
    requires forall r :: r in rows && r.key == c.key ==> r.sequence != 2
    ensures var event := SuccessEvent(c, output, latencyMs, costUsd);
            && Appends(rows, event, a, Inserted, rows + [RowOf(event)])
            && Tells(RowOf(event), c) && IsSuccess(RowOf(event))
            && RowOf(event).response == Some(output) && RowOf(event).costUsd == costUsd
  {
    var event := SuccessEvent(c, output, latencyMs, costUsd);
    var k :| 0 <= k < |rows| && rows[k] == begun;
    assert Begins(rows[k], RowOf(event));
  }

  /** An effect that answered is put on record and returned, while the run and its authority stand. */
  lemma AnswerCanReturn(s: System, c: Call, begun: Row, output: Digest, latencyMs: nat, costUsd: Option<int>,
                        a: Ambient, x: Execution, rows: seq<Row>, pool: set<Flight>)
    returns (states: seq<System>, actions: seq<Action>, ended: Row)
    requires x.call == c && x.phase == Calling && begun in rows && Tells(begun, c) && IsBeginning(begun)
    requires Standing(a, c, 0) && forall r :: r in rows && r.key == c.key ==> r.sequence != 2
    ensures Path(states, actions) && states[0] == Joined(s, x, rows, pool)
    ensures Tells(ended, c) && IsSuccess(ended) && ended.response == Some(output) && ended.costUsd == costUsd
    ensures var t := states[|actions|];
            t.rows == rows + [ended]
            && t.execs == s.execs + [x.(phase := Returned(output), attempt := x.attempt + 1)]
  {
    var n, event := |s.execs|, SuccessEvent(c, output, latencyMs, costUsd);
    ended := RowOf(event);
    SuccessIsInserted(rows, c, begun, output, latencyMs, costUsd, a);
    var closing := Closing(event, s.terminalAttempts, Some(output));
    var answered := Joined(s, x.(phase := CallReturned(output)), rows, pool);
    JoinedMoves(s, x, rows, pool, CallReturned(output), event);
    JoinedMoves(s, x.(phase := CallReturned(output)), rows, pool, closing, event);
    states := [Joined(s, x, rows, pool), answered, Joined(s, x.(phase := closing), rows, pool)];
    actions := [Answer(n, output), Confirm(n, latencyMs, costUsd)];
    var rest, more := ClosingCanReturn(s, x.(phase := closing), rows, pool, output, a);
    PathJoins(states, actions, rest, more);
    assert (states + rest[1..])[|actions + more|] == rest[|more|];
    states, actions := states + rest[1..], actions + more;
  }

  lemma ClosingCanReturn(s: System, x: Execution, rows: seq<Row>, pool: set<Flight>, output: Digest, a: Ambient)
    returns (states: seq<System>, actions: seq<Action>)
    requires x.phase.Closing? && x.phase.result == Some(output)
    requires Appends(rows, x.phase.event, a, Inserted, rows + [RowOf(x.phase.event)])
    ensures Path(states, actions) && states[0] == Joined(s, x, rows, pool)
    ensures var t := states[|actions|];
            t.rows == rows + [RowOf(x.phase.event)]
            && t.execs == s.execs + [x.(phase := Returned(output), attempt := x.attempt + 1)]
  {
    var n, event, left := |s.execs|, x.phase.event, x.phase.left;
    var flight := Flight(n, x.attempt + 1, event);
    var y := x.(phase := AwaitingClose(event, left, Some(output)), attempt := x.attempt + 1);
    var sent := Joined(s, y, rows, pool + {flight});
    var done := Joined(s, y.(phase := Returned(output)), rows + [RowOf(event)], pool + {flight} - {flight});
    JoinedMoves(s, x, rows, pool, AwaitingClose(event, left, Some(output)), event);
    assert sent.execs[n := y.(phase := Returned(output))] == done.execs;
    states := [Joined(s, x, rows, pool), sent, done];
    actions := [SendClose(n), Process(flight, a, Inserted, true)];
  }

  /**
   From any state, a call under a new key can be carried through: its effect is started once, its beginning and its
   success are put on record in full, and its output is returned.
   */
  lemma CallCanSucceed(s: System, c: Call, output: Digest, latencyMs: nat, costUsd: Option<int>, a: Ambient)
    returns (states: seq<System>, actions: seq<Action>, begun: Row, ended: Row)
    requires Standing(a, c, Sum(s.rows, StartOf(c.run, c.installation, c.tool))) && a.limit > 0
    requires forall r :: r in s.rows ==> r.key != c.key
    ensures Path(states, actions) && states[0] == s
    ensures Tells(begun, c) && IsBeginning(begun)
    ensures Tells(ended, c) && IsSuccess(ended) && ended.response == Some(output) && ended.costUsd == costUsd
    ensures var t := states[|actions|];
            t.rows == s.rows + [begun, ended] && |t.execs| == |s.execs| + 1
            && t.execs[|s.execs|].phase == Returned(output) && t.execs[|s.execs|].starts == 1
  {
    var first, second, early, late;
    first, early, begun := CallCanStart(s, c, a);
    var x, t := Execution(c, Calling, 1, true, 1), first[|early|];
    assert t == Joined(s, x, t.rows, t.pool);
    second, late, ended := AnswerCanReturn(s, c, begun, output, latencyMs, costUsd, a, x, t.rows, t.pool);
    PathJoins(first, early, second, late);
    states, actions := first + second[1..], early + late;
    assert states[|actions|] == second[|late|];
    assert s.rows + [begun] + [ended] == s.rows + [begun, ended];
  }

  /**
   A terminal record that is not acknowledged is tried again: the execution sends it exactly as often as it has tries
   left, and then gives up without having returned.
   */
  lemma {:induction false} SilenceExhaustsTries(s: System, i: nat, event: Event, left: nat, result: Option<Digest>)
    returns (states: seq<System>, actions: seq<Action>)
    requires i < |s.execs| && s.execs[i].phase == Closing(event, left, result) && left > 0
    ensures Path(states, actions) && states[0] == s
    ensures |actions| == 2 * left
    ensures forall k :: 0 <= k < |actions| ==> actions[k] == if k % 2 == 0 then SendClose(i) else LoseAnswer(i)
    ensures var t := states[|actions|];
            |t.execs| == |s.execs| && t.execs[i].phase == Thrown && t.execs[i].attempt == s.execs[i].attempt + left
    decreases left
  {
    var sent := Send(s, i, AwaitingClose(event, left, result), event);
    var next := SetPhase(sent, i, if left > 1 then Closing(event, left - 1, result) else Thrown);
    var head, turn := [s, sent, next], [SendClose(i), LoseAnswer(i)];
    if left == 1 {
      states, actions := head, turn;
    } else {
      var rest, more := SilenceExhaustsTries(next, i, event, left - 1, result);
      PathJoins(head, turn, rest, more);
      states, actions := head + rest[1..], turn + more;
      assert states[|actions|] == rest[|more|];
      forall k | 0 <= k < |actions|
        ensures actions[k] == if k % 2 == 0 then SendClose(i) else LoseAnswer(i)
      {
        if k >= 2 {
          assert actions[k] == more[k - 2] && (k - 2) % 2 == k % 2;
        }
      }
    }
  }

  /** The tries of a success are those of the system, and so are the tries of a failure. */
  lemma TriesAreConfigured(s: System, a: Action, s': System, i: nat)
    requires Takes(s, a, s') && i < |s.execs|
    requires !s.execs[i].phase.Closing? && !s.execs[i].phase.AwaitingClose? && s'.execs[i].phase.Closing?
    ensures s'.execs[i].phase.left == s.terminalAttempts && s'.execs[i].attempt == s.execs[i].attempt
  {
  }

  /** An inserted success whose acknowledgement is lost is recognised at the next try: one record, and the output. */
  lemma LostAnswerIsHarmless(s: System, i: nat, event: Event, left: nat, output: Digest, a: Ambient)
    returns (states: seq<System>, actions: seq<Action>)
    requires i < |s.execs| && s.execs[i].phase == AwaitingClose(event, left, Some(output)) && left > 1
    requires Flight(i, s.execs[i].attempt, event) in s.pool
    requires Appends(s.rows, event, a, Inserted, s.rows + [RowOf(event)])
    ensures Path(states, actions) && states[0] == s
    ensures var t := states[|actions|];
            t.rows == s.rows + [RowOf(event)] && i < |t.execs| && t.execs[i].phase == Returned(output)
            && t.execs[i].starts == s.execs[i].starts
  {
    var flight := Flight(i, s.execs[i].attempt, event);
    RepetitionExists(s.rows, event, a);
    var inserted := s.(rows := s.rows + [RowOf(event)], pool := s.pool - {flight});
    var closing := SetPhase(inserted, i, Closing(event, left - 1, Some(output)));
    states, actions := [s, inserted, closing], [Process(flight, a, Inserted, false), LoseAnswer(i)];
    var rest, more := RepetitionReturns(closing, i, event, left - 1, output, a);
    PathJoins(states, actions, rest, more);
    assert (states + rest[1..])[|actions + more|] == rest[|more|];
    states, actions := states + rest[1..], actions + more;
  }

  lemma RepetitionReturns(s: System, i: nat, event: Event, left: nat, output: Digest, a: Ambient)
    returns (states: seq<System>, actions: seq<Action>)
    requires i < |s.execs| && s.execs[i].phase == Closing(event, left, Some(output))
    requires Appends(s.rows, event, a, Existing, s.rows)
    ensures Path(states, actions) && states[0] == s
    ensures var t := states[|actions|];
            t.rows == s.rows && i < |t.execs| && t.execs[i].phase == Returned(output)
            && t.execs[i].starts == s.execs[i].starts
  {
    var flight := Flight(i, s.execs[i].attempt + 1, event);
    var sent := Send(s, i, AwaitingClose(event, left, Some(output)), event);
    var done := SetPhase(sent, i, Returned(output)).(pool := sent.pool - {flight});
    states, actions := [s, sent, done], [SendClose(i), Process(flight, a, Existing, true)];
  }

  lemma RepetitionExists(rows: seq<Row>, event: Event, a: Ambient)
    requires Appends(rows, event, a, Inserted, rows + [RowOf(event)])
    ensures Appends(rows + [RowOf(event)], event, a, Existing, rows + [RowOf(event)])
  {
    var after := rows + [RowOf(event)];
    assert after[|rows|] == RowOf(event) && Recorded(after, event.key, event.sequence);
  }

  /** The execution has failed or will: nothing it still does returns an output. */
  predicate Doomed(p: Phase) {
    match p
    case Failing => true
    case Closing(_, _, result) => result == None
    case AwaitingClose(_, _, result) => result == None
    case Thrown => true
    case _ => false
  }

  lemma DoomedStays(s: System, a: Action, s': System, i: nat)
    requires Takes(s, a, s') && i < |s.execs| && Doomed(s.execs[i].phase)
    ensures i < |s'.execs| && Doomed(s'.execs[i].phase)
  {
  }

  /**
   What an acknowledgement decides. A beginning goes on only when it was inserted. A rejected success can from then on
   only fail, and an accepted one returns its output; a failure throws whether or not it could be recorded.
   */
  lemma AnswersDecide(s: System, f: Flight, a: Ambient, verdict: Verdict, s': System)
    requires Takes(s, Process(f, a, verdict, true), s')
    ensures f.exec < |s.execs| == |s'.execs|
    ensures match s.execs[f.exec].phase
            case AwaitingBegin =>
              s'.execs[f.exec].phase == if verdict == Inserted then Begun else Thrown
            case AwaitingClose(_, _, Some(output)) =>
              if verdict in {Inserted, Existing} then s'.execs[f.exec].phase == Returned(output)
              else s'.execs[f.exec].phase == Failing
            case AwaitingClose(_, _, None) => s'.execs[f.exec].phase == Thrown
            case _ => false
  {
  }

  /** An execution that failed once never returns, however the behaviour goes on. */
  lemma {:induction false} FailedNeverReturns(states: seq<System>, actions: seq<Action>, m: nat, n: nat, i: nat)
    requires Behaviour(states, actions) && m <= n <= |actions|
    requires i < |states[m].execs| && Doomed(states[m].execs[i].phase)
    ensures i < |states[n].execs| && Doomed(states[n].execs[i].phase)
  {
    if m < n {
      FailedNeverReturns(states, actions, m, n - 1, i);
      Taken(states, actions, n - 1);
      DoomedStays(states[n - 1], actions[n - 1], states[n], i);
    }
  }
}
