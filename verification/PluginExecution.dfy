/**
 Plug-in calls over the shared ledger, as an interleaving of executions. Any number of executions,
 for the same or different invocation keys, run between crashes and restarts; an append that was
 sent may be processed at any later time, or never, and its acknowledgement may be lost.
 */
module PluginExecution {
  import opened Prelude
  import opened PluginLedger

  datatype Call = Call(
    key: Key, plan: Id, run: Id, worker: string, installation: Id, tool: string, effect: string, input: Digest)

  function BeginEvent(c: Call): Event {
    Event(c.key, c.plan, 1, c.run, c.worker, c.installation, c.tool, c.effect, Running, c.input, None, None, None, None)
  }

  function SuccessEvent(c: Call, output: Digest, latencyMs: int, costUsd: Option<int>): Event {
    Event(c.key, c.plan, 2, c.run, c.worker, c.installation, c.tool, c.effect, Succeeded, c.input, Some(output),
          Some(latencyMs), costUsd, None)
  }

  predicate CancelledCode(code: string) {
    code in {"PLUGIN_DISABLED", "PLUGIN_AUTHORITY_INACTIVE", "PLUGIN_AUTHORITY_CHANGED", "PLUGIN_CALL_CANCELLED",
             "RUN_CANCELLED"}
  }

  function FailureEvent(c: Call, code: string, latencyMs: int): Event {
    Event(c.key, c.plan, 2, c.run, c.worker, c.installation, c.tool, c.effect,
          if CancelledCode(code) then Cancelled else Failed, c.input, None, Some(latencyMs), None, Some(code))
  }

  // ---------------------------------------------------------------------------
  // Executions
  // ---------------------------------------------------------------------------

  /** Where one execution stands between two of its awaits. `result` is what it will return. */
  datatype Phase =
    | Preparing
    | AwaitingBegin
    | Begun
    | Calling
    | CallReturned(output: Digest)
    | Failing
    | Closing(event: Event, left: nat, result: Option<Digest>)
    | AwaitingClose(event: Event, left: nat, result: Option<Digest>)
    | Returned(output: Digest)
    | Thrown

  /** `won`: its beginning was acknowledged as inserted. `starts`: transport calls it started. */
  datatype Execution = Execution(call: Call, phase: Phase, attempt: nat, won: bool, starts: nat)

  /** An append on its way to the database, sent as the `attempt`-th one of its execution. */
  datatype Flight = Flight(exec: nat, attempt: nat, event: Event)

  /** `terminalAttempts` is how often the terminal record is tried. */
  datatype System = System(rows: seq<Row>, execs: seq<Execution>, pool: set<Flight>, terminalAttempts: nat)

  datatype Action =
    | Arrive(call: Call)
    | SendBegin(exec: nat)
    | Start(exec: nat)
    | Answer(exec: nat, output: Digest)
    | Confirm(exec: nat, latencyMs: int, costUsd: Option<int>)
    | Fail(exec: nat, code: string, latencyMs: int)
    | SendClose(exec: nat)
    | Process(flight: Flight, ambient: Ambient, verdict: Verdict, acknowledged: bool)
    | LoseAnswer(exec: nat)
    | Crash(exec: nat)

  function SetPhase(s: System, i: nat, phase: Phase): System
    requires i < |s.execs|
  {
    s.(execs := s.execs[i := s.execs[i].(phase := phase)])
  }

  function Send(s: System, i: nat, phase: Phase, event: Event): System
    requires i < |s.execs|
  {
    var x := s.execs[i];
    s.(execs := s.execs[i := x.(phase := phase, attempt := x.attempt + 1)],
       pool := s.pool + {Flight(i, x.attempt + 1, event)})
  }

  /** Execution `i` still waits for the answer to flight `f`. */
  predicate Waits(s: System, f: Flight) {
    && f.exec < |s.execs|
    && f.attempt == s.execs[f.exec].attempt
    && (s.execs[f.exec].phase.AwaitingBegin? || s.execs[f.exec].phase.AwaitingClose?)
  }

  /** What an execution does with the answer it waited for. */
  function Hear(x: Execution, verdict: Verdict): Execution
    requires x.phase.AwaitingBegin? || x.phase.AwaitingClose?
  {
    if x.phase.AwaitingBegin? then
      if verdict == Inserted then x.(phase := Begun, won := true) else x.(phase := Thrown)
    else if verdict.Rejected? then
      x.(phase := if x.phase.result.Some? then Failing else Thrown)
    else
      x.(phase := if x.phase.result.Some? then Returned(x.phase.result.value) else Thrown)
  }

  ghost predicate Takes(s: System, a: Action, s': System) {
    match a
    case Arrive(call) =>
      s' == s.(execs := s.execs + [Execution(call, Preparing, 0, false, 0)])
    case SendBegin(i) =>
      && i < |s.execs| && s.execs[i].phase.Preparing?
      && s' == Send(s, i, AwaitingBegin, BeginEvent(s.execs[i].call))
    case Start(i) =>
      && i < |s.execs| && s.execs[i].phase.Begun?
      && s' == s.(execs := s.execs[i := s.execs[i].(phase := Calling, starts := s.execs[i].starts + 1)])
    case Answer(i, output) =>
      && i < |s.execs| && s.execs[i].phase.Calling?
      && s' == SetPhase(s, i, CallReturned(output))
    case Confirm(i, latencyMs, costUsd) =>
      && i < |s.execs| && s.execs[i].phase.CallReturned?
      && var event := SuccessEvent(s.execs[i].call, s.execs[i].phase.output, latencyMs, costUsd);
         s' == SetPhase(s, i, Closing(event, s.terminalAttempts, Some(s.execs[i].phase.output)))
    case Fail(i, code, latencyMs) =>
      && i < |s.execs|
      && var phase := s.execs[i].phase;
      && (phase.Begun? || phase.Calling? || phase.CallReturned? || phase.Failing?)
      && s' == SetPhase(s, i, Closing(FailureEvent(s.execs[i].call, code, latencyMs), s.terminalAttempts, None))
    case SendClose(i) =>
      && i < |s.execs| && s.execs[i].phase.Closing?
      && var phase := s.execs[i].phase;
         s' == Send(s, i, AwaitingClose(phase.event, phase.left, phase.result), phase.event)
    case Process(f, ambient, verdict, acknowledged) =>
      && f in s.pool
      && Appends(s.rows, f.event, ambient, verdict, s'.rows)
      && (acknowledged ==> Waits(s, f))
      && s' == s.(rows := s'.rows, pool := s.pool - {f},
                  execs := if acknowledged then s.execs[f.exec := Hear(s.execs[f.exec], verdict)] else s.execs)
    case LoseAnswer(i) =>
      && i < |s.execs|
      && var phase := s.execs[i].phase;
      && (phase.AwaitingBegin? || phase.AwaitingClose?)
      && s' == SetPhase(s, i, if phase.AwaitingClose? && phase.left > 1
                              then Closing(phase.event, phase.left - 1, phase.result) else Thrown)
    case Crash(i) =>
      i < |s.execs| && s' == SetPhase(s, i, Thrown)
  }

  predicate Initial(s: System) {
    s.rows == [] && s.execs == [] && s.pool == {} && s.terminalAttempts > 0
  }

  /** `states` is a behaviour: every next state is reached by the action between. */
  ghost predicate Behaviour(states: seq<System>, actions: seq<Action>) {
    && |states| == |actions| + 1
    && Initial(states[0])
    && forall k :: 0 <= k < |actions| ==> Takes(states[k], actions[k], states[k + 1])
  }

  // ---------------------------------------------------------------------------
  // The invariant
  // ---------------------------------------------------------------------------

  /** `e` is a terminal record of the call, and a success only if the effect was started. */
  predicate Ends(x: Execution, e: Event) {
    && e.sequence == 2 && e.state != Running && e.key == x.call.key
    && x.won
    && (e.state == Succeeded ==> x.starts == 1)
  }

  predicate PhaseOk(x: Execution) {
    && x.starts <= 1
    && (x.starts == 1 ==> x.won)
    && match x.phase
       case Preparing => !x.won
       case AwaitingBegin => !x.won
       case Begun => x.won && x.starts == 0
       case Calling => x.starts == 1
       case CallReturned(_) => x.starts == 1
       case Failing => x.won
       case Closing(e, _, result) => Ends(x, e) && (result.Some? ==> e.state == Succeeded && e.output == result)
       case AwaitingClose(e, _, result) => Ends(x, e) && (result.Some? ==> e.state == Succeeded && e.output == result)
       case Returned(_) => x.won
       case Thrown => true
  }

  /** The ledger says that the call succeeded with this output. */
  ghost predicate SucceededWith(rows: seq<Row>, key: Key, output: Digest) {
    exists k :: 0 <= k < |rows| && rows[k].key == key && rows[k].sequence == 2
                && rows[k].state == Succeeded && rows[k].response == Some(output)
  }

  ghost predicate ExecutionOk(s: System, x: Execution) {
    && PhaseOk(x)
    && (x.won ==> Recorded(s.rows, x.call.key, 1))
    && (x.phase.Returned? ==> SucceededWith(s.rows, x.call.key, x.phase.output))
  }

  predicate FlightOk(s: System, f: Flight) {
    && f.exec < |s.execs|
    && var x := s.execs[f.exec];
    && f.attempt <= x.attempt
    && (f.event == BeginEvent(x.call) || Ends(x, f.event))
    && (f.attempt == x.attempt && x.phase.AwaitingBegin? ==> f.event == BeginEvent(x.call))
    && (f.attempt == x.attempt && x.phase.AwaitingClose? ==> f.event == x.phase.event)
  }

  /** A recorded success belongs to an execution that really started the effect. */
  ghost predicate Earned(s: System, r: Row) {
    r.state == Succeeded ==> exists i :: 0 <= i < |s.execs| && s.execs[i].call.key == r.key && s.execs[i].starts == 1
  }

  ghost predicate Inv(s: System) {
    && LedgerOk(s.rows)
    && (forall i :: 0 <= i < |s.execs| ==> ExecutionOk(s, s.execs[i]))
    && (forall i, j :: 0 <= i < j < |s.execs| && s.execs[i].won && s.execs[j].won ==>
          s.execs[i].call.key != s.execs[j].call.key)
    && (forall f :: f in s.pool ==> FlightOk(s, f))
    && (forall k :: 0 <= k < |s.rows| ==> Earned(s, s.rows[k]))
  }

  /** One execution moves on; the ledger stays, and at most one flight is added. */
  lemma MoveKeeps(s: System, s': System, i: nat)
    requires Inv(s) && i < |s.execs|
    requires s'.rows == s.rows && |s'.execs| == |s.execs| && s'.execs == s.execs[i := s'.execs[i]]
    requires s'.execs[i].call == s.execs[i].call && s'.execs[i].won == s.execs[i].won
    requires s.execs[i].starts <= s'.execs[i].starts && s.execs[i].attempt <= s'.execs[i].attempt
    requires PhaseOk(s'.execs[i]) && !s'.execs[i].phase.Returned?
    requires forall f :: f in s'.pool ==> f in s.pool || FlightOk(s', f)
    requires s'.execs[i].attempt == s.execs[i].attempt ==>
               !s'.execs[i].phase.AwaitingBegin? && !s'.execs[i].phase.AwaitingClose?
    ensures Inv(s')
  {
    assert ExecutionOk(s, s.execs[i]);
    forall j | 0 <= j < |s'.execs| ensures ExecutionOk(s', s'.execs[j]) {
      assert ExecutionOk(s, s.execs[j]);
    }
    forall f | f in s'.pool ensures FlightOk(s', f) {
      if f in s.pool {
        assert FlightOk(s, f);
      }
    }
    forall k | 0 <= k < |s'.rows| ensures Earned(s', s'.rows[k]) {
      assert Earned(s, s.rows[k]);
      if s.rows[k].state == Succeeded {
        var j :| 0 <= j < |s.execs| && s.execs[j].call.key == s.rows[k].key && s.execs[j].starts == 1;
        assert s'.execs[j].starts == 1;
      }
    }
  }

  lemma ArriveKeeps(s: System, call: Call)
    requires Inv(s)
    ensures Inv(s.(execs := s.execs + [Execution(call, Preparing, 0, false, 0)]))
  {
    var s' := s.(execs := s.execs + [Execution(call, Preparing, 0, false, 0)]);
    forall j | 0 <= j < |s'.execs| ensures ExecutionOk(s', s'.execs[j]) {
      if j < |s.execs| {
        assert ExecutionOk(s, s.execs[j]);
      }
    }
    forall f | f in s'.pool ensures FlightOk(s', f) {
      assert FlightOk(s, f);
    }
    forall k | 0 <= k < |s'.rows| ensures Earned(s', s'.rows[k]) {
      assert Earned(s, s.rows[k]);
      if s.rows[k].state == Succeeded {
        var j :| 0 <= j < |s.execs| && s.execs[j].call.key == s.rows[k].key && s.execs[j].starts == 1;
        assert s'.execs[j].starts == 1;
      }
    }
  }

  /** The ledger grows by a record that was in flight. */
  lemma InsertKeeps(s: System, f: Flight, a: Ambient)
    requires Inv(s) && f in s.pool && Admissible(s.rows, f.event, a)
    ensures Inv(s.(rows := s.rows + [RowOf(f.event)], pool := s.pool - {f}))
  {
    assert FlightOk(s, f);
    AppendKeepsLedger(s.rows, f.event, a);
    var s' := s.(rows := s.rows + [RowOf(f.event)], pool := s.pool - {f});
    assert s'.rows[|s.rows|] == RowOf(f.event);
    forall j | 0 <= j < |s'.execs| ensures ExecutionOk(s', s'.execs[j]) {
      assert ExecutionOk(s, s.execs[j]);
      RecordsStay(s.rows, s'.rows, s.execs[j]);
    }
    forall g | g in s'.pool ensures FlightOk(s', g) {
      assert FlightOk(s, g);
    }
    forall k | 0 <= k < |s'.rows| ensures Earned(s', s'.rows[k]) {
      if k < |s.rows| {
        assert Earned(s, s.rows[k]);
        if s.rows[k].state == Succeeded {
          var j :| 0 <= j < |s.execs| && s.execs[j].call.key == s.rows[k].key && s.execs[j].starts == 1;
          assert s'.execs[j].starts == 1;
        }
      } else if f.event.state == Succeeded {
        assert s'.execs[f.exec].starts == 1;
      }
    }
  }

  lemma RecordsStay(rows: seq<Row>, rows': seq<Row>, x: Execution)
    requires rows <= rows'
    ensures Recorded(rows, x.call.key, 1) ==> Recorded(rows', x.call.key, 1)
    ensures x.phase.Returned? && SucceededWith(rows, x.call.key, x.phase.output) ==>
              SucceededWith(rows', x.call.key, x.phase.output)
  {
    if Recorded(rows, x.call.key, 1) {
      var k :| 0 <= k < |rows| && rows[k].key == x.call.key && rows[k].sequence == 1;
      assert rows'[k] == rows[k];
    }
    if x.phase.Returned? && SucceededWith(rows, x.call.key, x.phase.output) {
      var k :| 0 <= k < |rows| && rows[k].key == x.call.key && rows[k].sequence == 2
               && rows[k].state == Succeeded && rows[k].response == Some(x.phase.output);
      assert rows'[k] == rows[k];
    }
  }

  /** A processed append that nobody hears about. */
  lemma SilentProcessKeeps(s: System, f: Flight, a: Ambient, verdict: Verdict, s': System)
    requires Inv(s) && f in s.pool && Appends(s.rows, f.event, a, verdict, s'.rows)
    requires s' == s.(rows := s'.rows, pool := s.pool - {f})
    ensures Inv(s')
  {
    if verdict == Inserted {
      InsertKeeps(s, f, a);
    } else {
      forall j | 0 <= j < |s'.execs| ensures ExecutionOk(s', s'.execs[j]) {
        assert ExecutionOk(s, s.execs[j]);
      }
      forall g | g in s'.pool ensures FlightOk(s', g) {
        assert FlightOk(s, g);
      }
      forall k | 0 <= k < |s'.rows| ensures Earned(s', s'.rows[k]) {
        assert Earned(s, s.rows[k]);
      }
    }
  }

  /** What an acknowledgement tells is true of the ledger that sent it. */
  lemma HeardIsTrue(s: System, f: Flight, a: Ambient, verdict: Verdict, rows': seq<Row>)
    requires Inv(s) && f in s.pool && Waits(s, f) && Appends(s.rows, f.event, a, verdict, rows')
    ensures var x' := Hear(s.execs[f.exec], verdict);
            && PhaseOk(x')
            && (x'.won ==> Recorded(rows', x'.call.key, 1))
            && (x'.phase.Returned? ==> SucceededWith(rows', x'.call.key, x'.phase.output))
            && (x'.won && !s.execs[f.exec].won ==> !Recorded(s.rows, x'.call.key, 1))
  {
    var x := s.execs[f.exec];
    assert FlightOk(s, f) && ExecutionOk(s, x);
    RecordsStay(s.rows, rows', x);
    if verdict == Inserted {
      assert rows'[|s.rows|] == RowOf(f.event);
    }
    if verdict == Existing {
      var k :| 0 <= k < |s.rows| && s.rows[k] == RowOf(f.event);
      assert rows'[k] == RowOf(f.event);
    }
  }

  /** An execution that won knows its beginning, so two winners never share a key. */
  lemma WinnersDiffer(s: System, s': System, i: nat)
    requires Inv(s) && i < |s.execs| == |s'.execs| && s'.execs == s.execs[i := s'.execs[i]]
    requires s'.execs[i].call == s.execs[i].call
    requires s'.execs[i].won && !s.execs[i].won ==> !Recorded(s.rows, s.execs[i].call.key, 1)
    requires s.execs[i].won ==> s'.execs[i].won
    ensures forall j, k :: 0 <= j < k < |s'.execs| && s'.execs[j].won && s'.execs[k].won ==>
              s'.execs[j].call.key != s'.execs[k].call.key
  {
    forall j | 0 <= j < |s.execs| && s.execs[j].won ensures Recorded(s.rows, s.execs[j].call.key, 1) {
      assert ExecutionOk(s, s.execs[j]);
    }
  }

  lemma HeardProcessKeeps(s: System, f: Flight, a: Ambient, verdict: Verdict, s': System)
    requires Inv(s) && f in s.pool && Waits(s, f) && Appends(s.rows, f.event, a, verdict, s'.rows)
    requires s' == s.(rows := s'.rows, pool := s.pool - {f}, execs := s.execs[f.exec := Hear(s.execs[f.exec], verdict)])
    ensures Inv(s')
  {
    var v := s.(rows := s'.rows, pool := s.pool - {f});
    SilentProcessKeeps(s, f, a, verdict, v);
    HeardIsTrue(s, f, a, verdict, s'.rows);
    WinnersDiffer(s, s', f.exec);
    forall j | 0 <= j < |s'.execs| ensures ExecutionOk(s', s'.execs[j]) {
      assert ExecutionOk(v, v.execs[j]);
    }
    forall g | g in s'.pool ensures FlightOk(s', g) {
      assert FlightOk(v, g);
    }
    forall k | 0 <= k < |s'.rows| ensures Earned(s', s'.rows[k]) {
      assert Earned(v, v.rows[k]);
      EarnedCarries(v, s', s'.rows[k]);
    }
  }

  /** A success stays earned while executions keep their keys and their starts. */
  lemma EarnedCarries(s: System, s': System, r: Row)
    requires Earned(s, r) && |s.execs| == |s'.execs|
    requires forall j :: 0 <= j < |s.execs| ==>
               s'.execs[j].call == s.execs[j].call && s'.execs[j].starts == s.execs[j].starts
    ensures Earned(s', r)
  {
    if r.state == Succeeded {
      var j :| 0 <= j < |s.execs| && s.execs[j].call.key == r.key && s.execs[j].starts == 1;
      assert s'.execs[j].starts == 1;
    }
  }

  /** Every action keeps the invariant. */
  lemma ActionKeeps(s: System, a: Action, s': System)
    requires Inv(s) && s.terminalAttempts > 0 && Takes(s, a, s')
    ensures Inv(s') && s'.terminalAttempts == s.terminalAttempts
  {
    match a
    case Arrive(call) => ArriveKeeps(s, call);
    case Process(f, ambient, verdict, acknowledged) =>
      if acknowledged {
        HeardProcessKeeps(s, f, ambient, verdict, s');
      } else {
        SilentProcessKeeps(s, f, ambient, verdict, s');
      }
    case _ => OwnActionKeeps(s, a, s');
  }

  /** An execution's own action, which leaves the ledger alone. */
  lemma OwnActionKeeps(s: System, a: Action, s': System)
    requires Inv(s) && s.terminalAttempts > 0 && Takes(s, a, s') && !a.Arrive? && !a.Process?
    ensures Inv(s') && s'.terminalAttempts == s.terminalAttempts
  {
    assert ExecutionOk(s, s.execs[a.exec]);
    MoveKeeps(s, s', a.exec);
  }

  lemma {:induction false} BehaviourKeeps(states: seq<System>, actions: seq<Action>, n: nat)
    requires Behaviour(states, actions) && n <= |actions|
    ensures Inv(states[n]) && states[n].terminalAttempts > 0
  {
    if n > 0 {
      BehaviourKeeps(states, actions, n - 1);
      ActionKeeps(states[n - 1], actions[n - 1], states[n]);
    }
  }

  // ---------------------------------------------------------------------------
  // Main results
  // ---------------------------------------------------------------------------

  function StartsOn(key: Key): Execution -> int {
    (x: Execution) => if x.call.key == key then x.starts else 0
  }

  /**
   Over every behaviour, the external effect of an invocation key is started at most once by all
   executions together, and a started effect has its beginning on record.
   */
  lemma AtMostOnce(states: seq<System>, actions: seq<Action>, n: nat, key: Key)
    requires Behaviour(states, actions) && n <= |actions|
    ensures 0 <= Sum(states[n].execs, StartsOn(key)) <= 1
    ensures Sum(states[n].execs, StartsOn(key)) == 1 ==> Recorded(states[n].rows, key, 1)
  {
    BehaviourKeeps(states, actions, n);
    var s := states[n];
    forall i | 0 <= i < |s.execs| ensures ExecutionOk(s, s.execs[i]) {
    }
    SumAtMostOne(s.execs, StartsOn(key));
    if !Recorded(s.rows, key, 1) {
      SumZero(s.execs, StartsOn(key));
    }
  }

  /** The record comes first: when the effect is started, the beginning is already in the ledger. */
  lemma RecordPrecedesEffect(states: seq<System>, actions: seq<Action>, n: nat)
    requires Behaviour(states, actions) && n < |actions| && actions[n].Start?
    ensures actions[n].exec < |states[n].execs|
    ensures var key := states[n].execs[actions[n].exec].call.key;
            Recorded(states[n].rows, key, 1) && Sum(states[n].execs, StartsOn(key)) == 0
  {
    BehaviourKeeps(states, actions, n);
    var s, i := states[n], actions[n].exec;
    assert Takes(s, actions[n], states[n + 1]);
    assert ExecutionOk(s, s.execs[i]);
    forall j | 0 <= j < |s.execs| ensures StartsOn(s.execs[i].call.key)(s.execs[j]) == 0 {
      assert ExecutionOk(s, s.execs[j]);
    }
    SumZero(s.execs, StartsOn(s.execs[i].call.key));
  }

  lemma {:induction false} LedgerGrows(states: seq<System>, actions: seq<Action>, m: nat, n: nat)
    requires Behaviour(states, actions) && m <= n <= |actions|
    ensures states[m].rows <= states[n].rows
  {
    if m < n {
      LedgerGrows(states, actions, m, n - 1);
      assert Takes(states[n - 1], actions[n - 1], states[n]);
    }
  }

  /**
   A normal return is backed by a recorded success for that very output, and no later record for
   the key contradicts it, whatever is retried, lost, or processed late.
   */
  lemma ReturnIsRecordedForGood(states: seq<System>, actions: seq<Action>, m: nat, n: nat, i: nat)
    requires Behaviour(states, actions) && m <= n <= |actions|
    requires i < |states[m].execs| && states[m].execs[i].phase.Returned?
    ensures var x := states[m].execs[i];
            && SucceededWith(states[n].rows, x.call.key, x.phase.output)
            && forall r :: r in states[n].rows && r.key == x.call.key && r.sequence == 2 ==>
                 r.state == Succeeded && r.response == Some(x.phase.output)
  {
    BehaviourKeeps(states, actions, m);
    BehaviourKeeps(states, actions, n);
    LedgerGrows(states, actions, m, n);
    var x := states[m].execs[i];
    assert ExecutionOk(states[m], x);
    RecordsStay(states[m].rows, states[n].rows, x);
    var k :| 0 <= k < |states[m].rows| && states[m].rows[k].key == x.call.key && states[m].rows[k].sequence == 2
             && states[m].rows[k].state == Succeeded && states[m].rows[k].response == Some(x.phase.output);
    forall r | r in states[n].rows && r.key == x.call.key && r.sequence == 2
      ensures r.state == Succeeded && r.response == Some(x.phase.output)
    {
      TerminalIsFinal(states[m].rows, states[n].rows, states[m].rows[k], r);
    }
  }

  /** A recorded success means the effect really was started, exactly once. */
  lemma SuccessMeansStarted(states: seq<System>, actions: seq<Action>, n: nat, r: Row)
    requires Behaviour(states, actions) && n <= |actions| && r in states[n].rows && r.state == Succeeded
    ensures Sum(states[n].execs, StartsOn(r.key)) == 1
  {
    BehaviourKeeps(states, actions, n);
    AtMostOnce(states, actions, n, r.key);
    var s := states[n];
    var k :| 0 <= k < |s.rows| && s.rows[k] == r;
    assert Earned(s, s.rows[k]);
    var i :| 0 <= i < |s.execs| && s.execs[i].call.key == r.key && s.execs[i].starts == 1;
    forall j | 0 <= j < |s.execs| ensures StartsOn(r.key)(s.execs[j]) >= 0 {
    }
    SumCovers(s.execs, i, StartsOn(r.key));
  }

  /** The ledger law holds throughout: one record per key and sequence, every end after its beginning. */
  lemma LedgerStaysLawful(states: seq<System>, actions: seq<Action>, n: nat)
    requires Behaviour(states, actions) && n <= |actions|
    ensures LedgerOk(states[n].rows)
  {
    BehaviourKeeps(states, actions, n);
  }

  /** The action inserts a beginning for this run, installation and tool. */
  predicate InsertsStart(a: Action, run: Id, installation: Id, tool: string) {
    && a.Process? && a.verdict == Inserted
    && StartOf(run, installation, tool)(RowOf(a.flight.event)) == 1
  }

  /** The last of the first `n` actions that inserted a beginning for this run, installation and tool. */
  function LastInsert(actions: seq<Action>, n: nat, run: Id, installation: Id, tool: string): (last: Option<nat>)
    requires n <= |actions|
    ensures last.None? ==> forall k :: 0 <= k < n ==> !InsertsStart(actions[k], run, installation, tool)
    ensures last.Some? ==>
              && last.value < n && InsertsStart(actions[last.value], run, installation, tool)
              && forall k :: last.value < k < n ==> !InsertsStart(actions[k], run, installation, tool)
  {
    if n == 0 then None
    else if InsertsStart(actions[n - 1], run, installation, tool) then Some(n - 1)
    else LastInsert(actions, n - 1, run, installation, tool)
  }

  /**
   In every reachable ledger the beginnings of a run, installation and tool are within the limit that the
   last insert of one was checked against; without such an insert there are none.
   */
  lemma {:induction false} StartsStayWithinLimit(states: seq<System>, actions: seq<Action>, n: nat, run: Id,
                                                 installation: Id, tool: string)
    requires Behaviour(states, actions) && n <= |actions|
    ensures var starts := Sum(states[n].rows, StartOf(run, installation, tool));
            match LastInsert(actions, n, run, installation, tool)
            case None => starts == 0
            case Some(k) => starts <= actions[k].ambient.limit
  {
    if n == 0 {
      assert states[0].rows == [];
    } else {
      StartsStayWithinLimit(states, actions, n - 1, run, installation, tool);
      Taken(states, actions, n - 1);
      StartsGrow(states[n - 1], actions[n - 1], states[n], run, installation, tool);
    }
  }

  lemma Taken(states: seq<System>, actions: seq<Action>, n: nat)
    requires Behaviour(states, actions) && n < |actions|
    ensures Takes(states[n], actions[n], states[n + 1])
  {
  }

  /** One action adds at most one beginning, and only within the limit it reads. */
  lemma StartsGrow(s: System, a: Action, s': System, run: Id, installation: Id, tool: string)
    requires Takes(s, a, s')
    ensures if InsertsStart(a, run, installation, tool)
            then Sum(s'.rows, StartOf(run, installation, tool)) <= a.ambient.limit
            else Sum(s'.rows, StartOf(run, installation, tool)) == Sum(s.rows, StartOf(run, installation, tool))
  {
    if a.Process? && a.verdict == Inserted {
      SumAppend(s.rows, RowOf(a.flight.event), StartOf(run, installation, tool));
    }
  }
}
