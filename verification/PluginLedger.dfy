/**
 The append-only evidence of plug-in invocations: one `running` record before the external
 effect, one terminal record after it, both keyed by (invocation key, sequence).
 */
module PluginLedger {
  import opened Prelude

  type Key = string
  type Digest = string
  type Id = nat

  datatype EventState = Running | Succeeded | Failed | Cancelled

  datatype Event = Event(
    key: Key, plan: Id, sequence: int, run: Id, worker: string, installation: Id, tool: string,
    effect: string, state: EventState, input: Digest, output: Option<Digest>,
    latencyMs: Option<int>, costUsd: Option<int>, error: Option<string>)

  /** A ledger row keeps everything of its event except the worker that sent it. */
  datatype Row = Row(
    key: Key, plan: Id, legacyPlan: bool, sequence: int, run: Id, installation: Id, tool: string,
    effect: string, state: EventState, request: Digest, response: Option<Digest>,
    latencyMs: Option<int>, costUsd: Option<int>, error: Option<string>)

  /** What the transaction reads about the run, the installation and the grant. */
  datatype Ambient = Ambient(
    rowsExist: bool, sameWorkspace: bool, runRunning: bool, leaseOwner: Option<string>,
    cancelRequested: bool, enabled: bool, planned: bool, grantActive: bool,
    matchingScopes: nat, limit: nat)

  datatype Code =
    | LedgerInvalid | LedgerDiverged | ScopeMismatch | Disabled | RequirementMismatch
    | AuthorityInactive | AuthorityScopeMismatch | LimitExceeded | RunCancelled

  datatype Verdict = Inserted | Existing | Rejected(code: Code)

  /** A latency is stored in at most 31 bits. */
  function StoredLatency(latency: Option<int>): Option<int> {
    if latency.None? then None else Some(Min(2147483647, latency.value))
  }

  function RowOf(e: Event): Row {
    Row(e.key, e.plan, false, e.sequence, e.run, e.installation, e.tool, e.effect, e.state, e.input,
        e.output, StoredLatency(e.latencyMs), e.costUsd, e.error)
  }

  // ---------------------------------------------------------------------------
  // The ledger law
  // ---------------------------------------------------------------------------

  /** Row `start` is the beginning that terminal row `end` completes. */
  predicate Begins(start: Row, end: Row) {
    && start.sequence == 1 && start.state == Running && !start.legacyPlan
    && start.key == end.key && start.plan == end.plan && start.run == end.run
    && start.installation == end.installation && start.tool == end.tool && start.request == end.request
  }

  ghost predicate Recorded(rows: seq<Row>, key: Key, sequence: int) {
    exists k :: 0 <= k < |rows| && rows[k].key == key && rows[k].sequence == sequence
  }

  /** A terminal row with an earlier matching beginning. */
  ghost predicate HasBeginning(rows: seq<Row>, k: nat)
    requires k < |rows|
  {
    exists j :: 0 <= j < k && Begins(rows[j], rows[k])
  }

  /**
   At most one record per key and sequence; sequence one is always the running record, and every
   sequence-two record is terminal and follows its own beginning.
   */
  ghost predicate LedgerOk(rows: seq<Row>) {
    && (forall j, k :: 0 <= j < k < |rows| && rows[j].key == rows[k].key ==> rows[j].sequence != rows[k].sequence)
    && (forall k :: 0 <= k < |rows| ==>
          || (rows[k].sequence == 1 && rows[k].state == Running)
          || (rows[k].sequence == 2 && rows[k].state != Running && HasBeginning(rows, k)))
  }

  function StartOf(run: Id, installation: Id, tool: string): Row -> int {
    (r: Row) => if r.sequence == 1 && r.run == run && r.installation == installation && r.tool == tool then 1 else 0
  }

  // ---------------------------------------------------------------------------
  // What one append decides
  // ---------------------------------------------------------------------------

  predicate WellFormed(e: Event) {
    && (e.sequence == 1 ==> e.state == Running)
    && (e.sequence == 2 ==> e.state != Running)
    && (e.latencyMs.Some? ==> e.latencyMs.value >= 0)
  }

  /** Everything a beginning needs besides being the first record of its key. */
  predicate MayBegin(rows: seq<Row>, e: Event, a: Ambient) {
    && a.runRunning && a.leaseOwner == Some(e.worker) && a.enabled && a.planned && a.grantActive
    && a.matchingScopes == 1
    && Sum(rows, StartOf(e.run, e.installation, e.tool)) < a.limit
  }

  /** A success is only recorded while the run, its lease, its plug-in and its grant still stand. */
  predicate MaySucceed(e: Event, a: Ambient) {
    && a.runRunning && a.leaseOwner == Some(e.worker) && !a.cancelRequested && a.enabled && a.grantActive
  }

  ghost predicate MayEnd(rows: seq<Row>, e: Event, a: Ambient) {
    && (exists k :: 0 <= k < |rows| && Begins(rows[k], RowOf(e)))
    && (e.state == Succeeded ==> MaySucceed(e, a))
  }

  /** The record is new and everything it needs holds. */
  ghost predicate Admissible(rows: seq<Row>, e: Event, a: Ambient) {
    && WellFormed(e) && !Recorded(rows, e.key, e.sequence) && a.rowsExist && a.sameWorkspace
    && if e.sequence == 1 then MayBegin(rows, e, a) else MayEnd(rows, e, a)
  }

  /** Appending is idempotent: an identical record exists already. */
  predicate Repeats(rows: seq<Row>, e: Event) {
    WellFormed(e) && RowOf(e) in rows
  }

  /** How a verdict relates the ledger before and after. */
  ghost predicate Appends(rows: seq<Row>, e: Event, a: Ambient, verdict: Verdict, rows': seq<Row>) {
    && (verdict == Inserted <==> Admissible(rows, e, a))
    && (verdict == Existing <==> Repeats(rows, e))
    && rows' == (if verdict == Inserted then rows + [RowOf(e)] else rows)
  }

  /** The row holds what the event says, column by column; a latency is cut at the largest 32-bit number. */
  ghost predicate Says(r: Row, e: Event) {
    && r.key == e.key && r.sequence == e.sequence && r.plan == e.plan && r.legacyPlan == false
    && r.run == e.run && r.installation == e.installation && r.tool == e.tool && r.effect == e.effect
    && r.state == e.state && r.request == e.input && r.response == e.output && r.error == e.error
    && r.costUsd == e.costUsd
    && match e.latencyMs
       case None => r.latencyMs == None
       case Some(ms) => r.latencyMs == Some(if ms < 0x8000_0000 then ms else 0x7FFF_FFFF)
  }

  /** A beginning is running, an end is not, and time does not run backwards. */
  ghost predicate Sound(e: Event) {
    (e.sequence == 1 <==> e.state == Running) && (e.latencyMs.Some? ==> e.latencyMs.value >= 0)
  }

  ghost predicate OnRecord(rows: seq<Row>, e: Event) {
    exists r :: r in rows && Says(r, e)
  }

  /** Something else is on record under the same key and sequence. */
  ghost predicate Contradicted(rows: seq<Row>, e: Event) {
    exists r :: r in rows && r.key == e.key && r.sequence == e.sequence && !Says(r, e)
  }

  class Ledger {
    var rows: seq<Row>

    /** The row with this key and sequence, if there is one. */
    method FindFirst(key: Key, sequence: int) returns (found: Option<Row>)
      ensures found.Some? <==> Recorded(rows, key, sequence)
      ensures found.Some? ==> found.value in rows && found.value.key == key && found.value.sequence == sequence
    {
      for k := 0 to |rows|
        invariant forall j :: 0 <= j < k ==> !(rows[j].key == key && rows[j].sequence == sequence)
      {
        if rows[k].key == key && rows[k].sequence == sequence {
          return Some(rows[k]);
        }
      }
      return None;
    }

    method CountStarts(run: Id, installation: Id, tool: string) returns (count: nat)
      ensures count == Sum(rows, StartOf(run, installation, tool))
    {
      count := 0;
      for k := 0 to |rows|
        invariant count == Sum(rows[..k], StartOf(run, installation, tool))
      {
        SumAppend(rows[..k], rows[k], StartOf(run, installation, tool));
        assert rows[..k] + [rows[k]] == rows[..k + 1];
        if rows[k].sequence == 1 && rows[k].run == run && rows[k].installation == installation && rows[k].tool == tool {
          count := count + 1;
        }
      }
      assert rows[..|rows|] == rows;
    }

    method RefuseBeginning(event: Event, a: Ambient) returns (refusal: Option<Code>)
      ensures refusal.None? <==> MayBegin(rows, event, a)
      ensures var owned := a.runRunning && a.leaseOwner == Some(event.worker) && a.enabled;
              match refusal
              case Some(Disabled) => !owned
              case Some(RequirementMismatch) => owned && !a.planned
              case Some(AuthorityInactive) => owned && a.planned && !a.grantActive
              case Some(AuthorityScopeMismatch) => owned && a.planned && a.grantActive && a.matchingScopes != 1
              case _ =>
                && owned && a.planned && a.grantActive && a.matchingScopes == 1
                && (refusal == Some(LimitExceeded) <==>
                      Sum(rows, StartOf(event.run, event.installation, event.tool)) >= a.limit)
                && (refusal == None || refusal == Some(LimitExceeded))
    {
      if !a.runRunning || a.leaseOwner != Some(event.worker) || !a.enabled {
        return Some(Disabled);
      }
      if !a.planned {
        return Some(RequirementMismatch);
      }
      if !a.grantActive {
        return Some(AuthorityInactive);
      }
      if a.matchingScopes != 1 {
        return Some(AuthorityScopeMismatch);
      }
      var prior := CountStarts(event.run, event.installation, event.tool);
      return if prior >= a.limit then Some(LimitExceeded) else None;
    }

    method RefuseEnd(event: Event, a: Ambient) returns (refusal: Option<Code>)
      requires LedgerOk(rows)
      ensures refusal.None? <==> MayEnd(rows, event, a)
      ensures refusal == Some(LedgerInvalid) <==>
                forall r :: r in rows && r.key == event.key && r.sequence == 1 ==>
                  || r.plan != event.plan || r.legacyPlan || r.run != event.run || r.tool != event.tool
                  || r.installation != event.installation || r.request != event.input
      ensures refusal !in {None, Some(LedgerInvalid)} ==>
                && event.state == Succeeded
                && (|| !a.runRunning || a.leaseOwner != Some(event.worker) || a.cancelRequested || !a.enabled
                    || !a.grantActive)
                && refusal == Some(if a.cancelRequested then RunCancelled else Disabled)
      ensures refusal == None && event.state == Succeeded ==>
                && a.runRunning && a.leaseOwner == Some(event.worker) && !a.cancelRequested && a.enabled
                && a.grantActive
    {
      var beginning := FindFirst(event.key, 1);
      if beginning.Some? {
        BeginningIsUnique(rows, event, beginning.value);
      }
      if beginning.None? || beginning.value.plan != event.plan || beginning.value.legacyPlan
         || beginning.value.run != event.run || beginning.value.installation != event.installation
         || beginning.value.tool != event.tool || beginning.value.request != event.input
      {
        return Some(LedgerInvalid);
      }
      if event.state == Succeeded
         && (!a.runRunning || a.leaseOwner != Some(event.worker) || a.cancelRequested || !a.enabled || !a.grantActive)
      {
        return Some(if a.cancelRequested then RunCancelled else Disabled);
      }
      return None;
    }

    /** The stored row says what the event says. */
    static predicate Identical(x: Row, event: Event, latencyMs: Option<int>) {
      && x.plan == event.plan && !x.legacyPlan && x.run == event.run && x.installation == event.installation
      && x.tool == event.tool && x.effect == event.effect && x.state == event.state
      && x.request == event.input && x.response == event.output && x.error == event.error
      && x.latencyMs == latencyMs && x.costUsd == event.costUsd
    }

    /** One ledger transaction: insert, recognise a repetition, or fail closed. */
    method AppendInvocation(event: Event, a: Ambient) returns (verdict: Verdict)
      requires LedgerOk(rows) && event.sequence in {1, 2}
      modifies this`rows
      ensures LedgerOk(rows) && Appends(old(rows), event, a, verdict, rows)
      ensures verdict == Inserted && event.sequence == 1 ==>
                Sum(rows, StartOf(event.run, event.installation, event.tool)) <= a.limit
      ensures verdict == Inserted ==>
                && |rows| == |old(rows)| + 1 && old(rows) <= rows && Says(rows[|rows| - 1], event)
                && forall r :: r in old(rows) && r.key == event.key ==> r.sequence != event.sequence
      ensures verdict != Inserted ==> rows == old(rows)
      ensures verdict == Existing <==> Sound(event) && OnRecord(old(rows), event)
      ensures verdict == Rejected(LedgerDiverged) <==> Sound(event) && Contradicted(old(rows), event)
      ensures !Sound(event) ==> verdict == Rejected(LedgerInvalid)
    {
      if || (event.sequence == 1 && event.state != Running) || (event.sequence == 2 && event.state == Running)
         || (event.latencyMs.Some? && event.latencyMs.value < 0)
      {
        return Rejected(LedgerInvalid);
      }
      var existing := FindFirst(event.key, event.sequence);
      if existing.Some? {
        verdict := CompareRecord(event, existing.value, a);
      } else {
        NothingRecorded(rows, event);
        verdict := InsertInvocation(event, a);
      }
    }

    /** A record under a key and sequence that is on record already: the same again, or something else. */
    method CompareRecord(event: Event, x: Row, ghost a: Ambient) returns (verdict: Verdict)
      requires LedgerOk(rows) && WellFormed(event) && x in rows && x.key == event.key && x.sequence == event.sequence
      ensures Appends(rows, event, a, verdict, rows) && verdict != Inserted
      ensures verdict == Existing <==> OnRecord(rows, event)
      ensures verdict == Rejected(LedgerDiverged) <==> Contradicted(rows, event)
    {
      var latencyMs := if event.latencyMs.None? then None else Some(Min(2147483647, event.latencyMs.value));
      OneRowPerKey(rows, event, x);
      verdict := if Identical(x, event, latencyMs) then Existing else Rejected(LedgerDiverged);
    }

    /** A record under a new key and sequence: insert it, or say why not. */
    method InsertInvocation(event: Event, a: Ambient) returns (verdict: Verdict)
      requires LedgerOk(rows) && event.sequence in {1, 2}
      requires WellFormed(event) && !Recorded(rows, event.key, event.sequence) && RowOf(event) !in rows
      modifies this`rows
      ensures LedgerOk(rows)
      ensures Appends(old(rows), event, a, verdict, rows)
      ensures verdict != Existing && verdict != Rejected(LedgerDiverged)
      ensures verdict == Inserted && event.sequence == 1 ==>
                Sum(rows, StartOf(event.run, event.installation, event.tool)) <= a.limit
      ensures !a.rowsExist ==> verdict == Rejected(LedgerInvalid)
      ensures a.rowsExist && !a.sameWorkspace ==> verdict == Rejected(ScopeMismatch)
    {
      if !a.rowsExist {
        return Rejected(LedgerInvalid);
      }
      if !a.sameWorkspace {
        return Rejected(ScopeMismatch);
      }
      var refusal;
      if event.sequence == 1 {
        refusal := RefuseBeginning(event, a);
      } else {
        refusal := RefuseEnd(event, a);
      }
      if refusal.Some? {
        return Rejected(refusal.value);
      }
      AppendKeepsLedger(rows, event, a);
      SumAppend(rows, RowOf(event), StartOf(event.run, event.installation, event.tool));
      rows := rows + [RowOf(event)];
      return Inserted;
    }
  }

  lemma OneRowPerKey(rows: seq<Row>, e: Event, x: Row)
    requires LedgerOk(rows) && x in rows && x.key == e.key && x.sequence == e.sequence
    ensures RowOf(e) in rows <==> Ledger.Identical(x, e, StoredLatency(e.latencyMs))
    ensures OnRecord(rows, e) <==> Ledger.Identical(x, e, StoredLatency(e.latencyMs))
    ensures Contradicted(rows, e) <==> !Ledger.Identical(x, e, StoredLatency(e.latencyMs))
  {
    assert forall r :: r in rows && r.key == e.key && r.sequence == e.sequence ==> r == x;
    assert Ledger.Identical(x, e, StoredLatency(e.latencyMs)) <==> x == RowOf(e);
  }

  lemma NothingRecorded(rows: seq<Row>, e: Event)
    requires !Recorded(rows, e.key, e.sequence)
    ensures !OnRecord(rows, e) && !Contradicted(rows, e) && RowOf(e) !in rows
    ensures Says(RowOf(e), e)
    ensures forall r :: r in rows && r.key == e.key ==> r.sequence != e.sequence
  {
  }

  lemma BeginningIsUnique(rows: seq<Row>, e: Event, x: Row)
    requires LedgerOk(rows) && x in rows && x.key == e.key && x.sequence == 1
    ensures (exists k :: 0 <= k < |rows| && Begins(rows[k], RowOf(e))) <==> Begins(x, RowOf(e))
  {
  }

  /** An admissible record keeps the ledger law. */
  lemma AppendKeepsLedger(rows: seq<Row>, e: Event, a: Ambient)
    requires LedgerOk(rows) && e.sequence in {1, 2} && Admissible(rows, e, a)
    ensures LedgerOk(rows + [RowOf(e)])
  {
    var rows' := rows + [RowOf(e)];
    forall k | 0 <= k < |rows'| && rows'[k].sequence == 2 ensures HasBeginning(rows', k) {
      if k < |rows| {
        assert HasBeginning(rows, k);
        var j :| 0 <= j < k && Begins(rows[j], rows[k]);
        assert Begins(rows'[j], rows'[k]);
      } else {
        var j :| 0 <= j < |rows| && Begins(rows[j], RowOf(e));
        assert Begins(rows'[j], rows'[k]);
      }
    }
  }

  /** A terminal record excludes every other terminal record of its key, now and later. */
  lemma TerminalIsFinal(rows: seq<Row>, later: seq<Row>, x: Row, y: Row)
    requires rows <= later && LedgerOk(later)
    requires x in rows && y in later && x.key == y.key && x.sequence == y.sequence
    ensures x == y
  {
    var i :| 0 <= i < |rows| && rows[i] == x;
    assert later[i] == x;
  }
}
