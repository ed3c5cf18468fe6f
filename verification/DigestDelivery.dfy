/**
 Delivery of digest snapshots. A snapshot covers a window of event sequence numbers for one actor and
 scope; a cursor per actor and scope keeps the last delivered number. Workers record the deliveries
 of briefing runs, the control plane opens snapshots and records deliveries of its own.
 */
module DigestDelivery {
  import opened Prelude

  type Id = nat

  /** Whose attention a cursor keeps: workspace, scope key and actor. */
  datatype Key = Key(workspace: Id, scopeKey: string, actor: string)

  datatype Snapshot = Snapshot(key: Key, department: Option<Id>, from: int, through: int)

  datatype BriefingRun = BriefingRun(workspace: Id, department: Option<Id>, digest: Option<Id>)

  /** What identifies an attempt: a briefing run and its result, or a key chosen by the acknowledging client. */
  datatype AttemptKey = Briefing(run: Id, delivered: bool) | Client(name: string)

  datatype Attempt = Attempt(key: AttemptKey, snapshot: Id, delivered: bool, run: Option<Id>)

  datatype Books = Books(
    runs: map<Id, BriefingRun>, snapshots: map<Id, Snapshot>, cursors: map<Key, int>, attempts: seq<Attempt>)

  datatype Error = RunMissing | ScopeMismatch | CursorMissing | SnapshotMissing | KeyReused | Superseded

  // ---------------------------------------------------------------------------
  // Recording a delivery
  // ---------------------------------------------------------------------------

  predicate HasAttempt(b: Books, snapshot: Id, key: AttemptKey) {
    exists i :: 0 <= i < |b.attempts| && b.attempts[i].snapshot == snapshot && b.attempts[i].key == key
  }

  predicate AlreadyDelivered(b: Books, snapshot: Id) {
    exists i :: 0 <= i < |b.attempts| && b.attempts[i].snapshot == snapshot && b.attempts[i].delivered
  }

  function Advance(cursors: map<Key, int>, key: Key, through: int): map<Key, int>
    requires key in cursors
  {
    if cursors[key] < through then cursors[key := through] else cursors
  }

  /** The run's snapshot, when it has one in its own scope. */
  function SnapshotOf(b: Books, run: Id): Result<Option<Id>, Error> {
    if run !in b.runs then Failure(RunMissing)
    else if b.runs[run].digest.None? then Success(None)
    else
      var id := b.runs[run].digest.value;
      if id in b.snapshots && b.snapshots[id].key.workspace == b.runs[run].workspace
         && b.snapshots[id].department == b.runs[run].department
      then Success(Some(id)) else Failure(ScopeMismatch)
  }

  function RecordFailed(b: Books, run: Id, snapshot: Id): Books {
    if HasAttempt(b, snapshot, Briefing(run, false)) then b
    else b.(attempts := b.attempts + [Attempt(Briefing(run, false), snapshot, false, Some(run))])
  }

  function RecordDelivered(b: Books, run: Id, snapshot: Id): Result<Books, Error>
    requires snapshot in b.snapshots
  {
    var s := b.snapshots[snapshot];
    if s.key !in b.cursors then Failure(CursorMissing)
    else if s.from <= b.cursors[s.key] then Success(b)
    else
      var attempts :=
        if HasAttempt(b, snapshot, Briefing(run, true)) || AlreadyDelivered(b, snapshot) then b.attempts
        else b.attempts + [Attempt(Briefing(run, true), snapshot, true, Some(run))];
      Success(b.(attempts := attempts, cursors := Advance(b.cursors, s.key, s.through)))
  }

  function Record(b: Books, run: Id, delivered: bool): Result<Books, Error> {
    match SnapshotOf(b, run)
    case Failure(e) => Failure(e)
    case Success(None) => Success(b)
    case Success(Some(id)) => if delivered then RecordDelivered(b, run, id) else Success(RecordFailed(b, run, id))
  }

  // ---------------------------------------------------------------------------
  // The control plane
  // ---------------------------------------------------------------------------

  /** A delivery acknowledged by a client under a key of its own. */
  function Acknowledge(b: Books, snapshot: Id, name: string, delivered: bool, run: Option<Id>): Result<Books, Error> {
    if snapshot !in b.snapshots then Failure(SnapshotMissing)
    else if HasAttempt(b, snapshot, Client(name)) then
      if Attempt(Client(name), snapshot, delivered, run) in b.attempts then Success(b) else Failure(KeyReused)
    else if delivered && AlreadyDelivered(b, snapshot) then Success(b)
    else
      var s := b.snapshots[snapshot];
      var attempts := b.attempts + [Attempt(Client(name), snapshot, delivered, run)];
      if !delivered then Success(b.(attempts := attempts))
      else if s.key !in b.cursors then Failure(CursorMissing)
      else if s.from <= b.cursors[s.key] then Failure(Superseded)
      else Success(b.(attempts := attempts, cursors := Advance(b.cursors, s.key, s.through)))
  }

  predicate Pending(b: Books, key: Key, cursor: int) {
    exists id :: id in b.snapshots && b.snapshots[id].key == key && b.snapshots[id].from > cursor
                 && !AlreadyDelivered(b, id)
  }

  /** Opens the snapshot of the events `from` to `through` after the cursor, unless one is pending. */
  function Open(b: Books, id: Id, s: Snapshot): Books {
    var cursor := if s.key in b.cursors then b.cursors[s.key] else 0;
    if Pending(b, s.key, cursor) then b.(cursors := b.cursors[s.key := cursor])
    else if id in b.snapshots || !(cursor < s.from <= s.through) then b
    else b.(cursors := b.cursors[s.key := cursor], snapshots := b.snapshots[id := s])
  }

  function Start(b: Books, id: Id, run: BriefingRun): Books {
    if id in b.runs then b else b.(runs := b.runs[id := run])
  }

  datatype Action =
    | Recording(run: Id, delivered: bool)
    | Acknowledging(snapshot: Id, name: string, delivered: bool, briefing: Option<Id>)
    | Opening(id: Id, window: Snapshot)
    | Starting(id: Id, started: BriefingRun)

  function OrUnchanged(b: Books, r: Result<Books, Error>): Books {
    match r case Success(after) => after case Failure(_) => b
  }

  /** A failing transaction leaves everything as it was. */
  function Apply(b: Books, a: Action): Books {
    match a
    case Recording(run, delivered) => OrUnchanged(b, Record(b, run, delivered))
    case Acknowledging(snapshot, name, delivered, run) =>
      OrUnchanged(b, Acknowledge(b, snapshot, name, delivered, run))
    case Opening(id, s) => Open(b, id, s)
    case Starting(id, run) => Start(b, id, run)
  }

  const EMPTY := Books(map[], map[], map[], [])

  function After(history: seq<Action>): Books {
    if history == [] then EMPTY else Apply(After(history[..|history| - 1]), history[|history| - 1])
  }

  // ---------------------------------------------------------------------------
  // What every transaction keeps
  // ---------------------------------------------------------------------------

  /** The window of a recorded attempt. */
  function Window(b: Books, i: nat): Snapshot
    requires i < |b.attempts| && b.attempts[i].snapshot in b.snapshots
  {
    b.snapshots[b.attempts[i].snapshot]
  }

  predicate Windowed(b: Books) {
    && (forall id :: id in b.snapshots ==> b.snapshots[id].from <= b.snapshots[id].through)
    && forall i :: 0 <= i < |b.attempts| ==> b.attempts[i].snapshot in b.snapshots
  }

  /** The cursor has passed every delivered window. */
  predicate Passed(b: Books)
    requires Windowed(b)
  {
    forall i :: 0 <= i < |b.attempts| && b.attempts[i].delivered ==>
      Window(b, i).key in b.cursors && Window(b, i).through <= b.cursors[Window(b, i).key]
  }

  /** Delivered windows of one actor and scope follow each other without overlap. */
  predicate Increasing(b: Books)
    requires Windowed(b)
  {
    forall i, j :: 0 <= i < j < |b.attempts| && b.attempts[i].delivered && b.attempts[j].delivered
                   && Window(b, i).key == Window(b, j).key ==>
      Window(b, i).through < Window(b, j).from
  }

  predicate Lawful(b: Books) {
    Windowed(b) && Passed(b) && Increasing(b)
  }

  /** Nothing recorded is lost or changed, and no cursor moves back. */
  predicate Grows(b: Books, c: Books) {
    && (forall k :: k in b.cursors ==> k in c.cursors && b.cursors[k] <= c.cursors[k])
    && (forall id :: id in b.snapshots ==> id in c.snapshots && c.snapshots[id] == b.snapshots[id])
    && b.attempts <= c.attempts
  }

  lemma FailedAttemptKeeps(b: Books, a: Attempt)
    requires Lawful(b) && !a.delivered && a.snapshot in b.snapshots
    ensures Lawful(b.(attempts := b.attempts + [a])) && Grows(b, b.(attempts := b.attempts + [a]))
  {
  }

  /** A delivery past the cursor, with the cursor moved to its end. */
  lemma DeliveryKeeps(b: Books, a: Attempt)
    requires Lawful(b) && a.delivered && a.snapshot in b.snapshots && b.snapshots[a.snapshot].key in b.cursors
    requires b.cursors[b.snapshots[a.snapshot].key] < b.snapshots[a.snapshot].from
    ensures
      var s := b.snapshots[a.snapshot];
      var c := b.(attempts := b.attempts + [a], cursors := Advance(b.cursors, s.key, s.through));
      Lawful(c) && Grows(b, c)
  {
    var s := b.snapshots[a.snapshot];
    var c := b.(attempts := b.attempts + [a], cursors := Advance(b.cursors, s.key, s.through));
    forall i | 0 <= i < |c.attempts| && c.attempts[i].delivered
      ensures Window(c, i).key in c.cursors && Window(c, i).through <= c.cursors[Window(c, i).key]
    {
      if i < |b.attempts| {
        assert Window(c, i) == Window(b, i);
      }
    }
    forall i, j | 0 <= i < j < |c.attempts| && c.attempts[i].delivered && c.attempts[j].delivered
                  && Window(c, i).key == Window(c, j).key
      ensures Window(c, i).through < Window(c, j).from
    {
      assert Window(c, i) == Window(b, i);
      if j < |b.attempts| {
        assert Window(c, j) == Window(b, j);
      }
    }
  }

  /** A snapshot that is already delivered starts at or before its cursor. */
  lemma DeliveredIsPassed(b: Books, id: Id)
    requires Lawful(b) && AlreadyDelivered(b, id)
    ensures id in b.snapshots && b.snapshots[id].key in b.cursors
    ensures b.snapshots[id].from <= b.cursors[b.snapshots[id].key]
  {
    var i :| 0 <= i < |b.attempts| && b.attempts[i].snapshot == id && b.attempts[i].delivered;
    assert Window(b, i) == b.snapshots[id];
  }

  /** A run's own delivered attempt is a delivery. */
  predicate KeysTell(b: Books) {
    forall i :: 0 <= i < |b.attempts| && b.attempts[i].key.Briefing? ==>
      b.attempts[i].key.delivered == b.attempts[i].delivered
  }

  lemma RecordKeeps(b: Books, run: Id, delivered: bool)
    requires Lawful(b) && KeysTell(b)
    ensures var c := OrUnchanged(b, Record(b, run, delivered)); Lawful(c) && KeysTell(c) && Grows(b, c)
  {
    match SnapshotOf(b, run)
    case Success(Some(id)) =>
      if delivered {
        if RecordDelivered(b, run, id).Success? && b.snapshots[id].from > b.cursors[b.snapshots[id].key] {
          if AlreadyDelivered(b, id) {
            DeliveredIsPassed(b, id);
            assert false;
          }
          DeliveryKeeps(b, Attempt(Briefing(run, true), id, true, Some(run)));
        }
      } else {
        FailedAttemptKeeps(b, Attempt(Briefing(run, false), id, false, Some(run)));
      }
    case _ =>
  }

  lemma AcknowledgeKeeps(b: Books, snapshot: Id, name: string, delivered: bool, run: Option<Id>)
    requires Lawful(b) && KeysTell(b)
    ensures var c := OrUnchanged(b, Acknowledge(b, snapshot, name, delivered, run));
            Lawful(c) && KeysTell(c) && Grows(b, c)
  {
    var a := Attempt(Client(name), snapshot, delivered, run);
    if snapshot in b.snapshots {
      var key := b.snapshots[snapshot].key;
      if !delivered {
        FailedAttemptKeeps(b, a);
      } else if key in b.cursors && b.cursors[key] < b.snapshots[snapshot].from {
        DeliveryKeeps(b, a);
      }
    }
  }

  lemma OpenKeeps(b: Books, id: Id, s: Snapshot)
    requires Lawful(b) && KeysTell(b)
    ensures Lawful(Open(b, id, s)) && KeysTell(Open(b, id, s)) && Grows(b, Open(b, id, s))
  {
    var c := Open(b, id, s);
    assert c.attempts == b.attempts && Grows(b, c);
    assert forall i :: 0 <= i < |b.attempts| ==> Window(c, i) == Window(b, i);
  }

  lemma ApplyKeeps(b: Books, a: Action)
    requires Lawful(b) && KeysTell(b)
    ensures Lawful(Apply(b, a)) && KeysTell(Apply(b, a)) && Grows(b, Apply(b, a))
  {
    match a
    case Recording(run, delivered) => RecordKeeps(b, run, delivered);
    case Acknowledging(snapshot, name, delivered, run) => AcknowledgeKeeps(b, snapshot, name, delivered, run);
    case Opening(id, s) => OpenKeeps(b, id, s);
    case Starting(id, run) =>
      var c := Start(b, id, run);
      assert forall i :: 0 <= i < |b.attempts| ==> Window(c, i) == Window(b, i);
  }

  // ---------------------------------------------------------------------------
  // Over every history
  // ---------------------------------------------------------------------------

  lemma {:induction false} HistoryKeeps(history: seq<Action>)
    ensures Lawful(After(history)) && KeysTell(After(history))
  {
    if history != [] {
      HistoryKeeps(history[..|history| - 1]);
      ApplyKeeps(After(history[..|history| - 1]), history[|history| - 1]);
    }
  }

  /** No cursor ever moves back and no attempt is ever lost. */
  lemma {:induction false} HistoryGrows(history: seq<Action>, n: nat)
    requires n <= |history|
    ensures Grows(After(history[..n]), After(history))
  {
    if n == |history| {
      assert history[..n] == history;
    } else {
      var before := history[..|history| - 1];
      HistoryKeeps(before);
      ApplyKeeps(After(before), history[|history| - 1]);
      HistoryGrows(before, n);
      assert before[..n] == history[..n];
    }
  }

  /** Attempt `i` delivered event number `e` to `key`. */
  predicate Delivered(b: Books, i: nat, key: Key, e: int) {
    && i < |b.attempts| && b.attempts[i].delivered && b.attempts[i].snapshot in b.snapshots
    && Window(b, i).key == key && Window(b, i).from <= e <= Window(b, i).through
  }

  /** No event is delivered to the same actor and scope in two attempts. */
  lemma EventDeliveredOnce(history: seq<Action>, key: Key, e: int, i: nat, j: nat)
    requires Delivered(After(history), i, key, e) && Delivered(After(history), j, key, e)
    ensures i == j
  {
    HistoryKeeps(history);
  }

  /** An event is delivered only up to the cursor, and later deliveries start past it. */
  lemma DeliveriesFollowCursor(history: seq<Action>, n: nat, key: Key, e: int, i: nat)
    requires n <= |history| && Delivered(After(history), i, key, e)
    ensures i < |After(history[..n]).attempts| ==>
              key in After(history[..n]).cursors && e <= After(history[..n]).cursors[key]
    ensures i >= |After(history[..n]).attempts| && key in After(history[..n]).cursors ==>
              After(history[..n]).cursors[key] < e
    decreases |history|
  {
    var b, c := After(history[..n]), After(history);
    HistoryGrows(history, n);
    HistoryKeeps(history[..n]);
    if n == |history| {
      assert history[..n] == history;
    }
    if i < |b.attempts| {
      assert b.attempts[i] == c.attempts[i];
      assert Window(b, i) == Window(c, i);
    } else if n < |history| {
      var before := history[..|history| - 1];
      HistoryKeeps(before);
      ApplyKeeps(After(before), history[|history| - 1]);
      assert before[..n] == history[..n];
      HistoryGrows(before, n);
      if i < |After(before).attempts| {
        assert After(before).attempts[i] == c.attempts[i];
        assert Window(After(before), i) == Window(c, i);
        DeliveriesFollowCursor(before, n, key, e, i);
      } else {
        NewDeliveryIsPastCursor(After(before), history[|history| - 1], i);
      }
    }
  }

  lemma NewDeliveryIsPastCursor(b: Books, a: Action, i: nat)
    requires Lawful(b) && |b.attempts| <= i < |Apply(b, a).attempts| && Apply(b, a).attempts[i].delivered
    ensures Apply(b, a).attempts[i].snapshot in b.snapshots
    ensures b.snapshots[Apply(b, a).attempts[i].snapshot].key in b.cursors
    ensures b.cursors[b.snapshots[Apply(b, a).attempts[i].snapshot].key] <
            b.snapshots[Apply(b, a).attempts[i].snapshot].from
  {
  }

  // ---------------------------------------------------------------------------
  // What gets delivered
  // ---------------------------------------------------------------------------

  /** The run has a digest, and it is a snapshot of the run's own workspace and department. */
  predicate Briefs(b: Books, run: Id, snapshot: Id) {
    && run in b.runs && b.runs[run].digest == Some(snapshot) && snapshot in b.snapshots
    && b.snapshots[snapshot].key.workspace == b.runs[run].workspace
    && b.snapshots[snapshot].department == b.runs[run].department
  }

  predicate Before(b: Books, snapshot: Id) {
    && snapshot in b.snapshots && b.snapshots[snapshot].key in b.cursors
    && b.cursors[b.snapshots[snapshot].key] < b.snapshots[snapshot].from
  }

  /** One more attempt that delivered the snapshot, and its cursor at the end of the window; nothing else. */
  predicate Delivers(b: Books, c: Books, snapshot: Id, key: AttemptKey, run: Option<Id>)
    requires snapshot in b.snapshots
  {
    && c.attempts == b.attempts + [Attempt(key, snapshot, true, run)]
    && c.cursors == b.cursors[b.snapshots[snapshot].key := b.snapshots[snapshot].through]
    && c.snapshots == b.snapshots && c.runs == b.runs
  }

  lemma PendingIsUndelivered(b: Books, snapshot: Id, run: Id)
    requires Lawful(b) && KeysTell(b) && Before(b, snapshot)
    ensures !AlreadyDelivered(b, snapshot) && !HasAttempt(b, snapshot, Briefing(run, true))
  {
    if AlreadyDelivered(b, snapshot) {
      DeliveredIsPassed(b, snapshot);
    }
  }

  /**
   A briefing run that delivered a snapshot past the cursor is recorded, and moves the cursor to the window's end;
   one at or before the cursor changes nothing, and one without cursor is an error.
   */
  lemma DeliveryIsRecorded(b: Books, run: Id, snapshot: Id)
    requires Lawful(b) && KeysTell(b) && Briefs(b, run, snapshot)
    ensures var key := b.snapshots[snapshot].key;
            if key !in b.cursors then Record(b, run, true) == Failure(CursorMissing)
            else if Before(b, snapshot) then
              && Record(b, run, true).Success?
              && Delivers(b, Record(b, run, true).value, snapshot, Briefing(run, true), Some(run))
            else Record(b, run, true) == Success(b)
  {
    if Before(b, snapshot) {
      PendingIsUndelivered(b, snapshot, run);
    }
  }

  /** A run that did not deliver leaves one attempt, however often that is recorded, and no cursor moves. */
  lemma FailureIsRecordedOnce(b: Books, run: Id, snapshot: Id)
    requires Briefs(b, run, snapshot)
    ensures Record(b, run, false).Success?
    ensures var c := Record(b, run, false).value;
            && c.cursors == b.cursors && c.snapshots == b.snapshots && c.runs == b.runs
            && c.attempts ==
               (if exists a :: a in b.attempts && a.snapshot == snapshot && a.key == Briefing(run, false)
                then b.attempts else b.attempts + [Attempt(Briefing(run, false), snapshot, false, Some(run))])
            && Record(c, run, false) == Success(c)
  {
    var c := Record(b, run, false).value;
    if !HasAttempt(b, snapshot, Briefing(run, false)) {
      assert c.attempts[|b.attempts|].snapshot == snapshot && c.attempts[|b.attempts|].key == Briefing(run, false);
    }
  }

  /** A run without a digest records nothing; a missing run and a snapshot of another scope are errors. */
  lemma NothingToRecord(b: Books, run: Id, delivered: bool)
    requires run in b.runs && b.runs[run].digest.Some? ==> !Briefs(b, run, b.runs[run].digest.value)
    ensures Record(b, run, delivered) ==
            if run !in b.runs then Failure(RunMissing)
            else if b.runs[run].digest == None then Success(b)
            else Failure(ScopeMismatch)
  {
  }

  /**
   A client's acknowledgement under a new key is recorded, and a delivery moves the cursor to the window's end; a
   repetition changes nothing, and the errors are an unknown snapshot, a reused key, no cursor, and a window that
   has been passed.
   */
  lemma AcknowledgementIsRecorded(b: Books, snapshot: Id, name: string, delivered: bool, run: Option<Id>)
    requires Lawful(b) && KeysTell(b)
    ensures var r := Acknowledge(b, snapshot, name, delivered, run);
            var mine := Attempt(Client(name), snapshot, delivered, run);
            if snapshot !in b.snapshots then r == Failure(SnapshotMissing)
            else if mine in b.attempts then r == Success(b)
            else if exists a :: a in b.attempts && a.snapshot == snapshot && a.key == Client(name) then
              r == Failure(KeyReused)
            else if !delivered then r == Success(b.(attempts := b.attempts + [mine]))
            else if exists a :: a in b.attempts && a.snapshot == snapshot && a.delivered then r == Success(b)
            else if b.snapshots[snapshot].key !in b.cursors then r == Failure(CursorMissing)
            else if !Before(b, snapshot) then r == Failure(Superseded)
            else r.Success? && Delivers(b, r.value, snapshot, Client(name), run)
  {
    assert HasAttempt(b, snapshot, Client(name)) <==>
             exists a :: a in b.attempts && a.snapshot == snapshot && a.key == Client(name);
    assert AlreadyDelivered(b, snapshot) <==> exists a :: a in b.attempts && a.snapshot == snapshot && a.delivered;
  }

  /** A window after the cursor is opened under a new name unless an undelivered one after the cursor is waiting. */
  lemma WindowIsOpened(b: Books, id: Id, s: Snapshot)
    requires Lawful(b) && id !in b.snapshots && s.from <= s.through
    ensures var cursor := if s.key in b.cursors then b.cursors[s.key] else 0;
            var waiting := exists o :: && o in b.snapshots && b.snapshots[o].key == s.key
                             && b.snapshots[o].from > cursor
                             && forall a :: a in b.attempts ==> a.snapshot != o || !a.delivered;
            var c := Open(b, id, s);
            && c.attempts == b.attempts && c.runs == b.runs
            && c.snapshots == (if !waiting && s.from > cursor then b.snapshots[id := s] else b.snapshots)
            && c.cursors == (if waiting || s.from > cursor then b.cursors[s.key := cursor] else b.cursors)
  {
    forall o | o in b.snapshots
      ensures AlreadyDelivered(b, o) <==> exists a :: a in b.attempts && a.snapshot == o && a.delivered
    {
    }
  }

  // ---------------------------------------------------------------------------
  // The worker's transaction
  // ---------------------------------------------------------------------------

  /** The tables the worker reads and writes when a briefing run ends. */
  class Deliveries {
    var runs: map<Id, BriefingRun>
    var snapshots: map<Id, Snapshot>
    var cursors: map<Key, int>
    var attempts: seq<Attempt>

    constructor ()
      ensures View() == EMPTY
    {
      runs, snapshots, cursors, attempts := map[], map[], map[], [];
    }

    ghost function View(): Books
      reads this
    {
      Books(runs, snapshots, cursors, attempts)
    }

    method RecordDigestDelivery(runId: Id, delivered: bool) returns (error: Option<Error>)
      modifies this
      ensures View() == Apply(old(View()), Recording(runId, delivered))
      ensures match Record(old(View()), runId, delivered)
              case Success(_) => error.None?
              case Failure(e) => error == Some(e)
    {
      if runId !in runs {
        return Some(RunMissing);
      }
      var run := runs[runId];
      if run.digest.None? {
        return None;
      }
      var id := run.digest.value;
      if || id !in snapshots || snapshots[id].key.workspace != run.workspace
         || snapshots[id].department != run.department {
        return Some(ScopeMismatch);
      }
      var snapshot := snapshots[id];
      if delivered {
        if snapshot.key !in cursors {
          return Some(CursorMissing);
        }
        if snapshot.from <= cursors[snapshot.key] {
          return None;
        }
      }
      var made, given := false, false;
      for i := 0 to |attempts|
        invariant made <==>
                  exists j :: 0 <= j < i && attempts[j].snapshot == id && attempts[j].key == Briefing(runId, delivered)
        invariant given <==> exists j :: 0 <= j < i && attempts[j].snapshot == id && attempts[j].delivered
      {
        if attempts[i].snapshot == id {
          made := made || attempts[i].key == Briefing(runId, delivered);
          given := given || attempts[i].delivered;
        }
      }
      assert made <==> HasAttempt(old(View()), id, Briefing(runId, delivered));
      assert given <==> AlreadyDelivered(old(View()), id);
      if !made && (!given || !delivered) {
        attempts := attempts + [Attempt(Briefing(runId, delivered), id, delivered, Some(runId))];
      }
      if delivered && cursors[snapshot.key] < snapshot.through {
        cursors := cursors[snapshot.key := snapshot.through];
      }
      return None;
    }
  }
}
