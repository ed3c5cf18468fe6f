/**
 A run that needs a workstation waits for its user to sign in, and is then leased to it or expires.
 Times are milliseconds; the two proof verifiers are parameters.
 */
module WorkstationBroker {
  import opened Prelude

  type Id = string

  const DAILY_BRIEF_WINDOW_SECONDS := 7200
  const AD_HOC_WINDOW_SECONDS := 3600

  datatype State =
    | ControlPlaneReady | WaitingForUser | Leased | Executing | Completed | Failed | Cancelled | Expired

  datatype Error =
    | Malformed
    | WindowRequired
    | NotWaiting
    | OrderNotValid
    | LeaseExpired
    | Mismatch
    | ProofFailed
    | RunExpired
    | NonceConsumed
    | FromTheFuture
    | NotYetExpired

  /** Whom a run is for: actor, user and device. */
  datatype Identity = Identity(actor: Id, userSid: string, device: string)

  /** What a work order is known by. */
  datatype Ticket = Ticket(workOrder: Id, lease: Id, nonce: string)

  datatype Request = Request(
    run: Id, identity: Identity, schedule: Option<Id>, dailyBrief: bool, windowSeconds: Option<int>,
    workstationRequirements: nat, requestedAt: int)

  datatype Snapshot = Snapshot(
    run: Id, state: State, onWorkstation: bool, identity: Identity, windowSeconds: Option<int>,
    waitingSince: Option<int>, expiresAt: Option<int>, ticket: Option<Ticket>, attentionRequired: bool,
    effectsAllowed: bool, digestEventKey: Option<string>)

  /** The times of a work order that its issuer chooses. */
  datatype Terms = Terms(issuedAt: int, notBefore: int, leaseExpiresAt: int)

  datatype WorkOrder = WorkOrder(
    run: Id, identity: Identity, ticket: Ticket, terms: Terms, expiresAt: int, windowSeconds: int)

  datatype ProofKind = FixtureOidc | EntraWam

  datatype Handshake = Handshake(
    ticket: Ticket, identity: Identity, proofKind: ProofKind, userToken: string, deviceSignature: string)

  datatype Binding = Binding(
    ticket: Ticket, identity: Identity, userToken: string, deviceSignature: string, verifiedAt: int)

  datatype DigestItem = DigestItem(idempotencyKey: string, run: Id, occurredAt: int)

  /** Whether a user's token proves actor and user, and a signature of a nonce proves the device. */
  datatype Verifier = Verifier(
    user: (Id, string, ProofKind, string) -> bool, device: (string, string, string) -> bool)

  predicate ValidWindow(seconds: int) {
    60 <= seconds <= 86_400
  }

  // ---------------------------------------------------------------------------
  // The operations
  // ---------------------------------------------------------------------------

  function PlaceExecution(r: Request, ticket: Ticket): Result<Snapshot, Error> {
    if r.windowSeconds.Some? && !ValidWindow(r.windowSeconds.value) then Failure(Malformed)
    else if r.workstationRequirements == 0 then
      Success(Snapshot(r.run, ControlPlaneReady, false, r.identity, None, None, None, None, false, true, None))
    else if r.schedule.Some? && !r.dailyBrief && r.windowSeconds.None? then Failure(WindowRequired)
    else
      var window :=
        if r.windowSeconds.Some? then r.windowSeconds.value
        else if r.dailyBrief then DAILY_BRIEF_WINDOW_SECONDS
        else AD_HOC_WINDOW_SECONDS;
      Success(Snapshot(r.run, WaitingForUser, true, r.identity, Some(window), Some(r.requestedAt),
                       Some(r.requestedAt + window * 1_000), Some(ticket), true, false, None))
  }

  /** What the schema of a work order demands of its times. */
  predicate ValidOrder(o: WorkOrder) {
    && o.terms.issuedAt <= o.terms.notBefore < o.expiresAt
    && o.terms.notBefore < o.terms.leaseExpiresAt <= o.expiresAt
    && o.expiresAt - o.terms.issuedAt <= o.windowSeconds * 1_000
    && ValidWindow(o.windowSeconds)
  }

  function CreateWorkOrder(s: Snapshot, terms: Terms): Result<WorkOrder, Error> {
    if s.windowSeconds.Some? && !ValidWindow(s.windowSeconds.value) then Failure(Malformed)
    else if s.state != WaitingForUser || s.ticket.None? || s.expiresAt.None? || s.windowSeconds.None? then
      Failure(NotWaiting)
    else
      var order := WorkOrder(s.run, s.identity, s.ticket.value, terms, s.expiresAt.value, s.windowSeconds.value);
      if ValidOrder(order) then Success(order) else Failure(Malformed)
  }

  function VerifyDualIdentityBinding(o: WorkOrder, h: Handshake, v: Verifier, now: int): Result<Binding, Error> {
    if !ValidOrder(o) then Failure(Malformed)
    else if now < o.terms.notBefore || now >= o.expiresAt then Failure(OrderNotValid)
    else if now >= o.terms.leaseExpiresAt then Failure(LeaseExpired)
    else if h.ticket != o.ticket || h.identity != o.identity then Failure(Mismatch)
    else if !v.user(h.identity.actor, h.identity.userSid, h.proofKind, h.userToken)
            || !v.device(h.identity.device, h.ticket.nonce, h.deviceSignature) then
      Failure(ProofFailed)
    else Success(Binding(o.ticket, o.identity, h.userToken, h.deviceSignature, now))
  }

  function ResumeWaitingExecution(s: Snapshot, b: Binding, now: int, consumed: set<string>): Result<Snapshot, Error> {
    if s.state != WaitingForUser then Failure(NotWaiting)
    else if s.expiresAt.None? || now >= s.expiresAt.value then Failure(RunExpired)
    else if b.ticket.nonce in consumed then Failure(NonceConsumed)
    else if s.ticket != Some(b.ticket) || b.identity != s.identity then Failure(Mismatch)
    else if b.verifiedAt > now then Failure(FromTheFuture)
    else Success(s.(state := Leased, attentionRequired := false, effectsAllowed := true))
  }

  function ExpiryKey(run: Id): string {
    "workstation-expired:" + run
  }

  function ExpireWaitingExecution(s: Snapshot, now: int): Result<(Snapshot, Option<DigestItem>), Error> {
    if s.state == Expired then Success((s, None))
    else if s.state != WaitingForUser then Failure(NotWaiting)
    else if s.expiresAt.None? || now < s.expiresAt.value then Failure(NotYetExpired)
    else
      var expired := s.(state := Expired, attentionRequired := false, effectsAllowed := false,
                        digestEventKey := Some(ExpiryKey(s.run)));
      Success((expired, Some(DigestItem(ExpiryKey(s.run), s.run, now))))
  }

  // ---------------------------------------------------------------------------
  // Traces
  // ---------------------------------------------------------------------------

  /** One run with everything that happened to it, under a clock that never goes back. */
  datatype World = World(
    snapshot: Snapshot, orders: seq<WorkOrder>, bindings: seq<Binding>, consumed: set<string>,
    items: seq<DigestItem>, now: int)

  datatype Event =
    | Tick(passed: nat)
    | Issue(terms: Terms)
    | Verify(order: nat, handshake: Handshake)
    | Resume(binding: Binding)
    | Expire
    | Consume(nonce: string)

  /** A rejected operation changes nothing; a resumption consumes its nonce. */
  function Apply(v: Verifier, w: World, e: Event): World {
    match e
    case Tick(passed) => w.(now := w.now + passed)
    case Issue(terms) =>
      (match CreateWorkOrder(w.snapshot, terms)
       case Success(order) => w.(orders := w.orders + [order])
       case Failure(_) => w)
    case Verify(order, handshake) =>
      if order >= |w.orders| then w
      else
        (match VerifyDualIdentityBinding(w.orders[order], handshake, v, w.now)
         case Success(binding) => w.(bindings := w.bindings + [binding])
         case Failure(_) => w)
    case Resume(binding) =>
      if binding !in w.bindings then w
      else
        (match ResumeWaitingExecution(w.snapshot, binding, w.now, w.consumed)
         case Success(leased) => w.(snapshot := leased, consumed := w.consumed + {binding.ticket.nonce})
         case Failure(_) => w)
    case Expire =>
      (match ExpireWaitingExecution(w.snapshot, w.now)
       case Success((after, item)) =>
         w.(snapshot := after, items := if item.Some? then w.items + [item.value] else w.items)
       case Failure(_) => w)
    case Consume(nonce) => w.(consumed := w.consumed + {nonce})
  }

  function Run(v: Verifier, start: World, trace: seq<Event>): World {
    if trace == [] then start else Apply(v, Run(v, start, trace[..|trace| - 1]), trace[|trace| - 1])
  }

  function Placed(r: Request, ticket: Ticket, now: int): World
    requires PlaceExecution(r, ticket).Success?
  {
    World(PlaceExecution(r, ticket).value, [], [], {}, [], now)
  }

  // ---------------------------------------------------------------------------
  // What every trace keeps
  // ---------------------------------------------------------------------------

  /** A run is ready at once, or it waits with a window and a ticket until it is leased or expires. */
  predicate Shaped(s: Snapshot) {
    && (s.state.ControlPlaneReady? || s.state.WaitingForUser? || s.state.Leased? || s.state.Expired?)
    && (s.effectsAllowed <==> s.state.ControlPlaneReady? || s.state.Leased?)
    && (s.attentionRequired <==> s.state.WaitingForUser?)
    && (s.onWorkstation <==> !s.state.ControlPlaneReady?)
    && (s.onWorkstation ==>
          && s.windowSeconds.Some? && ValidWindow(s.windowSeconds.value)
          && s.waitingSince.Some? && s.ticket.Some?
          && s.expiresAt == Some(s.waitingSince.value + s.windowSeconds.value * 1_000))
    && (s.digestEventKey.Some? <==> s.state.Expired?)
  }

  /** An order issued for the run. */
  predicate Issued(s: Snapshot, o: WorkOrder) {
    && ValidOrder(o) && s.onWorkstation
    && Some(o.ticket) == s.ticket && o.identity == s.identity && Some(o.expiresAt) == s.expiresAt
  }

  /** Both proofs of the binding were accepted, for the run's own identity, while an order for the run was valid. */
  predicate Vouched(v: Verifier, s: Snapshot, b: Binding) {
    && s.expiresAt.Some? && b.verifiedAt < s.expiresAt.value
    && s.ticket == Some(b.ticket) && b.identity == s.identity
    && (exists kind :: v.user(b.identity.actor, b.identity.userSid, kind, b.userToken))
    && v.device(b.identity.device, b.ticket.nonce, b.deviceSignature)
  }

  predicate Kept(v: Verifier, w: World) {
    && Shaped(w.snapshot)
    && (forall o :: o in w.orders ==> Issued(w.snapshot, o))
    && (forall b :: b in w.bindings ==> Vouched(v, w.snapshot, b) && b.verifiedAt <= w.now)
    && (w.snapshot.state.Leased? ==> exists b :: b in w.bindings && b.ticket.nonce in w.consumed)
    && (w.snapshot.state.Expired? ==> w.snapshot.expiresAt.value <= w.now)
    && (if w.snapshot.state.Expired?
        then |w.items| == 1 && w.items[0].run == w.snapshot.run
             && w.items[0].idempotencyKey == ExpiryKey(w.snapshot.run)
             && w.snapshot.expiresAt.value <= w.items[0].occurredAt
        else w.items == [])
  }

  lemma PlacedKept(v: Verifier, r: Request, ticket: Ticket, now: int)
    requires PlaceExecution(r, ticket).Success?
    ensures Kept(v, Placed(r, ticket, now))
  {
  }

  lemma VerifiedIsVouched(v: Verifier, s: Snapshot, o: WorkOrder, h: Handshake, now: int)
    requires Issued(s, o) && VerifyDualIdentityBinding(o, h, v, now).Success?
    ensures Vouched(v, s, VerifyDualIdentityBinding(o, h, v, now).value)
  {
  }

  lemma VerifyKeeps(v: Verifier, w: World, order: nat, h: Handshake)
    requires Kept(v, w)
    ensures Kept(v, Apply(v, w, Verify(order, h)))
  {
    if order < |w.orders| && VerifyDualIdentityBinding(w.orders[order], h, v, w.now).Success? {
      assert w.orders[order] in w.orders;
      VerifiedIsVouched(v, w.snapshot, w.orders[order], h, w.now);
    }
  }

  lemma ApplyKeeps(v: Verifier, w: World, e: Event)
    requires Kept(v, w)
    ensures Kept(v, Apply(v, w, e))
  {
    if e.Verify? {
      VerifyKeeps(v, w, e.order, e.handshake);
    }
  }

  lemma {:induction false} TraceKeeps(v: Verifier, r: Request, ticket: Ticket, now: int, trace: seq<Event>)
    requires PlaceExecution(r, ticket).Success?
    ensures Kept(v, Run(v, Placed(r, ticket, now), trace))
  {
    if trace == [] {
      PlacedKept(v, r, ticket, now);
    } else {
      TraceKeeps(v, r, ticket, now, trace[..|trace| - 1]);
      ApplyKeeps(v, Run(v, Placed(r, ticket, now), trace[..|trace| - 1]), trace[|trace| - 1]);
    }
  }

  // ---------------------------------------------------------------------------
  // Main results
  // ---------------------------------------------------------------------------

  /** What can no longer change: the end of waiting, the expiry time, and what was reported. */
  predicate Settles(w: World, x: World) {
    && w.now <= x.now && x.snapshot.expiresAt == w.snapshot.expiresAt && w.items <= x.items
    && w.consumed <= x.consumed
    && (!w.snapshot.state.WaitingForUser? ==> x.snapshot == w.snapshot)
  }

  lemma {:induction false} TraceSettles(v: Verifier, start: World, trace: seq<Event>, n: nat)
    requires n <= |trace|
    ensures Settles(Run(v, start, trace[..n]), Run(v, start, trace))
  {
    if n == |trace| {
      assert trace[..n] == trace;
    } else {
      var before := trace[..|trace| - 1];
      TraceSettles(v, start, before, n);
      assert before[..n] == trace[..n];
    }
  }

  /** A leased run never expires, an expired one is never leased, and what an expiry reported stays. */
  lemma LeasedOrExpired(v: Verifier, r: Request, ticket: Ticket, now: int, trace: seq<Event>, n: nat)
    requires PlaceExecution(r, ticket).Success? && n <= |trace|
    ensures var w, x := Run(v, Placed(r, ticket, now), trace[..n]), Run(v, Placed(r, ticket, now), trace);
            && (w.snapshot.state.Leased? ==> x.snapshot.state.Leased? && x.items == [])
            && (w.snapshot.state.Expired? ==> x.snapshot == w.snapshot && x.items == w.items && |w.items| == 1)
  {
    TraceSettles(v, Placed(r, ticket, now), trace, n);
    TraceKeeps(v, r, ticket, now, trace);
    TraceKeeps(v, r, ticket, now, trace[..n]);
  }

  /** Outside effects are allowed only when ready or leased; exactly the expired runs have reported, once. */
  lemma EffectsAndReports(v: Verifier, r: Request, ticket: Ticket, now: int, trace: seq<Event>)
    requires PlaceExecution(r, ticket).Success?
    ensures var w := Run(v, Placed(r, ticket, now), trace);
            && (w.snapshot.effectsAllowed <==> w.snapshot.state.ControlPlaneReady? || w.snapshot.state.Leased?)
            && |w.items| == (if w.snapshot.state.Expired? then 1 else 0)
            && (w.snapshot.state.Expired? ==>
                  w.snapshot.expiresAt.Some? && w.snapshot.expiresAt.value <= w.items[0].occurredAt)
  {
    TraceKeeps(v, r, ticket, now, trace);
  }

  /** While a run waits, expiry is possible exactly from its expiry time on, and resuming exactly before it. */
  lemma WindowsPartitionTime(v: Verifier, w: World, b: Binding)
    requires Kept(v, w) && w.snapshot.state.WaitingForUser? && b in w.bindings && b.ticket.nonce !in w.consumed
    ensures ExpireWaitingExecution(w.snapshot, w.now).Success? <==> w.snapshot.expiresAt.value <= w.now
    ensures ResumeWaitingExecution(w.snapshot, b, w.now, w.consumed).Success? <==> w.now < w.snapshot.expiresAt.value
  {
  }

  /**
   A binding verified against an order issued for the run resumes it, however much later, as long as
   the run still waits, has not reached its expiry time, and the nonce is unused.
   */
  lemma VerifiedResumes(v: Verifier, r: Request, ticket: Ticket, now: int, trace: seq<Event>, b: Binding)
    requires PlaceExecution(r, ticket).Success?
    requires var w := Run(v, Placed(r, ticket, now), trace);
             && w.snapshot.state.WaitingForUser? && b in w.bindings && b.ticket.nonce !in w.consumed
             && w.snapshot.expiresAt.Some? && w.now < w.snapshot.expiresAt.value
    ensures Apply(v, Run(v, Placed(r, ticket, now), trace), Resume(b)).snapshot.state.Leased?
  {
    TraceKeeps(v, r, ticket, now, trace);
    WindowsPartitionTime(v, Run(v, Placed(r, ticket, now), trace), b);
  }

  /** A leased run was vouched for: user and device proofs of its own identity were accepted before it expired. */
  lemma LeaseIsVouched(v: Verifier, r: Request, ticket: Ticket, now: int, trace: seq<Event>) returns (b: Binding)
    requires PlaceExecution(r, ticket).Success?
    requires Run(v, Placed(r, ticket, now), trace).snapshot.state.Leased?
    ensures b in Run(v, Placed(r, ticket, now), trace).bindings
    ensures Vouched(v, Run(v, Placed(r, ticket, now), trace).snapshot, b)
    ensures b.ticket.nonce in Run(v, Placed(r, ticket, now), trace).consumed
  {
    TraceKeeps(v, r, ticket, now, trace);
    var w := Run(v, Placed(r, ticket, now), trace);
    b :| b in w.bindings && b.ticket.nonce in w.consumed;
  }

  /** Every placed run can issue an order: one whose terms fit its window. */
  lemma PlacedCanIssue(r: Request, ticket: Ticket, terms: Terms)
    requires PlaceExecution(r, ticket).Success? && PlaceExecution(r, ticket).value.state.WaitingForUser?
    ensures CreateWorkOrder(PlaceExecution(r, ticket).value, terms).Success? <==>
              var expiresAt := PlaceExecution(r, ticket).value.expiresAt.value;
              && r.requestedAt <= terms.issuedAt <= terms.notBefore < terms.leaseExpiresAt <= expiresAt
  {
  }

  // ---------------------------------------------------------------------------
  // Verdicts, from the request on
  // ---------------------------------------------------------------------------

  /** Seconds a run waits: as requested, or two hours for a daily brief and one hour for anything else. */
  function Patience(r: Request): int {
    match r.windowSeconds
    case Some(seconds) => seconds
    case None => if r.dailyBrief then 2 * 60 * 60 else 60 * 60
  }

  function Deadline(r: Request): int {
    r.requestedAt + 1000 * Patience(r)
  }

  /** A window is between one minute and one day. */
  predicate WindowInRange(r: Request) {
    match r.windowSeconds case Some(seconds) => 60 <= seconds <= 24 * 60 * 60 case None => true
  }

  /**
   A run that needs no workstation is ready and may have effects; any other waits until its deadline and may not. A
   window out of range is malformed, and a schedule that needs a workstation has to give one.
   */
  lemma PlacementVerdict(r: Request, ticket: Ticket)
    ensures match PlaceExecution(r, ticket)
            case Failure(Malformed) => !WindowInRange(r)
            case Failure(e) =>
              && e == WindowRequired && r.workstationRequirements > 0
              && r.schedule != None && !r.dailyBrief && r.windowSeconds == None
            case Success(s) =>
              && WindowInRange(r) && s.run == r.run && s.identity == r.identity
              && if r.workstationRequirements == 0 then
                   s.state == ControlPlaneReady && s.effectsAllowed && s.expiresAt == None && s.ticket == None
                 else
                   && (r.schedule == None || r.dailyBrief || r.windowSeconds != None)
                   && s.state == WaitingForUser && !s.effectsAllowed && s.attentionRequired
                   && s.expiresAt == Some(Deadline(r)) && s.ticket == Some(ticket)
  {
  }

  /** What a trace never changes about its run. */
  lemma {:induction false} TraceKeepsRequest(v: Verifier, r: Request, ticket: Ticket, now: int, trace: seq<Event>)
    requires PlaceExecution(r, ticket).Success? && r.workstationRequirements > 0
    ensures var s := Run(v, Placed(r, ticket, now), trace).snapshot;
            && s.run == r.run && s.identity == r.identity && s.ticket == Some(ticket)
            && s.expiresAt == Some(Deadline(r))
  {
    if trace == [] {
      PlacementVerdict(r, ticket);
    } else {
      TraceKeepsRequest(v, r, ticket, now, trace[..|trace| - 1]);
    }
  }

  predicate Proved(v: Verifier, h: Handshake) {
    && v.user(h.identity.actor, h.identity.userSid, h.proofKind, h.userToken)
    && v.device(h.identity.device, h.ticket.nonce, h.deviceSignature)
  }

  /**
   The verdict on a handshake for an order of the run, at any point of a trace: too early or past the deadline, past
   the order's lease, for another ticket or another actor, user or device than the run was requested for, without
   both proofs, or verified now.
   */
  lemma HandshakeVerdict(v: Verifier, r: Request, ticket: Ticket, now: int, trace: seq<Event>, o: WorkOrder,
                         h: Handshake)
    requires PlaceExecution(r, ticket).Success? && r.workstationRequirements > 0
    requires o in Run(v, Placed(r, ticket, now), trace).orders
    ensures var t := Run(v, Placed(r, ticket, now), trace).now;
            match VerifyDualIdentityBinding(o, h, v, t)
            case Success(b) =>
              && o.terms.notBefore <= t < o.terms.leaseExpiresAt && t < Deadline(r)
              && h.ticket == ticket && h.identity == r.identity && Proved(v, h)
              && b == Binding(ticket, r.identity, h.userToken, h.deviceSignature, t)
            case Failure(OrderNotValid) => t < o.terms.notBefore || t >= Deadline(r)
            case Failure(LeaseExpired) => o.terms.notBefore <= t < Deadline(r) && o.terms.leaseExpiresAt <= t
            case Failure(Mismatch) => h.ticket != ticket || h.identity != r.identity
            case Failure(ProofFailed) => h.ticket == ticket && h.identity == r.identity && !Proved(v, h)
            case Failure(_) => false
  {
    TraceKeeps(v, r, ticket, now, trace);
    TraceKeepsRequest(v, r, ticket, now, trace);
    assert Issued(Run(v, Placed(r, ticket, now), trace).snapshot, o);
  }

  /**
   The verdict on resuming with any binding, at any point of a trace: the run does not wait any more, its deadline is
   reached, the nonce is used, the binding is another's or from the future, or the run is leased and may have effects.
   */
  lemma ResumptionVerdict(v: Verifier, r: Request, ticket: Ticket, now: int, trace: seq<Event>, b: Binding)
    requires PlaceExecution(r, ticket).Success? && r.workstationRequirements > 0
    ensures var w := Run(v, Placed(r, ticket, now), trace);
            match ResumeWaitingExecution(w.snapshot, b, w.now, w.consumed)
            case Success(s) =>
              && w.snapshot.state == WaitingForUser && w.now < Deadline(r) && b.ticket.nonce !in w.consumed
              && b.ticket == ticket && b.identity == r.identity && b.verifiedAt <= w.now
              && s.state == Leased && s.effectsAllowed && s.run == r.run && s.expiresAt == Some(Deadline(r))
            case Failure(NotWaiting) => w.snapshot.state in {Leased, Expired}
            case Failure(RunExpired) => w.snapshot.state == WaitingForUser && w.now >= Deadline(r)
            case Failure(NonceConsumed) => w.now < Deadline(r) && b.ticket.nonce in w.consumed
            case Failure(Mismatch) => b.ticket != ticket || b.identity != r.identity
            case Failure(FromTheFuture) => b.ticket == ticket && b.identity == r.identity && b.verifiedAt > w.now
            case Failure(_) => false
  {
    TraceKeeps(v, r, ticket, now, trace);
    TraceKeepsRequest(v, r, ticket, now, trace);
  }

  /** The verdict on expiring, at any point of a trace: leased, not yet, reported now under the run's key, or again. */
  lemma ExpiryVerdict(v: Verifier, r: Request, ticket: Ticket, now: int, trace: seq<Event>)
    requires PlaceExecution(r, ticket).Success? && r.workstationRequirements > 0
    ensures var w := Run(v, Placed(r, ticket, now), trace);
            match ExpireWaitingExecution(w.snapshot, w.now)
            case Success((s, None)) => w.snapshot.state == Expired && s == w.snapshot
            case Success((s, Some(item))) =>
              && w.snapshot.state == WaitingForUser && w.now >= Deadline(r)
              && s.state == Expired && !s.effectsAllowed && !s.attentionRequired
              && item == DigestItem("workstation-expired:" + r.run, r.run, w.now)
              && s.digestEventKey == Some(item.idempotencyKey)
            case Failure(NotYetExpired) => w.snapshot.state == WaitingForUser && w.now < Deadline(r)
            case Failure(e) => e == NotWaiting && w.snapshot.state == Leased
  {
    TraceKeeps(v, r, ticket, now, trace);
    TraceKeepsRequest(v, r, ticket, now, trace);
  }
}
