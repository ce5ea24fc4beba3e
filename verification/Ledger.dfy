/**
  What the transport transaction does to the five authorities it composes, as functions on
  their joint value: admission gates, stop guard, console leases, durable files and the
  in-memory tables. Failures of calls that leave the process are inputs.
 */
module Ledgers {
  import opened Common
  import opened Admission
  import opened Guards
  import opened Leases
  import opened Registries

  datatype HandleId = HandleId(key: TargetKey, id: nat)

  /** What an open has acquired so far. */
  datatype OpenState = OpenState(
    guardToken: Option<GuardToken>,
    leaseToken: Option<nat>,
    session: Option<nat>,
    pid: Option<nat>,
    handle: Option<HandleId>)

  const Nothing := OpenState(None, None, None, None, None)

  /** A session's lifecycle subscriber; `killed` says its backend kill has resolved. */
  datatype Subscription = Subscription(session: TransportSession, state: OpenState, killed: bool)

  datatype Seat = Seat(key: TargetKey, sid: nat)

  datatype Ledger = Ledger(
    gates: imap<TargetKey, Gate>,
    leases: imap<TargetKey, LeaseView>,
    guard: GuardView,
    files: Durable,
    tokens: map<nat, GuardToken>,
    handles: map<nat, HandleId>,
    subscribers: map<Seat, Subscription>)
  {
    ghost predicate Total() {
      && (forall k :: k in gates && Inv(gates[k]))
      && (forall k :: k in leases && leases[k].Consistent())
      && guard.Consistent()
      && files.Filed()
    }

    /** At most one record on disk belongs to a session. */
    ghost predicate Unambiguous() {
      forall j, k | j in files.records && k in files.records && files.records[j].sid == files.records[k].sid :: j == k
    }

    /** A session id drawn fresh. */
    ghost predicate Unheard(sid: nat) {
      && sid !in tokens && sid !in handles
      && (forall k :: Seat(k, sid) !in subscribers)
      && (forall k | k in files.records :: files.records[k].sid != sid)
    }

    ghost function GateOf(k: TargetKey): Gate {
      if k in gates then gates[k] else Unpublished
    }

    ghost function LeaseOf(k: TargetKey): LeaseView {
      if k in leases then leases[k] else Unleased
    }

    ghost function At(k: TargetKey, e: Event): Ledger {
      this.(gates := gates[k := Step(GateOf(k), e)])
    }

    function WithRecord(s: TransportSession): Ledger {
      this.(files := files.(records := files.records[s.targetKey := s]))
    }

    ghost function LeasesAfter(k: TargetKey, t: Option<nat>): imap<TargetKey, LeaseView> {
      if t.None? then leases else leases[k := LeaseOf(k).Release(t.value)]
    }

    ghost function ReleaseLease(k: TargetKey, t: Option<nat>): Ledger {
      this.(leases := LeasesAfter(k, t))
    }

    function GuardAfter(k: TargetKey, t: Option<GuardToken>): GuardView {
      if t.None? then guard else guard.Release(k, t.value)
    }

    function ReleaseGuard(k: TargetKey, t: Option<GuardToken>): Ledger {
      this.(guard := GuardAfter(k, t))
    }

    function Forget(sid: nat): Ledger {
      this.(tokens := tokens - {sid}, handles := handles - {sid})
    }

    predicate Owns(k: TargetKey, sid: nat) {
      k in files.records && files.records[k].sid == sid
    }

    function FilesWithout(k: TargetKey, sid: nat, ok: bool): Durable {
      if Owns(k, sid) && ok then files.(records := files.records - {k}) else files
    }

    /** Session-fenced delete of a record. */
    function DeleteOwn(k: TargetKey, sid: nat, ok: bool): Ledger {
      this.(files := FilesWithout(k, sid, ok))
    }

    function Unsubscribe(k: TargetKey, sid: nat): Ledger {
      this.(subscribers := subscribers - {Seat(k, sid)})
    }

    predicate Tombstoned(k: TargetKey, generation: int) {
      k in files.tombs && files.tombs[k].Marker? && files.tombs[k].generation == generation
    }

    /** Generation-fenced unlink of a tombstone. */
    function ClearTomb(k: TargetKey, generation: int, ok: bool): Ledger {
      this.(files := if Tombstoned(k, generation) && ok then files.(tombs := files.tombs - {k}) else files)
    }
  }

  // ----- open

  /** A backend identity reported while attaching, and whether its record write was taken. */
  datatype Partial = Partial(pid: nat, stored: bool)

  /** How the calls an open makes outside the process turn out. */
  datatype OpenIo = OpenIo(
    selected: bool,
    secrets: bool,
    openingStored: bool,
    partials: seq<Partial>,
    attached: bool,
    attachedPid: Option<nat>,
    loopback: bool,
    readyStored: bool,
    interrupted: bool,
    unlinked: bool,
    deleted: bool)

  /** One open under way: the ledger, what it holds, and whether it is still going. */
  datatype Attempt = Attempt(ledger: Ledger, state: OpenState, going: bool)

  ghost function Fail(a: Attempt): Attempt {
    a.(going := false)
  }

  ghost function TakeGuard(a: Attempt, k: TargetKey, io: OpenIo): Attempt {
    if !io.selected || k in a.ledger.guard.holders then Fail(a)
    else a.(ledger := a.ledger.(guard := a.ledger.guard.Acquire(k)),
            state := a.state.(guardToken := Some(GuardToken(k, a.ledger.guard.fence + 1))))
  }

  ghost function TakeLease(a: Attempt, k: TargetKey, console: bool, io: OpenIo): Attempt {
    if !a.going then a
    else if !console then a.(going := io.secrets)
    else if !a.ledger.LeaseOf(k).owner.Free? then Fail(a)
    else a.(ledger := a.ledger.(leases := a.ledger.leases[k := a.ledger.LeaseOf(k).Acquire(Transport)]),
            state := a.state.(leaseToken := Some(a.ledger.LeaseOf(k).generation + 1)),
            going := io.secrets)
  }

  function RecordFor(k: TargetKey, generation: int, sid: nat, leaseToken: Option<nat>): TransportSession {
    TransportSession(sid, k, generation, Opening, leaseToken, Executing, None)
  }

  /** The token enters its table before the write; only a stored record is remembered for the unwind. */
  ghost function WriteOpening(a: Attempt, k: TargetKey, generation: int, sid: nat, io: OpenIo): Attempt {
    if !a.going || a.state.guardToken.None? then Fail(a)
    else
      var l := a.ledger.(tokens := a.ledger.tokens[sid := a.state.guardToken.value]);
      if !io.openingStored then Attempt(l, a.state, false)
      else Attempt(l.WithRecord(RecordFor(k, generation, sid, a.state.leaseToken)), a.state.(session := Some(sid)), true)
  }

  /** Each reported backend is written through to the record before it is remembered. */
  ghost function ReportPartials(a: Attempt, record: TransportSession, partials: seq<Partial>): Attempt
    decreases |partials|
  {
    if partials == [] then a
    else if !partials[0].stored then Fail(a)
    else
      var pid := Some(partials[0].pid);
      ReportPartials(Attempt(a.ledger.WithRecord(record.(backendPid := pid)), a.state.(pid := pid), true), record, partials[1..])
  }

  ghost function Attach(a: Attempt, record: TransportSession, io: OpenIo): Attempt {
    if !a.going then a
    else
      var p := ReportPartials(a, record, io.partials);
      if !p.going || !io.attached then Fail(p)
      else if io.attachedPid.Some? then p.(state := p.state.(pid := io.attachedPid))
      else p
  }

  ghost function WriteReady(a: Attempt, record: TransportSession, io: OpenIo): Attempt {
    if !a.going || !io.loopback || !io.readyStored then Fail(a)
    else Attempt(a.ledger.WithRecord(record.(recordState := RecordState.Ready, backendPid := a.state.pid)), a.state, !io.interrupted)
  }

  /** Promote, register the handle and subscribe, under one key lock. */
  ghost function Commit(a: Attempt, session: TransportSession, h: HandleId): Attempt {
    if !a.going || a.ledger.GateOf(h.key).Promote(h.id).Err? then Fail(a)
    else
      var state := a.state.(handle := Some(h));
      var l := a.ledger.At(h.key, Promote(h.id));
      Attempt(l.(handles := l.handles[session.sid := h],
                 subscribers := l.subscribers[Seat(h.key, session.sid) := Subscription(session, state, state.pid.None?)]),
              state, true)
  }

  /** Clearing the recovery gate: the durable tombstone first, the cache only once it is gone. */
  ghost function ClearGate(a: Attempt, k: TargetKey, generation: int, io: OpenIo): Attempt {
    if !a.going || (a.ledger.Tombstoned(k, generation) && !io.unlinked) then Fail(a)
    else a.(ledger := a.ledger.ClearTomb(k, generation, true).At(k, ClearRecovery(generation)))
  }

  ghost function Unwind(l: Ledger, k: TargetKey, state: OpenState, h: HandleId, deleted: bool): Ledger {
    var a := if state.session.None? then l
             else l.Forget(state.session.value).DeleteOwn(k, state.session.value, deleted)
                  .Unsubscribe(k, state.session.value);
    a.ReleaseLease(k, state.leaseToken).ReleaseGuard(k, state.guardToken).At(h.key, Event.Rollback(h.id))
  }

  /** Everything after admission, up to the commit. */
  ghost function Prepare(l: Ledger, k: TargetKey, generation: int, console: bool, sid: nat, io: OpenIo): Attempt {
    var held := TakeLease(TakeGuard(Attempt(l, Nothing, true), k, io), k, console, io);
    var recorded := WriteOpening(held, k, generation, sid, io);
    var record := RecordFor(k, generation, sid, held.state.leaseToken);
    WriteReady(Attach(recorded, record, io), record, io)
  }
  /** Commit, and for a recovery open the gate clearance after it. */
  ghost function Conclude(a: Attempt, k: TargetKey, generation: int, recovery: bool, h: HandleId, io: OpenIo): Attempt {
    if !a.going || a.state.session.None? then Fail(a)
    else
      var c := Commit(a, RecordFor(k, generation, a.state.session.value, a.state.leaseToken)
                           .(recordState := RecordState.Ready, backendPid := a.state.pid), h);
      if recovery then ClearGate(c, k, generation, io) else c
  }

  /** The whole transaction; an attempt no longer going is what its unwind leaves. */
  ghost function OpenSession(l: Ledger, k: TargetKey, request: OpenRequest, recovery: bool, console: bool, sid: nat, io: OpenIo): Attempt {
    if Grant(l.GateOf(k), recovery, request).Err? then Attempt(l, Nothing, false)
    else
      var h := HandleId(k, |l.GateOf(k).issued|);
      var p := Prepare(l.At(k, AdmissionOf(recovery, request)), k, request.generation, console, sid, io);
      var c := Conclude(p, k, request.generation, recovery, h, io);
      if c.going then c else c.(ledger := Unwind(c.ledger, k, c.state, h, io.deleted))
  }

  // ----- close, force_release and the lifecycle subscriber

  datatype CloseIo = CloseIo(closingStored: bool, transportClosed: bool, tombStored: bool, deleted: bool)

  datatype Outcome = Outcome(ledger: Ledger, failed: bool)

  /** What looking a session up by its id on disk may find: nothing, or the key of a record that names it. */
  ghost predicate Finds(l: Ledger, sid: nat, at: Option<TargetKey>) {
    if at.None? then forall k | k in l.files.records :: l.files.records[k].sid != sid
    else l.Owns(at.value, sid)
  }

  /** The key whose record names the session. */
  ghost function KeyOf(l: Ledger, sid: nat): Option<TargetKey> {
    if k :| k in l.files.records && l.files.records[k].sid == sid then Some(k) else None
  }

  /** The guard token and the handle come from the in-memory tables, never from the record. */
  ghost function DropToken(l: Ledger, k: TargetKey, sid: nat): Ledger {
    l.(tokens := l.tokens - {sid}).ReleaseGuard(k, Lookup(l.tokens, sid))
  }

  ghost function CompleteHandle(l: Ledger, sid: nat): Outcome {
    Outcome(l.(handles := l.handles - {sid}, gates := CompletedGates(l, sid)), CompleteRefused(l, sid))
  }

  ghost function CompletedGates(l: Ledger, sid: nat): imap<TargetKey, Gate> {
    if sid in l.handles then l.At(l.handles[sid].key, Complete(l.handles[sid].id)).gates else l.gates
  }

  ghost predicate CompleteRefused(l: Ledger, sid: nat) {
    sid in l.handles
    && (!l.GateOf(l.handles[sid].key).Known(l.handles[sid].id)
        || l.GateOf(l.handles[sid].key).Complete(l.handles[sid].id).Err?)
  }

  /** Whether close must gate the target: it was left parked and the caller does not force. */
  predicate Parks(record: TransportSession, force: bool) {
    record.Parked() && !force
  }

  /** The dual write that gates a parked target: the durable tombstone, then the admission cache. */
  ghost function MarkParked(l: Ledger, record: TransportSession, force: bool, io: CloseIo): Ledger {
    if !Parks(record, force) || !io.tombStored then l
    else
      var marker := Marker(record.generation, ClosedWhileHalted);
      l.(files := l.files.(tombs := l.files.tombs[record.targetKey := marker]))
       .At(record.targetKey, MarkRecovery(record.generation))
  }

  ghost function CloseRecord(l: Ledger, record: TransportSession, force: bool, io: CloseIo): Outcome {
    var k, sid := record.targetKey, record.sid;
    var closing := l.WithRecord(record.(recordState := Closing));
    var completed := CompleteHandle(DropToken(closing.ReleaseLease(k, record.leaseToken), k, sid), sid);
    Outcome(MarkParked(completed.ledger, record, force, io).DeleteOwn(k, sid, io.deleted).Unsubscribe(k, sid),
            !io.transportClosed || completed.failed || (Parks(record, force) && !io.tombStored) || !io.deleted)
  }

  /** close, the lookup having found the record of key `at`. */
  ghost function CloseFound(l: Ledger, at: Option<TargetKey>, force: bool, io: CloseIo): Outcome
    requires at.Some? ==> at.value in l.files.records
  {
    if at.None? then Outcome(l, false)
    else if !io.closingStored then Outcome(l, true)
    else CloseRecord(l, l.files.records[at.value], force, io)
  }

  ghost function CloseSession(l: Ledger, sid: nat, force: bool, io: CloseIo): Outcome {
    CloseFound(l, KeyOf(l, sid), force, io)
  }

  /** confirm_reaped and then abandon; a refused confirmation skips the abandon, and neither raises. */
  ghost function ReapedGates(l: Ledger, h: Option<HandleId>): imap<TargetKey, Gate> {
    if h.None? || !l.GateOf(h.value.key).Known(h.value.id) || l.GateOf(h.value.key).ConfirmReaped(h.value.id).Err?
    then l.gates
    else l.At(h.value.key, ConfirmReaped(h.value.id)).At(h.value.key, Abandon(h.value.id)).gates
  }

  ghost function ReapHandle(l: Ledger, h: Option<HandleId>): Ledger {
    l.(gates := ReapedGates(l, h))
  }

  ghost function ReleaseRecord(l: Ledger, record: TransportSession, deleted: bool): Outcome {
    var k, sid := record.targetKey, record.sid;
    var freed := DropToken(l.ReleaseLease(k, record.leaseToken), k, sid);
    var reaped := ReapHandle(freed.(handles := freed.handles - {sid}), Lookup(freed.handles, sid));
    if reaped.Owns(k, sid) && !deleted then Outcome(reaped, true)
    else Outcome(reaped.DeleteOwn(k, sid, true).Unsubscribe(k, sid), false)
  }

  /** force_release, the lookup having found the record of key `at`. */
  ghost function ReleaseFound(l: Ledger, sid: nat, at: Option<TargetKey>, deleted: bool): Outcome
    requires at.Some? ==> at.value in l.files.records
  {
    if at.None? then Outcome(l.Forget(sid), false) else ReleaseRecord(l, l.files.records[at.value], deleted)
  }

  ghost function ForceRelease(l: Ledger, sid: nat, deleted: bool): Outcome {
    ReleaseFound(l, sid, KeyOf(l, sid), deleted)
  }

  ghost function ForceDrop(l: Ledger, s: Subscription, deleted: bool): Outcome {
    var k, sid := s.session.targetKey, s.session.sid;
    var freed := l.ReleaseLease(k, s.state.leaseToken).ReleaseGuard(k, s.state.guardToken);
    var reaped := ReapHandle(freed.(tokens := freed.tokens - {sid}), s.state.handle);
    var dropped := reaped.(handles := reaped.handles - {sid});
    if s.killed && dropped.Owns(k, sid) && !deleted then Outcome(dropped, true)
    else Outcome(dropped.DeleteOwn(k, sid, s.killed).Unsubscribe(k, sid), false)
  }

  /** The subscriber's backend kill has resolved; the table shows it if it is the one registered. */
  function Resolved(l: Ledger, s: Subscription, registered: bool): Ledger {
    var seat := Seat(s.session.targetKey, s.session.sid);
    if registered then l.(subscribers := l.subscribers[seat := s.(killed := true)]) else l
  }

  /** invalidate: reap the backend, then drop the rest as force_drop does. */
  ghost function Invalidate(l: Ledger, s: Subscription, registered: bool, deleted: bool): Outcome {
    ForceDrop(Resolved(l, s, registered), s.(killed := true), deleted)
  }

  // ----- the session guard's two-level teardown

  datatype TeardownIo = TeardownIo(closing: CloseIo, reapDeleted: bool)

  datatype Teardown = Teardown(ledger: Ledger, resumeOk: bool)

  /** No record, or one that does not report HALTED. */
  predicate ResumeHolds(l: Ledger, k: TargetKey) {
    k in l.files.records ==> !l.files.records[k].executionState.Halted?
  }

  /** What close leaves, and force_release after it if a HALTED record is still there. */
  ghost predicate TornDown(l: Ledger, k: TargetKey, sid: nat, io: TeardownIo, at: Option<TargetKey>, t: Teardown) {
    Finds(l, sid, at)
    && var closed := CloseFound(l, at, false, io.closing).ledger;
       if ResumeHolds(closed, k) then t == Teardown(closed, true)
       else exists again: Option<TargetKey> :: Finds(closed, sid, again)
              && var released := ReleaseFound(closed, sid, again, io.reapDeleted).ledger;
                 t == Teardown(released, ResumeHolds(released, k))
  }

  /** close first; force_release only if a HALTED record is still there afterwards. */
  ghost function TeardownSession(l: Ledger, k: TargetKey, sid: nat, io: TeardownIo): Teardown {
    var closed := CloseSession(l, sid, false, io.closing).ledger;
    if ResumeHolds(closed, k) then Teardown(closed, true)
    else
      var released := ForceRelease(closed, sid, io.reapDeleted).ledger;
      Teardown(released, ResumeHolds(released, k))
  }
}
