/**
  When an open commits, and what it then leaves on disk and in the tables, field by field; and what an open
  that fails leaves for reconciliation if it cannot delete its record.
 */
module OpenLaws {
  import opened Common
  import opened Admission
  import opened AdmissionServices
  import opened Guards
  import opened Leases
  import opened Registries
  import opened Ledgers
  import opened Unwinding
  import opened Sessions

  /** The backend reports are all stored and the attachment comes. */
  predicate Attaches(io: OpenIo) {
    (forall p | p in io.partials :: p.stored) && io.attached
  }

  /** And the READY record is written. */
  predicate GetsReady(io: OpenIo) {
    Attaches(io) && io.loopback && io.readyStored
  }

  /** Everything up to the OPENING write goes well, and the write does. */
  ghost predicate GetsRecorded(l: Ledger, k: TargetKey, console: bool, io: OpenIo) {
    && io.selected && k !in l.guard.holders && (console ==> l.LeaseOf(k).owner == Free) && io.secrets && io.openingStored
  }

  /** Everything an open depends on, in the order it is met. */
  ghost predicate AllGoesWell(l: Ledger, k: TargetKey, request: OpenRequest, recovery: bool, console: bool, io: OpenIo) {
    && (if recovery then l.GateOf(k).AdmitRecovery(request).Ok? else l.GateOf(k).Admit(request).Ok?)
    && GetsRecorded(l, k, console, io) && GetsReady(io) && !io.interrupted
    && (Clears(l, k, request.generation, recovery) ==> io.unlinked)
  }

  /** A recovery open has a readable tombstone of its own incarnation to unlink. */
  predicate Clears(l: Ledger, k: TargetKey, generation: int, recovery: bool) {
    recovery && k in l.files.tombs && l.files.tombs[k].Marker? && l.files.tombs[k].generation == generation
  }

  /** The backend as the attachment names it, or else as the last report before it did. */
  function ReportedPid(io: OpenIo): Option<nat> {
    if io.attachedPid.Some? then io.attachedPid
    else if io.partials == [] then None
    else Some(io.partials[|io.partials| - 1].pid)
  }

  /** The last of the reports that were stored before the first that was not. */
  function LastStored(ps: seq<Partial>): Option<nat> {
    if ps == [] || !ps[0].stored then None
    else if LastStored(ps[1..]).Some? then LastStored(ps[1..])
    else Some(ps[0].pid)
  }

  /** The console lease an open takes, if the provider owns a console. */
  ghost function LeaseTaken(l: Ledger, k: TargetKey, console: bool): Option<nat> {
    if console then Some(l.LeaseOf(k).generation + 1) else None
  }

  /** The backend an open knows of once its attach is over. */
  function KnownPid(io: OpenIo): Option<nat> {
    if Attaches(io) then ReportedPid(io) else LastStored(io.partials)
  }

  /** The record on disk once the READY write is over: it names the session, the incarnation asked for, lease and backend. */
  ghost function Recorded(l: Ledger, k: TargetKey, generation: int, console: bool, sid: nat, io: OpenIo): TransportSession {
    if GetsReady(io) then TransportSession(sid, k, generation, RecordState.Ready, LeaseTaken(l, k, console), Executing, ReportedPid(io))
    else TransportSession(sid, k, generation, Opening, LeaseTaken(l, k, console), Executing, LastStored(io.partials))
  }

  // ----- attaching

  /** The reports all go through exactly when all are stored, and the record is the last stored one's. */
  lemma {:induction false} PartialsStored(a: Attempt, record: TransportSession, ps: seq<Partial>)
    requires a.going && Lookup(a.ledger.files.records, record.targetKey) == Some(record.(backendPid := a.state.pid))
    ensures var p := ReportPartials(a, record, ps);
            && (p.going <==> forall q | q in ps :: q.stored)
            && p.state.pid == (if LastStored(ps).Some? then LastStored(ps) else a.state.pid)
            && p.state == a.state.(pid := p.state.pid)
            && Lookup(p.ledger.files.records, record.targetKey) == Some(record.(backendPid := p.state.pid))
            && (p.going && ps != [] ==> LastStored(ps) == Some(ps[|ps| - 1].pid))
    decreases |ps|
  {
    if ps != [] && ps[0].stored {
      var pid := Some(ps[0].pid);
      PartialsStored(Attempt(a.ledger.WithRecord(record.(backendPid := pid)), a.state.(pid := pid), true), record, ps[1..]);
      assert ps == [ps[0]] + ps[1..];
    }
  }

  /** Attach, and the READY write after it. */
  lemma Attached(a: Attempt, record: TransportSession, io: OpenIo)
    requires a.going && a.state.pid.None? && record.backendPid.None?
    requires Lookup(a.ledger.files.records, record.targetKey) == Some(record)
    ensures var w := WriteReady(Attach(a, record, io), record, io); var k := record.targetKey;
            && (w.going <==> GetsReady(io) && !io.interrupted)
            && w.state == a.state.(pid := KnownPid(io))
            && Lookup(w.ledger.files.records, k)
               == Some(if GetsReady(io) then record.(recordState := RecordState.Ready, backendPid := ReportedPid(io))
                       else record.(backendPid := LastStored(io.partials)))
  {
    PartialsStored(a, record, io.partials);
    hide ReportPartials;
  }

  // ----- preparing

  /**
    Up to its commit. The record, from the moment the OPENING write has gone through, names the session,
    the key, the asked-for incarnation and the lease, says EXECUTING, and knows every backend stored so far.
   */
  lemma Prepared(l: Ledger, k: TargetKey, generation: int, console: bool, sid: nat, io: OpenIo)
    ensures var p := Prepare(l, k, generation, console, sid, io);
            && (p.going <==> GetsRecorded(l, k, console, io) && GetsReady(io) && !io.interrupted)
            && (GetsRecorded(l, k, console, io) ==>
                  && p.state == OpenState(Some(GuardToken(k, l.guard.fence + 1)), LeaseTaken(l, k, console), Some(sid), KnownPid(io), None)
                  && Lookup(p.ledger.files.records, k) == Some(Recorded(l, k, generation, console, sid, io)))
            && (!GetsRecorded(l, k, console, io) ==> p.state.session.None?)
  {
    hide Attach, WriteReady, ReportedPid, LastStored, GetsReady, KnownPid;
    var held := TakeLease(TakeGuard(Attempt(l, Nothing, true), k, io), k, console, io);
    var written := WriteOpening(held, k, generation, sid, io);
    if written.going {
      Attached(written, TransportSession(sid, k, generation, Opening, held.state.leaseToken, Executing, None), io);
    } else {
      StoppedAttach(written, RecordFor(k, generation, sid, held.state.leaseToken), io);
    }
  }

  lemma StoppedAttach(a: Attempt, record: TransportSession, io: OpenIo)
    requires !a.going
    ensures WriteReady(Attach(a, record, io), record, io) == a
  {
  }

  // ----- the whole open

  /** Commit and, for a recovery open, the clearance after it. */
  lemma Concluded(m: Ledger, k: TargetKey, generation: int, recovery: bool, sid: nat, p: Attempt, h: HandleId, io: OpenIo)
    requires p.going ==> p.state.session == Some(sid)
    requires InPreparation(m, k, sid, p) && h.key == k && m.GateOf(k).Promote(h.id).Ok?
    ensures var c := Conclude(p, k, generation, recovery, h, io);
            && (c.going <==> p.going && !(recovery && m.Tombstoned(k, generation) && !io.unlinked))
            && (c.going ==> c.state == p.state.(handle := Some(h)))
            && c.ledger.files.records == p.ledger.files.records && c.state.session == p.state.session
            && c.state.pid == p.state.pid
  {
    ConcludeKept(m, k, generation, recovery, sid, p, h, io);
    assert p.ledger.Tombstoned(k, generation) == m.Tombstoned(k, generation);
    hide InPreparation;
  }

  /** The parts of an open that was granted: what is prepared and concluded in the ledger of the grant. */
  lemma AfterGrant(l: Ledger, k: TargetKey, request: OpenRequest, recovery: bool, console: bool, sid: nat, io: OpenIo)
    returns (m: Ledger, p: Attempt, c: Attempt)
    requires l.Total() && l.Unheard(sid) && Grant(l.GateOf(k), recovery, request).Ok?
    ensures m == l.(gates := m.gates) && p == Prepare(m, k, request.generation, console, sid, io)
    ensures var h := HandleId(k, |l.GateOf(k).issued|);
            && c == Conclude(p, k, request.generation, recovery, h, io)
            && InPreparation(m, k, sid, p) && m.GateOf(k).Promote(h.id).Ok? && (p.going ==> p.state.session == Some(sid))
            && OpenSession(l, k, request, recovery, console, sid, io)
               == if c.going then c else c.(ledger := Unwind(c.ledger, k, c.state, h, io.deleted))
  {
    hide Prepare, Conclude, Unwind, Step, Grant, InPreparation, Inv, Gate.Promote;
    m := l.At(k, AdmissionOf(recovery, request));
    assert m == l.(gates := m.gates);
    p := Prepare(m, k, request.generation, console, sid, io);
    c := Conclude(p, k, request.generation, recovery, HandleId(k, |l.GateOf(k).issued|), io);
    Granting(l.GateOf(k), recovery, request);
    Unwinding.Granted(l, k, AdmissionOf(recovery, request), sid);
    PrepareKept(m, k, request.generation, console, sid, io);
  }

  /** The grant touches nothing the rest of the open depends on. */
  lemma SameStart(l: Ledger, m: Ledger, k: TargetKey, generation: int, console: bool, sid: nat, io: OpenIo)
    requires m == l.(gates := m.gates)
    ensures GetsRecorded(m, k, console, io) == GetsRecorded(l, k, console, io)
    ensures LeaseTaken(m, k, console) == LeaseTaken(l, k, console)
    ensures Recorded(m, k, generation, console, sid, io) == Recorded(l, k, generation, console, sid, io)
  {
  }

  /** An open commits if and only if everything it depends on goes well. */
  lemma OpenCommitsExactlyWhen(l: Ledger, k: TargetKey, request: OpenRequest, recovery: bool, console: bool, sid: nat, io: OpenIo)
    requires l.Total() && l.Unheard(sid)
    ensures OpenSession(l, k, request, recovery, console, sid, io).going
            <==> AllGoesWell(l, k, request, recovery, console, io)
  {
    if Grant(l.GateOf(k), recovery, request).Ok? {
      var m, p, c := AfterGrant(l, k, request, recovery, console, sid, io);
      hide OpenSession, Prepare, Conclude, Unwind, Step, InPreparation, Gate.Promote, Gate.Admit, Gate.AdmitRecovery, KnownPid,
           GetsReady, GetsRecorded, LeaseTaken, Recorded;
      SameStart(l, m, k, request.generation, console, sid, io);
      Prepared(m, k, request.generation, console, sid, io);
      Concluded(m, k, request.generation, recovery, sid, p, HandleId(k, |l.GateOf(k).issued|), io);
    }
  }

  /** What a committed open of key k holds. */
  ghost function HeldBy(l: Ledger, k: TargetKey, console: bool, sid: nat, io: OpenIo): OpenState {
    OpenState(Some(GuardToken(k, l.guard.fence + 1)), LeaseTaken(l, k, console), Some(sid), ReportedPid(io),
              Some(HandleId(k, |l.GateOf(k).issued|)))
  }

  /** The gate with one more handle, promoted, and without the recovery mark if that was asked for. */
  function Joined(g: Gate, generation: int, recovery: bool): Gate {
    g.(issued := g.issued + [Binding(generation, g.epoch, TransportOpen, recovery, Promoted, false, false)],
       live := g.live + {|g.issued|}, recovery := if recovery then None else g.recovery)
  }

  /** The ledger with the session in it. Its kill counts as resolved from the start exactly when it has no backend. */
  ghost function WithSession(l: Ledger, k: TargetKey, generation: int, recovery: bool, console: bool, sid: nat, io: OpenIo): Ledger {
    var held, record := HeldBy(l, k, console, sid, io),
                        TransportSession(sid, k, generation, RecordState.Ready, LeaseTaken(l, k, console), Executing, ReportedPid(io));
    Ledger(l.gates[k := Joined(l.GateOf(k), generation, recovery)],
           if console then l.leases[k := LeaseView(Transport, held.leaseToken, l.LeaseOf(k).generation + 1)] else l.leases,
           GuardView(l.guard.holders[k := held.guardToken.value], l.guard.fence + 1),
           Durable(l.files.records[k := record], if Clears(l, k, generation, recovery) then l.files.tombs - {k} else l.files.tombs),
           l.tokens[sid := held.guardToken.value],
           l.handles[sid := held.handle.value],
           l.subscribers[Seat(k, sid) := Subscription(record, held, ReportedPid(io) == None)])
  }

  /** A committed open is that session more, and nothing else. */
  lemma CommittedOpen(l: Ledger, k: TargetKey, request: OpenRequest, recovery: bool, console: bool, sid: nat, io: OpenIo)
    requires l.Total() && l.Unheard(sid)
    requires OpenSession(l, k, request, recovery, console, sid, io).going
    ensures OpenSession(l, k, request, recovery, console, sid, io)
            == Attempt(WithSession(l, k, request.generation, recovery, console, sid, io), HeldBy(l, k, console, sid, io), true)
  {
    hide OpenSession, WithSession, HeldBy, Ledger.Total, Ledger.Unheard, Opened, Grant;
    CommittedState(l, k, request, recovery, console, sid, io);
    OpenAddsOneSession(l, k, request, recovery, console, sid, io);
    SessionMore(l, k, request, recovery, console, sid, io, OpenSession(l, k, request, recovery, console, sid, io));
  }

  lemma CommittedState(l: Ledger, k: TargetKey, request: OpenRequest, recovery: bool, console: bool, sid: nat, io: OpenIo)
    requires l.Total() && l.Unheard(sid)
    requires OpenSession(l, k, request, recovery, console, sid, io).going
    ensures OpenSession(l, k, request, recovery, console, sid, io).state == HeldBy(l, k, console, sid, io)
    ensures Grant(l.GateOf(k), recovery, request).Ok?
  {
    hide OpenSession, Prepare, Conclude, Unwind, Step, InPreparation, Gate.Promote, GetsReady, GetsRecorded, LeaseTaken, Recorded,
         KnownPid, Ledger.Total, Ledger.Unheard, Inv;
    GrantedIfGoing(l, k, request, recovery, console, sid, io);
    var m, p, c := AfterGrant(l, k, request, recovery, console, sid, io);
    SameStart(l, m, k, request.generation, console, sid, io);
    Prepared(m, k, request.generation, console, sid, io);
    Concluded(m, k, request.generation, recovery, sid, p, HandleId(k, |l.GateOf(k).issued|), io);
    ReadyKnows(io);
  }

  lemma GrantedIfGoing(l: Ledger, k: TargetKey, request: OpenRequest, recovery: bool, console: bool, sid: nat, io: OpenIo)
    requires OpenSession(l, k, request, recovery, console, sid, io).going
    ensures Grant(l.GateOf(k), recovery, request).Ok?
  {
    hide Prepare, Conclude, Unwind, Grant;
  }

  lemma ReadyKnows(io: OpenIo)
    ensures GetsReady(io) ==> KnownPid(io) == ReportedPid(io)
  {
  }

  lemma SessionMore(l: Ledger, k: TargetKey, request: OpenRequest, recovery: bool, console: bool, sid: nat, io: OpenIo, a: Attempt)
    requires l.Total() && Grant(l.GateOf(k), recovery, request).Ok? && Opened(l, k, request, recovery, sid, a)
    requires a.going && a.state == HeldBy(l, k, console, sid, io)
    ensures a == Attempt(WithSession(l, k, request.generation, recovery, console, sid, io), HeldBy(l, k, console, sid, io), true)
  {
    EnteredGate(l.GateOf(k), recovery, request);
    LeasesOfCommit(l, k, a, console);
    hide Entered, Inv, Step, Grant, LeaseAt, ReportedPid;
    assert Entered(l.GateOf(k), recovery, request) == Joined(l.GateOf(k), request.generation, recovery);
  }

  lemma LeasesOfCommit(l: Ledger, k: TargetKey, a: Attempt, console: bool)
    requires l.Total() && LeaseAt(l, k, a) && a.state.leaseToken == LeaseTaken(l, k, console)
    ensures a.ledger.leases == if console then l.leases[k := LeaseView(Transport, LeaseTaken(l, k, console), l.LeaseOf(k).generation + 1)]
                               else l.leases
  {
    assert k in l.leases;
  }

  /**
    What a failed open leaves when it cannot delete its record: one that still names session, key,
    incarnation and lease, and the last backend whose report was stored, or the attached one if the READY write
    had gone through. So a reconciliation finds every backend the open had written down.
   */
  lemma FailedOpenLeavesRecord(l: Ledger, k: TargetKey, request: OpenRequest, recovery: bool, console: bool, sid: nat, io: OpenIo)
    requires l.Total() && l.Unheard(sid) && !io.deleted
    requires var a := OpenSession(l, k, request, recovery, console, sid, io); !a.going && a.state.session.Some?
    ensures var a := OpenSession(l, k, request, recovery, console, sid, io);
            && Lookup(a.ledger.files.records, k) == Some(Recorded(l, k, request.generation, console, sid, io))
            && a.state.pid == KnownPid(io)
  {
    var m, p, c := AfterGrant(l, k, request, recovery, console, sid, io);
    hide OpenSession, Prepare, Conclude, Unwind, Grant, InPreparation, Gate.Promote, KnownPid, GetsReady, GetsRecorded,
         LeaseTaken, Recorded, Ledger.Total, Ledger.Unheard;
    SameStart(l, m, k, request.generation, console, sid, io);
    Prepared(m, k, request.generation, console, sid, io);
    Concluded(m, k, request.generation, recovery, sid, p, HandleId(k, |l.GateOf(k).issued|), io);
    UndeletedStays(c.ledger, k, c.state, HandleId(k, |l.GateOf(k).issued|));
  }

  lemma UndeletedStays(l: Ledger, k: TargetKey, state: OpenState, h: HandleId)
    ensures Unwind(l, k, state, h, false).files == l.files
  {
  }
}
