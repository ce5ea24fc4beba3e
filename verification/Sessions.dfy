/** The life of one session: what a committed open establishes and what each way of ending it takes back. */
module Sessions {
  import opened Common
  import opened Admission
  import opened Guards
  import opened Leases
  import opened Registries
  import opened Ledgers
  import opened Unwinding

  /** Session sid is open on key k: every authority knows it, under the tokens of `state`. */
  ghost predicate Established(l: Ledger, k: TargetKey, sid: nat, state: OpenState) {
    && state.guardToken.Some? && state.handle.Some?
    && state.guardToken.value.targetKey == k && l.guard.Holds(state.guardToken.value)
    && Lookup(l.tokens, sid) == state.guardToken
    && (state.leaseToken.Some? ==> l.LeaseOf(k).token == state.leaseToken)
    && l.Owns(k, sid) && l.files.records[k].targetKey == k && l.files.records[k].leaseToken == state.leaseToken
    && Lookup(l.handles, sid) == state.handle
    && state.handle.value.key == k && state.handle.value.id in l.GateOf(k).live
    && l.GateOf(k).Known(state.handle.value.id) && l.GateOf(k).issued[state.handle.value.id].state.Promoted?
    && l.GateOf(k).issued[state.handle.value.id].op.TransportOpen?
    && Seat(k, sid) in l.subscribers && l.subscribers[Seat(k, sid)].state == state
  }

  /** What a committed open of session sid on key k has added to `m`, the ledger it was admitted in. */
  ghost predicate Committed(m: Ledger, k: TargetKey, generation: int, sid: nat, h: HandleId, a: Attempt) {
    && GuardAt(m, k, a) && LeaseAt(m, k, a) && a.state.guardToken.Some? && a.state.handle == Some(h)
    && a.ledger.tokens == m.tokens[sid := a.state.guardToken.value]
    && a.ledger.handles == m.handles[sid := h]
    && a.ledger.files.records == m.files.records[k := ReadyRecord(k, generation, sid, a.state)]
    && Seat(k, sid) in a.ledger.subscribers
    && a.ledger.subscribers == m.subscribers[Seat(k, sid) :=
         Subscription(ReadyRecord(k, generation, sid, a.state), a.state, a.state.pid.None?)]
  }

  lemma CommitEstablishes(m: Ledger, k: TargetKey, generation: int, recovery: bool, sid: nat, p: Attempt, h: HandleId, io: OpenIo)
    requires m.Total() && InPreparation(m, k, sid, p) && h.key == k && m.GateOf(k).Promote(h.id).Ok?
    requires p.going ==> p.state.session == Some(sid)
                         && p.ledger.files.records[k] == ReadyRecord(k, generation, sid, p.state)
    requires Conclude(p, k, generation, recovery, h, io).going
    ensures var c := Conclude(p, k, generation, recovery, h, io);
            && Committed(m, k, generation, sid, h, c)
            && c.ledger.files.tombs == (if recovery then m.ClearTomb(k, generation, true).files.tombs else m.files.tombs)
            && c.ledger.gates == (if recovery then m.At(k, Promote(h.id)).At(k, ClearRecovery(generation))
                                  else m.At(k, Promote(h.id))).gates
  {
    hide LeaseAt, GuardAt, Ledger.Total, Committed, Gate.Promote, Step;
    var c := Commit(p, ReadyRecord(k, generation, sid, p.state), h);
    CommitMakesSession(m, k, generation, sid, p, h);
    if recovery {
      ClearanceKeepsSession(m, k, generation, sid, c, h, io);
    }
  }

  lemma CommitMakesSession(m: Ledger, k: TargetKey, generation: int, sid: nat, p: Attempt, h: HandleId)
    requires InPreparation(m, k, sid, p) && h.key == k && p.going && p.state.session == Some(sid)
    requires p.ledger.files.records[k] == ReadyRecord(k, generation, sid, p.state)
    requires Commit(p, ReadyRecord(k, generation, sid, p.state), h).going
    ensures var c := Commit(p, ReadyRecord(k, generation, sid, p.state), h);
            && Committed(m, k, generation, sid, h, c) && c.ledger.files == p.ledger.files
            && c.ledger.gates == m.At(k, Promote(h.id)).gates
  {
    hide LeaseAt, GuardAt, Gate.Promote, Step;
    var c := Commit(p, ReadyRecord(k, generation, sid, p.state), h);
    HoldsCarried(m, k, p, c);
    assert ReadyRecord(k, generation, sid, p.state) == ReadyRecord(k, generation, sid, c.state);
  }

  lemma ClearanceKeepsSession(m: Ledger, k: TargetKey, generation: int, sid: nat, c: Attempt, h: HandleId, io: OpenIo)
    requires Committed(m, k, generation, sid, h, c) && ClearGate(c, k, generation, io).going
    ensures Committed(m, k, generation, sid, h, ClearGate(c, k, generation, io))
  {
    hide LeaseAt, GuardAt, Step;
    HoldsCarried(m, k, c, ClearGate(c, k, generation, io));
  }

  /** A committed open's effect on its key's gate. */
  function Entered(g: Gate, recovery: bool, request: OpenRequest): Gate {
    var promoted := Step(Step(g, AdmissionOf(recovery, request)), Promote(|g.issued|));
    if recovery then Step(promoted, ClearRecovery(request.generation)) else promoted
  }

  lemma EnteredGate(g: Gate, recovery: bool, request: OpenRequest)
    requires Inv(g) && Grant(g, recovery, request).Ok?
    ensures var t := Entered(g, recovery, request); var h := |g.issued|;
            && Inv(t) && t.closedAt.None? && t.snapshot == g.snapshot && t.epoch == g.epoch
            && t.issued == g.issued + [Binding(request.generation, g.epoch, TransportOpen, recovery, Promoted, false, false)]
            && t.live == g.live + {h}
            && t.recovery == (if recovery then None else g.recovery)
  {
    Granting(g, recovery, request);
    StepKeepsInv(Step(g, AdmissionOf(recovery, request)), Promote(|g.issued|));
  }

  /** What the whole open adds to the ledger it started from. */
  ghost predicate Opened(l: Ledger, k: TargetKey, request: OpenRequest, recovery: bool, sid: nat, a: Attempt) {
    && Committed(l, k, request.generation, sid, HandleId(k, |l.GateOf(k).issued|), a)
    && a.ledger.files.tombs == (if recovery then l.ClearTomb(k, request.generation, true) else l).files.tombs
    && a.ledger.gates == l.gates[k := Entered(l.GateOf(k), recovery, request)]
  }

  lemma CommittedFrom(l: Ledger, m: Ledger, k: TargetKey, generation: int, sid: nat, h: HandleId, a: Attempt)
    requires m == l.(gates := m.gates) && Committed(m, k, generation, sid, h, a)
    ensures Committed(l, k, generation, sid, h, a)
  {
  }

  /** A successful open: exactly one more session, known to every authority, in no other way different. */
  lemma OpenAddsOneSession(l: Ledger, k: TargetKey, request: OpenRequest, recovery: bool, console: bool, sid: nat, io: OpenIo)
    requires l.Total() && l.Unheard(sid)
    requires OpenSession(l, k, request, recovery, console, sid, io).going
    ensures var a := OpenSession(l, k, request, recovery, console, sid, io);
            Grant(l.GateOf(k), recovery, request).Ok? && Opened(l, k, request, recovery, sid, a)
  {
    hide Prepare, Conclude, Unwind, Step, Grant, InPreparation, Committed, Entered, Inv, Gate.Promote;
    var g := l.GateOf(k);
    var e := AdmissionOf(recovery, request);
    var m := l.At(k, e);
    var h := HandleId(k, |g.issued|);
    Granting(g, recovery, request);
    Unwinding.Granted(l, k, e, sid);
    var p := Prepare(m, k, request.generation, console, sid, io);
    PrepareKept(m, k, request.generation, console, sid, io);
    CommitEstablishes(m, k, request.generation, recovery, sid, p, h, io);
    EnteredGates(l, k, request, recovery);
    assert m.ClearTomb(k, request.generation, true).files == l.ClearTomb(k, request.generation, true).files;
    CommittedFrom(l, m, k, request.generation, sid, h, Conclude(p, k, request.generation, recovery, h, io));
  }

  lemma EnteredGates(l: Ledger, k: TargetKey, request: OpenRequest, recovery: bool)
    ensures var m := l.At(k, AdmissionOf(recovery, request)).At(k, Promote(|l.GateOf(k).issued|));
            (if recovery then m.At(k, ClearRecovery(request.generation)) else m).gates
            == l.gates[k := Entered(l.GateOf(k), recovery, request)]
  {
    hide Step;
  }

  lemma OpenedIsEstablished(l: Ledger, k: TargetKey, request: OpenRequest, recovery: bool, sid: nat, a: Attempt)
    requires l.Total() && l.Unheard(sid) && Grant(l.GateOf(k), recovery, request).Ok?
    requires Opened(l, k, request, recovery, sid, a)
    ensures Established(a.ledger, k, sid, a.state)
    ensures a.ledger.Total() && (l.Unambiguous() ==> a.ledger.Unambiguous())
  {
    hide Step, Entered, Inv;
    EnteredAt(l, k, recovery, request);
    OpenedStaysTotal(l, k, request, recovery, sid, a);
  }

  lemma EnteredAt(l: Ledger, k: TargetKey, recovery: bool, request: OpenRequest)
    requires l.Total() && Grant(l.GateOf(k), recovery, request).Ok?
    ensures var t := Entered(l.GateOf(k), recovery, request); var h := |l.GateOf(k).issued|;
            Inv(t) && h in t.live && t.Known(h) && t.issued[h].state.Promoted? && t.issued[h].op.TransportOpen?
  {
    EnteredGate(l.GateOf(k), recovery, request);
  }

  lemma OpenedStaysTotal(l: Ledger, k: TargetKey, request: OpenRequest, recovery: bool, sid: nat, a: Attempt)
    requires l.Total() && Inv(Entered(l.GateOf(k), recovery, request)) && Opened(l, k, request, recovery, sid, a)
    ensures a.ledger.Total()
  {
    hide Entered, Inv;
  }

  // ----- close

  lemma KeyFound(l: Ledger, k: TargetKey, sid: nat)
    requires l.Unambiguous() && l.Owns(k, sid)
    ensures KeyOf(l, sid) == Some(k)
  {
    var j := KeyOf(l, sid).value;
    assert j in l.files.records && l.files.records[j].sid == sid;
  }

  /** The closed session's gate: its handle completed, and the target marked when it is left parked. */
  function Left(g: Gate, h: nat, marked: bool, generation: int): Gate {
    if marked then Step(Step(g, Complete(h)), MarkRecovery(generation)) else Step(g, Complete(h))
  }

  ghost predicate Marks(record: TransportSession, force: bool, io: CloseIo) {
    Parks(record, force) && io.tombStored
  }

  /** Nothing of session sid is left but, perhaps, its record and its handle. */
  ghost predicate Gone(l: Ledger, k: TargetKey, sid: nat, state: OpenState, c: Ledger) {
    && c.guard == l.guard.(holders := l.guard.holders - {k})
    && c.leases == (if state.leaseToken.Some? then l.leases[k := LeaseView(Free, None, l.LeaseOf(k).generation)] else l.leases)
    && c.tokens == l.tokens - {sid} && c.handles == l.handles - {sid}
    && c.subscribers == l.subscribers - {Seat(k, sid)}
  }

  /** The tables and holds once the token, lease and handle of the session have been dropped. */
  lemma CloseDrops(l: Ledger, k: TargetKey, sid: nat, state: OpenState)
    requires l.Total() && Established(l, k, sid, state)
    ensures var c := CompleteHandle(DropToken(l.ReleaseLease(k, l.files.records[k].leaseToken), k, sid), sid);
            && Gone(l, k, sid, state, c.ledger.Unsubscribe(k, sid)) && c.ledger.files == l.files
            && c.ledger.gates == l.At(k, Complete(state.handle.value.id)).gates
            && (c.failed <==> l.GateOf(k).issued[state.handle.value.id].cancelled)
  {
  }

  lemma CloseGone(l: Ledger, k: TargetKey, sid: nat, state: OpenState, force: bool, io: CloseIo)
    requires l.Total() && l.Unambiguous() && Established(l, k, sid, state) && io.closingStored
    ensures Gone(l, k, sid, state, CloseSession(l, sid, force, io).ledger)
  {
    KeyFound(l, k, sid);
    var record := l.files.records[k];
    var closing := l.WithRecord(record.(recordState := Closing));
    CloseDrops(closing, k, sid, state);
    var dropped := CompleteHandle(DropToken(closing.ReleaseLease(k, record.leaseToken), k, sid), sid).ledger;
    hide Ledger.Total, Established, Ledger.Unambiguous, Step, KeyOf, CompleteHandle, DropToken, Ledger.ReleaseLease, Gone;
    GoneFrom(l, closing, k, sid, state, dropped.Unsubscribe(k, sid), CloseSession(l, sid, force, io).ledger);
  }

  lemma GoneFrom(l: Ledger, m: Ledger, k: TargetKey, sid: nat, state: OpenState, d: Ledger, c: Ledger)
    requires m == l.(files := m.files) && c == d.(files := c.files, gates := c.gates)
    requires Gone(m, k, sid, state, d)
    ensures Gone(l, k, sid, state, c)
  {
  }

  ghost predicate CloseFails(l: Ledger, record: TransportSession, h: nat, force: bool, io: CloseIo)
    requires l.GateOf(record.targetKey).Known(h)
  {
    || !io.transportClosed || l.GateOf(record.targetKey).issued[h].cancelled || !io.deleted
    || (Parks(record, force) && !io.tombStored)
  }

  lemma DropsKeepFiles(l: Ledger, k: TargetKey, t: Option<nat>, sid: nat)
    ensures CompleteHandle(DropToken(l.ReleaseLease(k, t), k, sid), sid).ledger.files == l.files
  {
  }

  lemma CloseFiles(l: Ledger, k: TargetKey, sid: nat, force: bool, io: CloseIo)
    requires l.Unambiguous() && l.Owns(k, sid) && l.files.records[k].targetKey == k && io.closingStored
    ensures var c := CloseSession(l, sid, force, io); var record := l.files.records[k];
            && c.ledger.files.records == (if io.deleted then l.files.records - {k}
                                          else l.files.records[k := record.(recordState := Closing)])
            && c.ledger.files.tombs == (if Marks(record, force, io)
                                        then l.files.tombs[k := Marker(record.generation, ClosedWhileHalted)]
                                        else l.files.tombs)
  {
    KeyFound(l, k, sid);
    var record := l.files.records[k];
    var closing := l.WithRecord(record.(recordState := Closing));
    DropsKeepFiles(closing, k, record.leaseToken, sid);
    var dropped := CompleteHandle(DropToken(closing.ReleaseLease(k, record.leaseToken), k, sid), sid);
    hide KeyOf, CompleteHandle, DropToken, Ledger.ReleaseLease, Ledger.At, Ledger.WithRecord;
    DeletesClosing(l, k, MarkParked(dropped.ledger, record, force, io), record, io.deleted);
  }

  lemma DeletesClosing(l: Ledger, k: TargetKey, m: Ledger, record: TransportSession, deleted: bool)
    requires k in l.files.records && record.targetKey == k
    requires m.files.records == l.WithRecord(record.(recordState := Closing)).files.records
    ensures var c := m.DeleteOwn(k, record.sid, deleted);
            && c.files.tombs == m.files.tombs
            && c.files.records == (if deleted then l.files.records - {k} else m.files.records)
  {
    assert l.files.records[k := record.(recordState := Closing)] - {k} == l.files.records - {k};
  }

  lemma CloseGates(l: Ledger, k: TargetKey, sid: nat, state: OpenState, force: bool, io: CloseIo)
    requires l.Total() && l.Unambiguous() && Established(l, k, sid, state) && io.closingStored
    ensures var c := CloseSession(l, sid, force, io); var record := l.files.records[k]; var h := state.handle.value.id;
            && c.ledger.gates == l.gates[k := Left(l.GateOf(k), h, Marks(record, force, io), record.generation)]
            && (c.failed <==> CloseFails(l, record, h, force, io))
  {
    KeyFound(l, k, sid);
    var record := l.files.records[k];
    var closing := l.WithRecord(record.(recordState := Closing));
    assert Established(closing, k, sid, state);
    CloseDrops(closing, k, sid, state);
    hide Ledger.Total, Established, Ledger.Unambiguous, Step, KeyOf, CompleteHandle, DropToken, Ledger.ReleaseLease, Gone;
  }

  /** The effect of close in terms of its parts. */
  lemma CloseComposed(l: Ledger, k: TargetKey, sid: nat, state: OpenState, force: bool, io: CloseIo)
    requires l.Total() && l.Unambiguous() && Established(l, k, sid, state) && io.closingStored
    ensures var c := CloseSession(l, sid, force, io); var record := l.files.records[k]; var h := state.handle.value.id;
            && Gone(l, k, sid, state, c.ledger)
            && c.ledger.files.records == (if io.deleted then l.files.records - {k}
                                          else l.files.records[k := record.(recordState := Closing)])
            && c.ledger.files.tombs == (if Marks(record, force, io)
                                        then l.files.tombs[k := Marker(record.generation, ClosedWhileHalted)]
                                        else l.files.tombs)
            && c.ledger.gates == l.gates[k := Left(l.GateOf(k), h, Marks(record, force, io), record.generation)]
            && (c.failed <==> CloseFails(l, record, h, force, io))
  {
    CloseGone(l, k, sid, state, force, io);
    CloseFiles(l, k, sid, force, io);
    CloseGates(l, k, sid, state, force, io);
    hide CloseSession, Gone, Marks, Left, CloseFails;
  }

  /** The later of a gate's recovery mark and a generation. */
  function Later(mark: Option<int>, generation: int): int {
    if mark.Some? && mark.value > generation then mark.value else generation
  }

  /** Handle h completed, if it has not been cancelled; the gate marked at `mark` or later, if there is one. */
  function Parted(g: Gate, h: nat, mark: Option<int>): Gate
    requires g.Known(h)
  {
    var b := g.issued[h];
    g.(issued := if b.cancelled then g.issued else g.issued[h := b.(state := Completed)],
       live := if b.cancelled then g.live else g.live - {h},
       recovery := if mark.Some? then Some(Later(g.recovery, mark.value)) else g.recovery)
  }

  lemma LeftIsParted(l: Ledger, k: TargetKey, sid: nat, state: OpenState, marked: bool, generation: int)
    requires l.Total() && Established(l, k, sid, state)
    ensures Left(l.GateOf(k), state.handle.value.id, marked, generation)
            == Parted(l.GateOf(k), state.handle.value.id, if marked then Some(generation) else None)
  {
    var g, h := l.GateOf(k), state.handle.value.id;
    assert g.issued[h := g.issued[h]] == g.issued;
  }

  /**
    close of an open session whose CLOSING record was stored: guard, lease, token, handle entry and
    subscription all go, whatever the transport says; the handle completes unless it was cancelled; a
    parked target is gated in both places unless the caller forces; the record goes if it can be deleted.
   */
  lemma CloseTakesBack(l: Ledger, k: TargetKey, sid: nat, state: OpenState, force: bool, io: CloseIo)
    requires l.Total() && l.Unambiguous() && Established(l, k, sid, state) && io.closingStored
    ensures var c := CloseSession(l, sid, force, io); var record := l.files.records[k]; var h := state.handle.value.id;
            var gates := record.executionState != Executing && !force;
            && Gone(l, k, sid, state, c.ledger)
            && c.ledger.files.records == (if io.deleted then l.files.records - {k}
                                          else l.files.records[k := record.(recordState := Closing)])
            && c.ledger.files.tombs == (if gates && io.tombStored
                                        then l.files.tombs[k := Marker(record.generation, ClosedWhileHalted)]
                                        else l.files.tombs)
            && c.ledger.gates == l.gates[k := Parted(l.GateOf(k), h, if gates && io.tombStored then Some(record.generation) else None)]
            && (c.failed <==> !io.transportClosed || l.GateOf(k).issued[h].cancelled || !io.deleted || (gates && !io.tombStored))
  {
    CloseComposed(l, k, sid, state, force, io);
    var record := l.files.records[k];
    LeftIsParted(l, k, sid, state, Marks(record, force, io), record.generation);
    hide CloseSession, Gone, Left, Parted, Ledger.Total, Ledger.Unambiguous;
  }

  /** A close whose CLOSING write is refused does nothing more. */
  lemma CloseStopsAtItsFirstWrite(l: Ledger, k: TargetKey, sid: nat, force: bool, io: CloseIo)
    requires l.Owns(k, sid) && !io.closingStored
    ensures CloseSession(l, sid, force, io) == Outcome(l, true)
  {
    assert k in l.files.records && l.files.records[k].sid == sid;
  }

  /**
    A forced close gates nothing, on any ledger and whatever state the record is in: tombstones and recovery
    marks stay as they are, and no tombstone write is there to fail.
   */
  lemma ForcedCloseNeverGates(l: Ledger, sid: nat, io: CloseIo)
    ensures var c := CloseSession(l, sid, true, io);
            && c.ledger.files.tombs == l.files.tombs
            && (forall j :: c.ledger.GateOf(j).recovery == l.GateOf(j).recovery)
            && c == CloseSession(l, sid, true, io.(tombStored := !io.tombStored))
  {
    if KeyOf(l, sid).Some? && io.closingStored {
      var record := l.files.records[KeyOf(l, sid).value];
      var closing := l.WithRecord(record.(recordState := Closing));
      CompletionKeepsMarks(DropToken(closing.ReleaseLease(record.targetKey, record.leaseToken), record.targetKey, record.sid), record.sid);
    }
  }

  lemma CompletionKeepsMarks(l: Ledger, sid: nat)
    ensures forall j :: CompleteHandle(l, sid).ledger.GateOf(j).recovery == l.GateOf(j).recovery
    ensures CompleteHandle(l, sid).ledger.files == l.files
  {
    if sid in l.handles {
      var h := l.handles[sid];
      HandleStepsAreLocal(l.GateOf(h.key), h.id);
      hide Step;
    }
  }
}
