/** An open that fails puts every authority back, and one that succeeds is undone by close. */
module Unwinding {
  import opened Common
  import opened Admission
  import opened Guards
  import opened Leases
  import opened Registries
  import opened Ledgers

  /** How far an open on key k for session sid has moved each authority away from `l`. */
  ghost predicate GuardAt(l: Ledger, k: TargetKey, a: Attempt) {
    match a.state.guardToken
    case None => a.ledger.guard.holders == l.guard.holders
    case Some(t) =>
      && k !in l.guard.holders && t == GuardToken(k, l.guard.fence + 1)
      && a.ledger.guard == l.guard.Acquire(k)
  }

  ghost predicate LeaseAt(l: Ledger, k: TargetKey, a: Attempt) {
    && a.ledger.leases.Keys == l.leases.Keys
    && (forall j | j != k && j in l.leases :: a.ledger.leases[j] == l.leases[j])
    && match a.state.leaseToken
       case None => a.ledger.LeaseOf(k) == l.LeaseOf(k)
       case Some(t) => l.LeaseOf(k).owner.Free? && a.ledger.LeaseOf(k) == l.LeaseOf(k).Acquire(Transport)
                       && t == l.LeaseOf(k).generation + 1
  }

  ghost predicate TablesAt(l: Ledger, k: TargetKey, sid: nat, a: Attempt) {
    && (a.state.session.Some? ==> a.state.session.value == sid && a.state.guardToken.Some?)
    && ((a.state.session.None? && a.ledger.tokens == l.tokens)
        || (a.state.guardToken.Some? && a.ledger.tokens == l.tokens[sid := a.state.guardToken.value]))
    && a.ledger.handles - {sid} == l.handles
    && a.ledger.subscribers - {Seat(k, sid)} == l.subscribers
    && (a.state.session.None? ==> a.ledger.handles == l.handles && a.ledger.subscribers == l.subscribers)
  }

  ghost predicate FilesAt(l: Ledger, k: TargetKey, sid: nat, a: Attempt) {
    && a.ledger.files.tombs == l.files.tombs
    && match a.state.session
       case None => a.ledger.files.records == l.files.records
       case Some(_) => a.ledger.Owns(k, sid) && a.ledger.files.records[k].targetKey == k
                       && a.ledger.files.records[k].executionState.Executing?
                       && a.ledger.files.records == l.files.records[k := a.ledger.files.records[k]]
  }

  ghost predicate Underway(l: Ledger, k: TargetKey, sid: nat, a: Attempt) {
    GuardAt(l, k, a) && LeaseAt(l, k, a) && TablesAt(l, k, sid, a) && FilesAt(l, k, sid, a)
  }

  /** Before its commit an open has touched neither the gates nor the session tables. */
  ghost predicate InPreparation(l: Ledger, k: TargetKey, sid: nat, a: Attempt) {
    && Underway(l, k, sid, a)
    && a.ledger.gates == l.gates && a.ledger.handles == l.handles && a.ledger.subscribers == l.subscribers
  }

  /** b has the same tokens and session as a. */
  ghost predicate SameHolds(a: Attempt, b: Attempt) {
    && b.state.guardToken == a.state.guardToken && b.state.leaseToken == a.state.leaseToken
    && b.state.session == a.state.session && b.ledger.tokens == a.ledger.tokens
  }

  lemma TakeGuardKept(l: Ledger, k: TargetKey, sid: nat, io: OpenIo)
    requires l.Total() && l.Unheard(sid)
    ensures var a := TakeGuard(Attempt(l, Nothing, true), k, io);
            && InPreparation(l, k, sid, a) && a.state.leaseToken.None? && a.state.session.None? && a.ledger.tokens == l.tokens
            && (a.going <==> a.state.guardToken.Some?)
  {
    assert l.handles - {sid} == l.handles;
    assert l.subscribers - {Seat(k, sid)} == l.subscribers;
  }

  lemma TakeLeaseKept(l: Ledger, k: TargetKey, sid: nat, a: Attempt, console: bool, io: OpenIo)
    requires l.Total() && InPreparation(l, k, sid, a) && a.state.leaseToken.None? && a.state.session.None?
    requires a.going ==> a.state.guardToken.Some?
    ensures var b := TakeLease(a, k, console, io);
            InPreparation(l, k, sid, b) && b.state.session.None? && (b.going ==> b.state.guardToken.Some?)
            && b.ledger.tokens == a.ledger.tokens
  {
    assert k in l.leases;
  }

  lemma WriteOpeningKept(l: Ledger, k: TargetKey, generation: int, sid: nat, a: Attempt, io: OpenIo)
    requires l.Total() && l.Unheard(sid) && InPreparation(l, k, sid, a) && a.state.session.None? && a.ledger.tokens == l.tokens
    ensures var b := WriteOpening(a, k, generation, sid, io);
            && InPreparation(l, k, sid, b) && (b.going ==> b.state.session.Some?)
            && (b.state.session.None? && io.openingStored ==> b.ledger.tokens == l.tokens)
            && b.state.leaseToken == a.state.leaseToken
  {
    HoldsCarried(l, k, a, WriteOpening(a, k, generation, sid, io));
    hide GuardAt, LeaseAt;
    assert l.handles - {sid} == l.handles;
    assert l.subscribers - {Seat(k, sid)} == l.subscribers;
  }

  lemma HoldsCarried(l: Ledger, k: TargetKey, a: Attempt, b: Attempt)
    requires GuardAt(l, k, a) && LeaseAt(l, k, a)
    requires b.ledger.guard == a.ledger.guard && b.ledger.leases == a.ledger.leases
    requires b.state.guardToken == a.state.guardToken && b.state.leaseToken == a.state.leaseToken
    ensures GuardAt(l, k, b) && LeaseAt(l, k, b)
  {
  }

  /** The partials only rewrite the session's own record and learn a pid. */
  lemma {:induction false} PartialsKept(l: Ledger, k: TargetKey, sid: nat, a: Attempt, record: TransportSession, ps: seq<Partial>)
    requires InPreparation(l, k, sid, a) && a.state.session.Some?
    requires record.targetKey == k && record.sid == sid && record.executionState.Executing?
    ensures InPreparation(l, k, sid, ReportPartials(a, record, ps)) && SameHolds(a, ReportPartials(a, record, ps))
    decreases |ps|
  {
    if ps != [] && ps[0].stored {
      var pid := Some(ps[0].pid);
      PartialsKept(l, k, sid, Attempt(a.ledger.WithRecord(record.(backendPid := pid)), a.state.(pid := pid), true), record, ps[1..]);
    }
  }

  lemma AttachKept(l: Ledger, k: TargetKey, sid: nat, a: Attempt, record: TransportSession, io: OpenIo)
    requires InPreparation(l, k, sid, a) && (a.going ==> a.state.session.Some?)
    requires record.targetKey == k && record.sid == sid && record.executionState.Executing?
    ensures var b := Attach(a, record, io);
            InPreparation(l, k, sid, b) && (b.going ==> a.going) && SameHolds(a, b)
  {
    if a.going {
      PartialsKept(l, k, sid, a, record, io.partials);
    }
  }

  lemma WriteReadyKept(l: Ledger, k: TargetKey, sid: nat, a: Attempt, record: TransportSession, io: OpenIo)
    requires InPreparation(l, k, sid, a) && (a.going ==> a.state.session.Some?)
    requires record.targetKey == k && record.sid == sid && record.executionState.Executing?
    ensures var b := WriteReady(a, record, io);
            && InPreparation(l, k, sid, b) && (b.going ==> a.going) && SameHolds(a, b)
            && (b.going ==> b.ledger.files.records[k] == record.(recordState := RecordState.Ready, backendPid := b.state.pid))
  {
  }

  /** The record an open leaves once it is ready. */
  function ReadyRecord(k: TargetKey, generation: int, sid: nat, state: OpenState): (r: TransportSession)
    ensures r == TransportSession(sid, k, generation, RecordState.Ready, state.leaseToken, Executing, state.pid)
  {
    RecordFor(k, generation, sid, state.leaseToken).(recordState := RecordState.Ready, backendPid := state.pid)
  }

  lemma PrepareKept(l: Ledger, k: TargetKey, generation: int, console: bool, sid: nat, io: OpenIo)
    requires l.Total() && l.Unheard(sid)
    ensures var p := Prepare(l, k, generation, console, sid, io);
            && InPreparation(l, k, sid, p)
            && (p.going ==> p.state.session == Some(sid))
            && (p.state.session.None? && io.openingStored ==> p.ledger.tokens == l.tokens)
            && (p.going ==> p.ledger.files.records[k] == ReadyRecord(k, generation, sid, p.state))
  {
    hide InPreparation, TakeGuard, TakeLease, WriteOpening, Attach, WriteReady;
    var g := TakeGuard(Attempt(l, Nothing, true), k, io);
    TakeGuardKept(l, k, sid, io);
    var held := TakeLease(g, k, console, io);
    TakeLeaseKept(l, k, sid, g, console, io);
    var recorded := WriteOpening(held, k, generation, sid, io);
    WriteOpeningKept(l, k, generation, sid, held, io);
    var record := RecordFor(k, generation, sid, held.state.leaseToken);
    AttachKept(l, k, sid, recorded, record, io);
    var attached := Attach(recorded, record, io);
    WriteReadyKept(l, k, sid, attached, record, io);
    PreparedSession(l, k, sid, WriteReady(attached, record, io));
  }

  lemma PreparedSession(l: Ledger, k: TargetKey, sid: nat, a: Attempt)
    requires InPreparation(l, k, sid, a)
    ensures a.state.session.Some? ==> a.state.session == Some(sid)
  {
  }

  // ----- admission, commit and rollback on the gate of k

  lemma Granting(g: Gate, recovery: bool, request: OpenRequest)
    requires Inv(g) && Grant(g, recovery, request).Ok?
    ensures g.snapshot.Some? && g.closedAt.None? && g.snapshot.value.generation == request.generation
    ensures var h := |g.issued|; var r := Step(g, AdmissionOf(recovery, request));
            && r == g.Register(TransportOpen, g.snapshot.value, recovery) && Inv(r)
            && r.issued[h] == Binding(request.generation, g.epoch, TransportOpen, recovery, Pending, false, false)
            && r.live - {h} == g.live
            && r.Promote(h).Ok?
  {
    StepKeepsInv(g, AdmissionOf(recovery, request));
  }

  /** A gate as it was, but for one more handle that was rolled back. */
  ghost predicate Restored(g: Gate, t: Gate) {
    t == g || (|t.issued| == |g.issued| + 1 && t == g.(issued := g.issued + [t.issued[|g.issued|]])
               && t.issued[|g.issued|].state.RolledBack?)
  }

  lemma RolledBackGate(g: Gate, recovery: bool, request: OpenRequest)
    requires Inv(g) && Grant(g, recovery, request).Ok?
    ensures var h := |g.issued|; var r := Step(g, AdmissionOf(recovery, request));
            Restored(g, Step(r, Event.Rollback(h))) && Restored(g, Step(Step(r, Promote(h)), Event.Rollback(h)))
  {
    Granting(g, recovery, request);
    var h := |g.issued|;
    var r := Step(g, AdmissionOf(recovery, request));
    var plain, promoted := Step(r, Event.Rollback(h)), Step(Step(r, Promote(h)), Event.Rollback(h));
    assert plain.live == g.live && promoted.live == g.live;
    assert plain.issued == g.issued + [plain.issued[h]];
    assert promoted.issued == g.issued + [promoted.issued[h]];
  }

  // ----- an open that fails after admission

  /** What the in-flight open has done to the admission gates since it was granted. */
  ghost predicate GatesAt(m: Ledger, h: HandleId, a: Attempt) {
    a.ledger.gates == m.gates || a.ledger.gates == m.At(h.key, Promote(h.id)).gates
  }

  lemma ConcludeKept(m: Ledger, k: TargetKey, generation: int, recovery: bool, sid: nat, p: Attempt, h: HandleId, io: OpenIo)
    requires InPreparation(m, k, sid, p) && h.key == k && m.GateOf(k).Promote(h.id).Ok?
    ensures var c := Conclude(p, k, generation, recovery, h, io);
            && c.state.session == p.state.session
            && (!c.going ==> Underway(m, k, sid, c) && GatesAt(m, h, c) && c.ledger.tokens == p.ledger.tokens)
            && (c.going <==> p.going && p.state.session.Some?
                             && !(recovery && m.Tombstoned(k, generation) && !io.unlinked && p.going))
  {
    hide GuardAt, LeaseAt, Step, Gate.Promote;
    var c := Conclude(p, k, generation, recovery, h, io);
    if p.going && p.state.session.Some? {
      assert p.ledger.Tombstoned(k, generation) == m.Tombstoned(k, generation);
      if !c.going {
        assert c.ledger.handles - {sid} == p.ledger.handles - {sid};
        assert c.ledger.subscribers - {Seat(k, sid)} == p.ledger.subscribers - {Seat(k, sid)};
      }
    }
    if !c.going {
      HoldsCarried(m, k, p, c);
    }
  }

  /** Guard and leases are as before, but for the fences and generations the attempt used up. */
  ghost predicate HoldsBack(m: Ledger, t: Ledger) {
    && t.guard.holders == m.guard.holders
    && (forall j :: t.LeaseOf(j).owner == m.LeaseOf(j).owner && t.LeaseOf(j).token == m.LeaseOf(j).token)
  }

  /** So are the tables and the files, unless the attempt had stored a record and could not delete it. */
  ghost predicate TablesBack(m: Ledger, k: TargetKey, sid: nat, state: OpenState, deleted: bool, t: Ledger) {
    && t.handles == m.handles && t.subscribers == m.subscribers
    && t.tokens - {sid} == m.tokens && (state.session.Some? ==> t.tokens == m.tokens)
    && t.files.tombs == m.files.tombs
    && t.files.records - {k} == m.files.records - {k}
    && (k in t.files.records <==>
          if state.session.None? then k in m.files.records else !deleted)
    && (state.session.None? ==> t.files == m.files)
    && (state.session.Some? && !deleted ==> t.files.records[k].sid == sid)
  }

  ghost predicate PutBack(m: Ledger, k: TargetKey, sid: nat, state: OpenState, deleted: bool, t: Ledger) {
    HoldsBack(m, t) && TablesBack(m, k, sid, state, deleted, t)
  }

  ghost function UnwindTables(l: Ledger, k: TargetKey, state: OpenState, deleted: bool): Ledger {
    if state.session.None? then l
    else l.Forget(state.session.value).DeleteOwn(k, state.session.value, deleted).Unsubscribe(k, state.session.value)
  }

  lemma RollbackPutsBack(m: Ledger, k: TargetKey, sid: nat, a: Attempt, h: HandleId, deleted: bool)
    requires m.Total() && m.Unheard(sid) && Underway(m, k, sid, a)
    ensures var t := Unwind(a.ledger, k, a.state, h, deleted);
            && PutBack(m, k, sid, a.state, deleted, t)
            && t.gates == a.ledger.At(h.key, Event.Rollback(h.id)).gates
            && (a.state.session.None? ==> t.tokens == a.ledger.tokens)
  {
    var n := UnwindTables(a.ledger, k, a.state, deleted);
    RollbackTables(m, k, sid, a, deleted);
    RollbackHolds(m, k, a, n);
    var r := n.ReleaseLease(k, a.state.leaseToken).ReleaseGuard(k, a.state.guardToken);
    hide GuardAt, LeaseAt, TablesAt, FilesAt, TablesBack, HoldsBack;
    assert Unwind(a.ledger, k, a.state, h, deleted) == r.At(h.key, Event.Rollback(h.id));
    Carried(m, k, sid, a.state, deleted, n, r, Unwind(a.ledger, k, a.state, h, deleted));
  }

  /** The last steps of the unwind leave tables and files alone. */
  lemma Carried(m: Ledger, k: TargetKey, sid: nat, state: OpenState, deleted: bool, n: Ledger, r: Ledger, t: Ledger)
    requires TablesBack(m, k, sid, state, deleted, n) && HoldsBack(m, r)
    requires r == n.(guard := r.guard, leases := r.leases) && t == r.(gates := t.gates)
    ensures PutBack(m, k, sid, state, deleted, t) && t.tokens == n.tokens
  {
  }

  lemma RollbackTables(m: Ledger, k: TargetKey, sid: nat, a: Attempt, deleted: bool)
    requires m.Unheard(sid) && TablesAt(m, k, sid, a) && FilesAt(m, k, sid, a)
    ensures var n := UnwindTables(a.ledger, k, a.state, deleted);
            && TablesBack(m, k, sid, a.state, deleted, n)
            && n.guard == a.ledger.guard && n.leases == a.ledger.leases && n.gates == a.ledger.gates
            && (a.state.session.None? ==> n.tokens == a.ledger.tokens)
  {
    assert m.tokens - {sid} == m.tokens;
    if a.state.guardToken.Some? {
      assert m.tokens[sid := a.state.guardToken.value] - {sid} == m.tokens;
    }
    if a.state.session.Some? {
      assert m.files.records[k := a.ledger.files.records[k]] - {k} == m.files.records - {k};
    }
  }

  lemma RollbackHolds(m: Ledger, k: TargetKey, a: Attempt, n: Ledger)
    requires m.Total() && GuardAt(m, k, a) && LeaseAt(m, k, a)
    requires n.guard == a.ledger.guard && n.leases == a.ledger.leases
    ensures HoldsBack(m, n.ReleaseLease(k, a.state.leaseToken).ReleaseGuard(k, a.state.guardToken))
  {
    if a.state.guardToken.Some? {
      assert m.guard.holders[k := a.state.guardToken.value] - {k} == m.guard.holders;
    }
    assert m.LeaseOf(k).Consistent();
  }

  // ----- the token of an open that fails

  /** Everything before the OPENING write goes well. */
  ghost predicate ReachesOpening(l: Ledger, k: TargetKey, console: bool, io: OpenIo) {
    io.selected && k !in l.guard.holders && (console ==> l.LeaseOf(k).owner.Free?) && io.secrets
  }

  lemma HeldForOpening(l: Ledger, k: TargetKey, console: bool, io: OpenIo)
    ensures var a := TakeLease(TakeGuard(Attempt(l, Nothing, true), k, io), k, console, io);
            && (a.going <==> ReachesOpening(l, k, console, io))
            && (a.going ==> a.state.guardToken.Some? && a.state.guardToken.value.targetKey == k)
            && a.state.session.None? && a.ledger.tokens == l.tokens
  {
  }

  lemma {:induction false} PartialsKeepTokens(a: Attempt, record: TransportSession, ps: seq<Partial>)
    ensures ReportPartials(a, record, ps).ledger.tokens == a.ledger.tokens
    ensures ReportPartials(a, record, ps).state.session == a.state.session
    decreases |ps|
  {
    if ps != [] && ps[0].stored {
      var pid := Some(ps[0].pid);
      PartialsKeepTokens(Attempt(a.ledger.WithRecord(record.(backendPid := pid)), a.state.(pid := pid), true), record, ps[1..]);
    }
  }

  /** The OPENING stage decides: a stored record is remembered, a refused one leaves the token entered. */
  lemma TokensAfterPrepare(l: Ledger, k: TargetKey, generation: int, console: bool, sid: nat, io: OpenIo)
    requires sid !in l.tokens
    ensures var p := Prepare(l, k, generation, console, sid, io);
            && (p.state.session.Some? <==> ReachesOpening(l, k, console, io) && io.openingStored)
            && (sid in p.ledger.tokens <==> ReachesOpening(l, k, console, io))
            && (sid in p.ledger.tokens ==> p.ledger.tokens[sid].targetKey == k)
  {
    hide ReachesOpening, TakeGuard, TakeLease, ReportPartials;
    HeldForOpening(l, k, console, io);
    var held := TakeLease(TakeGuard(Attempt(l, Nothing, true), k, io), k, console, io);
    var recorded := WriteOpening(held, k, generation, sid, io);
    var record := RecordFor(k, generation, sid, held.state.leaseToken);
    PartialsKeepTokens(recorded, record, io.partials);
  }

  lemma FailedAfterGrant(m: Ledger, k: TargetKey, generation: int, recovery: bool, console: bool, sid: nat, h: HandleId, io: OpenIo)
    requires m.Total() && m.Unheard(sid) && h.key == k && m.GateOf(k).Promote(h.id).Ok?
    requires !Conclude(Prepare(m, k, generation, console, sid, io), k, generation, recovery, h, io).going
    ensures var c := Conclude(Prepare(m, k, generation, console, sid, io), k, generation, recovery, h, io);
            var t := Unwind(c.ledger, k, c.state, h, io.deleted);
            && PutBack(m, k, sid, c.state, io.deleted, t)
            && (sid in t.tokens <==> ReachesOpening(m, k, console, io) && !io.openingStored)
            && (sid in t.tokens ==> t.tokens[sid].targetKey == k)
            && (t.gates == m.At(k, Event.Rollback(h.id)).gates
                || t.gates == m.At(k, Promote(h.id)).At(k, Event.Rollback(h.id)).gates)
  {
    var p := Prepare(m, k, generation, console, sid, io);
    var c := Conclude(p, k, generation, recovery, h, io);
    hide Prepare, Conclude, Unwind, Underway, InPreparation, Step, HoldsBack, ReachesOpening;
    TokensAfterPrepare(m, k, generation, console, sid, io);
    PrepareKept(m, k, generation, console, sid, io);
    ConcludeKept(m, k, generation, recovery, sid, p, h, io);
    RollbackPutsBack(m, k, sid, c, h, io.deleted);
  }

  /**
    Whatever makes an open fail, the guard holder, every lease's owner and token, the handle and
    subscriber tables and the tombstones are as before it, and so is every gate, except that one more
    handle has been issued and rolled back. If its OPENING record had been stored, the session's record
    is deleted (and with it the record it displaced) unless the delete itself fails. Its token is left in
    the table exactly when everything up to the OPENING write went well and that write failed; it is dead.
   */
  lemma FailedOpenRestores(l: Ledger, k: TargetKey, request: OpenRequest, recovery: bool, console: bool, sid: nat, io: OpenIo)
    requires l.Total() && l.Unheard(sid)
    requires !OpenSession(l, k, request, recovery, console, sid, io).going
    ensures var a := OpenSession(l, k, request, recovery, console, sid, io);
            && PutBack(l, k, sid, a.state, io.deleted, a.ledger)
            && (sid in a.ledger.tokens <==>
                  Grant(l.GateOf(k), recovery, request).Ok? && ReachesOpening(l, k, console, io) && !io.openingStored)
            && (sid in a.ledger.tokens ==> !a.ledger.guard.Holds(a.ledger.tokens[sid]))
            && (forall j | j != k :: a.ledger.GateOf(j) == l.GateOf(j))
            && Restored(l.GateOf(k), a.ledger.GateOf(k))
  {
    hide Prepare, Conclude, Unwind, PutBack, Restored, Step, Ledger.Total, Ledger.Unheard, Grant, Inv;
    var g := l.GateOf(k);
    if Grant(g, recovery, request).Err? {
      NothingDone(l, k, sid, io.deleted);
    } else {
      var m := l.At(k, AdmissionOf(recovery, request));
      var h := HandleId(k, |g.issued|);
      GrantedGate(l, k, recovery, request);
      Granted(l, k, AdmissionOf(recovery, request), sid);
      FailedAfterGrant(m, k, request.generation, recovery, console, sid, h, io);
      var c := Conclude(Prepare(m, k, request.generation, console, sid, io), k, request.generation, recovery, h, io);
      var t := Unwind(c.ledger, k, c.state, h, io.deleted);
      RestoredFrom(l, m, k, sid, c.state, io.deleted, t);
      if sid in t.tokens {
        LeftTokenIsDead(l, k, sid, c.state, io.deleted, t);
      }
    }
  }

  lemma LeftTokenIsDead(l: Ledger, k: TargetKey, sid: nat, state: OpenState, deleted: bool, t: Ledger)
    requires PutBack(l, k, sid, state, deleted, t) && k !in l.guard.holders
    requires sid in t.tokens && t.tokens[sid].targetKey == k
    ensures !t.guard.Holds(t.tokens[sid])
  {
  }

  lemma NothingDone(l: Ledger, k: TargetKey, sid: nat, deleted: bool)
    requires l.Total() && l.Unheard(sid)
    ensures PutBack(l, k, sid, Nothing, deleted, l) && sid !in l.tokens && Restored(l.GateOf(k), l.GateOf(k))
  {
    assert l.tokens - {sid} == l.tokens;
  }

  lemma GrantedGate(l: Ledger, k: TargetKey, recovery: bool, request: OpenRequest)
    requires l.Total() && Grant(l.GateOf(k), recovery, request).Ok?
    ensures var g := l.GateOf(k); var e := AdmissionOf(recovery, request); var h := |g.issued|;
            && Step(g, e).Promote(h).Ok?
            && Restored(g, Step(Step(g, e), Event.Rollback(h)))
            && Restored(g, Step(Step(Step(g, e), Promote(h)), Event.Rollback(h)))
  {
    Granting(l.GateOf(k), recovery, request);
    RolledBackGate(l.GateOf(k), recovery, request);
  }

  lemma Granted(l: Ledger, k: TargetKey, e: Event, sid: nat)
    requires l.Total() && l.Unheard(sid)
    ensures var m := l.At(k, e); m.Total() && m.Unheard(sid) && m.GateOf(k) == Step(l.GateOf(k), e)
  {
    StepKeepsInv(l.GateOf(k), e);
  }

  /** The grant itself touched nothing but the gate. */
  lemma RestoredFrom(l: Ledger, m: Ledger, k: TargetKey, sid: nat, state: OpenState, deleted: bool, t: Ledger)
    requires m == l.(gates := m.gates) && PutBack(m, k, sid, state, deleted, t)
    ensures PutBack(l, k, sid, state, deleted, t)
  {
  }
}
