/** Properties that span open, close, force_release, force_drop and reconciliation. */
module SessionLaws {
  import opened Common
  import opened Admission
  import opened Guards
  import opened Leases
  import opened Registries
  import opened Ledgers
  import opened Unwinding
  import opened Sessions
  import HaltGates

  /** Guard holders, lease owners and tokens, and the session tables agree. */
  ghost predicate SameHoldings(l: Ledger, t: Ledger) {
    && HoldsBack(l, t)
    && t.tokens == l.tokens && t.handles == l.handles && t.subscribers == l.subscribers
  }

  lemma GoneAgain(l: Ledger, k: TargetKey, generation: int, sid: nat, h: HandleId, a: Attempt, c: Ledger)
    requires l.Total() && l.Unheard(sid) && Committed(l, k, generation, sid, h, a)
    requires Gone(a.ledger, k, sid, a.state, c)
    ensures SameHoldings(l, c)
  {
    hide Gone, Committed, HoldsBack, Ledger.Total;
    GoneTables(l, k, generation, sid, h, a, c);
    GoneHolds(l, k, generation, sid, h, a, c);
  }

  lemma GoneHolds(l: Ledger, k: TargetKey, generation: int, sid: nat, h: HandleId, a: Attempt, c: Ledger)
    requires l.Total() && Committed(l, k, generation, sid, h, a)
    requires Gone(a.ledger, k, sid, a.state, c)
    ensures HoldsBack(l, c)
  {
    assert l.guard.holders[k := a.state.guardToken.value] - {k} == l.guard.holders;
    assert l.LeaseOf(k).Consistent();
  }

  lemma GoneTables(l: Ledger, k: TargetKey, generation: int, sid: nat, h: HandleId, a: Attempt, c: Ledger)
    requires l.Unheard(sid) && Committed(l, k, generation, sid, h, a)
    requires Gone(a.ledger, k, sid, a.state, c)
    ensures c.tokens == l.tokens && c.handles == l.handles && c.subscribers == l.subscribers
  {
    hide GuardAt, LeaseAt;
    assert l.tokens[sid := a.state.guardToken.value] - {sid} == l.tokens;
    assert l.handles[sid := h] - {sid} == l.handles;
    assert l.subscribers[Seat(k, sid) := a.ledger.subscribers[Seat(k, sid)]] - {Seat(k, sid)} == l.subscribers;
  }

  /** The gate as it was, but for one more handle that came and went, and a recovery mark that may be cleared. */
  ghost predicate CameAndWent(g: Gate, t: Gate, recovery: bool) {
    && t.live == g.live && t.closedAt == g.closedAt && t.snapshot == g.snapshot && t.epoch == g.epoch
    && t.recovery == (if recovery then None else g.recovery)
    && |t.issued| == |g.issued| + 1 && t.issued[..|g.issued|] == g.issued && t.issued[|g.issued|].state.Completed?
  }

  lemma LeftAfterEntering(g: Gate, recovery: bool, request: OpenRequest)
    requires Inv(g) && Grant(g, recovery, request).Ok?
    ensures CameAndWent(g, Left(Entered(g, recovery, request), |g.issued|, false, request.generation), recovery)
  {
    EnteredGate(g, recovery, request);
  }

  /**
    An open that commits and is then closed while the target executes, all calls succeeding, leaves
    guard, leases, tables and live bindings as they were and no record; the handle ends completed.
   */
  lemma OpenThenClose(l: Ledger, k: TargetKey, request: OpenRequest, recovery: bool, console: bool, sid: nat,
                      io: OpenIo, force: bool, cio: CloseIo)
    requires l.Total() && l.Unambiguous() && l.Unheard(sid)
    requires OpenSession(l, k, request, recovery, console, sid, io).going
    requires cio.closingStored && cio.transportClosed && cio.deleted
    ensures var a := OpenSession(l, k, request, recovery, console, sid, io);
            var c := CloseSession(a.ledger, sid, force, cio);
            && !c.failed && SameHoldings(l, c.ledger)
            && c.ledger.files.records == l.files.records - {k} && c.ledger.files.tombs == a.ledger.files.tombs
            && (forall j | j != k :: c.ledger.GateOf(j) == l.GateOf(j))
            && CameAndWent(l.GateOf(k), c.ledger.GateOf(k), recovery)
  {
    var a := OpenSession(l, k, request, recovery, console, sid, io);
    hide OpenSession, Opened, Committed, Step, Left, Entered, CloseSession, CameAndWent, SameHoldings, Established, Gone,
         Ledger.Unambiguous, Ledger.Unheard;
    OpenAddsOneSession(l, k, request, recovery, console, sid, io);
    LeftAfterEntering(l.GateOf(k), recovery, request);
    hide Ledger.Total;
    OpenedIsEstablished(l, k, request, recovery, sid, a);
    OpenedFacts(l, k, request, recovery, sid, a);
    ClosesClean(a.ledger, k, sid, a.state, force, cio);
    GoneAgain(l, k, request.generation, sid, HandleId(k, |l.GateOf(k).issued|), a, CloseSession(a.ledger, sid, force, cio).ledger);
  }

  lemma OpenedFacts(l: Ledger, k: TargetKey, request: OpenRequest, recovery: bool, sid: nat, a: Attempt)
    requires l.Total() && Grant(l.GateOf(k), recovery, request).Ok? && Opened(l, k, request, recovery, sid, a)
    ensures var h := HandleId(k, |l.GateOf(k).issued|);
            && Committed(l, k, request.generation, sid, h, a) && a.state.handle == Some(h)
            && a.ledger.GateOf(k) == Entered(l.GateOf(k), recovery, request)
            && a.ledger.GateOf(k).Known(h.id) && !a.ledger.GateOf(k).issued[h.id].cancelled
            && (forall j | j != k :: a.ledger.GateOf(j) == l.GateOf(j))
            && k in a.ledger.files.records && a.ledger.files.records[k] == ReadyRecord(k, request.generation, sid, a.state)
            && a.ledger.files.records - {k} == l.files.records - {k}
            && a.ledger.files.tombs == (if recovery then l.ClearTomb(k, request.generation, true) else l).files.tombs
  {
    EnteredGate(l.GateOf(k), recovery, request);
    hide Entered, Step;
    assert l.files.records[k := a.ledger.files.records[k]] - {k} == l.files.records - {k};
  }

  lemma ClosesClean(l: Ledger, k: TargetKey, sid: nat, state: OpenState, force: bool, cio: CloseIo)
    requires l.Total() && l.Unambiguous() && Established(l, k, sid, state)
    requires cio.closingStored && cio.transportClosed && cio.deleted
    requires l.files.records[k].executionState.Executing? && !l.GateOf(k).issued[state.handle.value.id].cancelled
    ensures var c := CloseSession(l, sid, force, cio);
            && !c.failed && Gone(l, k, sid, state, c.ledger)
            && c.ledger.files == l.files.(records := l.files.records - {k})
            && c.ledger.gates == l.gates[k := Left(l.GateOf(k), state.handle.value.id, false, l.files.records[k].generation)]
  {
    CloseComposed(l, k, sid, state, force, cio);
    hide CloseSession, Gone, Left, Ledger.Total;
  }

  // ----- a session whose record was overwritten by its successor

  /** From l to m the record of session `older` on key k has been replaced by another session's. */
  ghost predicate Replaced(l: Ledger, m: Ledger, k: TargetKey, older: nat) {
    && l.Unambiguous() && l.Owns(k, older)
    && m.files.records - {k} == l.files.records - {k} && k in m.files.records && !m.Owns(k, older)
  }

  /**
    From the moment another session's record replaces its own, whatever else changes meanwhile, closing
    the old id does nothing, and force-releasing it only forgets its table entries.
   */
  lemma StaleCloseIsNoOp(l: Ledger, m: Ledger, k: TargetKey, older: nat, force: bool, cio: CloseIo, deleted: bool)
    requires Replaced(l, m, k, older)
    ensures CloseSession(m, older, force, cio) == Outcome(m, false)
    ensures ForceRelease(m, older, deleted) == Outcome(m.Forget(older), false)
  {
    hide CloseRecord, ReleaseRecord;
    forall j | j in m.files.records
      ensures m.files.records[j].sid != older
    {
      if j != k {
        assert j in m.files.records - {k} && (m.files.records - {k})[j] == (l.files.records - {k})[j];
      }
    }
    assert KeyOf(m, older).None?;
  }

  lemma OwnRecordReplaces(l: Ledger, m: Ledger, k: TargetKey, older: nat, sid: nat)
    requires l.Unambiguous() && l.Owns(k, older) && older != sid && m.Owns(k, sid)
    requires m.files.records == l.files.records[k := m.files.records[k]]
    ensures Replaced(l, m, k, older)
  {
    assert l.files.records[k := m.files.records[k]] - {k} == l.files.records - {k};
  }

  /**
    That moment is a successor's OPENING write: it has come whatever step the successor's open has
    reached or failed at since, and when it has committed.
   */
  lemma SuccessorReplaces(l: Ledger, k: TargetKey, request: OpenRequest, recovery: bool, console: bool, older: nat, sid: nat,
                          io: OpenIo)
    requires l.Total() && l.Unambiguous() && l.Unheard(sid) && l.Owns(k, older)
    ensures var held := TakeLease(TakeGuard(Attempt(l, Nothing, true), k, io), k, console, io);
            var m := WriteOpening(held, k, request.generation, sid, io);
            m.going ==> Replaced(l, m.ledger, k, older)
    ensures var p := Prepare(l, k, request.generation, console, sid, io);
            p.state.session.Some? ==> Replaced(l, p.ledger, k, older)
    ensures var a := OpenSession(l, k, request, recovery, console, sid, io);
            a.going ==> Replaced(l, a.ledger, k, older)
  {
    hide TakeGuard, TakeLease, WriteOpening, Prepare, OpenSession, Replaced, Ledger.Total, Ledger.Unambiguous, Entered, Grant;
    assert older != sid;
    var g := TakeGuard(Attempt(l, Nothing, true), k, io);
    var held := TakeLease(g, k, console, io);
    TakeGuardKept(l, k, sid, io);
    TakeLeaseKept(l, k, sid, g, console, io);
    WriteOpeningKept(l, k, request.generation, sid, held, io);
    var m := WriteOpening(held, k, request.generation, sid, io);
    if m.going {
      OwnRecordReplaces(l, m.ledger, k, older, sid);
    }
    var p := Prepare(l, k, request.generation, console, sid, io);
    PrepareKept(l, k, request.generation, console, sid, io);
    if p.state.session.Some? {
      OwnRecordReplaces(l, p.ledger, k, older, sid);
    }
    var a := OpenSession(l, k, request, recovery, console, sid, io);
    if a.going {
      OpenAddsOneSession(l, k, request, recovery, console, sid, io);
      OwnRecordReplaces(l, a.ledger, k, older, sid);
    }
  }

  /**
    A halt, a resume or a break injection stores its caller's whole copy of a record, whoever holds the
    target by then. Stored late, over the record of the session now open, a copy of an older one leaves that
    session without its close, and its force_release throws the token away with the guard still held.
   */
  lemma LateCopyOrphansTheGuard(l: Ledger, k: TargetKey, sid: nat, state: OpenState, copy: TransportSession, force: bool,
                                cio: CloseIo, deleted: bool)
    requires l.Total() && l.Unambiguous() && Established(l, k, sid, state) && copy.targetKey == k && copy.sid != sid
    ensures var m := l.WithRecord(copy);
            && CloseSession(m, sid, force, cio) == Outcome(m, false)
            && var r := ForceRelease(m, sid, deleted).ledger;
               && r.guard.Holds(state.guardToken.value) && sid !in r.tokens && sid !in r.handles
               && state.handle.value.id in r.GateOf(k).live
  {
    hide CloseSession, ForceRelease;
    assert l.files.records[k := copy] - {k} == l.files.records - {k};
    StaleCloseIsNoOp(l, l.WithRecord(copy), k, sid, force, cio, deleted);
  }

  // ----- force_drop

  /** force_drop of a subscriber on a target that was closed after its session opened frees all it held. */
  lemma ForceDropFreesAll(l: Ledger, k: TargetKey, sid: nat, state: OpenState)
    requires l.Total() && Established(l, k, sid, state)
    requires l.GateOf(k).closedAt.Some?
    requires var s := l.subscribers[Seat(k, sid)]; s.session.targetKey == k && s.session.sid == sid && s.killed
    ensures var d := ForceDrop(l, l.subscribers[Seat(k, sid)], true);
            && !d.failed && k !in d.ledger.guard.holders && k !in d.ledger.files.records
            && (state.leaseToken.Some? ==> d.ledger.LeaseOf(k).owner.Free?)
            && sid !in d.ledger.tokens && sid !in d.ledger.handles && Seat(k, sid) !in d.ledger.subscribers
            && d.ledger.GateOf(k).live == l.GateOf(k).live - {state.handle.value.id}
            && d.ledger.GateOf(k).issued[state.handle.value.id].state.Abandoned?
  {
    var g, h := l.GateOf(k), state.handle.value;
    assert Fenced(g, g.issued[h.id]);
    assert g.ConfirmReaped(h.id).Ok? && g.ConfirmReaped(h.id).value.Abandon(h.id).Ok?;
  }

  /** A live handle of a closed target, reaped and abandoned; of an open one, or none, nothing. */
  function Dropped(g: Gate, h: nat): Gate {
    if g.closedAt.Some? && h in g.live && g.Known(h)
    then g.(issued := g.issued[h := g.issued[h].(reaped := true, state := Abandoned)], live := g.live - {h})
    else g
  }

  lemma ReapsDropped(l: Ledger, h: Option<HandleId>)
    requires l.Total()
    ensures forall j :: ReapHandle(l, h).GateOf(j)
                        == if h.Some? && h.value.key == j then Dropped(l.GateOf(j), h.value.id) else l.GateOf(j)
  {
    if h.Some? {
      var g := l.GateOf(h.value.key);
      if g.Known(h.value.id) {
        assert Bounded(g, g.issued[h.value.id]) && Fenced(g, g.issued[h.value.id]);
        assert h.value.id in g.live <==> !g.issued[h.value.id].state.Terminal();
        ReapsOne(g, h.value.id);
      }
      hide Inv, Step;
    }
  }

  lemma ReapsOne(g: Gate, h: nat)
    requires Inv(g) && g.Known(h)
    ensures g.ConfirmReaped(h).Ok? <==> g.closedAt.Some? && h in g.live
    ensures g.ConfirmReaped(h).Ok? ==> Step(Step(g, ConfirmReaped(h)), Abandon(h)) == Dropped(g, h)
  {
    assert Fenced(g, g.issued[h]);
  }

  /**
    All that a force_drop changes, on any ledger. Its record goes only if it is the session's own, its kill
    has resolved and the delete goes through; a delete that fails is the one failure, and keeps the
    subscriber. Guard and lease go only by their tokens; the handle only on a closed target.
   */
  lemma ForceDropEffects(l: Ledger, s: Subscription, deleted: bool)
    requires l.Total()
    ensures var d, k, sid := ForceDrop(l, s, deleted), s.session.targetKey, s.session.sid;
            var mine := k in l.files.records && l.files.records[k].sid == sid;
            && d.ledger.files == (if mine && s.killed && deleted then l.files.(records := l.files.records - {k}) else l.files)
            && (d.failed <==> mine && s.killed && !deleted)
            && d.ledger.subscribers == (if d.failed then l.subscribers else l.subscribers - {Seat(k, sid)})
            && d.ledger.tokens == l.tokens - {sid} && d.ledger.handles == l.handles - {sid}
            && d.ledger.guard == l.guard.(holders := if s.state.guardToken.Some? && Lookup(l.guard.holders, k) == s.state.guardToken
                                                     then l.guard.holders - {k} else l.guard.holders)
            && (forall j :: d.ledger.LeaseOf(j) ==
                  if j == k && s.state.leaseToken.Some? && l.LeaseOf(k).token == s.state.leaseToken
                  then LeaseView(Free, None, l.LeaseOf(k).generation) else l.LeaseOf(j))
            && (forall j :: d.ledger.GateOf(j) ==
                  if s.state.handle.Some? && s.state.handle.value.key == j then Dropped(l.GateOf(j), s.state.handle.value.id)
                  else l.GateOf(j))
  {
    hide ReapedGates, Inv, Dropped;
    var k, sid := s.session.targetKey, s.session.sid;
    var freed := l.ReleaseLease(k, s.state.leaseToken).ReleaseGuard(k, s.state.guardToken);
    ReapsDropped(l, s.state.handle);
    GatesOnly(l, freed.(tokens := freed.tokens - {sid}), s.state.handle);
  }

  /** invalidate is a force_drop whose kill has resolved; if its delete fails, the registered subscriber remembers the kill. */
  lemma InvalidateDeletes(l: Ledger, s: Subscription, registered: bool, deleted: bool)
    requires l.Total()
    ensures var d, k, sid := Invalidate(l, s, registered, deleted), s.session.targetKey, s.session.sid;
            var mine := k in l.files.records && l.files.records[k].sid == sid;
            && d.ledger.files == (if mine && deleted then l.files.(records := l.files.records - {k}) else l.files)
            && (d.failed <==> mine && !deleted)
            && d.ledger.subscribers == (if !d.failed then l.subscribers - {Seat(k, sid)}
                                        else if registered then l.subscribers[Seat(k, sid) := s.(killed := true)]
                                        else l.subscribers)
  {
    var m := Resolved(l, s, registered);
    assert m == l.(subscribers := m.subscribers);
    hide ForceDrop, Inv;
    assert m.Total();
    ForceDropEffects(m, s.(killed := true), deleted);
    assert l.subscribers[Seat(s.session.targetKey, s.session.sid) := s.(killed := true)] - {Seat(s.session.targetKey, s.session.sid)}
           == l.subscribers - {Seat(s.session.targetKey, s.session.sid)};
  }

  lemma ReapTwice(l: Ledger, d: Ledger, h: Option<HandleId>)
    requires l.Total() && d.gates == ReapedGates(l, h)
    ensures ReapedGates(d, h) == d.gates
  {
  }

  lemma ReleasesTwice(l: Ledger, d: Ledger, k: TargetKey, lease: Option<nat>, guard: Option<GuardToken>)
    requires l.Total() && d.leases == l.LeasesAfter(k, lease) && d.guard == l.GuardAfter(k, guard)
    ensures d.LeasesAfter(k, lease) == d.leases && d.GuardAfter(k, guard) == d.guard
  {
    assert k in l.leases;
  }

  /** A second force_drop of the same subscriber changes nothing, on any ledger. */
  lemma ForceDropIdempotent(l: Ledger, s: Subscription)
    requires l.Total()
    ensures var d := ForceDrop(l, s, true).ledger; ForceDrop(d, s, true) == Outcome(d, false)
  {
    var k, sid := s.session.targetKey, s.session.sid;
    var d := ForceDrop(l, s, true).ledger;
    assert l.ReleaseLease(k, s.state.leaseToken).GuardAfter(k, s.state.guardToken) == l.GuardAfter(k, s.state.guardToken);
    hide ReapedGates, Ledger.LeasesAfter, Ledger.GuardAfter;
    ReleasesTwice(l, d, k, s.state.leaseToken, s.state.guardToken);
    GatesOnly(l, l.ReleaseLease(k, s.state.leaseToken).ReleaseGuard(k, s.state.guardToken).(tokens := l.tokens - {sid}), s.state.handle);
    ReapTwice(l, d, s.state.handle);
    var freed := d.ReleaseLease(k, s.state.leaseToken).ReleaseGuard(k, s.state.guardToken);
    assert freed == d && d.(tokens := d.tokens - {sid}) == d;
    assert d.(handles := d.handles - {sid}) == d && d.Unsubscribe(k, sid) == d;
  }

  lemma GatesOnly(l: Ledger, m: Ledger, h: Option<HandleId>)
    requires m.gates == l.gates
    ensures ReapedGates(m, h) == ReapedGates(l, h)
  {
  }

  // ----- force_release and the two-level teardown

  /** What force_release does to a session whose record is on disk, whatever else is left of it. */
  lemma ForceReleaseClears(l: Ledger, k: TargetKey, sid: nat, deleted: bool)
    requires l.Unambiguous() && l.Owns(k, sid) && l.files.records[k].targetKey == k
    ensures var f := ForceRelease(l, sid, deleted);
            && sid !in f.ledger.tokens && sid !in f.ledger.handles && (f.failed <==> !deleted)
            && f.ledger.guard == l.GuardAfter(k, Lookup(l.tokens, sid))
            && f.ledger.leases == l.LeasesAfter(k, l.files.records[k].leaseToken)
            && f.ledger.gates == ReapedGates(l, Lookup(l.handles, sid))
            && f.ledger.files == (if deleted then l.files.(records := l.files.records - {k}) else l.files)
            && f.ledger.subscribers == (if deleted then l.subscribers - {Seat(k, sid)} else l.subscribers)
  {
    KeyFound(l, k, sid);
    var record := l.files.records[k];
    var freed := DropToken(l.ReleaseLease(k, record.leaseToken), k, sid);
    GatesOnly(l, freed.(handles := freed.handles - {sid}), Lookup(l.handles, sid));
    hide KeyOf, ReapedGates, Ledger.LeasesAfter;
  }

  /** The binding of a force-released session is disposed of exactly when its target is closed. */
  lemma ForceReleaseKeepsBindingUnlessClosed(l: Ledger, k: TargetKey, sid: nat, state: OpenState, deleted: bool)
    requires l.Total() && l.Unambiguous() && Established(l, k, sid, state)
    ensures var g, h := ForceRelease(l, sid, deleted).ledger.GateOf(k), state.handle.value.id;
            && (h in g.live <==> l.GateOf(k).closedAt.None?)
            && (h in g.live ==> g == l.GateOf(k))
            && (h !in g.live ==> g.Known(h) && g.issued[h].state.Abandoned?)
  {
    ForceReleaseClears(l, k, sid, deleted);
    Reaping(l.GateOf(k), state.handle.value.id);
    hide ForceRelease, Inv, Step;
  }

  /** confirm_reaped and abandon of a live handle go through exactly on a closed target. */
  lemma Reaping(g: Gate, h: nat)
    requires Inv(g) && h in g.live
    ensures g.Known(h) && (g.ConfirmReaped(h).Ok? <==> g.closedAt.Some?)
    ensures g.closedAt.Some? ==> var t := Step(Step(g, ConfirmReaped(h)), Abandon(h));
                                 t.Known(h) && h !in t.live && t.issued[h].state.Abandoned?
  {
    assert Fenced(g, g.issued[h]);
  }

  /** No trace of the session but its admission binding. */
  ghost predicate Cleared(l: Ledger, k: TargetKey, sid: nat, state: OpenState) {
    && k !in l.files.records && k !in l.guard.holders && (state.leaseToken.Some? ==> l.LeaseOf(k).owner.Free?)
    && sid !in l.tokens && sid !in l.handles && Seat(k, sid) !in l.subscribers
  }

  lemma ForceReleaseAfterClose(l: Ledger, k: TargetKey, sid: nat, state: OpenState, c: Ledger, deleted: bool)
    requires l.Total() && Established(l, k, sid, state) && Gone(l, k, sid, state, c)
    requires c.Unambiguous() && c.Owns(k, sid) && c.files.records[k].targetKey == k
    requires c.files.records[k].leaseToken == state.leaseToken
    ensures var f := ForceRelease(c, sid, deleted).ledger;
            && (deleted ==> Cleared(f, k, sid, state)) && f.files.tombs == c.files.tombs
            && (!deleted ==> f.files == c.files)
  {
    ForceReleaseClears(c, k, sid, deleted);
    hide ForceRelease;
  }

  lemma ForceReleaseAtOnce(l: Ledger, k: TargetKey, sid: nat, state: OpenState, deleted: bool)
    requires l.Total() && l.Unambiguous() && Established(l, k, sid, state)
    ensures var f := ForceRelease(l, sid, deleted).ledger;
            && (deleted ==> Cleared(f, k, sid, state)) && f.files.tombs == l.files.tombs
            && (!deleted ==> f.files == l.files)
  {
    ForceReleaseClears(l, k, sid, deleted);
    hide ForceRelease;
  }

  /**
    The teardown of an open session clears record, guard, lease and tables exactly when the CLOSING
    write and the delete after it succeed, or the session was HALTED and the second delete succeeds:
    force_release is reached for HALTED records alone. Only the first way leaves a tombstone behind.
   */
  lemma TeardownClears(l: Ledger, k: TargetKey, sid: nat, state: OpenState, io: TeardownIo)
    requires l.Total() && l.Unambiguous() && Established(l, k, sid, state)
    ensures var t := TeardownSession(l, k, sid, io); var record := l.files.records[k];
            var closed := io.closing.closingStored && io.closing.deleted;
            var halted := record.executionState.Halted?;
            && (Cleared(t.ledger, k, sid, state) <==> closed || (halted && io.reapDeleted))
            && (t.resumeOk <==> !halted || closed || io.reapDeleted)
            && t.ledger.files.tombs == (if io.closing.closingStored && io.closing.tombStored && record.executionState != Executing
                                        then l.files.tombs[k := Marker(record.generation, ClosedWhileHalted)]
                                        else l.files.tombs)
  {
    KeyFound(l, k, sid);
    var record := l.files.records[k];
    var c := CloseSession(l, sid, false, io.closing).ledger;
    if io.closing.closingStored {
      CloseComposed(l, k, sid, state, false, io.closing);
      hide CloseSession, ForceRelease;
      if !io.closing.deleted {
        assert c.Owns(k, sid) && c.Unambiguous();
        ForceReleaseAfterClose(l, k, sid, state, c, io.reapDeleted);
      }
    } else {
      assert c == l;
      ForceReleaseAtOnce(l, k, sid, state, io.reapDeleted);
      hide CloseSession, ForceRelease;
    }
  }

  // ----- the recovery gate

  /** Key k is gated at `generation` in both places. */
  ghost predicate Parked(l: Ledger, k: TargetKey, generation: int) {
    l.Tombstoned(k, generation) && l.GateOf(k).recovery == Some(generation)
  }

  /**
    Closing a HALTED or UNKNOWN session without force writes its tombstone and marks the cache, at the
    session's generation or a later one already marked; so the target is gated at its generation in both
    places unless the cache was marked for a later one.
   */
  lemma CloseParks(l: Ledger, k: TargetKey, sid: nat, state: OpenState, io: CloseIo)
    requires l.Total() && l.Unambiguous() && Established(l, k, sid, state) && io.closingStored && io.tombStored
    requires l.files.records[k].executionState in {Halted, Unknown}
    ensures var c, generation := CloseSession(l, sid, false, io).ledger, l.files.records[k].generation;
            && c.Tombstoned(k, generation) && c.GateOf(k).recovery == Some(Later(l.GateOf(k).recovery, generation))
            && (Parked(c, k, generation) <==>
                  (l.GateOf(k).recovery.Some? ==> l.GateOf(k).recovery.value <= generation))
  {
    CloseComposed(l, k, sid, state, false, io);
    LeftMarked(l.GateOf(k), state.handle.value.id, l.files.records[k].generation);
    hide CloseSession, Gone, Left, Ledger.Total;
  }

  lemma LeftMarked(g: Gate, h: nat, generation: int)
    ensures Left(g, h, true, generation).recovery == Some(Later(g.recovery, generation))
  {
  }

  /**
    While a target is parked at its current generation, no ordinary open and no ssh-tier admission
    passes the gate, whatever it carries, and a recovery open is refused only for reasons of its own.
   */
  lemma ParkedTargetAdmitsOnlyRecovery(l: Ledger, k: TargetKey, request: OpenRequest, ssh: SshRequest)
    requires l.Total() && l.GateOf(k).closedAt.None? && l.GateOf(k).snapshot.Some?
    requires Parked(l, k, l.GateOf(k).snapshot.value.generation)
    ensures var g := l.GateOf(k);
            && g.Admit(request).Err? && g.AdmitSsh(ssh) == Err(RecoveryRequired)
            && (request.facts.keyMatches ==> g.Admit(request) == Err(RecoveryRequired))
            && (g.AdmitRecovery(request).Ok? <==>
                  && request.facts.keyMatches && request.generation == g.snapshot.value.generation
                  && request.facts.refMatches && request.facts.capsSuffice
                  && Gate.CheckSharedFacts(g.snapshot.value, request.facts).Ok?)
  {
  }

  /** A recovery open that commits clears both marks; one that fails leaves both. */
  lemma RecoveryOpenClearsBothOrNeither(l: Ledger, k: TargetKey, request: OpenRequest, console: bool, sid: nat, io: OpenIo)
    requires l.Total() && l.Unheard(sid) && Parked(l, k, request.generation)
    ensures var a := OpenSession(l, k, request, true, console, sid, io);
            if a.going then k !in a.ledger.files.tombs && a.ledger.GateOf(k).recovery.None?
                            && a.ledger.GateOf(k).BindSnapshot(request.generation, false).Ok?
            else Parked(a.ledger, k, request.generation)
  {
    var a := OpenSession(l, k, request, true, console, sid, io);
    if a.going {
      OpenAddsOneSession(l, k, request, true, console, sid, io);
      hide OpenSession;
      EnteredGate(l.GateOf(k), true, request);
      Granting(l.GateOf(k), true, request);
    } else {
      FailedOpenRestores(l, k, request, true, console, sid, io);
      hide OpenSession;
    }
  }

  /**
    And it says EXECUTING of a target that nothing has resumed: once a recovery open of a target parked in
    DEBUGGING has committed, in the epoch of the halt, a probe of its record gets every ssh-tier request
    granted that the shared facts allow. Before, none was.
   */
  lemma RecoveryOpenReadmitsSsh(l: Ledger, k: TargetKey, request: OpenRequest, console: bool, sid: nat, io: OpenIo,
                                facts: RequestFacts)
    requires l.Total() && l.Unheard(sid) && Parked(l, k, request.generation)
    requires l.GateOf(k).snapshot.Some? && l.GateOf(k).snapshot.value.state.Debugging?
    requires OpenSession(l, k, request, true, console, sid, io).going
    ensures var a := OpenSession(l, k, request, true, console, sid, io).ledger; var g := a.GateOf(k);
            && k in a.files.records && a.files.records[k].executionState.Executing?
            && g.epoch == l.GateOf(k).epoch && g.snapshot == l.GateOf(k).snapshot
            && var p := HaltGates.Proof(Some(a.files.records[k].executionState), request.generation, g.epoch);
               && (g.AdmitSsh(SshRequest(request.generation, facts, Some(p))).Ok?
                   <==> Gate.CheckSharedFacts(l.GateOf(k).snapshot.value, facts).Ok?)
               && l.GateOf(k).AdmitSsh(SshRequest(request.generation, facts, Some(p))) == Err(RecoveryRequired)
  {
    hide OpenSession, Entered, Inv, Step, Ledger.Total, Gate.AdmitSsh, Grant, GuardAt, LeaseAt;
    OpenAddsOneSession(l, k, request, true, console, sid, io);
    EnteredAdmitsSsh(l, k, request, facts);
  }

  lemma EnteredAdmitsSsh(l: Ledger, k: TargetKey, request: OpenRequest, facts: RequestFacts)
    requires l.Total() && Grant(l.GateOf(k), true, request).Ok? && l.GateOf(k).recovery == Some(request.generation)
    requires l.GateOf(k).snapshot.Some? && l.GateOf(k).snapshot.value.state.Debugging?
    ensures var g, t := l.GateOf(k), Entered(l.GateOf(k), true, request);
            var ssh := SshRequest(request.generation, facts, Some(HaltGates.Proof(Some(Executing), request.generation, g.epoch)));
            && t.epoch == g.epoch && t.snapshot == g.snapshot
            && (t.AdmitSsh(ssh).Ok? <==> Gate.CheckSharedFacts(g.snapshot.value, facts).Ok?)
            && g.AdmitSsh(ssh) == Err(RecoveryRequired)
  {
    hide Entered;
    EnteredGate(l.GateOf(k), true, request);
    Granting(l.GateOf(k), true, request);
  }

  /**
    The clearance of a recovery open crashes before the unlink, after it, or after the cache is
    cleared too. Reconciling what is on disk into a new process gates the target exactly when the
    unlink had not happened.
   */
  lemma CrashedClearanceReconciles(m: Ledger, k: TargetKey, generation: int, sid: nat, p: Attempt, h: HandleId, io: OpenIo,
                                   stop: TransportSession -> bool)
    requires m.Total() && InPreparation(m, k, sid, p) && p.going && p.state.session.Some? && h.key == k
    requires m.GateOf(k).Promote(h.id).Ok? && m.Tombstoned(k, generation)
    ensures var c := Commit(p, ReadyRecord(k, generation, sid, p.state), h);
            var unlinked := c.ledger.ClearTomb(k, generation, true);
            var done := ClearGate(c, k, generation, io);
            && c.going
            && Recovered(Unpublished, c.ledger.files, stop, k).recovery == Some(generation)
            && Recovered(Unpublished, unlinked.files, stop, k).recovery.None?
            && (done.going <==> io.unlinked)
            && (Recovered(Unpublished, done.ledger.files, stop, k).recovery.Some? <==> !io.unlinked)
  {
    assert p.ledger.Tombstoned(k, generation);
    var c := Commit(p, ReadyRecord(k, generation, sid, p.state), h);
    assert c.ledger.files == p.ledger.files;
    ExecutingIsNotGated(c.ledger.files, stop, k);
    ExecutingIsNotGated(c.ledger.ClearTomb(k, generation, true).files, stop, k);
  }

  /** With no parked record, a key is gated after reconciling exactly when a readable tombstone was on disk. */
  lemma ExecutingIsNotGated(d: Durable, stop: TransportSession -> bool, k: TargetKey)
    requires k in d.records ==> !d.records[k].Parked()
    ensures Recovered(Unpublished, d, stop, k).recovery
            == if k in d.tombs && d.tombs[k].Marker? then Some(d.tombs[k].generation) else None
  {
  }
}
