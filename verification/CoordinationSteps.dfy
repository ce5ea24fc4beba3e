/**
  Every step of the coordination machine keeps its invariant: it keeps the acting session's own part,
  and what any other session observes it leaves alone.
 */
module CoordinationSteps {
  import opened Common
  import opened Admission
  import opened Coordination

  // ----- each step keeps the acting session's own invariant

  ghost predicate Kept(a: Local, w: World, i: nat) {
    i < |w.sessions| && LocalInv(View(w, i)) && Evolves(a, View(w, i))
  }

  lemma GrantRegisters(g: Gate, recovery: bool, request: OpenRequest)
    requires Grant(g, recovery, request).Ok?
    ensures g.snapshot.Some? && g.closedAt.None?
    ensures Grant(g, recovery, request).value == g.Register(TransportOpen, g.snapshot.value, recovery)
  {
  }

  lemma RefusedKept(w: World, i: nat)
    requires AtPhase(w, i, Starting) && LocalInv(View(w, i))
    ensures Kept(View(w, i), SetPhase(w, i, Failed), i)
  {
  }

  lemma AdmitSeen(w: World, i: nat, request: OpenRequest)
    requires AtPhase(w, i, Starting) && LocalInv(View(w, i)) && Grant(w.adm, w.sessions[i].recovery, request).Ok?
    ensures w.adm.snapshot.Some? && i < |AdmitStep(w, i, request).sessions| && View(w, i).binding.None?
    ensures var a := View(w, i);
            var b := Binding(w.adm.snapshot.value.generation, w.adm.epoch, TransportOpen, a.s.recovery, Pending, false, false);
            View(AdmitStep(w, i, request), i)
            == a.(s := w.sessions[i].(phase := Admitted, handle := Some(|w.adm.issued|)), live := true, binding := Some(b))
  {
    GrantRegisters(w.adm, w.sessions[i].recovery, request);
    hide Grant;
  }

  lemma Admitting(a: Local, h: nat, issued: Binding)
    requires LocalInv(a) && a.s.phase.Starting? && a.binding.None?
    requires issued.op.TransportOpen? && issued.state.Pending? && !issued.cancelled
    ensures var b := a.(s := a.s.(phase := Admitted, handle := Some(h)), live := true, binding := Some(issued));
            LocalInv(b) && Evolves(a, b)
  {
  }

  lemma AdmitKept(w: World, i: nat, request: OpenRequest)
    requires AtPhase(w, i, Starting) && Inv(w.adm) && LocalInv(View(w, i))
    ensures Kept(View(w, i), AdmitStep(w, i, request), i)
  {
    hide View, LocalInv, Evolves, Grant, Inv;
    SessionSeen(w, i);
    if Grant(w.adm, w.sessions[i].recovery, request).Err? {
      RefusedKept(w, i);
    } else {
      AdmitSeen(w, i, request);
      var b := Binding(w.adm.snapshot.value.generation, w.adm.epoch, TransportOpen, View(w, i).s.recovery, Pending, false, false);
      Admitting(View(w, i), |w.adm.issued|, b);
    }
  }

  lemma AbortKept(w: World, i: nat)
    requires i < |w.sessions| && CanAbort(w.sessions[i].phase) && LocalInv(View(w, i))
    ensures Kept(View(w, i), SetPhase(w, i, Unwinding(0)), i)
  {
  }

  lemma GuardKept(w: World, i: nat)
    requires AtPhase(w, i, Admitted) && LocalInv(View(w, i))
    ensures Kept(View(w, i), GuardStep(w, i), i)
  {
    var a := View(w, i);
    if w.holder.Some? {
      AbortKept(w, i);
    } else {
      assert View(GuardStep(w, i), i) == a.(s := a.s.(phase := Guarded, guard := Some(|w.grants|)), guardHeld := true);
    }
  }

  lemma LeaseTakenKept(w: World, i: nat)
    requires AtPhase(w, i, Guarded) && LocalInv(View(w, i)) && w.sessions[i].console && w.lease.None?
    ensures Kept(View(w, i), LeaseStep(w, i), i)
  {
    var a := View(w, i);
    assert View(LeaseStep(w, i), i) == a.(s := a.s.(phase := Leased, lease := Some(|w.leases|)), leaseHeld := true);
  }

  lemma LeaseKept(w: World, i: nat)
    requires AtPhase(w, i, Guarded) && LocalInv(View(w, i))
    ensures Kept(View(w, i), LeaseStep(w, i), i)
  {
    if !w.sessions[i].console {
      assert View(LeaseStep(w, i), i) == View(w, i).(s := w.sessions[i].(phase := Leased));
    } else if w.lease.Some? {
      AbortKept(w, i);
    } else {
      LeaseTakenKept(w, i);
    }
  }

  lemma OpeningKept(w: World, i: nat, ok: bool)
    requires AtPhase(w, i, Leased) && Inv(w.adm) && LocalInv(View(w, i))
    ensures Kept(View(w, i), OpeningStep(w, i, ok), i)
  {
  }

  lemma WriteKept(w: World, i: nat, phase: Phase, pid: Option<nat>)
    requires AtPhase(w, i, Recorded) && (phase.Recorded? || phase.ReadyWritten?) && Inv(w.adm) && LocalInv(View(w, i))
    ensures Kept(View(w, i), WriteRecord(w, i, phase, pid), i)
  {
  }

  lemma LearnKept(w: World, i: nat, pid: nat)
    requires AtPhase(w, i, Recorded) && Inv(w.adm) && LocalInv(View(w, i))
    ensures Kept(View(w, i), SetSession(w, i, w.sessions[i].(pid := Some(pid))), i)
  {
  }

  lemma CommitSeen(w: World, i: nat)
    requires i < |w.sessions| && w.sessions[i].handle.Some? && w.adm.Promote(w.sessions[i].handle.value).Ok?
    ensures i < |CommitStep(w, i).sessions|
    ensures var a, s := View(w, i), w.sessions[i];
            && a.live && a.binding.Some? && a.binding.value.state.Pending? && !a.binding.value.cancelled
            && View(CommitStep(w, i), i)
            == a.(s := s.(phase := if s.recovery then Committed else Opened, promoted := true),
                  binding := Some(a.binding.value.(state := Promoted)), entry := s.handle, subscribed := true,
                  killed := a.killed || s.pid.None?)
  {
  }

  lemma Promoting(a: Local)
    requires LocalInv(a) && a.s.phase.ReadyWritten? && a.live && a.binding.Some?
    requires a.binding.value.state.Pending? && !a.binding.value.cancelled
    ensures var b := a.(s := a.s.(phase := if a.s.recovery then Committed else Opened, promoted := true),
                        binding := Some(a.binding.value.(state := Promoted)), entry := a.s.handle, subscribed := true,
                        killed := a.killed || a.s.pid.None?);
            LocalInv(b) && Evolves(a, b)
  {
  }

  lemma CommitKept(w: World, i: nat)
    requires AtPhase(w, i, ReadyWritten) && w.sessions[i].handle.Some? && LocalInv(View(w, i))
    ensures Kept(View(w, i), CommitStep(w, i), i)
  {
    hide View, LocalInv, Evolves, Gate.Promote;
    SessionSeen(w, i);
    if w.adm.Promote(w.sessions[i].handle.value).Ok? {
      CommitSeen(w, i);
      hide CommitStep;
      Promoting(View(w, i));
    } else {
      AbortKept(w, i);
    }
  }

  lemma Unlinking(a: Local, ok: bool)
    requires LocalInv(a) && a.s.phase.Committed?
    ensures var b := a.(s := a.s.(phase := if ok then GateUnlinked else Unwinding(0)));
            LocalInv(b) && Evolves(a, b)
  {
  }

  lemma UnlinkKept(w: World, i: nat, ok: bool)
    requires AtPhase(w, i, Committed) && LocalInv(View(w, i))
    ensures Kept(View(w, i), SetPhase(w, i, if ok then GateUnlinked else Unwinding(0)), i)
  {
    hide View, LocalInv, Evolves;
    SessionSeen(w, i);
    PhaseSeen(w, i, if ok then GateUnlinked else Unwinding(0));
    Unlinking(View(w, i), ok);
  }

  lemma ClearSeen(w: World, i: nat, generation: int)
    requires i < |w.sessions|
    ensures View(SetPhase(w, i, Opened).(adm := w.adm.ClearRecovery(generation)), i)
         == View(w, i).(s := w.sessions[i].(phase := Opened))
  {
  }

  lemma Cleared(a: Local)
    requires LocalInv(a) && a.s.phase.GateUnlinked?
    ensures LocalInv(a.(s := a.s.(phase := Opened))) && Evolves(a, a.(s := a.s.(phase := Opened)))
  {
  }

  lemma ClearKept(w: World, i: nat, generation: int)
    requires AtPhase(w, i, GateUnlinked) && LocalInv(View(w, i))
    ensures Kept(View(w, i), SetPhase(w, i, Opened).(adm := w.adm.ClearRecovery(generation)), i)
  {
    hide View, LocalInv, Evolves;
    SessionSeen(w, i);
    ClearSeen(w, i, generation);
    Cleared(View(w, i));
  }

  lemma SessionSeen(w: World, i: nat)
    requires i < |w.sessions|
    ensures View(w, i).s == w.sessions[i]
  {
  }

  /** A step of the gate shows in the handle's binding, its being live, and the closure. */
  lemma GateSeen(w: World, i: nat, g: Gate)
    requires i < |w.sessions|
    ensures View(w.(adm := g), i)
         == View(w, i).(binding := BindingOf(g, w.sessions[i].handle), live := LiveIn(g, w.sessions[i].handle),
                        closed := g.closedAt.Some?)
  {
  }

  lemma PhaseSeen(w: World, i: nat, phase: Phase)
    requires i < |w.sessions|
    ensures View(SetPhase(w, i, phase), i) == View(w, i).(s := w.sessions[i].(phase := phase))
  {
  }

  lemma UnwindTablesSeen(w: World, i: nat)
    requires i < |w.sessions|
    ensures i < |UnwindTables(w, i).sessions|
    ensures View(UnwindTables(w, i), i) == UnwoundTables(View(w, i))
  {
    if !w.sessions[i].recorded {
      assert w.tokens - {} == w.tokens && w.handles - {} == w.handles;
    }
  }

  function UnwoundTables(a: Local): Local {
    a.(s := a.s.(phase := Unwinding(1)), token := if a.s.recorded then None else a.token,
       entry := if a.s.recorded then None else a.entry)
  }

  lemma UnwindRecordSeen(w: World, i: nat, ok: bool)
    requires i < |w.sessions|
    ensures i < |UnwindRecord(w, i, ok).sessions|
    ensures View(UnwindRecord(w, i, ok), i)
         == View(w, i).(s := w.sessions[i].(phase := Unwinding(2), undeleted := !ok),
                        record := if w.sessions[i].recorded && ok then None else View(w, i).record)
  {
  }

  lemma UnwindSubscriptionSeen(w: World, i: nat)
    requires i < |w.sessions|
    ensures i < |UnwindSubscription(w, i).sessions|
    ensures View(UnwindSubscription(w, i), i)
         == View(w, i).(s := w.sessions[i].(phase := Unwinding(3)),
                        subscribed := View(w, i).subscribed && !w.sessions[i].recorded)
  {
  }

  lemma UnwindLeaseSeen(w: World, i: nat)
    requires i < |w.sessions|
    ensures i < |UnwindLease(w, i).sessions|
    ensures View(UnwindLease(w, i), i) == View(w, i).(s := w.sessions[i].(phase := Unwinding(4)), leaseHeld := false)
  {
  }

  lemma UnwindGuardSeen(w: World, i: nat)
    requires i < |w.sessions|
    ensures i < |UnwindGuard(w, i).sessions|
    ensures View(UnwindGuard(w, i), i) == View(w, i).(s := w.sessions[i].(phase := Unwinding(5)), guardHeld := false)
  {
  }

  lemma TablesUnwound(a: Local)
    requires LocalInv(a) && a.s.phase == Unwinding(0)
    ensures LocalInv(UnwoundTables(a)) && Evolves(a, UnwoundTables(a))
  {
  }

  lemma RecordUnwound(a: Local, ok: bool)
    requires LocalInv(a) && a.s.phase == Unwinding(1)
    ensures var b := a.(s := a.s.(phase := Unwinding(2), undeleted := !ok),
                        record := if a.s.recorded && ok then None else a.record);
            LocalInv(b) && Evolves(a, b)
  {
  }

  lemma SubscriptionUnwound(a: Local)
    requires LocalInv(a) && a.s.phase == Unwinding(2)
    ensures var b := a.(s := a.s.(phase := Unwinding(3)), subscribed := a.subscribed && !a.s.recorded);
            LocalInv(b) && Evolves(a, b)
  {
  }

  lemma LeaseUnwound(a: Local)
    requires LocalInv(a) && a.s.phase == Unwinding(3)
    ensures var b := a.(s := a.s.(phase := Unwinding(4)), leaseHeld := false);
            LocalInv(b) && Evolves(a, b)
  {
  }

  lemma GuardUnwound(a: Local)
    requires LocalInv(a) && a.s.phase == Unwinding(4)
    ensures var b := a.(s := a.s.(phase := Unwinding(5)), guardHeld := false);
            LocalInv(b) && Evolves(a, b)
  {
  }

  /** What rolling the session's own handle back does to it. */
  lemma RollbackSeen(g: Gate, h: nat)
    requires Inv(g) && g.Known(h)
    ensures var t := Step(g, Rollback(h));
            && t.Known(h) && t.closedAt == g.closedAt
            && if h in g.live && !(g.issued[h].state.Promoted? && g.closedAt.Some? && !g.issued[h].reaped)
               then h !in t.live && t.issued[h] == g.issued[h].(state := RolledBack)
               else t == g
  {
  }

  lemma UnwindHandleSeen(w: World, i: nat)
    requires i < |w.sessions| && HandleInv(View(w, i)) && w.sessions[i].handle.Some? && Inv(w.adm)
    ensures i < |UnwindHandle(w, i).sessions|
    ensures var a := View(w, i);
            var kept := a.binding.Some? && a.binding.value.state.Promoted? && a.closed && !a.binding.value.reaped;
            View(UnwindHandle(w, i), i)
            == a.(s := w.sessions[i].(phase := Failed), live := a.live && kept,
                  binding := if a.live && a.binding.Some? && !kept then Some(a.binding.value.(state := RolledBack))
                             else a.binding)
  {
    HandleSeen(w, i);
    RollbackSeen(w.adm, w.sessions[i].handle.value);
    var g := Step(w.adm, Rollback(w.sessions[i].handle.value));
    hide View, Inv, Step, HandleInv;
    PhaseSeen(w, i, Failed);
    GateSeen(SetPhase(w, i, Failed), i, g);
  }

  /** The session's own handle as its view has it. */
  lemma HandleSeen(w: World, i: nat)
    requires i < |w.sessions| && HandleInv(View(w, i)) && w.sessions[i].handle.Some?
    ensures var h := w.sessions[i].handle.value; var a := View(w, i);
            && w.adm.Known(h) && a.binding == Some(w.adm.issued[h]) && (a.live <==> h in w.adm.live)
            && (a.closed <==> w.adm.closedAt.Some?) && a.binding.value.op.TransportOpen?
  {
  }

  lemma HandleUnwound(a: Local, b: Local)
    requires LocalInv(a) && a.s.phase == Unwinding(5)
    requires var kept := a.binding.Some? && a.binding.value.state.Promoted? && a.closed && !a.binding.value.reaped;
             b == a.(s := a.s.(phase := Failed), live := a.live && kept,
                     binding := if a.live && a.binding.Some? && !kept then Some(a.binding.value.(state := RolledBack))
                                else a.binding)
    ensures LocalInv(b) && Evolves(a, b)
  {
  }

  lemma UnwindBounded(w: World, i: nat)
    requires i < |w.sessions| && LocalInv(View(w, i)) && w.sessions[i].phase.Unwinding?
    ensures w.sessions[i].phase.step <= 5 && w.sessions[i].handle.Some? && HandleInv(View(w, i))
  {
  }

  lemma UnwindStepKept(w: World, i: nat, ok: bool)
    requires Enabled(w, Unwind(i, ok)) && Inv(w.adm) && LocalInv(View(w, i))
    ensures Kept(View(w, i), UnwindStep(w, i, ok), i)
  {
    hide View, LocalInv, Evolves, HandleInv, Inv, UnwoundTables;
    hide UnwindTables, UnwindRecord, UnwindSubscription, UnwindLease, UnwindGuard, UnwindHandle;
    SessionSeen(w, i);
    UnwindBounded(w, i);
    var a := View(w, i);
    match w.sessions[i].phase.step
    case 0 =>
      UnwindTablesSeen(w, i);
      TablesUnwound(a);
    case 1 =>
      UnwindRecordSeen(w, i, ok);
      RecordUnwound(a, ok);
    case 2 =>
      UnwindSubscriptionSeen(w, i);
      SubscriptionUnwound(a);
    case 3 =>
      UnwindLeaseSeen(w, i);
      LeaseUnwound(a);
    case 4 =>
      UnwindGuardSeen(w, i);
      GuardUnwound(a);
    case _ =>
      UnwindHandleSeen(w, i);
      HandleUnwound(a, View(UnwindHandle(w, i), i));
  }

  /** Moving the owner's call along shows in the session alone. */
  lemma OwnerSeen(w: World, i: nat, s: Session)
    requires i < |w.sessions| && s == w.sessions[i].(owner := s.owner)
    ensures View(SetSession(w, i, s), i) == View(w, i).(s := s)
  {
  }

  lemma ForgottenSeen(w: World, i: nat)
    requires i < |w.sessions|
    ensures View(w.(tokens := w.tokens - {i}, handles := w.handles - {i}), i) == View(w, i).(token := None, entry := None)
  {
  }

  lemma RecordSeen(w: World, i: nat)
    requires i < |w.sessions|
    ensures View(w, i).record.Some? <==> w.record.Some? && w.record.value.sid == i
    ensures View(w.(record := Erased(w.record, i)), i) == View(w, i).(record := None)
  {
  }

  lemma StartSeen(w: World, i: nat, release: bool, ok: bool)
    requires i < |w.sessions|
    ensures i < |StartStep(w, i, release, ok).sessions|
    ensures View(w, i).record.Some? && (release || ok) ==>
              View(StartStep(w, i, release, ok), i) == View(w, i).(s := Calling(w.sessions[i], release, 0))
    ensures View(w, i).record.None? && release ==>
              View(StartStep(w, i, release, ok), i) == View(w, i).(token := None, entry := None)
    ensures (if View(w, i).record.Some? then !release && !ok else !release) ==> StartStep(w, i, release, ok) == w
  {
    hide View;
    RecordSeen(w, i);
    OwnerSeen(w, i, Calling(w.sessions[i], release, 0));
    ForgottenSeen(w, i);
  }

  lemma CallStarted(a: Local, release: bool)
    requires LocalInv(a) && a.s.phase.Opened? && a.s.owner.call.None? && a.record.Some?
    ensures var b := a.(s := Calling(a.s, release, 0));
            LocalInv(b) && Evolves(a, b)
  {
  }

  lemma EntriesForgotten(a: Local)
    requires LocalInv(a) && a.s.phase.Opened? && a.s.owner.call.None? && a.record.None?
    ensures var b := a.(token := None, entry := None);
            LocalInv(b) && Evolves(a, b)
  {
  }

  lemma Unmoved(a: Local)
    ensures Evolves(a, a)
  {
  }

  lemma StartKept(w: World, i: nat, release: bool, ok: bool)
    requires Enabled(w, StartEnd(i, release, ok)) && LocalInv(View(w, i))
    ensures Kept(View(w, i), StartStep(w, i, release, ok), i)
  {
    hide View, LocalInv, Evolves, StartStep, Calling;
    SessionSeen(w, i);
    StartSeen(w, i, release, ok);
    var a := View(w, i);
    if a.record.Some? && (release || ok) {
      CallStarted(a, release);
    } else if a.record.None? && release {
      EntriesForgotten(a);
    } else {
      Unmoved(a);
    }
  }

  /** The session is at step n of its owner's call. */
  ghost predicate InCall(a: Local, n: nat) {
    a.s.phase.Opened? && a.s.owner.call.Some? && a.s.owner.call.value.step == n
  }

  lemma EndLeaseSeen(w: World, i: nat)
    requires i < |w.sessions| && w.sessions[i].owner.call.Some?
    ensures i < |EndLease(w, i).sessions|
    ensures View(EndLease(w, i), i) == View(w, i).(s := On(w.sessions[i], 1), leaseHeld := false)
  {
  }

  lemma EndGuardSeen(w: World, i: nat)
    requires i < |w.sessions| && w.sessions[i].owner.call.Some?
    ensures i < |EndGuard(w, i).sessions|
    ensures View(EndGuard(w, i), i)
         == View(w, i).(s := On(w.sessions[i], 2), token := None,
                        guardHeld := View(w, i).guardHeld && View(w, i).token != w.sessions[i].guard)
  {
  }

  /** What completing the popped handle does to it, when it is the session's own. */
  lemma CompleteSeen(g: Gate, h: nat)
    requires Inv(g) && g.Known(h) && g.issued[h].op.TransportOpen? && (h in g.live ==> g.issued[h].state.Promoted?)
    ensures var t := Step(g, Complete(h));
            && t.Known(h) && t.closedAt == g.closedAt
            && if h in g.live && !g.issued[h].cancelled
               then h !in t.live && t.issued[h] == g.issued[h].(state := Completed)
               else t == g
  {
  }

  /** The end of a call's work on the handle: the call moves on, the entry goes, and the gate is g. */
  lemma SettledSeen(w: World, i: nat, s: Session, g: Gate)
    requires i < |w.sessions| && s == w.sessions[i].(owner := s.owner)
    ensures View(SetSession(w, i, s).(handles := w.handles - {i}, adm := g), i)
         == View(w, i).(s := s, entry := None, binding := BindingOf(g, w.sessions[i].handle),
                        live := LiveIn(g, w.sessions[i].handle), closed := g.closedAt.Some?)
  {
  }

  lemma EndCompleteSeen(w: World, i: nat)
    requires Enabled(w, EndStep(i, true)) && Inv(w.adm) && LocalInv(View(w, i))
    ensures i < |EndComplete(w, i).sessions|
    ensures var a := View(w, i);
            var done := a.entry.Some? && a.live && a.binding.Some? && !a.binding.value.cancelled;
            View(EndComplete(w, i), i)
            == a.(s := On(w.sessions[i], 4), entry := None, live := a.live && !done,
                  binding := if done then Some(a.binding.value.(state := Completed)) else a.binding)
  {
    hide View, Inv, LocalInv, Called, Step, HandleInv, TablesInv;
    var h := w.sessions[i].handle.value;
    EndBounded(w, i);
    HandleSeen(w, i);
    EntryIsHandle(w, i);
    CompleteSeen(w.adm, h);
    SettledSeen(w, i, On(w.sessions[i], 4), if i in w.handles then Step(w.adm, Complete(h)) else w.adm);
  }

  /** The entry of a promoted session is its handle. */
  lemma EntryIsHandle(w: World, i: nat)
    requires i < |w.sessions| && LocalInv(View(w, i))
    ensures View(w, i).entry == Lookup(w.handles, i)
    ensures i in w.handles ==> w.sessions[i].handle == Some(w.handles[i])
    ensures w.sessions[i].phase.Opened? && View(w, i).live && View(w, i).binding.Some? ==>
              View(w, i).binding.value.state.Promoted?
  {
  }

  lemma ReapsSeen(w: World, i: nat)
    requires i < |w.sessions| && Inv(w.adm) && HandleInv(View(w, i)) && TablesInv(View(w, i))
    ensures var a := View(w, i);
            && (Reaps(w, i) <==> a.entry.Some? && a.live && a.closed && a.binding.Some? && a.binding.value.cancelled)
            && (a.live && a.closed && a.binding.Some? ==> a.binding.value.cancelled)
  {
  }

  lemma EndConfirmSeen(w: World, i: nat)
    requires Enabled(w, EndStep(i, true)) && LocalInv(View(w, i)) && Reaps(w, i)
    ensures i < |EndConfirm(w, i).sessions|
    ensures var a := View(w, i);
            && a.binding.Some?
            && View(EndConfirm(w, i), i)
            == a.(s := On(w.sessions[i], 3), entry := None, binding := Some(a.binding.value.(reaped := true)))
  {
    hide View, LocalInv, Called, Step, HandleInv, TablesInv;
    var h := w.handles[i];
    EntryIsHandle(w, i);
    EndBounded(w, i);
    HandleSeen(w, i);
    ConfirmSeen(w.adm, h);
    SettledSeen(w, i, On(w.sessions[i], 3), Step(w.adm, ConfirmReaped(h)));
  }

  lemma ConfirmSeen(g: Gate, h: nat)
    requires g.Known(h) && g.ConfirmReaped(h).Ok?
    ensures var t := Step(g, ConfirmReaped(h));
            t.Known(h) && t.closedAt == g.closedAt && t.live == g.live && t.issued[h] == g.issued[h].(reaped := true)
  {
  }

  lemma EndLetGoSeen(w: World, i: nat)
    requires Enabled(w, EndStep(i, true)) && !Reaps(w, i)
    ensures i < |EndConfirm(w, i).sessions|
    ensures var a := View(w, i);
            View(EndConfirm(w, i), i) == a.(s := Stranding(On(w.sessions[i], 4), a.entry.Some? && !a.closed), entry := None)
  {
    hide Reaps, Step;
  }

  /** What abandoning a session's own handle does to it. */
  lemma AbandonSeen(g: Gate, h: nat)
    requires Inv(g) && g.Known(h)
    ensures var t := Step(g, Abandon(h));
            && t.Known(h) && t.closedAt == g.closedAt
            && if h in g.live && g.closedAt.Some? && g.issued[h].cancelled && g.issued[h].reaped
               then h !in t.live && t.issued[h] == g.issued[h].(state := Abandoned)
               else t == g
  {
  }

  lemma EndAbandonSeen(w: World, i: nat)
    requires Enabled(w, EndStep(i, true)) && Inv(w.adm) && HandleInv(View(w, i))
    ensures i < |EndAbandon(w, i).sessions|
    ensures var a := View(w, i);
            var done := a.live && a.closed && a.binding.Some? && a.binding.value.cancelled && a.binding.value.reaped;
            View(EndAbandon(w, i), i)
            == a.(s := On(w.sessions[i], 4), live := a.live && !done,
                  binding := if done then Some(a.binding.value.(state := Abandoned)) else a.binding)
  {
    hide View, Inv, Called, Step;
    var h := w.sessions[i].handle.value;
    HandleSeen(w, i);
    AbandonSeen(w.adm, h);
    OwnerSeen(w, i, On(w.sessions[i], 4));
    GateSeen(Proceed(w, i, 4), i, Step(w.adm, Abandon(h)));
  }

  lemma EndDeleteSeen(w: World, i: nat, ok: bool)
    requires i < |w.sessions| && w.sessions[i].owner.call.Some?
    ensures i < |EndDelete(w, i, ok).sessions|
    ensures View(EndDelete(w, i, ok), i)
         == View(w, i).(s := Deleted(w.sessions[i], w.sessions[i].owner.call.value.release, ok),
                        record := if ok then None else View(w, i).record)
  {
    hide View;
    var s := Deleted(w.sessions[i], w.sessions[i].owner.call.value.release, ok);
    OwnerSeen(w, i, s);
    RecordSeen(SetSession(w, i, s), i);
  }

  lemma EndUnsubscribeSeen(w: World, i: nat)
    requires i < |w.sessions|
    ensures i < |EndUnsubscribe(w, i).sessions|
    ensures View(EndUnsubscribe(w, i), i) == View(w, i).(s := Returned(w.sessions[i], 7), subscribed := false)
  {
  }

  lemma LeaseEnded(a: Local)
    requires LocalInv(a) && InCall(a, 0)
    ensures var b := a.(s := On(a.s, 1), leaseHeld := false);
            LocalInv(b) && Evolves(a, b)
  {
  }

  lemma GuardEnded(a: Local)
    requires LocalInv(a) && InCall(a, 1)
    ensures var b := a.(s := On(a.s, 2), token := None, guardHeld := a.guardHeld && a.token != a.s.guard);
            LocalInv(b) && Evolves(a, b)
  {
  }

  lemma CompleteEnded(a: Local, done: bool)
    requires LocalInv(a) && InCall(a, 2)
    requires done == (a.entry.Some? && a.live && a.binding.Some? && !a.binding.value.cancelled)
    ensures var b := a.(s := On(a.s, 4), entry := None, live := a.live && !done,
                        binding := if done then Some(a.binding.value.(state := Completed)) else a.binding);
            LocalInv(b) && Evolves(a, b)
  {
  }

  lemma ConfirmEnded(a: Local)
    requires LocalInv(a) && InCall(a, 2) && a.entry.Some?
    requires a.live && a.closed && a.binding.Some? && a.binding.value.cancelled
    ensures var b := a.(s := On(a.s, 3), entry := None, binding := Some(a.binding.value.(reaped := true)));
            LocalInv(b) && Evolves(a, b)
  {
  }

  lemma LetGoEnded(a: Local)
    requires LocalInv(a) && InCall(a, 2) && (a.entry.Some? && a.live ==> !a.closed)
    ensures var b := a.(s := Stranding(On(a.s, 4), a.entry.Some? && !a.closed), entry := None);
            LocalInv(b) && Evolves(a, b)
  {
  }

  lemma AbandonEnded(a: Local, done: bool)
    requires LocalInv(a) && InCall(a, 3)
    requires done ==> a.binding.Some?
    ensures var b := a.(s := On(a.s, 4), live := a.live && !done,
                        binding := if done then Some(a.binding.value.(state := Abandoned)) else a.binding);
            LocalInv(b) && Evolves(a, b)
  {
  }

  lemma DeleteEnded(a: Local, ok: bool)
    requires LocalInv(a) && InCall(a, 4)
    ensures var b := a.(s := Deleted(a.s, a.s.owner.call.value.release, ok), record := if ok then None else a.record);
            LocalInv(b) && Evolves(a, b)
  {
  }

  lemma UnsubscribeEnded(a: Local)
    requires LocalInv(a) && InCall(a, 5)
    ensures var b := a.(s := Returned(a.s, 7), subscribed := false);
            LocalInv(b) && Evolves(a, b)
  {
  }

  lemma EndBounded(w: World, i: nat)
    requires Enabled(w, EndStep(i, true)) && LocalInv(View(w, i))
    ensures InCall(View(w, i), w.sessions[i].owner.call.value.step) && w.sessions[i].owner.call.value.step <= 5
    ensures HandleInv(View(w, i)) && TablesInv(View(w, i))
  {
  }

  lemma EndReleaseKept(w: World, i: nat)
    requires Enabled(w, EndStep(i, true)) && Inv(w.adm) && LocalInv(View(w, i))
    requires w.sessions[i].owner.call.value.step == 2
    ensures Kept(View(w, i), EndConfirm(w, i), i)
  {
    hide View, LocalInv, Evolves, HandleInv, TablesInv, Inv, Calling, EndConfirm, Reaps;
    SessionSeen(w, i);
    EndBounded(w, i);
    ReapsSeen(w, i);
    if Reaps(w, i) {
      EndConfirmSeen(w, i);
      ConfirmEnded(View(w, i));
    } else {
      EndLetGoSeen(w, i);
      LetGoEnded(View(w, i));
    }
  }

  lemma EndKept(w: World, i: nat, ok: bool)
    requires Enabled(w, EndStep(i, ok)) && Inv(w.adm) && LocalInv(View(w, i))
    ensures Kept(View(w, i), EndCall(w, i, ok), i)
  {
    hide View, LocalInv, Evolves, HandleInv, TablesInv, Inv, Calling, Deleted, Returned;
    hide EndLease, EndGuard, EndConfirm, EndComplete, EndAbandon, EndDelete, EndUnsubscribe;
    SessionSeen(w, i);
    EndBounded(w, i);
    var a := View(w, i);
    match w.sessions[i].owner.call.value.step
    case 0 =>
      EndLeaseSeen(w, i);
      LeaseEnded(a);
    case 1 =>
      EndGuardSeen(w, i);
      GuardEnded(a);
    case 2 =>
      if w.sessions[i].owner.call.value.release {
        EndReleaseKept(w, i);
      } else {
        EndCompleteSeen(w, i);
        CompleteEnded(a, a.entry.Some? && a.live && a.binding.Some? && !a.binding.value.cancelled);
      }
    case 3 =>
      EndAbandonSeen(w, i);
      AbandonEnded(a, a.live && a.closed && a.binding.Some? && a.binding.value.cancelled && a.binding.value.reaped);
    case 4 =>
      EndDeleteSeen(w, i, ok);
      DeleteEnded(a, ok);
    case _ =>
      EndUnsubscribeSeen(w, i);
      UnsubscribeEnded(a);
  }

  // ----- and leaves every other session alone

  /** The session on whose behalf an action is taken; None for the environment's. */
  function Owner(w: World, a: Action): Option<nat> {
    match a
    case Begin(_, _) => None
    case AdmitSession(i, _) => Some(i)
    case AcquireGuard(i) => Some(i)
    case AcquireLease(i) => Some(i)
    case WriteOpening(i, _) => Some(i)
    case WriteBackend(i, _) => Some(i)
    case LearnBackend(i, _) => Some(i)
    case WriteReady(i) => Some(i)
    case Commit(i) => Some(i)
    case Unlink(i, _) => Some(i)
    case ClearCache(i) => Some(i)
    case Abort(i) => Some(i)
    case Unwind(i, _) => Some(i)
    case StartEnd(i, _, _) => Some(i)
    case EndStep(i, _) => Some(i)
    case Invalidate(_) => None
    case Spawn(i, _) => Some(i)
    case Work(k) => if k < |w.workers| then Some(w.workers[k].sid) else None
    case Other(_) => None
  }

  predicate Writes(a: Action) {
    a.WriteOpening? || a.WriteBackend? || a.WriteReady?
  }

  function Overwritten(l: Local): Local {
    l.(record := None, wroteLast := false)
  }

  ghost predicate Same(w: World, v: World, j: nat) {
    j < |w.sessions| && j < |v.sessions| && View(v, j) == View(w, j)
  }

  ghost predicate Two(w: World, i: nat, j: nat) {
    && i < |w.sessions| && j < |w.sessions| && i != j && View(w, i).named && View(w, j).named
    && (w.sessions[j].handle.Some? ==> View(w, j).binding.Some?)
    && (i in w.tokens ==> w.sessions[i].guard == Some(w.tokens[i]))
    && (i in w.handles ==> w.sessions[i].handle == Some(w.handles[i]))
  }

  lemma PhaseAside(w: World, i: nat, j: nat, phase: Phase)
    requires Two(w, i, j)
    ensures Same(w, SetPhase(w, i, phase), j)
  {
  }

  lemma GateAside(w: World, i: nat, j: nat, g: Gate)
    requires Two(w, i, j) && w.sessions[i].handle.Some? && OnlyHandle(w.adm, g, w.sessions[i].handle.value)
    ensures Same(w, w.(adm := g), j)
  {
  }

  lemma AdmitAside(w: World, i: nat, j: nat, request: OpenRequest)
    requires Two(w, i, j)
    ensures Same(w, AdmitStep(w, i, request), j)
  {
    var r := Grant(w.adm, w.sessions[i].recovery, request);
    if r.Ok? {
      GrantRegisters(w.adm, w.sessions[i].recovery, request);
      var v := w.(adm := r.value);
      assert Same(w, v, j);
      assert Same(v, AdmitStep(w, i, request), j);
    }
  }

  lemma GuardAside(w: World, i: nat, j: nat)
    requires Two(w, i, j)
    ensures Same(w, GuardStep(w, i), j)
  {
    if w.holder.Some? {
      PhaseAside(w, i, j, Unwinding(0));
    }
  }

  lemma LeaseAside(w: World, i: nat, j: nat)
    requires Two(w, i, j)
    ensures Same(w, LeaseStep(w, i), j)
  {
    if !w.sessions[i].console {
      PhaseAside(w, i, j, Leased);
    } else if w.lease.Some? {
      PhaseAside(w, i, j, Unwinding(0));
    }
  }

  lemma TokenAside(w: World, i: nat, j: nat, token: nat)
    requires Two(w, i, j)
    ensures Same(w, w.(tokens := w.tokens[i := token]), j)
  {
  }

  lemma RecordedAside(w: World, i: nat, j: nat, s: Session, r: Option<nat>)
    requires i < |w.sessions| && j < |w.sessions| && i != j
    ensures View(SetSession(w, i, s).(record := Some(Record(i, r)), lastWriter := Some(i)), j) == Overwritten(View(w, j))
  {
  }

  lemma OpeningAside(w: World, i: nat, j: nat, ok: bool)
    requires Two(w, i, j) && w.sessions[i].guard.Some?
    ensures j < |OpeningStep(w, i, ok).sessions|
    ensures var b := View(OpeningStep(w, i, ok), j);
            b == View(w, j) || (ok && b == Overwritten(View(w, j)))
  {
    hide View, Overwritten;
    var v := w.(tokens := w.tokens[i := w.sessions[i].guard.value]);
    TokenAside(w, i, j, w.sessions[i].guard.value);
    if ok {
      RecordedAside(v, i, j, v.sessions[i].(phase := Recorded, recorded := true), None);
    } else {
      OtherPhase(v, i, j, Unwinding(0));
    }
  }

  lemma OtherPhase(w: World, i: nat, j: nat, phase: Phase)
    requires i < |w.sessions| && j < |w.sessions| && i != j
    ensures Same(w, SetPhase(w, i, phase), j)
  {
  }

  lemma WriteAside(w: World, i: nat, j: nat, phase: Phase, pid: Option<nat>)
    requires Two(w, i, j)
    ensures j < |WriteRecord(w, i, phase, pid).sessions|
    ensures View(WriteRecord(w, i, phase, pid), j) == Overwritten(View(w, j))
  {
    hide View, Overwritten;
    RecordedAside(w, i, j, w.sessions[i].(phase := phase, pid := pid), pid);
  }

  lemma CommittedAside(w: World, i: nat, j: nat)
    requires Two(w, i, j) && w.sessions[i].handle.Some?
    ensures Same(w, Committing(w, i), j)
  {
  }

  lemma CommitAside(w: World, i: nat, j: nat)
    requires Two(w, i, j) && w.sessions[i].handle.Some?
    ensures Same(w, CommitStep(w, i), j)
  {
    var h := w.sessions[i].handle.value;
    if w.adm.Promote(h).Err? {
      PhaseAside(w, i, j, Unwinding(0));
    } else {
      HandleStepsAreLocal(w.adm, h);
      var g := w.adm.Promote(h).value;
      GateAside(w, i, j, g);
      CommittedAside(w.(adm := g), i, j);
    }
  }

  lemma UnwindTablesAside(w: World, i: nat, j: nat, ok: bool)
    requires Two(w, i, j)
    ensures Same(w, UnwindTables(w, i), j)
    ensures Same(w, UnwindRecord(w, i, ok), j)
    ensures Same(w, UnwindSubscription(w, i), j)
  {
  }

  lemma UnwindLinesAside(w: World, i: nat, j: nat)
    requires Two(w, i, j)
    ensures Same(w, UnwindLease(w, i), j)
    ensures Same(w, UnwindGuard(w, i), j)
  {
  }

  lemma UnwindHandleAside(w: World, i: nat, j: nat)
    requires Two(w, i, j) && w.sessions[i].handle.Some?
    ensures Same(w, UnwindHandle(w, i), j)
  {
    var h := w.sessions[i].handle.value;
    HandleStepsAreLocal(w.adm, h);
    var v := w.(adm := Step(w.adm, Rollback(h)));
    GateAside(w, i, j, v.adm);
    assert Same(v, UnwindHandle(w, i), j);
  }

  lemma WorkLinesAside(w: World, k: nat, j: nat)
    requires k < |w.workers| && Two(w, w.workers[k].sid, j)
    ensures Same(w, WorkKill(w, k), j)
    ensures Same(w, Advance(w, k).(lease := Freed(w.lease, w.sessions[w.workers[k].sid].lease)), j)
    ensures Same(w, Advance(w, k).(holder := Freed(w.holder, w.sessions[w.workers[k].sid].guard)), j)
  {
  }

  lemma WorkTablesAside(w: World, k: nat, j: nat)
    requires k < |w.workers| && Two(w, w.workers[k].sid, j)
    ensures Same(w, Advance(w, k).(tokens := w.tokens - {w.workers[k].sid}), j)
    ensures Same(w, Advance(w, k).(handles := w.handles - {w.workers[k].sid}), j)
    ensures Same(w, WorkDelete(w, k), j)
    ensures Same(w, WorkUnsubscribe(w, k), j)
  {
  }

  lemma WorkGateAside(w: World, k: nat, j: nat, h: nat)
    requires k < |w.workers| && Two(w, w.workers[k].sid, j)
    requires w.sessions[w.workers[k].sid].handle == Some(h) && w.adm.Known(h)
    ensures Same(w, WorkConfirm(w, k, h), j)
    ensures Same(w, Advance(w, k).(adm := Step(w.adm, Abandon(h))), j)
  {
    var i := w.workers[k].sid;
    HandleStepsAreLocal(w.adm, h);
    GateAside(w, i, j, Step(w.adm, ConfirmReaped(h)));
    GateAside(w, i, j, Step(w.adm, Abandon(h)));
    if w.adm.ConfirmReaped(h).Err? {
      assert Same(w, WorkConfirm(w, k, h), j);
    }
  }

  lemma WorkAside(w: World, k: nat, j: nat)
    requires Enabled(w, Work(k)) && Two(w, w.workers[k].sid, j)
    ensures Same(w, WorkStep(w, k), j)
  {
    WorkLinesAside(w, k, j);
    WorkTablesAside(w, k, j);
    WorkGateAside(w, k, j, w.sessions[w.workers[k].sid].handle.value);
    var step := w.workers[k].step;
    if w.workers[k].killPending {
    } else if step == 0 {
    } else if step == 1 {
    } else if step == 2 {
    } else if step == 3 {
    } else if step == 4 {
    } else if step == 5 {
    } else if step == 6 {
    } else if step == 7 {
    }
  }

  lemma UnwindStepAside(w: World, i: nat, j: nat, ok: bool)
    requires Enabled(w, Unwind(i, ok)) && Two(w, i, j)
    ensures Same(w, Act(w, Unwind(i, ok)), j)
  {
    UnwindTablesAside(w, i, j, ok);
    UnwindLinesAside(w, i, j);
    UnwindHandleAside(w, i, j);
    match w.sessions[i].phase.step
    case 0 =>
    case 1 =>
    case 2 =>
    case 3 =>
    case 4 =>
    case _ =>
  }

  lemma LearnAside(w: World, i: nat, j: nat, pid: nat)
    requires Two(w, i, j)
    ensures Same(w, SetSession(w, i, w.sessions[i].(pid := Some(pid))), j)
  {
  }

  lemma ClearAside(w: World, i: nat, j: nat, generation: int)
    requires Two(w, i, j)
    ensures Same(w, SetPhase(w, i, Opened).(adm := w.adm.ClearRecovery(generation)), j)
  {
  }

  lemma SpawnAside(w: World, i: nat, j: nat, kill: bool)
    requires Enabled(w, Spawn(i, kill)) && Two(w, i, j)
    ensures Same(w, Act(w, Spawn(i, kill)), j)
  {
  }

  lemma StartAside(w: World, i: nat, j: nat, release: bool, ok: bool)
    requires Two(w, i, j)
    ensures Same(w, StartStep(w, i, release, ok), j)
  {
  }

  lemma EndLinesAside(w: World, i: nat, j: nat)
    requires Two(w, i, j) && w.sessions[i].owner.call.Some?
    ensures Same(w, EndLease(w, i), j)
    ensures Same(w, EndGuard(w, i), j)
  {
  }

  lemma EndTablesAside(w: World, i: nat, j: nat, ok: bool)
    requires Two(w, i, j) && w.sessions[i].owner.call.Some?
    ensures Same(w, EndDelete(w, i, ok), j)
    ensures Same(w, EndUnsubscribe(w, i), j)
  {
  }

  lemma EntryAside(w: World, i: nat, j: nat, s: Session)
    requires i < |w.sessions| && j < |w.sessions| && i != j
    ensures Same(w, SetSession(w, i, s), j)
    ensures Same(w, SetSession(w, i, s).(handles := w.handles - {i}), j)
  {
  }

  lemma EndCompleteAside(w: World, i: nat, j: nat)
    requires Two(w, i, j) && w.sessions[i].owner.call.Some? && w.sessions[i].handle.Some?
    ensures Same(w, EndComplete(w, i), j)
  {
    var h := w.sessions[i].handle.value;
    var g := if i in w.handles then Step(w.adm, Complete(h)) else w.adm;
    HandleStepsAreLocal(w.adm, h);
    GateAside(w, i, j, g);
    EntryAside(w.(adm := g), i, j, On(w.sessions[i], 4));
    hide View, Step;
  }

  lemma EndConfirmAside(w: World, i: nat, j: nat)
    requires Two(w, i, j) && w.sessions[i].owner.call.Some? && w.sessions[i].handle.Some?
    ensures Same(w, EndConfirm(w, i), j)
  {
    hide View, Step, Reaps, Called, OnlyHandle;
    if Reaps(w, i) {
      var h := ReapedHandle(w, i, j);
      HandleStepsAreLocal(w.adm, h);
      var g := Step(w.adm, ConfirmReaped(h));
      GateAside(w, i, j, g);
      EntryAside(w.(adm := g), i, j, On(w.sessions[i], 3));
    } else {
      EntryAside(w, i, j, Stranding(On(w.sessions[i], 4), i in w.handles && w.adm.closedAt.None?));
    }
  }

  lemma ReapedHandle(w: World, i: nat, j: nat) returns (h: nat)
    requires Two(w, i, j) && Reaps(w, i)
    ensures i in w.handles && h == w.handles[i] && w.sessions[i].handle == Some(h)
  {
    h := w.handles[i];
  }

  lemma EndAbandonAside(w: World, i: nat, j: nat)
    requires Two(w, i, j) && w.sessions[i].owner.call.Some? && w.sessions[i].handle.Some?
    ensures Same(w, EndAbandon(w, i), j)
  {
    hide View, Step, Called, OnlyHandle;
    var h := w.sessions[i].handle.value;
    HandleStepsAreLocal(w.adm, h);
    var g := Step(w.adm, Abandon(h));
    GateAside(w, i, j, g);
    EntryAside(w.(adm := g), i, j, On(w.sessions[i], 4));
  }

  lemma EndAside(w: World, i: nat, j: nat, ok: bool)
    requires Enabled(w, EndStep(i, ok)) && Two(w, i, j)
    ensures Same(w, EndCall(w, i, ok), j)
  {
    hide EndLease, EndGuard, EndConfirm, EndComplete, EndAbandon, EndDelete, EndUnsubscribe, Same, View;
    EndLinesAside(w, i, j);
    EndTablesAside(w, i, j, ok);
    EndCompleteAside(w, i, j);
    EndConfirmAside(w, i, j);
    EndAbandonAside(w, i, j);
  }

  /**
    No step of a session, of its owner or of its teardown workers changes anything another session holds or
    sees, except that a session writing its own record displaces what was on disk.
   */
  lemma Bystander(w: World, a: Action, j: nat)
    requires Enabled(w, a) && Owner(w, a).Some? && Two(w, Owner(w, a).value, j)
    ensures j < |Act(w, a).sessions|
    ensures View(Act(w, a), j) == View(w, j) || (Writes(a) && View(Act(w, a), j) == Overwritten(View(w, j)))
  {
    hide View, Overwritten, Two, SetPhase;
    hide AdmitStep, GuardStep, LeaseStep, OpeningStep, WriteRecord, CommitStep, UnwindStep, StartStep, EndCall, WorkStep;
    match a
    case AdmitSession(i, request) => AdmitAside(w, i, j, request);
    case AcquireGuard(i) => GuardAside(w, i, j);
    case AcquireLease(i) => LeaseAside(w, i, j);
    case WriteOpening(i, ok) => OpeningAside(w, i, j, ok);
    case WriteBackend(i, pid) => WriteAside(w, i, j, Recorded, Some(pid));
    case LearnBackend(i, pid) => LearnAside(w, i, j, pid);
    case WriteReady(i) => WriteAside(w, i, j, ReadyWritten, w.sessions[i].pid);
    case Commit(i) => CommitAside(w, i, j);
    case Unlink(i, ok) => PhaseAside(w, i, j, if ok then GateUnlinked else Unwinding(0));
    case ClearCache(i) => ClearAside(w, i, j, w.adm.issued[w.sessions[i].handle.value].generation);
    case Abort(i) => PhaseAside(w, i, j, Unwinding(0));
    case Unwind(i, ok) => UnwindStepAside(w, i, j, ok);
    case StartEnd(i, release, ok) => StartAside(w, i, j, release, ok);
    case EndStep(i, ok) => EndAside(w, i, j, ok);
    case Spawn(i, kill) => SpawnAside(w, i, j, kill);
    case Work(k) => WorkAside(w, k, j);
  }

  // ----- teardown workers

  lemma WorkerStable(t: Worker, a: Local, b: Local)
    requires WorkerInv(t, a) && LocalInv(a) && LocalInv(b) && Evolves(a, b)
    ensures WorkerInv(t, b)
  {
  }

  lemma ResetStable(r: Reset, i: nat, a: Local, b: Local)
    requires ResetInv(r, i, a) && LocalInv(a) && LocalInv(b) && Evolves(a, b)
    ensures ResetInv(r, i, b)
  {
  }

  /** One step of worker t on its session's view a, giving u and b. */
  ghost predicate LocalWork(t: Worker, u: Worker, a: Local, b: Local) {
    if t.killPending then u == t.(killPending := false) && b == a.(killed := true)
    else if t.step == 0 then u == t.(step := 1) && b == a.(leaseHeld := false)
    else if t.step == 1 then u == t.(step := 2) && b == a.(guardHeld := false)
    else if t.step == 2 then u == t.(step := 3) && b == a.(token := None)
    else if t.step == 3 then
      a.binding.Some?
      && if a.live && a.closed && a.binding.value.cancelled
         then u == t.(step := 4) && b == a.(binding := Some(a.binding.value.(reaped := true)))
         else u == t.(step := 5) && b == a
    else if t.step == 4 then
      && u == t.(step := 5)
      && if a.live && a.closed && a.binding.Some? && a.binding.value.cancelled && a.binding.value.reaped
         then b == a.(binding := Some(a.binding.value.(state := Abandoned)), live := false)
         else b == a
    else if t.step == 5 then u == t.(step := 6) && b == a.(entry := None)
    else if t.step == 6 then u == t.(step := 7) && b == a.(record := if a.killed then None else a.record)
    else if t.step == 7 then u == t.(step := 8) && b == a.(subscribed := false, torn := true)
    else u == t && b == a
  }

  lemma LocalKillKept(t: Worker, u: Worker, a: Local, b: Local)
    requires WorkerInv(t, a) && LocalInv(a) && LocalWork(t, u, a, b) && (t.killPending || t.step == 0)
    ensures LocalInv(b) && Evolves(a, b) && WorkerInv(u, b)
  {
  }

  lemma LocalLinesKept(t: Worker, u: Worker, a: Local, b: Local)
    requires WorkerInv(t, a) && LocalInv(a) && LocalWork(t, u, a, b) && !t.killPending && 1 <= t.step <= 2
    ensures LocalInv(b) && Evolves(a, b) && WorkerInv(u, b)
  {
  }

  lemma LocalHandleKept(t: Worker, u: Worker, a: Local, b: Local)
    requires WorkerInv(t, a) && LocalInv(a) && LocalWork(t, u, a, b) && !t.killPending && 3 <= t.step <= 4
    ensures LocalInv(b) && Evolves(a, b) && WorkerInv(u, b)
  {
  }

  lemma LocalRestKept(t: Worker, u: Worker, a: Local, b: Local)
    requires WorkerInv(t, a) && LocalInv(a) && LocalWork(t, u, a, b) && !t.killPending && t.step >= 5
    ensures LocalInv(b) && Evolves(a, b) && WorkerInv(u, b)
  {
  }

  lemma WorkKillSeen(w: World, k: nat, i: nat)
    requires k < |w.workers| && w.workers[k].sid == i < |w.sessions|
    ensures View(WorkKill(w, k), i) == View(w, i).(killed := true)
  {
  }

  lemma WorkLeaseSeen(w: World, k: nat, i: nat)
    requires k < |w.workers| && w.workers[k].sid == i < |w.sessions|
    ensures View(Advance(w, k).(lease := Freed(w.lease, w.sessions[i].lease)), i) == View(w, i).(leaseHeld := false)
  {
  }

  lemma WorkGuardSeen(w: World, k: nat, i: nat)
    requires k < |w.workers| && w.workers[k].sid == i < |w.sessions|
    ensures View(Advance(w, k).(holder := Freed(w.holder, w.sessions[i].guard)), i) == View(w, i).(guardHeld := false)
  {
  }

  lemma WorkTokenSeen(w: World, k: nat, i: nat)
    requires k < |w.workers| && w.workers[k].sid == i < |w.sessions|
    ensures View(Advance(w, k).(tokens := w.tokens - {i}), i) == View(w, i).(token := None)
  {
  }

  lemma WorkEntrySeen(w: World, k: nat, i: nat)
    requires k < |w.workers| && w.workers[k].sid == i < |w.sessions|
    ensures View(Advance(w, k).(handles := w.handles - {i}), i) == View(w, i).(entry := None)
  {
  }

  lemma WorkRecordSeen(w: World, k: nat, i: nat)
    requires k < |w.workers| && w.workers[k].sid == i < |w.sessions|
    ensures View(WorkDelete(w, k), i) == View(w, i).(record := if i in w.killed then None else View(w, i).record)
  {
  }

  lemma WorkUnsubscribeSeen(w: World, k: nat, i: nat)
    requires k < |w.workers| && w.workers[k].sid == i < |w.sessions|
    ensures View(WorkUnsubscribe(w, k), i) == View(w, i).(subscribed := false, torn := true)
  {
  }

  lemma WorkConfirmSeen(w: World, k: nat, i: nat, h: nat)
    requires k < |w.workers| && w.workers[k].sid == i < |w.sessions| && w.sessions[i].handle == Some(h)
    requires w.adm.Known(h) && !w.workers[k].killPending && w.workers[k].step == 3
    ensures LocalWork(w.workers[k], WorkConfirm(w, k, h).workers[k], View(w, i), View(WorkConfirm(w, k, h), i))
  {
    var a := View(w, i);
    if w.adm.ConfirmReaped(h).Ok? {
      var g := w.adm.(issued := w.adm.issued[h := w.adm.issued[h].(reaped := true)]);
      assert WorkConfirm(w, k, h) == Advance(w, k).(adm := g);
      assert View(Advance(w, k).(adm := g), i) == a.(binding := Some(a.binding.value.(reaped := true)));
    } else {
      assert View(WorkConfirm(w, k, h), i) == a;
    }
  }

  lemma WorkAbandonSeen(w: World, k: nat, i: nat, h: nat)
    requires k < |w.workers| && w.workers[k].sid == i < |w.sessions| && w.sessions[i].handle == Some(h)
    requires Inv(w.adm) && w.adm.Known(h) && !w.workers[k].killPending && w.workers[k].step == 4
    ensures var v := Advance(w, k).(adm := Step(w.adm, Abandon(h)));
            LocalWork(w.workers[k], v.workers[k], View(w, i), View(v, i))
  {
    var a := View(w, i);
    if w.adm.Abandon(h).Ok? {
      var g := w.adm.(issued := w.adm.issued[h := w.adm.issued[h].(state := Abandoned)], live := w.adm.live - {h});
      assert Step(w.adm, Abandon(h)) == g;
      assert View(Advance(w, k).(adm := g), i) == a.(binding := Some(a.binding.value.(state := Abandoned)), live := false);
    } else {
      assert Step(w.adm, Abandon(h)) == w.adm;
      assert View(Advance(w, k).(adm := w.adm), i) == a;
    }
  }

  lemma WorkSeen(w: World, k: nat, i: nat)
    requires Enabled(w, Work(k)) && w.workers[k].sid == i && Inv(w.adm)
    ensures k < |WorkStep(w, k).workers| && i < |WorkStep(w, k).sessions|
    ensures LocalWork(w.workers[k], WorkStep(w, k).workers[k], View(w, i), View(WorkStep(w, k), i))
  {
    var step := w.workers[k].step;
    if w.workers[k].killPending {
      WorkKillSeen(w, k, i);
    } else if step == 0 {
      WorkLeaseSeen(w, k, i);
    } else if step == 1 {
      WorkGuardSeen(w, k, i);
    } else if step == 2 {
      WorkTokenSeen(w, k, i);
    } else if step == 5 {
      WorkEntrySeen(w, k, i);
    } else if step == 3 {
      WorkConfirmSeen(w, k, i, w.sessions[i].handle.value);
    } else if step == 4 {
      WorkAbandonSeen(w, k, i, w.sessions[i].handle.value);
    } else if step == 6 {
      WorkRecordSeen(w, k, i);
    } else if step == 7 {
      WorkUnsubscribeSeen(w, k, i);
    }
  }

  // ----- the whole world

  lemma OverwrittenKept(a: Local)
    requires LocalInv(a) && !a.guardHeld
    ensures LocalInv(Overwritten(a)) && Evolves(a, Overwritten(a))
  {
  }

  lemma WorkKept(w: World, v: World, k: nat, i: nat)
    requires k < |w.workers| && k < |v.workers| && i < |w.sessions| && i < |v.sessions|
    requires LocalInv(View(w, i)) && WorkerInv(w.workers[k], View(w, i))
    requires LocalWork(w.workers[k], v.workers[k], View(w, i), View(v, i))
    ensures Kept(View(w, i), v, i) && WorkerInv(v.workers[k], View(v, i))
  {
    hide LocalInv, Evolves, LocalWork, WorkerInv, View;
    if w.workers[k].killPending || w.workers[k].step == 0 {
      LocalKillKept(w.workers[k], v.workers[k], View(w, i), View(v, i));
    } else if w.workers[k].step < 3 {
      LocalLinesKept(w.workers[k], v.workers[k], View(w, i), View(v, i));
    } else if w.workers[k].step < 5 {
      LocalHandleKept(w.workers[k], v.workers[k], View(w, i), View(v, i));
    } else {
      LocalRestKept(w.workers[k], v.workers[k], View(w, i), View(v, i));
    }
  }

  lemma WorkOwnKept(w: World, k: nat, i: nat)
    requires Enabled(w, Work(k)) && w.workers[k].sid == i && Inv(w.adm)
    requires LocalInv(View(w, i)) && WorkerInv(w.workers[k], View(w, i))
    ensures Kept(View(w, i), WorkStep(w, k), i) && k < |WorkStep(w, k).workers|
    ensures WorkerInv(WorkStep(w, k).workers[k], View(WorkStep(w, k), i))
  {
    hide View, LocalInv, Evolves, WorkerInv, LocalWork;
    WorkSeen(w, k, i);
    WorkKept(w, WorkStep(w, k), k, i);
  }

  lemma SpawnSeen(w: World, i: nat, kill: bool)
    requires Enabled(w, Spawn(i, kill))
    ensures i < |Act(w, Spawn(i, kill)).sessions| && View(w, i).targeted
    ensures View(Act(w, Spawn(i, kill)), i) == View(w, i).(touched := true)
  {
  }

  lemma Touched(a: Local)
    requires LocalInv(a) && a.targeted
    ensures LocalInv(a.(touched := true)) && Evolves(a, a.(touched := true))
  {
  }

  lemma SpawnKept(w: World, i: nat, kill: bool)
    requires Enabled(w, Spawn(i, kill)) && LocalInv(View(w, i))
    ensures Kept(View(w, i), Act(w, Spawn(i, kill)), i)
  {
    hide View, LocalInv, Evolves, Act;
    SpawnSeen(w, i, kill);
    Touched(View(w, i));
  }

  lemma OwnKept(w: World, a: Action, i: nat)
    requires WorldInv(w) && Enabled(w, a) && Owner(w, a) == Some(i)
    ensures Kept(View(w, i), Act(w, a), i)
  {
    assert LocalInv(View(w, i));
    if a.Spawn? {
      SpawnKept(w, i, a.kill);
    } else {
      if a.Work? {
        assert WorkerInv(w.workers[a.k], View(w, i));
      }
      StepKept(w, a, i);
    }
  }

  lemma StepKept(w: World, a: Action, i: nat)
    requires Inv(w.adm) && i < |w.sessions| && LocalInv(View(w, i))
    requires Enabled(w, a) && Owner(w, a) == Some(i) && !a.Spawn?
    requires a.Work? ==> WorkerInv(w.workers[a.k], View(w, i))
    ensures Kept(View(w, i), Act(w, a), i)
  {
    hide LocalInv, View, Evolves, WorkerInv, Inv;
    match a
    case AdmitSession(_, request) => AdmitKept(w, i, request);
    case AcquireGuard(_) => GuardKept(w, i);
    case AcquireLease(_) => LeaseKept(w, i);
    case WriteOpening(_, ok) => OpeningKept(w, i, ok);
    case WriteBackend(_, pid) => WriteKept(w, i, Recorded, Some(pid));
    case LearnBackend(_, pid) => LearnKept(w, i, pid);
    case WriteReady(_) => WriteKept(w, i, ReadyWritten, w.sessions[i].pid);
    case Commit(_) => CommitKept(w, i);
    case Unlink(_, ok) => UnlinkKept(w, i, ok);
    case ClearCache(_) => ClearKept(w, i, w.adm.issued[w.sessions[i].handle.value].generation);
    case Abort(_) => AbortKept(w, i);
    case Unwind(_, ok) => UnwindStepKept(w, i, ok);
    case StartEnd(_, release, ok) => StartKept(w, i, release, ok);
    case EndStep(_, ok) => EndKept(w, i, ok);
    case Work(k) => WorkOwnKept(w, k, i);
  }

  ghost predicate AllKept(w: World, v: World) {
    && |w.sessions| <= |v.sessions|
    && (forall j | 0 <= j < |w.sessions| :: LocalInv(View(v, j)))
    && (forall j | 0 <= j < |w.sessions| :: Evolves(View(w, j), View(v, j)))
  }

  /** A session about to write its record holds the guard, so nobody else does. */
  lemma WriterHoldsGuard(w: World, a: Action, i: nat, j: nat)
    requires WorldInv(w) && Enabled(w, a) && Writes(a) && Owner(w, a) == Some(i) && j < |w.sessions| && i != j
    ensures !View(w, j).guardHeld
  {
    assert HoldsInv(View(w, i)) && Shaped(w.sessions[i]);
  }

  lemma BystanderKept(w: World, v: World, a: Action, i: nat, j: nat)
    requires WorldInv(w) && Enabled(w, a) && Owner(w, a) == Some(i) && j < |w.sessions| && j != i
    requires j < |v.sessions|
    requires View(v, j) == View(w, j) || (Writes(a) && View(v, j) == Overwritten(View(w, j)))
    ensures Kept(View(w, j), v, j)
  {
    assert LocalInv(View(w, j));
    if View(v, j) != View(w, j) {
      WriterHoldsGuard(w, a, i, j);
      OverwrittenKept(View(w, j));
    }
  }

  lemma BothNamed(w: World, i: nat, j: nat)
    requires WorldInv(w) && i < |w.sessions| && j < |w.sessions| && i != j
    ensures Two(w, i, j)
  {
    assert LocalInv(View(w, i)) && LocalInv(View(w, j));
  }

  lemma SessionsKept(w: World, a: Action, v: World)
    requires WorldInv(w) && Enabled(w, a) && Owner(w, a).Some? && v == Act(w, a)
    requires |w.sessions| == |v.sessions|
    ensures AllKept(w, v)
  {
    hide Act, View, LocalInv, Evolves;
    var i := Owner(w, a).value;
    OwnKept(w, a, i);
    forall j | 0 <= j < |w.sessions|
      ensures LocalInv(View(v, j)) && Evolves(View(w, j), View(v, j))
    {
      if j != i {
        BothNamed(w, i, j);
        Bystander(w, a, j);
        BystanderKept(w, v, a, i, j);
      }
    }
  }

  /** What a gate event of another actor may do to a transport.open handle. */
  lemma ForeignFrame(g: Gate, e: Event, h: nat)
    requires Inv(g) && Foreign(g, e) && g.Known(h) && g.issued[h].op.TransportOpen?
    ensures var t := Step(g, e);
            && t.Known(h) && t.issued[h] == g.issued[h]
            && (h in t.live <==> h in g.live)
            && (h in g.live && g.closedAt.Some? ==> t.closedAt.Some?)
  {
  }

  lemma ReopenedKept(a: Local, b: Local)
    requires LocalInv(a) && b == a.(closed := b.closed) && (a.live && a.closed ==> b.closed)
    ensures LocalInv(b) && Evolves(a, b)
  {
  }

  lemma OtherMoves(w: World, e: Event, j: nat)
    requires Inv(w.adm) && Enabled(w, Other(e)) && j < |w.sessions| && LocalInv(View(w, j))
    ensures var v := w.(adm := Step(w.adm, e));
            && View(v, j) == View(w, j).(closed := v.adm.closedAt.Some?)
            && (View(w, j).live && View(w, j).closed ==> v.adm.closedAt.Some?)
  {
    hide Step;
    if w.sessions[j].handle.Some? {
      ForeignFrame(w.adm, e, w.sessions[j].handle.value);
    }
  }

  lemma OtherKept(w: World, e: Event)
    requires WorldInv(w) && Enabled(w, Other(e))
    ensures AllKept(w, w.(adm := Step(w.adm, e)))
  {
    var v := w.(adm := Step(w.adm, e));
    hide Step;
    forall j | 0 <= j < |w.sessions|
      ensures LocalInv(View(v, j)) && Evolves(View(w, j), View(v, j))
    {
      OtherMoves(w, e, j);
      ReopenedKept(View(w, j), View(v, j));
    }
  }

  lemma BeginKept(w: World, recovery: bool, console: bool)
    requires WorldInv(w) && Enabled(w, Begin(recovery, console))
    ensures var v := Act(w, Begin(recovery, console));
            AllKept(w, v) && |v.sessions| == |w.sessions| + 1 && LocalInv(View(v, |w.sessions|))
  {
    var v := Act(w, Begin(recovery, console));
    forall j | 0 <= j < |w.sessions|
      ensures LocalInv(View(v, j)) && Evolves(View(w, j), View(v, j))
    {
      assert View(v, j) == View(w, j);
    }
  }

  /** The actors' own invariants, for workers and resets carried over or just started. */
  lemma ActorsKept(w: World, v: World)
    requires WorldInv(w) && AllKept(w, v)
    requires forall k | 0 <= k < |v.workers| ::
               || (k < |w.workers| && v.workers[k] == w.workers[k])
               || (v.workers[k].sid < |v.sessions| && WorkerInv(v.workers[k], View(v, v.workers[k].sid)))
    requires |w.resets| <= |v.resets| && v.resets[..|w.resets|] == w.resets
    requires forall r | |w.resets| <= r < |v.resets| ::
               && (forall i | i in v.resets[r].targets || i in v.resets[r].admitted :: i < |w.sessions|)
               && (forall i | 0 <= i < |w.sessions| :: ResetInv(v.resets[r], i, View(v, i)))
    ensures ActorsInv(v)
  {
    hide LocalInv, Evolves, WorkerInv, ResetInv;
    forall k | 0 <= k < |v.workers|
      ensures v.workers[k].sid < |v.sessions| && WorkerInv(v.workers[k], View(v, v.workers[k].sid))
    {
      if k < |w.workers| && v.workers[k] == w.workers[k] {
        var i := w.workers[k].sid;
        WorkerStable(w.workers[k], View(w, i), View(v, i));
      }
    }
    forall r, i | 0 <= r < |v.resets| && 0 <= i < |v.sessions|
      ensures ResetInv(v.resets[r], i, View(v, i))
    {
      if i >= |w.sessions| {
        assert i !in v.resets[r].targets && i !in v.resets[r].admitted;
        ResetElsewhere(v.resets[r], i, View(v, i));
      } else if r < |w.resets| {
        assert v.resets[r] == w.resets[r];
        ResetStable(w.resets[r], i, View(w, i), View(v, i));
      }
    }
  }

  lemma ResetElsewhere(r: Reset, i: nat, l: Local)
    requires i !in r.targets && i !in r.admitted
    ensures ResetInv(r, i, l)
  {
  }

  /** The gate event an action performs, if any. */
  function GateEvent(w: World, a: Action): Option<Event>
    requires Enabled(w, a)
  {
    match a
    case AdmitSession(i, request) =>
      Some(AdmissionOf(w.sessions[i].recovery, request))
    case Commit(i) => Some(Promote(w.sessions[i].handle.value))
    case ClearCache(i) => Some(ClearRecovery(w.adm.issued[w.sessions[i].handle.value].generation))
    case Unwind(i, _) => UnwindEvent(w.sessions[i])
    case EndStep(i, _) => EndEvent(w, i)
    case Invalidate(generation) => if w.adm.StaleClose(generation) then None else Some(Close(generation))
    case Work(k) => WorkEvent(w.workers[k], w.sessions[w.workers[k].sid])
    case Other(e) => Some(e)
    case _ => None
  }

  function UnwindEvent(s: Session): Option<Event>
    requires s.phase.Unwinding? && s.handle.Some?
  {
    if s.phase.step >= 5 then Some(Rollback(s.handle.value)) else None
  }

  function EndEvent(w: World, i: nat): Option<Event>
    requires i < |w.sessions| && w.sessions[i].owner.call.Some? && w.sessions[i].handle.Some?
  {
    var c := w.sessions[i].owner.call.value;
    if c.step == 2 && c.release && Reaps(w, i) then Some(ConfirmReaped(w.handles[i]))
    else if c.step == 2 && !c.release && i in w.handles then Some(Complete(w.handles[i]))
    else if c.step == 3 then Some(Abandon(w.sessions[i].handle.value))
    else None
  }

  function WorkEvent(t: Worker, s: Session): Option<Event>
    requires s.handle.Some?
  {
    if t.killPending then None
    else if t.step == 3 then Some(ConfirmReaped(s.handle.value))
    else if t.step == 4 then Some(Abandon(s.handle.value))
    else None
  }

  function GateAfter(g: Gate, e: Option<Event>): Gate {
    if e.Some? then Step(g, e.value) else g
  }

  lemma UnwindShape(w: World, i: nat, ok: bool)
    requires Enabled(w, Unwind(i, ok))
    ensures var v := UnwindStep(w, i, ok);
            && v.adm == GateAfter(w.adm, UnwindEvent(w.sessions[i]))
            && |v.sessions| == |w.sessions| && v.resets == w.resets && v.workers == w.workers
  {
    match w.sessions[i].phase.step
    case 0 =>
    case 1 =>
    case 2 =>
    case 3 =>
    case 4 =>
    case _ =>
  }

  lemma EndShape(w: World, i: nat, ok: bool)
    requires Enabled(w, EndStep(i, ok))
    ensures var v := EndCall(w, i, ok);
            && v.adm == GateAfter(w.adm, EndEvent(w, i))
            && |v.sessions| == |w.sessions| && v.resets == w.resets && v.workers == w.workers
  {
    hide Step, Reaps;
    match w.sessions[i].owner.call.value.step
    case 0 =>
    case 1 =>
    case 2 =>
    case 3 =>
    case 4 =>
    case _ =>
  }

  lemma WorkShape(w: World, k: nat)
    requires Enabled(w, Work(k))
    ensures var v := WorkStep(w, k);
            && v.adm == GateAfter(w.adm, WorkEvent(w.workers[k], w.sessions[w.workers[k].sid]))
            && |v.sessions| == |w.sessions| && v.resets == w.resets
            && v.workers == w.workers[k := v.workers[k]] && v.workers[k].sid == w.workers[k].sid
  {
    var step := w.workers[k].step;
    if w.workers[k].killPending {
    } else if step <= 2 {
    } else if step == 3 {
    } else if step == 4 {
    } else if step <= 7 {
    }
  }

  lemma AdmitShape(w: World, i: nat, request: OpenRequest)
    requires i < |w.sessions|
    ensures AdmitStep(w, i, request).adm == Step(w.adm, AdmissionOf(w.sessions[i].recovery, request))
    ensures |AdmitStep(w, i, request).sessions| == |w.sessions|
    ensures AdmitStep(w, i, request).resets == w.resets && AdmitStep(w, i, request).workers == w.workers
  {
    hide Gate.Admit, Gate.AdmitRecovery;
  }

  lemma CommitShape(w: World, i: nat)
    requires i < |w.sessions| && w.sessions[i].handle.Some?
    ensures CommitStep(w, i).adm == Step(w.adm, Promote(w.sessions[i].handle.value))
    ensures |CommitStep(w, i).sessions| == |w.sessions|
    ensures CommitStep(w, i).resets == w.resets && CommitStep(w, i).workers == w.workers
  {
    hide Gate.Promote;
  }

  lemma ClearShape(g: Gate, generation: int)
    ensures Step(g, ClearRecovery(generation)) == g.ClearRecovery(generation)
    ensures Step(g, Close(generation)) == g.Close(generation)
  {
    hide Gate.ClearRecovery, Gate.Close;
  }

  /** Steps that leave the gate and the other actors as they were. */
  ghost predicate Plain(w: World, v: World) {
    v.adm == w.adm && |v.sessions| == |w.sessions| && v.resets == w.resets && v.workers == w.workers
  }

  lemma PlainShape(w: World, i: nat, ok: bool)
    requires i < |w.sessions|
    ensures Plain(w, GuardStep(w, i)) && Plain(w, LeaseStep(w, i))
    ensures w.sessions[i].guard.Some? ==> Plain(w, OpeningStep(w, i, ok))
  {
  }

  lemma StartShape(w: World, i: nat, release: bool, ok: bool)
    requires i < |w.sessions|
    ensures Plain(w, StartStep(w, i, release, ok))
  {
  }

  /** Every action's effect on the gate is one of its critical sections, or none. */
  lemma GateShape(w: World, a: Action)
    requires Enabled(w, a)
    ensures Act(w, a).adm == GateAfter(w.adm, GateEvent(w, a))
  {
    hide WorkStep, UnwindStep, EndCall, AdmitStep, CommitStep, Step, Grant, GuardStep, LeaseStep, OpeningStep, StartStep;
    match a
    case AdmitSession(i, request) => AdmitShape(w, i, request);
    case Commit(i) => CommitShape(w, i);
    case ClearCache(i) => ClearShape(w.adm, w.adm.issued[w.sessions[i].handle.value].generation);
    case Invalidate(generation) => ClearShape(w.adm, generation);
    case Unwind(i, ok) => UnwindShape(w, i, ok);
    case EndStep(i, ok) => EndShape(w, i, ok);
    case Work(k) => WorkShape(w, k);
    case AcquireGuard(i) => PlainShape(w, i, true);
    case AcquireLease(i) => PlainShape(w, i, true);
    case WriteOpening(i, ok) => PlainShape(w, i, ok);
    case StartEnd(i, release, ok) => StartShape(w, i, release, ok);
    case _ =>
  }

  /** Sessions come only from Begin, resets from Invalidate, workers from Spawn. */
  lemma ActorShape(w: World, a: Action)
    requires Enabled(w, a) && Owner(w, a).Some?
    ensures |Act(w, a).sessions| == |w.sessions| && Act(w, a).resets == w.resets
    ensures !a.Work? && !a.Spawn? ==> Act(w, a).workers == w.workers
  {
    hide WorkStep, UnwindStep, EndCall, AdmitStep, CommitStep, Step, Grant, GuardStep, LeaseStep, OpeningStep, StartStep;
    match a
    case AdmitSession(i, request) => AdmitShape(w, i, request);
    case Commit(i) => CommitShape(w, i);
    case Unwind(i, ok) => UnwindShape(w, i, ok);
    case EndStep(i, ok) => EndShape(w, i, ok);
    case Work(k) => WorkShape(w, k);
    case AcquireGuard(i) => PlainShape(w, i, true);
    case AcquireLease(i) => PlainShape(w, i, true);
    case WriteOpening(i, ok) => PlainShape(w, i, ok);
    case StartEnd(i, release, ok) => StartShape(w, i, release, ok);
    case _ =>
  }

  lemma GateKept(w: World, a: Action)
    requires Inv(w.adm) && Enabled(w, a)
    ensures Inv(Act(w, a).adm)
  {
    GateShape(w, a);
    hide Act;
    if GateEvent(w, a).Some? {
      StepKeepsInv(w.adm, GateEvent(w, a).value);
    }
  }

  /** What a reset does to a session's view. */
  function ClosedOver(a: Local): Local {
    a.(closed := true, targeted := a.targeted || a.subscribed,
       binding := if a.live && a.binding.Some? then Some(a.binding.value.(cancelled := true)) else a.binding)
  }

  function Closing(w: World, generation: int): World {
    w.(adm := w.adm.Close(generation), resets := w.resets + [Reset(Admittees(w), Subscribers(w))])
  }

  lemma ClosingSeen(w: World, generation: int, i: nat)
    requires !w.adm.StaleClose(generation) && i < |w.sessions|
    ensures View(Closing(w, generation), i) == ClosedOver(View(w, i))
  {
    var r := Reset(Admittees(w), Subscribers(w));
    assert (w.resets + [r])[|w.resets|] == r;
    assert forall k | 0 <= k < |w.resets| :: (w.resets + [r])[k] == w.resets[k];
  }

  lemma ClosedOverKept(a: Local, r: Reset, i: nat)
    requires LocalInv(a) && (i in r.targets <==> a.subscribed) && (i in r.admitted ==> a.s.handle.Some?)
    ensures LocalInv(ClosedOver(a)) && Evolves(a, ClosedOver(a)) && ResetInv(r, i, ClosedOver(a))
  {
  }

  lemma ClosingKept(w: World, generation: int)
    requires WorldInv(w) && !w.adm.StaleClose(generation)
    ensures AllKept(w, Closing(w, generation))
    ensures forall i | 0 <= i < |w.sessions| ::
              ResetInv(Reset(Admittees(w), Subscribers(w)), i, View(Closing(w, generation), i))
  {
    hide View, LocalInv, Evolves, ResetInv, Gate.Close, ClosedOver;
    var v := Closing(w, generation);
    var r := Reset(Admittees(w), Subscribers(w));
    forall i | 0 <= i < |w.sessions|
      ensures LocalInv(View(v, i)) && Evolves(View(w, i), View(v, i)) && ResetInv(r, i, View(v, i))
    {
      ClosingSeen(w, generation, i);
      ActorsSeen(w, i);
      ClosedOverKept(View(w, i), r, i);
    }
  }

  lemma ActorsSeen(w: World, i: nat)
    requires i < |w.sessions|
    ensures View(w, i).subscribed <==> i in Subscribers(w)
    ensures View(w, i).s.handle.Some? <==> i in Admittees(w)
  {
  }

  lemma InvalidateKept(w: World, generation: int)
    requires WorldInv(w) && !w.adm.StaleClose(generation)
    ensures WorldInv(Act(w, Invalidate(generation)))
  {
    hide View, LocalInv, Evolves, ResetInv, WorkerInv, Gate.Close;
    StepKeepsInv(w.adm, Close(generation));
    ClosingKept(w, generation);
    assert Act(w, Invalidate(generation)) == Closing(w, generation);
    ActorsKept(w, Closing(w, generation));
  }

  lemma BeginActorsKept(w: World, recovery: bool, console: bool)
    requires WorldInv(w) && Enabled(w, Begin(recovery, console))
    ensures WorldInv(Act(w, Begin(recovery, console)))
  {
    hide View, LocalInv, Evolves, ResetInv, WorkerInv;
    BeginKept(w, recovery, console);
    ActorsKept(w, Act(w, Begin(recovery, console)));
  }

  lemma OtherActorsKept(w: World, e: Event)
    requires WorldInv(w) && Enabled(w, Other(e))
    ensures WorldInv(Act(w, Other(e)))
  {
    hide View, LocalInv, Evolves, ResetInv, WorkerInv, Step, Foreign;
    StepKeepsInv(w.adm, e);
    OtherKept(w, e);
    ActorsKept(w, w.(adm := Step(w.adm, e)));
  }

  lemma NextKeepsInv(w: World, a: Action)
    requires WorldInv(w)
    ensures WorldInv(Next(w, a))
  {
    hide WorldInv;
    if Enabled(w, a) {
      match a
      case Begin(recovery, console) =>
        BeginActorsKept(w, recovery, console);
      case Invalidate(generation) =>
        if !w.adm.StaleClose(generation) {
          InvalidateKept(w, generation);
        }
      case Other(e) =>
        OtherActorsKept(w, e);
      case _ => SessionActionKept(w, a);
    }
  }

  lemma NextEvolves(w: World, a: Action)
    requires WorldInv(w)
    ensures AllKept(w, Next(w, a))
  {
    if !Enabled(w, a) {
      StillKept(w);
    } else if Owner(w, a).Some? {
      ActorShape(w, a);
      SessionsKept(w, a, Act(w, a));
    } else if a.Begin? {
      BeginKept(w, a.recovery, a.console);
    } else if a.Other? {
      OtherKept(w, a.event);
    } else if w.adm.StaleClose(a.generation) {
      StillKept(w);
    } else {
      ClosingKept(w, a.generation);
    }
  }

  lemma StillKept(w: World)
    requires WorldInv(w)
    ensures AllKept(w, w)
  {
  }

  lemma WorkersKept(w: World, a: Action, v: World)
    requires WorldInv(w) && Enabled(w, a) && Owner(w, a).Some? && v == Act(w, a)
    ensures |v.sessions| == |w.sessions| && v.resets == w.resets
    ensures forall k | 0 <= k < |v.workers| ::
              || (k < |w.workers| && v.workers[k] == w.workers[k])
              || (v.workers[k].sid < |v.sessions| && WorkerInv(v.workers[k], View(v, v.workers[k].sid)))
  {
    ActorShape(w, a);
    if a.Work? {
      WorkShape(w, a.k);
      WorkOwnKept(w, a.k, w.workers[a.k].sid);
    } else if a.Spawn? {
      SpawnKept(w, a.i, a.kill);
      assert WorkerInv(Worker(a.i, a.kill, 0), View(v, a.i));
    }
    hide View, LocalInv, WorkStep, UnwindStep, WorkerInv;
  }

  lemma SessionActionKept(w: World, a: Action)
    requires WorldInv(w) && Enabled(w, a) && Owner(w, a).Some?
    ensures WorldInv(Act(w, a))
  {
    var v := Act(w, a);
    GateKept(w, a);
    WorkersKept(w, a, v);
    hide Act, View, LocalInv, WorkerInv, Evolves;
    SessionsKept(w, a, v);
    ActorsKept(w, v);
  }
}
