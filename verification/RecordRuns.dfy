/**
  The durable record and the token table over whole runs: what a failed open leaves of them, and when
  the record of a backend whose kill has not resolved is still on disk.
 */
module RecordRuns {
  import opened Common
  import opened Admission
  import opened Coordination
  import opened CoordinationSteps
  import opened CoordinationRuns

  // ----- which steps store a record

  /** The step stores no record: who wrote last and who has recorded stay as they are. */
  ghost predicate NoWrite(w: World, v: World, i: nat) {
    && i < |w.sessions| && |v.sessions| == |w.sessions| && v.sessions == w.sessions[i := v.sessions[i]]
    && v.sessions[i].recorded == w.sessions[i].recorded && v.lastWriter == w.lastWriter
  }

  lemma AdmitWritesNothing(w: World, i: nat, request: OpenRequest)
    requires i < |w.sessions|
    ensures NoWrite(w, AdmitStep(w, i, request), i)
  {
    hide Grant;
  }

  lemma LinesWriteNothing(w: World, i: nat)
    requires i < |w.sessions|
    ensures NoWrite(w, GuardStep(w, i), i) && NoWrite(w, LeaseStep(w, i), i)
  {
  }

  lemma CommitWritesNothing(w: World, i: nat)
    requires i < |w.sessions| && w.sessions[i].handle.Some?
    ensures NoWrite(w, CommitStep(w, i), i)
  {
    hide Gate.Promote;
  }

  lemma UnwindWritesNothing(w: World, i: nat, ok: bool)
    requires Enabled(w, Unwind(i, ok))
    ensures NoWrite(w, UnwindStep(w, i, ok), i)
  {
    hide Step;
    match w.sessions[i].phase.step
    case 0 =>
    case 1 =>
    case 2 =>
    case 3 =>
    case 4 =>
    case _ =>
  }

  lemma StartWritesNothing(w: World, i: nat, release: bool, ok: bool)
    requires i < |w.sessions|
    ensures NoWrite(w, StartStep(w, i, release, ok), i)
  {
  }

  lemma ConfirmWritesNothing(w: World, i: nat)
    requires i < |w.sessions| && w.sessions[i].owner.call.Some?
    ensures NoWrite(w, EndConfirm(w, i), i)
  {
    hide Step, Reaps, Called;
  }

  lemma EndWritesNothing(w: World, i: nat, ok: bool)
    requires Enabled(w, EndStep(i, ok))
    ensures NoWrite(w, EndCall(w, i, ok), i)
  {
    hide Step, EndConfirm, Called, Over, Tried;
    ConfirmWritesNothing(w, i);
    match w.sessions[i].owner.call.value.step
    case 0 =>
    case 1 =>
    case 2 =>
    case 3 =>
    case 4 =>
    case _ =>
  }

  lemma WorkWritesNothing(w: World, k: nat)
    requires Enabled(w, Work(k))
    ensures NoWrite(w, WorkStep(w, k), w.workers[k].sid)
  {
    hide Step, Gate.ConfirmReaped;
    var step := w.workers[k].step;
    if w.workers[k].killPending {
    } else if step <= 2 {
    } else if step <= 4 {
    } else if step <= 7 {
    }
  }

  predicate Stores(a: Action) {
    Writes(a) && (a.WriteOpening? ==> a.ok)
  }

  lemma OpeningWrites(w: World, i: nat, ok: bool)
    requires i < |w.sessions| && w.sessions[i].guard.Some?
    ensures if ok then OpeningStep(w, i, ok).lastWriter == Some(i) else NoWrite(w, OpeningStep(w, i, ok), i)
  {
  }

  lemma OtherWritesNothing(w: World, a: Action)
    requires Enabled(w, a) && (a.LearnBackend? || a.Unlink? || a.ClearCache? || a.Abort? || a.Spawn?)
    ensures NoWrite(w, Act(w, a), a.i)
  {
  }

  /** The record and the memory of who wrote last change hands only when an OPENING, partial or READY record is stored. */
  lemma OnlyStoresWrite(w: World, a: Action)
    requires Enabled(w, a) && Owner(w, a).Some?
    ensures if Stores(a) then Act(w, a).lastWriter == Owner(w, a) else NoWrite(w, Act(w, a), Owner(w, a).value)
  {
    hide NoWrite, AdmitStep, GuardStep, LeaseStep, OpeningStep, CommitStep, UnwindStep, StartStep, EndCall, WorkStep;
    match a
    case AdmitSession(i, request) => AdmitWritesNothing(w, i, request);
    case AcquireGuard(i) => LinesWriteNothing(w, i);
    case AcquireLease(i) => LinesWriteNothing(w, i);
    case WriteOpening(i, ok) => OpeningWrites(w, i, ok);
    case Commit(i) => CommitWritesNothing(w, i);
    case Unwind(i, ok) => UnwindWritesNothing(w, i, ok);
    case StartEnd(i, release, ok) => StartWritesNothing(w, i, release, ok);
    case EndStep(i, ok) => EndWritesNothing(w, i, ok);
    case Work(k) => WorkWritesNothing(w, k);
    case WriteBackend(_, _) =>
    case WriteReady(_) =>
    case _ => OtherWritesNothing(w, a);
  }

  ghost predicate HasRecorded(w: World, i: nat) {
    i < |w.sessions| && w.sessions[i].recorded
  }

  /** A session has recorded from the moment its OPENING record is stored. */
  lemma RecordedStep(w: World, a: Action, i: nat)
    ensures |w.sessions| <= |Next(w, a).sessions| && (!a.Begin? ==> |Next(w, a).sessions| == |w.sessions|)
    ensures HasRecorded(Next(w, a), i) <==> HasRecorded(w, i) || (Enabled(w, a) && a == WriteOpening(i, true))
  {
    hide AdmitStep, GuardStep, LeaseStep, CommitStep, UnwindStep, StartStep, EndCall, WorkStep, Step, Gate.Close;
    if Enabled(w, a) && Owner(w, a).Some? {
      OnlyStoresWrite(w, a);
    }
  }

  // ----- failed opens

  /** The write of the session's OPENING record is refused. */
  ghost predicate Refuses(w: World, a: Action, i: nat) {
    Enabled(w, a) && a == WriteOpening(i, false)
  }

  ghost predicate Refused(w: World, actions: seq<Action>, i: nat)
    decreases |actions|
  {
    actions != [] && (Refuses(w, actions[0], i) || Refused(Next(w, actions[0]), actions[1..], i))
  }

  ghost predicate HasToken(w: World, i: nat) {
    i < |w.sessions| && i in w.tokens
  }

  /** The session is unwinding or has failed, and no record of it was ever stored. */
  ghost predicate NeverRecords(w: World, i: nat) {
    i < |w.sessions| && Unwound(w.sessions[i], 0) && !w.sessions[i].recorded
  }

  lemma NeverRecordsStays(w: World, a: Action, i: nat)
    requires WorldInv(w) && NeverRecords(w, i)
    ensures NeverRecords(Next(w, a), i)
  {
    NextEvolves(w, a);
    RecordedStep(w, a, i);
    hide Next, LocalInv, Evolves, WorldInv;
    EvolvesUnwound(w, Next(w, a), i);
  }

  lemma EvolvesUnwound(w: World, v: World, i: nat)
    requires AllKept(w, v) && i < |w.sessions| && Unwound(w.sessions[i], 0)
    ensures i < |v.sessions| && Unwound(v.sessions[i], 0)
  {
    assert Evolves(View(w, i), View(v, i));
  }

  lemma {:induction false} NeverRecordsForever(w: World, actions: seq<Action>, i: nat)
    requires WorldInv(w) && NeverRecords(w, i)
    ensures NeverRecords(Perform(w, actions), i)
    decreases |actions|
  {
    hide Next, WorldInv, NeverRecords;
    if actions != [] {
      NextKeepsInv(w, actions[0]);
      NeverRecordsStays(w, actions[0], i);
      NeverRecordsForever(Next(w, actions[0]), actions[1..], i);
    }
  }

  lemma RefusalUnwinds(w: World, i: nat)
    requires WorldInv(w) && Enabled(w, WriteOpening(i, false))
    ensures NeverRecords(Next(w, WriteOpening(i, false)), i) && HasToken(Next(w, WriteOpening(i, false)), i)
  {
    assert LocalInv(View(w, i));
  }

  lemma {:induction false} RefusedNeverRecords(w: World, actions: seq<Action>, i: nat)
    requires WorldInv(w) && Refused(w, actions, i)
    ensures NeverRecords(Perform(w, actions), i)
    decreases |actions|
  {
    hide Next, WorldInv, NeverRecords, Enabled;
    NextKeepsInv(w, actions[0]);
    if Refuses(w, actions[0], i) {
      RefusalUnwinds(w, i);
      NeverRecordsForever(Next(w, actions[0]), actions[1..], i);
    } else {
      RefusedNeverRecords(Next(w, actions[0]), actions[1..], i);
    }
  }

  /** A session without a stored record is still opening, or unwinding, and no teardown has reached it. */
  lemma UnrecordedActs(w: World, a: Action, i: nat)
    requires WorldInv(w) && Enabled(w, a) && Owner(w, a) == Some(i) && i < |w.sessions| && !w.sessions[i].recorded
    ensures a.AdmitSession? || a.AcquireGuard? || a.AcquireLease? || a.WriteOpening? || a.Abort? || a.Unwind?
  {
    assert LocalInv(View(w, i));
  }

  lemma UnwindKeepsToken(w: World, i: nat, ok: bool)
    requires Enabled(w, Unwind(i, ok)) && !w.sessions[i].recorded
    ensures UnwindStep(w, i, ok).tokens == w.tokens
  {
    hide Step;
    assert w.tokens - {} == w.tokens;
    match w.sessions[i].phase.step
    case 0 =>
    case 1 =>
    case 2 =>
    case 3 =>
    case 4 =>
    case _ =>
  }

  lemma OpeningToken(w: World, a: Action, i: nat)
    requires Enabled(w, a) && Owner(w, a) == Some(i) && i < |w.sessions|
    requires a.AdmitSession? || a.AcquireGuard? || a.AcquireLease? || a.WriteOpening? || a.Abort?
    ensures i in Act(w, a).tokens <==> i in w.tokens || a.WriteOpening?
  {
    hide Grant;
  }

  lemma TokenOfOther(w: World, a: Action, i: nat)
    requires WorldInv(w) && Enabled(w, a) && Owner(w, a).Some? && Owner(w, a) != Some(i) && i < |w.sessions|
    ensures HasToken(Act(w, a), i) <==> HasToken(w, i)
  {
    BothNamed(w, Owner(w, a).value, i);
    Bystander(w, a, i);
    hide Act, WorldInv, Enabled;
  }

  /** Without a stored record, only the refused write puts a token into the table, and nothing takes it out. */
  lemma TokenStep(w: World, a: Action, i: nat)
    requires WorldInv(w) && !HasRecorded(Next(w, a), i)
    ensures HasToken(Next(w, a), i) <==> HasToken(w, i) || Refuses(w, a, i)
  {
    hide AdmitStep, GuardStep, LeaseStep, CommitStep, UnwindStep, StartStep, EndCall, WorkStep, Step, Gate.Close, WorldInv;
    RecordedStep(w, a, i);
    if Enabled(w, a) && i < |w.sessions| {
      if Owner(w, a) == Some(i) {
        UnrecordedActs(w, a, i);
        if a.Unwind? {
          UnwindKeepsToken(w, i, a.ok);
        } else {
          OpeningToken(w, a, i);
        }
      } else if Owner(w, a).Some? {
        TokenOfOther(w, a, i);
      }
    }
  }

  lemma {:induction false} TokenHistory(w: World, actions: seq<Action>, i: nat)
    requires WorldInv(w) && !HasRecorded(Perform(w, actions), i)
    ensures HasToken(Perform(w, actions), i) <==> HasToken(w, i) || Refused(w, actions, i)
    ensures !HasRecorded(w, i)
    decreases |actions|
  {
    hide Next, WorldInv, HasToken, HasRecorded, Refuses;
    if actions != [] {
      NextKeepsInv(w, actions[0]);
      TokenHistory(Next(w, actions[0]), actions[1..], i);
      RecordedStep(w, actions[0], i);
      TokenStep(w, actions[0], i);
    }
  }

  /**
    A failed open holds nothing and is in no table, except that its token stays if and only if the
    write of its OPENING record was refused. Its record is gone unless deleting it failed.
   */
  lemma FailedOpenLeavesNothing(actions: seq<Action>, i: nat)
    requires i < |Reached(actions).sessions| && Reached(actions).sessions[i].phase.Failed?
    ensures var l := View(Reached(actions), i);
            && !l.guardHeld && !l.leaseHeld && !l.subscribed && l.entry.None?
            && (l.token.Some? <==> Refused(Idle, actions, i))
            && (l.record.Some? ==> l.s.undeleted)
            && (l.live ==> l.s.recovery && l.s.promoted)
  {
    ReachedInv(actions);
    assert LocalInv(View(Reached(actions), i));
    if Reached(actions).sessions[i].recorded {
      if Refused(Idle, actions, i) {
        RefusedNeverRecords(Idle, actions, i);
      }
    } else {
      TokenHistory(Idle, actions, i);
    }
  }

  // ----- kill before delete

  /** Another session stores its OPENING record after session i has stored its own. */
  ghost predicate Displaces(w: World, a: Action, i: nat) {
    Enabled(w, a) && a.WriteOpening? && a.ok && a.i != i && HasRecorded(w, i)
  }

  ghost predicate Displaced(w: World, actions: seq<Action>, i: nat)
    decreases |actions|
  {
    actions != [] && (Displaces(w, actions[0], i) || Displaced(Next(w, actions[0]), actions[1..], i))
  }

  /** Session i has stored no record, or was the last to store one. */
  ghost predicate LastIfAny(w: World, i: nat) {
    HasRecorded(w, i) ==> w.lastWriter == Some(i)
  }

  lemma WriterStep(w: World, a: Action, i: nat)
    requires WorldInv(w)
    ensures LastIfAny(Next(w, a), i) <==> LastIfAny(w, i) && !Displaces(w, a, i)
  {
    RecordedStep(w, a, i);
    if Enabled(w, a) && Owner(w, a).Some? {
      OnlyStoresWrite(w, a);
      PartialWriterWroteLast(w, a);
    }
    hide WorldInv, AdmitStep, GuardStep, LeaseStep, CommitStep, UnwindStep, StartStep, EndCall, WorkStep, Step, Gate.Close;
  }

  lemma PartialWriterWroteLast(w: World, a: Action)
    requires WorldInv(w) && Enabled(w, a)
    ensures a.WriteBackend? || a.WriteReady? ==> w.lastWriter == Some(a.i) && HasRecorded(w, a.i)
    ensures a.WriteOpening? ==> !HasRecorded(w, a.i)
  {
    if a.WriteBackend? || a.WriteReady? || a.WriteOpening? {
      assert LocalInv(View(w, a.i));
    }
  }

  lemma {:induction false} WriterHistory(w: World, actions: seq<Action>, i: nat)
    requires WorldInv(w)
    ensures LastIfAny(Perform(w, actions), i) <==> LastIfAny(w, i) && !Displaced(w, actions, i)
    decreases |actions|
  {
    hide Next, WorldInv, LastIfAny, Displaces;
    if actions != [] {
      NextKeepsInv(w, actions[0]);
      WriterStep(w, actions[0], i);
      WriterHistory(Next(w, actions[0]), actions[1..], i);
    }
  }

  /**
    The record of a committed session whose backend's kill has not resolved is on disk, naming that
    backend, if and only if no other session has stored its OPENING record since and no close or
    force_release of the session's owner has deleted it.
   */
  lemma UnkilledBackendStaysOnDisk(actions: seq<Action>, i: nat)
    requires var w := Reached(actions);
             i < |w.sessions| && Running(w.sessions[i]) && w.sessions[i].pid.Some? && i !in w.killed
    ensures var w := Reached(actions);
            w.record == Some(Record(i, w.sessions[i].pid))
            <==> !Displaced(Idle, actions, i) && !w.sessions[i].owner.erased
  {
    ReachedInv(actions);
    WriterHistory(Idle, actions, i);
    assert LocalInv(View(Reached(actions), i));
  }

  lemma UnwindTakesOwn(w: World, i: nat, ok: bool)
    requires Enabled(w, Unwind(i, ok))
    ensures UnwindStep(w, i, ok).record == w.record || UnwindStep(w, i, ok).record == Erased(w.record, i)
  {
    hide Step;
    match w.sessions[i].phase.step
    case 0 =>
    case 1 =>
    case 2 =>
    case 3 =>
    case 4 =>
    case _ =>
  }

  lemma EndTakesOwn(w: World, i: nat, ok: bool)
    requires Enabled(w, EndStep(i, ok))
    ensures EndCall(w, i, ok).record == w.record || EndCall(w, i, ok).record == Erased(w.record, i)
  {
    hide Step, Reaps;
    match w.sessions[i].owner.call.value.step
    case 0 =>
    case 1 =>
    case 2 =>
    case 3 =>
    case 4 =>
    case _ =>
  }

  lemma WorkTakesOwn(w: World, k: nat)
    requires Enabled(w, Work(k))
    ensures var sid := w.workers[k].sid;
            || WorkStep(w, k).record == w.record
            || (WorkStep(w, k).record == Erased(w.record, sid) && sid in w.killed)
  {
    hide Step, Gate.ConfirmReaped;
    var step := w.workers[k].step;
    if w.workers[k].killPending {
    } else if step <= 2 {
    } else if step <= 5 {
    } else if step == 6 {
    }
  }

  lemma LinesKeepRecord(w: World, i: nat, request: OpenRequest, release: bool, ok: bool)
    requires i < |w.sessions|
    ensures AdmitStep(w, i, request).record == w.record
    ensures GuardStep(w, i).record == w.record && LeaseStep(w, i).record == w.record
    ensures w.sessions[i].handle.Some? ==> CommitStep(w, i).record == w.record
    ensures StartStep(w, i, release, ok).record == w.record
  {
    hide Grant, Gate.Promote;
  }

  /**
    Whoever changes the record either stores its own, or takes its own off the disk: a teardown worker
    only after its session's kill has resolved.
   */
  lemma OnlyOwnRecord(w: World, a: Action)
    requires Next(w, a).record != w.record
    ensures Owner(w, a).Some?
    ensures var v, i := Next(w, a), Owner(w, a).value;
            if Stores(a) then v.record.Some? && v.record.value.sid == i
            else w.record.Some? && w.record.value.sid == i && v.record.None? && (a.Work? ==> i in w.killed)
  {
    hide AdmitStep, GuardStep, LeaseStep, CommitStep, UnwindStep, StartStep, EndCall, WorkStep, Step;
    match a
    case AdmitSession(i, request) => LinesKeepRecord(w, i, request, true, true);
    case AcquireGuard(i) => LinesKeepRecord(w, i, Fine, true, true);
    case AcquireLease(i) => LinesKeepRecord(w, i, Fine, true, true);
    case Commit(i) => LinesKeepRecord(w, i, Fine, true, true);
    case StartEnd(i, release, ok) => LinesKeepRecord(w, i, Fine, release, ok);
    case Unwind(i, ok) => UnwindTakesOwn(w, i, ok);
    case EndStep(i, ok) => EndTakesOwn(w, i, ok);
    case Work(k) => WorkTakesOwn(w, k);
    case _ =>
  }

  /** So a teardown step changes the record only by erasing its own session's, after that session's kill resolved. */
  lemma TeardownDeletesOnlyKilled(actions: seq<Action>, k: nat)
    requires var w := Reached(actions);
             Enabled(w, Work(k)) && Next(w, Work(k)).record != w.record
    ensures var w := Reached(actions);
            && w.record.Some? && w.record.value.sid == w.workers[k].sid && Next(w, Work(k)).record.None?
            && w.workers[k].sid in w.killed
  {
    hide Reached, Next;
    OnlyOwnRecord(Reached(actions), Work(k));
  }
}
