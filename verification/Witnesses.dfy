/**
  Two concrete runs of the coordination protocol that fall short of what its documentation promises: a
  recovery open's binding left behind by a reset, and a live backend whose record a successor replaces.
 */
module Witnesses {
  import opened Common
  import opened Admission
  import opened Coordination
  import opened CoordinationSteps
  import opened CoordinationRuns
  import LeakRuns
  import RecordRuns

  // ----- a promoted recovery open that unwinds across a reset

  /** A recovery open has begun on a target parked at its current generation. */
  lemma BegunWorld() returns (actions: seq<Action>, w: World)
    ensures w == Perform(Idle, actions)
    ensures w == Idle.(adm := Unpublished.(snapshot := Some(TargetSnapshot(1, Debugging)), recovery := Some(1)),
                       sessions := [Session(Starting, true, false, None, None, None, false, None, false, false, Untouched)])
  {
    hide AdmitStep, CommitStep, EndCall, GuardStep, LeaseStep, OpeningStep, StartStep, UnwindStep, WorkStep, WriteRecord;
    actions := [Other(Publish(TargetSnapshot(1, Debugging))), Other(MarkRecovery(1)), Begin(true, false)];
    PerformThree(Idle, actions[0], actions[1], actions[2]);
    w := Perform(Idle, actions);
  }

  lemma LeasedWorld() returns (actions: seq<Action>, w: World)
    ensures w == Perform(Idle, actions)
    ensures w.sessions == [Session(Leased, true, false, Some(0), Some(0), None, false, None, false, false, Untouched)]
    ensures w.adm.snapshot == Some(TargetSnapshot(1, Debugging)) && w.adm.closedAt.None?
    ensures w.adm.issued == [Binding(1, 0, TransportOpen, true, Pending, false, false)] && w.adm.live == {0}
    ensures w.holder == Some(0) && w.record.None? && w.subscribed == {} && w.resets == [] && w.touched == {}
  {
    hide Next;
    var first, m := BegunWorld();
    var second := [AdmitSession(0, Fine), AcquireGuard(0), AcquireLease(0)];
    actions := first + second;
    PerformThree(m, second[0], second[1], second[2]);
    PerformSplits(Idle, first, second);
    w := Perform(m, second);
    LeasesFromBegun(m, w);
  }

  lemma LeasesFromBegun(m: World, w: World)
    requires m == Idle.(adm := Unpublished.(snapshot := Some(TargetSnapshot(1, Debugging)), recovery := Some(1)),
                        sessions := [Session(Starting, true, false, None, None, None, false, None, false, false, Untouched)])
    requires w == Next(Next(Next(m, AdmitSession(0, Fine)), AcquireGuard(0)), AcquireLease(0))
    ensures w.sessions == [Session(Leased, true, false, Some(0), Some(0), None, false, None, false, false, Untouched)]
    ensures w.adm.snapshot == Some(TargetSnapshot(1, Debugging)) && w.adm.closedAt.None?
    ensures w.adm.issued == [Binding(1, 0, TransportOpen, true, Pending, false, false)] && w.adm.live == {0}
    ensures w.holder == Some(0) && w.record.None? && w.subscribed == {} && w.resets == [] && w.touched == {}
  {
    hide CommitStep, EndCall, OpeningStep, StartStep, UnwindStep, WorkStep, WriteRecord;
    var a := Next(m, AdmitSession(0, Fine));
    assert a == AdmitStep(m, 0, Fine) && a.sessions[0].phase == Admitted;
    var b := Next(a, AcquireGuard(0));
    assert b == GuardStep(a, 0) && b.sessions[0].phase == Guarded;
    assert w == LeaseStep(b, 0);
  }

  /** The recovery open commits. */
  lemma CommittedWorld() returns (actions: seq<Action>, w: World)
    ensures w == Perform(Idle, actions)
    ensures w.sessions == [Session(Committed, true, false, Some(0), Some(0), None, true, None, true, false, Untouched)]
    ensures w.adm.snapshot == Some(TargetSnapshot(1, Debugging)) && w.adm.closedAt.None?
    ensures w.adm.issued == [Binding(1, 0, TransportOpen, true, Promoted, false, false)] && w.adm.live == {0}
    ensures w.subscribed == {0} && w.resets == [] && w.touched == {}
  {
    var before, m := LeasedWorld();
    var rest := [WriteOpening(0, true), WriteReady(0), Commit(0)];
    actions := before + rest;
    PerformThree(m, rest[0], rest[1], rest[2]);
    PerformSplits(Idle, before, rest);
    w := Perform(m, rest);
    CommitsFromLeased(m, w);
  }

  lemma CommitsFromLeased(m: World, w: World)
    requires m.sessions == [Session(Leased, true, false, Some(0), Some(0), None, false, None, false, false, Untouched)]
    requires m.adm.issued == [Binding(1, 0, TransportOpen, true, Pending, false, false)] && m.adm.live == {0}
    requires m.subscribed == {}
    requires w == Next(Next(Next(m, WriteOpening(0, true)), WriteReady(0)), Commit(0))
    ensures w.sessions == [Session(Committed, true, false, Some(0), Some(0), None, true, None, true, false, Untouched)]
    ensures w.adm == m.adm.(issued := [Binding(1, 0, TransportOpen, true, Promoted, false, false)])
    ensures w.subscribed == {0} && w.resets == m.resets && w.touched == m.touched
  {
    hide AdmitStep, CommitStep, EndCall, GuardStep, LeaseStep, StartStep, UnwindStep, WorkStep;
    var a := Next(m, WriteOpening(0, true));
    assert a == OpeningStep(m, 0, true) && a.sessions[0].phase == Recorded;
    var b := Next(a, WriteReady(0));
    assert b == WriteRecord(a, 0, ReadyWritten, None) && b.sessions[0].phase == ReadyWritten;
    assert b.sessions == [Session(ReadyWritten, true, false, Some(0), Some(0), None, true, None, false, false, Untouched)];
    assert w == CommitStep(b, 0);
    CommitsFromReady(b);
  }

  lemma CommitsFromReady(b: World)
    requires b.sessions == [Session(ReadyWritten, true, false, Some(0), Some(0), None, true, None, false, false, Untouched)]
    requires b.adm.issued == [Binding(1, 0, TransportOpen, true, Pending, false, false)] && b.adm.live == {0}
    requires b.subscribed == {}
    ensures var w := CommitStep(b, 0);
            && w.sessions == [Session(Committed, true, false, Some(0), Some(0), None, true, None, true, false, Untouched)]
            && w.adm == b.adm.(issued := [Binding(1, 0, TransportOpen, true, Promoted, false, false)])
            && w.subscribed == {0} && w.resets == b.resets && w.touched == b.touched
  {
    var promoted := Binding(1, 0, TransportOpen, true, Promoted, false, false);
    assert b.adm.issued[0 := promoted] == [promoted];
    assert b.adm.Promote(0) == Ok(b.adm.(issued := [promoted]));
  }

  /** Its tombstone cannot be unlinked, and it has just unsubscribed in its unwind. */
  lemma UnsubscribedWorld() returns (actions: seq<Action>, w: World)
    ensures w == Perform(Idle, actions)
    ensures w.sessions == [Session(Unwinding(3), true, false, Some(0), Some(0), None, true, None, true, false, Untouched)]
    ensures w.adm.snapshot == Some(TargetSnapshot(1, Debugging)) && w.adm.closedAt.None?
    ensures w.adm.issued == [Binding(1, 0, TransportOpen, true, Promoted, false, false)] && w.adm.live == {0}
    ensures w.subscribed == {} && w.resets == [] && w.touched == {}
  {
    hide Next;
    var before, m := CommittedWorld();
    var first := [Unlink(0, false), Unwind(0, true), Unwind(0, true)];
    var last := [Unwind(0, true)];
    actions := (before + first) + last;
    PerformThree(m, first[0], first[1], first[2]);
    PerformSplits(Idle, before, first);
    var n := Perform(m, first);
    PerformSplits(Idle, before + first, last);
    assert last[1..] == [] && Perform(n, last) == Next(n, last[0]);
    w := Perform(n, last);
    UnsubscribesFromCommitted(m, w);
  }

  lemma UnsubscribesFromCommitted(m: World, w: World)
    requires m.sessions == [Session(Committed, true, false, Some(0), Some(0), None, true, None, true, false, Untouched)]
    requires m.subscribed == {0}
    requires w == Next(Next(Next(Next(m, Unlink(0, false)), Unwind(0, true)), Unwind(0, true)), Unwind(0, true))
    ensures w.sessions == [Session(Unwinding(3), true, false, Some(0), Some(0), None, true, None, true, false, Untouched)]
    ensures w.adm == m.adm && w.subscribed == {} && w.resets == m.resets && w.touched == m.touched
  {
    hide AdmitStep, CommitStep, EndCall, GuardStep, LeaseStep, OpeningStep, StartStep, WorkStep, WriteRecord;
    var a := Next(m, Unlink(0, false));
    assert a == SetPhase(m, 0, Unwinding(0));
    var b := Next(a, Unwind(0, true));
    assert b == UnwindTables(a, 0) && b.sessions[0].phase == Unwinding(1);
    assert b.sessions == [Session(Unwinding(1), true, false, Some(0), Some(0), None, true, None, true, false, Untouched)];
    UnsubscribesFromUnwound(b);
  }

  lemma UnsubscribesFromUnwound(b: World)
    requires b.sessions == [Session(Unwinding(1), true, false, Some(0), Some(0), None, true, None, true, false, Untouched)]
    requires b.subscribed == {0}
    ensures var w := Next(Next(b, Unwind(0, true)), Unwind(0, true));
            && w.sessions == [Session(Unwinding(3), true, false, Some(0), Some(0), None, true, None, true, false, Untouched)]
            && w.adm == b.adm && w.subscribed == {} && w.resets == b.resets && w.touched == b.touched
  {
    hide AdmitStep, CommitStep, EndCall, GuardStep, LeaseStep, OpeningStep, StartStep, WorkStep, WriteRecord;
    var c := Next(b, Unwind(0, true));
    assert c == UnwindRecord(b, 0, true) && c.sessions[0].phase == Unwinding(2);
    assert Next(c, Unwind(0, true)) == UnwindSubscription(c, 0);
  }

  /** A reset closes the target and finds no subscriber; the rollback is refused. */
  lemma StrandedWorld() returns (actions: seq<Action>, w: World)
    ensures w == Perform(Idle, actions)
    ensures |w.sessions| == 1 && w.sessions[0].phase.Failed? && w.sessions[0].recovery && w.sessions[0].handle == Some(0)
    ensures w.resets == [Reset({0}, {})] && w.adm.closedAt == Some(1) && w.adm.live == {0}
    ensures w.touched == {} && w.subscribed == {}
  {
    var before, m := UnsubscribedWorld();
    var close := [Invalidate(1)];
    var rest := [Unwind(0, true), Unwind(0, true), Unwind(0, true)];
    PerformSplits(Idle, before, close);
    var n := Next(m, close[0]);
    assert Perform(m, close) == n;
    assert Admittees(m) == {0} && Subscribers(m) == {};
    assert n.resets == [Reset({0}, {})];
    assert n.adm.issued == [Binding(1, 0, TransportOpen, true, Promoted, true, false)];
    PerformSplits(Idle, before + close, rest);
    PerformThree(n, rest[0], rest[1], rest[2]);
    actions := (before + close) + rest;
    w := Perform(n, rest);
    UnwindsToFailure(n, w);
  }

  lemma UnwindsToFailure(n: World, w: World)
    requires n.sessions == [Session(Unwinding(3), true, false, Some(0), Some(0), None, true, None, true, false, Untouched)]
    requires n.adm.issued == [Binding(1, 0, TransportOpen, true, Promoted, true, false)] && n.adm.closedAt.Some?
    requires w == Next(Next(Next(n, Unwind(0, true)), Unwind(0, true)), Unwind(0, true))
    ensures w.adm == n.adm && w.resets == n.resets && w.touched == n.touched && w.subscribed == n.subscribed
    ensures |w.sessions| == 1 && w.sessions[0].phase.Failed? && w.sessions[0].recovery && w.sessions[0].handle == Some(0)
  {
    hide AdmitStep, CommitStep, EndCall, GuardStep, LeaseStep, OpeningStep, StartStep, WorkStep, WriteRecord;
    var a := Next(n, Unwind(0, true));
    assert a == UnwindLease(n, 0) && a.sessions[0].phase == Unwinding(4);
    var b := Next(a, Unwind(0, true));
    assert b == UnwindGuard(a, 0) && b.sessions[0].phase == Unwinding(5);
    assert w == UnwindHandle(b, 0);
  }

  /**
    There is a run in which a reset closes the target, delivers to nobody, and leaves a failed recovery
    open's promoted binding behind. Whatever runs afterwards, that binding stays live and the closed
    target cannot be reopened.
   */
  lemma RecoveryUnwindCanLeakItsBinding()
    ensures exists actions: seq<Action> ::
              var w := Reached(actions);
              && |w.sessions| == 1 && w.sessions[0].phase.Failed? && w.sessions[0].recovery
              && |w.resets| == 1 && 0 in w.resets[0].admitted && w.adm.closedAt.Some?
              && forall more: seq<Action> ::
                   LeakRuns.LivesOn(w, more, 0)
                   && (Perform(w, more).adm.closedAt.Some? ==> Perform(w, more).adm.Reopen().Err?)
  {
    var actions, w := StrandedWorld();
    assert w == Reached(actions);
    assert View(w, 0).live;
    LeakRuns.LeakedExactlyWhenUndelivered(actions, 0);
  }

  // ----- a backend whose kill is wedged when a successor opens

  lemma Extended(before: seq<Action>, a: Action, b: Action, c: Action)
    ensures Reached(before + [a, b, c]) == Next(Next(Next(Reached(before), a), b), c)
  {
    hide Next;
    PerformSplits(Idle, before, [a, b, c]);
    PerformThree(Reached(before), a, b, c);
  }

  lemma Appended(before: seq<Action>, a: Action)
    ensures Reached(before + [a]) == Next(Reached(before), a)
  {
    hide Next;
    PerformSplits(Idle, before, [a]);
    assert [a][1..] == [] && Perform(Reached(before), [a]) == Next(Reached(before), a);
  }

  const Bound := Binding(1, 0, TransportOpen, false, Promoted, false, false)
  const Begun := Session(Starting, false, false, None, None, None, false, None, false, false, Untouched)
  const Busy := Session(Opened, false, false, Some(0), Some(0), None, true, Some(77), true, false, Untouched)

  /** Session 0 holds the guard, its OPENING record not yet written. */
  const Locked := Idle.(
    adm := Gate(Some(TargetSnapshot(1, Ready)), None, None, 0, [Bound.(state := Pending)], {0}),
    holder := Some(0), grants := [0], admitted := map[0 := 0],
    sessions := [Begun.(phase := Guarded, handle := Some(0), guard := Some(0))])

  /** Session 0 is open over backend 77. */
  const Working := Locked.(
    adm := Gate(Some(TargetSnapshot(1, Ready)), None, None, 0, [Bound], {0}),
    record := Some(Record(0, Some(77))), tokens := map[0 := 0], handles := map[0 := 0], subscribed := {0},
    sessions := [Busy], lastWriter := Some(0))

  /** A reset has closed the target; one worker is stuck in its kill, and force_drop has been called beside it. */
  const Wedged := Working.(
    adm := Gate(Some(TargetSnapshot(1, Ready)), Some(1), None, 0, [Bound.(cancelled := true)], {0}),
    workers := [Worker(0, true, 0), Worker(0, false, 0)], resets := [Reset({0}, {0})], touched := {0})

  /** force_drop has run to its end and left the record for the next process to find. */
  const Dropped := Wedged.(
    adm := Gate(Some(TargetSnapshot(1, Ready)), Some(1), None, 0,
                [Bound.(state := Abandoned, cancelled := true, reaped := true)], {}),
    holder := None, tokens := map[], handles := map[], subscribed := {},
    workers := [Worker(0, true, 0), Worker(0, false, 8)], torn := {0})

  /** The target is published anew and reopened, and a second open has begun. */
  const Reopened := Dropped.(
    adm := Dropped.adm.(snapshot := Some(TargetSnapshot(2, Ready)), closedAt := None),
    sessions := [Busy, Begun])

  lemma LockedRun()
    ensures Reached([Other(Publish(TargetSnapshot(1, Ready))), Begin(false, false), AdmitSession(0, Fine)]
                    + [AcquireGuard(0)]) == Locked
  {
    hide CommitStep, EndCall, LeaseStep, OpeningStep, StartStep, UnwindStep, WorkStep, WriteRecord;
    var first := [Other(Publish(TargetSnapshot(1, Ready))), Begin(false, false), AdmitSession(0, Fine)];
    PerformSplits(Idle, first, [AcquireGuard(0)]);
    PerformThree(Idle, first[0], first[1], first[2]);
    var a := Next(Next(Idle, first[0]), first[1]);
    assert a == Idle.(adm := Unpublished.(snapshot := Some(TargetSnapshot(1, Ready))), sessions := [Begun]);
    var b := Next(a, first[2]);
    assert b == AdmitStep(a, 0, Fine) && b.sessions[0].phase == Admitted;
    assert b.adm == Locked.adm && b.admitted == map[0 := 0];
    assert Next(b, AcquireGuard(0)) == GuardStep(b, 0);
    assert Perform(b, [AcquireGuard(0)]) == Next(b, AcquireGuard(0));
  }

  /** The open goes on to commit. */
  lemma RecordsFromLocked()
    ensures Next(Next(Next(Locked, AcquireLease(0)), WriteOpening(0, true)), WriteBackend(0, 77))
         == Working.(adm := Locked.adm, handles := map[], subscribed := {},
                     sessions := [Busy.(phase := Recorded, promoted := false)])
  {
    hide AdmitStep, CommitStep, EndCall, GuardStep, StartStep, UnwindStep, WorkStep;
    var a := Next(Locked, AcquireLease(0));
    assert a == LeaseStep(Locked, 0) && a.sessions[0].phase == Leased;
    var b := Next(a, WriteOpening(0, true));
    assert b == OpeningStep(a, 0, true) && b.sessions[0].phase == Recorded;
    assert b == Locked.(record := Some(Record(0, None)), tokens := map[0 := 0], lastWriter := Some(0),
                        sessions := [Busy.(phase := Recorded, promoted := false, pid := None)]);
    BackendFromRecorded(b);
  }

  lemma BackendFromRecorded(b: World)
    requires b == Locked.(record := Some(Record(0, None)), tokens := map[0 := 0], lastWriter := Some(0),
                          sessions := [Busy.(phase := Recorded, promoted := false, pid := None)])
    ensures Next(b, WriteBackend(0, 77)) == Working.(adm := Locked.adm, handles := map[], subscribed := {},
                                                     sessions := [Busy.(phase := Recorded, promoted := false)])
  {
    hide AdmitStep, GuardStep, LeaseStep, OpeningStep, CommitStep, UnwindStep, StartStep, EndCall, WorkStep;
    var c := Next(b, WriteBackend(0, 77));
    assert c == WriteRecord(b, 0, Recorded, Some(77));
    assert c.sessions == [Busy.(phase := Recorded, promoted := false)];
  }

  lemma CommitsFromRecorded(r: World)
    requires r == Working.(adm := Locked.adm, handles := map[], subscribed := {},
                           sessions := [Busy.(phase := Recorded, promoted := false)])
    ensures Next(Next(r, WriteReady(0)), Commit(0)) == Working
  {
    hide AdmitStep, EndCall, GuardStep, LeaseStep, OpeningStep, StartStep, UnwindStep, WorkStep;
    var a := Next(r, WriteReady(0));
    assert a == WriteRecord(r, 0, ReadyWritten, Some(77)) && a.sessions[0].phase == ReadyWritten;
    var b := Next(a, Commit(0));
    assert b == CommitStep(a, 0) && a.adm.Promote(0).Ok?;
    assert b.sessions == [Busy] && b.adm == Working.adm;
    assert b.subscribed == {0} && b.handles == map[0 := 0];
  }

  lemma ClosesWorking()
    ensures Next(Working, Invalidate(1)) == Wedged.(workers := [], touched := {})
  {
    hide AdmitStep, CommitStep, EndCall, GuardStep, LeaseStep, OpeningStep, StartStep, UnwindStep, WorkStep, WriteRecord;
    assert Admittees(Working) == {0} && Subscribers(Working) == {0};
    assert Working.adm.Close(1).issued == Wedged.adm.issued;
  }

  lemma SpawnsOnClosed(c: World)
    requires c == Wedged.(workers := [], touched := {})
    ensures Next(Next(c, Spawn(0, true)), Spawn(0, false)) == Wedged
  {
    hide AdmitStep, CommitStep, EndCall, GuardStep, LeaseStep, OpeningStep, StartStep, UnwindStep, WorkStep, WriteRecord;
    assert 0 in c.resets[0].targets && Targeted(c.resets, 0);
    var b := Next(c, Spawn(0, true));
    assert b == c.(workers := [Worker(0, true, 0)], touched := {0});
  }

  /** The second worker of w at step n. */
  function At(w: World, n: nat): World {
    w.(workers := [Worker(0, true, 0), Worker(0, false, n)])
  }

  lemma FreesFromWedged()
    ensures Next(Next(Next(Wedged, Work(1)), Work(1)), Work(1))
         == At(Wedged, 3).(holder := None, tokens := map[])
  {
    hide AdmitStep, CommitStep, EndCall, GuardStep, LeaseStep, OpeningStep, StartStep, UnwindStep, WriteRecord;
    var a := Next(Wedged, Work(1));
    assert a == At(Wedged, 1);
    var b := Next(a, Work(1));
    assert b == At(Wedged, 2).(holder := None);
    var c := Next(b, Work(1));
    assert c.tokens == map[] && c == At(Wedged, 3).(holder := None, tokens := map[]);
  }

  lemma ReapsFromFreed(f: World)
    requires f == At(Wedged, 3).(holder := None, tokens := map[])
    ensures Next(Next(f, Work(1)), Work(1)) == At(Wedged, 5).(holder := None, tokens := map[], adm := Dropped.adm)
  {
    hide AdmitStep, CommitStep, EndCall, GuardStep, LeaseStep, OpeningStep, StartStep, UnwindStep, WriteRecord;
    var reaped := Bound.(cancelled := true, reaped := true);
    var g := Wedged.adm.(issued := [reaped]);
    assert Wedged.adm.issued[0 := reaped] == [reaped];
    assert f.adm.ConfirmReaped(0) == Ok(g);
    var a := Next(f, Work(1));
    assert a == WorkConfirm(f, 1, 0) && a.workers == At(Wedged, 4).workers;
    ReapsFromConfirmed(a, g);
  }

  lemma AbandonsConfirmed(g: Gate)
    requires g == Wedged.adm.(issued := [Bound.(cancelled := true, reaped := true)])
    ensures Step(g, Abandon(0)) == Dropped.adm
  {
    assert g.issued[0 := g.issued[0].(state := Abandoned)] == Dropped.adm.issued && g.live - {0} == {};
  }

  lemma ReapsFromConfirmed(a: World, g: Gate)
    requires g == Wedged.adm.(issued := [Bound.(cancelled := true, reaped := true)])
    requires a == At(Wedged, 4).(holder := None, tokens := map[], adm := g)
    ensures Next(a, Work(1)) == At(Wedged, 5).(holder := None, tokens := map[], adm := Dropped.adm)
  {
    hide Step;
    AbandonsConfirmed(g);
  }

  lemma DropsFromReaped(d: World)
    requires d == At(Wedged, 5).(holder := None, tokens := map[], adm := Dropped.adm)
    ensures Next(Next(Next(d, Work(1)), Work(1)), Work(1)) == Dropped
  {
    hide AdmitStep, CommitStep, EndCall, GuardStep, LeaseStep, OpeningStep, StartStep, UnwindStep, WriteRecord;
    var a := Next(d, Work(1));
    assert a.handles == map[] && a == At(d, 6).(handles := map[]);
    var b := Next(a, Work(1));
    assert b == At(d, 7).(handles := map[]);
    UnsubscribesLast(b);
  }

  lemma UnsubscribesLast(b: World)
    requires b == At(Wedged, 7).(holder := None, tokens := map[], adm := Dropped.adm, handles := map[])
    ensures Next(b, Work(1)) == Dropped
  {
    hide AdmitStep, CommitStep, EndCall, GuardStep, LeaseStep, OpeningStep, StartStep, UnwindStep, WriteRecord;
    var c := Next(b, Work(1));
    assert c.subscribed == {} && c.torn == {0};
  }

  lemma ReopensFromDropped()
    ensures Next(Next(Next(Dropped, Other(Publish(TargetSnapshot(2, Ready)))), Other(Reopen)), Begin(false, false)) == Reopened
  {
    hide AdmitStep, CommitStep, EndCall, GuardStep, LeaseStep, OpeningStep, StartStep, UnwindStep, WorkStep, WriteRecord;
    var a := Next(Dropped, Other(Publish(TargetSnapshot(2, Ready))));
    assert a == Dropped.(adm := Dropped.adm.(snapshot := Some(TargetSnapshot(2, Ready))));
    var b := Next(a, Other(Reopen));
    assert b == a.(adm := Reopened.adm);
    assert Unheard(b, 1);
  }

  lemma AdmitsFromReopened(b: World)
    requires b == Next(Next(Reopened, AdmitSession(1, Later)), AcquireGuard(1))
    ensures |b.sessions| == 2 && b.sessions[0] == Busy && b.sessions[1].phase.Guarded? && b.sessions[1].guard.Some?
    ensures !b.sessions[1].console && b.killed == {}
  {
    hide CommitStep, EndCall, LeaseStep, OpeningStep, StartStep, UnwindStep, WorkStep, WriteRecord;
    var a := Next(Reopened, AdmitSession(1, Later));
    assert a == AdmitStep(Reopened, 1, Later) && a.sessions[1].phase == Admitted;
    hide Grant;
    assert b == GuardStep(a, 1);
  }

  lemma ReplacesFromAdmitted(b: World)
    requires |b.sessions| == 2 && b.sessions[0] == Busy && b.sessions[1].phase.Guarded? && b.sessions[1].guard.Some?
    requires !b.sessions[1].console && b.killed == {}
    ensures var v := Next(Next(b, AcquireLease(1)), WriteOpening(1, true));
            |v.sessions| == 2 && v.sessions[0] == Busy && v.killed == {} && v.record == Some(Record(1, None))
  {
    hide AdmitStep, CommitStep, EndCall, GuardStep, StartStep, UnwindStep, WorkStep, WriteRecord;
    var c := Next(b, AcquireLease(1));
    assert c == LeaseStep(b, 1) && c.sessions[1].phase == Leased;
    assert Next(c, WriteOpening(1, true)) == OpeningStep(c, 1, true);
  }

  const Later := OpenRequest(2, RequestFacts(true, true, true, true, true, true))

  /** The run in its order: session 0 opens over backend 77, is torn down by force_drop alone, and session 1 opens. */
  lemma WedgedRun() returns (actions: seq<Action>)
    ensures var w := Reached(actions);
            |w.sessions| == 2 && w.sessions[0] == Busy && w.killed == {} && w.record == Some(Record(1, None))
  {
    hide Next;
    LockedRun();
    var r := [Other(Publish(TargetSnapshot(1, Ready))), Begin(false, false), AdmitSession(0, Fine)] + [AcquireGuard(0)];
    Extended(r, AcquireLease(0), WriteOpening(0, true), WriteBackend(0, 77));
    RecordsFromLocked();
    r := r + [AcquireLease(0), WriteOpening(0, true), WriteBackend(0, 77)];
    CommitsFromRecorded(Reached(r));
    Extended(r, WriteReady(0), Commit(0), Invalidate(1));
    ClosesWorking();
    r := r + [WriteReady(0), Commit(0), Invalidate(1)];
    SpawnsOnClosed(Reached(r));
    Extended(r, Spawn(0, true), Spawn(0, false), Work(1));
    r := r + [Spawn(0, true), Spawn(0, false), Work(1)];
    actions := WedgedTail(r);
  }

  lemma WedgedTail(before: seq<Action>) returns (actions: seq<Action>)
    requires Reached(before) == Next(Wedged, Work(1))
    ensures var w := Reached(actions);
            |w.sessions| == 2 && w.sessions[0] == Busy && w.killed == {} && w.record == Some(Record(1, None))
  {
    hide Next;
    FreesFromWedged();
    ReapsFromFreed(At(Wedged, 3).(holder := None, tokens := map[]));
    Extended(before, Work(1), Work(1), Work(1));
    var r := before + [Work(1), Work(1), Work(1)];
    var d := At(Wedged, 5).(holder := None, tokens := map[], adm := Dropped.adm);
    DropsFromReaped(d);
    Extended(r, Work(1), Work(1), Work(1));
    r := r + [Work(1), Work(1), Work(1)];
    actions := ReplacedTail(r, d);
  }

  lemma ReplacedTail(before: seq<Action>, d: World) returns (actions: seq<Action>)
    requires Reached(before) == Next(Next(d, Work(1)), Work(1)) && Next(Next(Next(d, Work(1)), Work(1)), Work(1)) == Dropped
    ensures var w := Reached(actions);
            |w.sessions| == 2 && w.sessions[0] == Busy && w.killed == {} && w.record == Some(Record(1, None))
  {
    hide Next;
    ReopensFromDropped();
    Extended(before, Work(1), Other(Publish(TargetSnapshot(2, Ready))), Other(Reopen));
    var r := before + [Work(1), Other(Publish(TargetSnapshot(2, Ready))), Other(Reopen)];
    Extended(r, Begin(false, false), AdmitSession(1, Later), AcquireGuard(1));
    r := r + [Begin(false, false), AdmitSession(1, Later), AcquireGuard(1)];
    AdmitsFromReopened(Reached(r));
    ReplacesFromAdmitted(Reached(r));
    Appended(r, AcquireLease(1));
    Appended(r + [AcquireLease(1)], WriteOpening(1, true));
    actions := (r + [AcquireLease(1)]) + [WriteOpening(1, true)];
  }

  /**
    Nor does a kill that never resolves keep the record on disk: there is a run after which session 0 is
    open over backend 77, its kill unresolved and its owner idle, and the key's record is session 1's.
    A restart would find no trace of the backend.
   */
  lemma SuccessorHidesUnkilledBackend()
    ensures exists actions: seq<Action> ::
              var w := Reached(actions);
              && |w.sessions| == 2 && w.sessions[0].phase.Opened? && w.sessions[0].pid == Some(77)
              && w.sessions[0].owner == Untouched && 0 !in w.killed
              && w.record == Some(Record(1, None)) && RecordRuns.Displaced(Idle, actions, 0)
  {
    var actions := WedgedRun();
    RecordRuns.UnkilledBackendStaysOnDisk(actions, 0);
  }
}
