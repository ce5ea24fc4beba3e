/**
  Which bindings are left behind for good: those of sessions that are past their end and to which no
  reset has delivered. A failed recovery open and a force_release on an open target can both leave one.
 */
module LeakRuns {
  import opened Common
  import opened Admission
  import opened Coordination
  import opened CoordinationSteps
  import opened CoordinationRuns

  /** The open has failed, or its owner has unsubscribed it. */
  predicate Past(s: Session) {
    s.phase.Failed? || s.owner.given >= 7
  }

  /** A session past its end whose binding lives on and to which no reset has delivered. */
  ghost predicate Stranded(w: World, i: nat) {
    i < |w.sessions| && Past(w.sessions[i]) && View(w, i).live && !Targeted(w.resets, i)
  }

  // ----- stranded bindings stay

  /** Only a stranded session's owner may still call, and no table entry is left for it to act through. */
  lemma StrandedOwner(w: World, a: Action, i: nat)
    requires WorldInv(w) && Stranded(w, i) && Enabled(w, a) && Owner(w, a) == Some(i)
    ensures a.StartEnd? || (a.EndStep? && EndEvent(w, i).None?)
    ensures w.sessions[i].owner.given >= 7
  {
    assert LocalInv(View(w, i));
  }

  lemma StrandedByOwner(w: World, a: Action, i: nat)
    requires WorldInv(w) && Stranded(w, i) && Enabled(w, a) && Owner(w, a) == Some(i)
    ensures Act(w, a).adm == w.adm && Act(w, a).resets == w.resets && w.sessions[i].owner.given >= 7
  {
    StrandedOwner(w, a, i);
    GateShape(w, a);
    ActorShape(w, a);
    hide Act, View, WorldInv;
  }

  lemma StrandedByOther(w: World, a: Action, i: nat)
    requires WorldInv(w) && Stranded(w, i) && Enabled(w, a) && Owner(w, a).Some? && Owner(w, a) != Some(i)
    ensures Stranded(Act(w, a), i)
  {
    BothNamed(w, Owner(w, a).value, i);
    Bystander(w, a, i);
    ActorShape(w, a);
    SessionSeen(w, i);
    SessionSeen(Act(w, a), i);
    hide Act, WorldInv, View;
  }

  lemma StrandedByGate(w: World, a: Action, i: nat)
    requires WorldInv(w) && Stranded(w, i) && Enabled(w, a) && Owner(w, a).None?
    ensures Stranded(Act(w, a), i)
  {
    assert LocalInv(View(w, i));
    if a.Other? {
      OtherMoves(w, a.event, i);
    } else if a.Invalidate? && !w.adm.StaleClose(a.generation) {
      ClosingSeen(w, a.generation, i);
      assert !View(Closing(w, a.generation), i).targeted;
    } else if a.Begin? {
      assert View(Act(w, a), i) == View(w, i);
    }
  }

  /** What the session itself keeps through any step, its gate permitting. */
  lemma PastStays(w: World, v: World, i: nat)
    requires WorldInv(w) && AllKept(w, v) && Stranded(w, i)
    ensures i < |v.sessions| && v.sessions[i].handle == w.sessions[i].handle
    ensures w.sessions[i].owner.given >= 7 && v.adm == w.adm && v.resets == w.resets ==> Stranded(v, i)
  {
    assert LocalInv(View(w, i)) && Evolves(View(w, i), View(v, i));
  }

  lemma StrandedStays(w: World, a: Action, i: nat)
    requires WorldInv(w) && Stranded(w, i)
    ensures Stranded(Next(w, a), i) && Next(w, a).sessions[i].handle == w.sessions[i].handle
  {
    hide WorldInv, Stranded, Act, Enabled, AllKept;
    NextEvolves(w, a);
    PastStays(w, Next(w, a), i);
    if Enabled(w, a) {
      if Owner(w, a) == Some(i) {
        StrandedByOwner(w, a, i);
      } else if Owner(w, a).Some? {
        StrandedByOther(w, a, i);
      } else {
        StrandedByGate(w, a, i);
      }
    }
  }

  lemma {:induction false} StrandedForever(w: World, more: seq<Action>, i: nat)
    requires WorldInv(w) && Stranded(w, i)
    ensures Stranded(Perform(w, more), i)
    decreases |more|
  {
    hide WorldInv, Stranded, Next;
    if more != [] {
      NextKeepsInv(w, more[0]);
      StrandedStays(w, more[0], i);
      StrandedForever(Next(w, more[0]), more[1..], i);
    }
  }

  // ----- delivered bindings can be freed

  function Works(k: nat, n: nat): seq<Action> {
    if n == 0 then [] else [Work(k)] + Works(k, n - 1)
  }

  lemma WorkEnabled(w: World, k: nat)
    requires WorldInv(w) && k < |w.workers|
    ensures Enabled(w, Work(k))
  {
    assert LocalInv(View(w, w.workers[k].sid)) && WorkerInv(w.workers[k], View(w, w.workers[k].sid));
  }

  lemma WorkGetsOn(w: World, k: nat)
    requires Enabled(w, Work(k)) && !w.workers[k].killPending
    ensures var u := WorkStep(w, k).workers;
            && k < |u| && u[k].sid == w.workers[k].sid && !u[k].killPending
            && (w.workers[k].step < 8 ==> u[k].step > w.workers[k].step)
            && (w.workers[k].step >= 8 ==> u[k].step == w.workers[k].step)
  {
    hide Step, Gate.ConfirmReaped;
    var step := w.workers[k].step;
    if step <= 2 {
    } else if step == 3 {
    } else if step <= 7 {
    }
  }

  /** A worker past its kill reaches step 5 in five steps of its own. */
  lemma {:induction false} WorksOn(w: World, k: nat, n: nat)
    requires WorldInv(w) && k < |w.workers| && !w.workers[k].killPending && n <= 8
    ensures var v := Perform(w, Works(k, n));
            && WorldInv(v) && k < |v.workers| && v.workers[k].sid == w.workers[k].sid
            && (v.workers[k].step >= w.workers[k].step + n || v.workers[k].step >= 8)
    decreases n
  {
    hide WorldInv, Enabled, WorkStep;
    if n > 0 {
      var a := Works(k, n)[0];
      assert a == Work(k) && Works(k, n)[1..] == Works(k, n - 1);
      WorkEnabled(w, k);
      WorkGetsOn(w, k);
      NextKeepsInv(w, a);
      WorksOn(Next(w, a), k, n - 1);
    }
  }

  lemma WorkedOff(v: World, k: nat, i: nat)
    requires WorldInv(v) && k < |v.workers| && v.workers[k].sid == i && v.workers[k].step > 4
    ensures i < |v.sessions| && !View(v, i).live
  {
    assert WorkerInv(v.workers[k], View(v, i));
  }

  lemma DeliveredIsFreed(w: World, i: nat) returns (more: seq<Action>)
    requires WorldInv(w) && i < |w.sessions| && Targeted(w.resets, i)
    ensures i < |Perform(w, more).sessions| && !View(Perform(w, more), i).live
  {
    var spawn := Spawn(i, false);
    var u := Next(w, spawn);
    var k := |w.workers|;
    NextKeepsInv(w, spawn);
    more := [spawn] + Works(k, 5);
    assert more[1..] == Works(k, 5);
    assert u.workers[k] == Worker(i, false, 0);
    WorksOn(u, k, 5);
    hide Next, WorldInv, View;
    assert Perform(w, more) == Perform(u, Works(k, 5));
    WorkedOff(Perform(w, more), k, i);
  }

  // ----- the exact condition

  ghost predicate LivesOn(w: World, more: seq<Action>, i: nat) {
    var v := Perform(w, more);
    i < |v.sessions| && View(v, i).live
  }

  /**
    The live binding of a session past its end, whether its open failed or its owner has unsubscribed
    it, lives on whatever is done afterwards if and only if no reset has delivered to the session.
    While it does, a closed target cannot be reopened.
   */
  lemma LeakedExactlyWhenUndelivered(actions: seq<Action>, i: nat)
    requires var w := Reached(actions);
             i < |w.sessions| && Past(w.sessions[i]) && View(w, i).live
    ensures var w := Reached(actions);
            && ((forall more: seq<Action> :: LivesOn(w, more, i)) <==> !Targeted(w.resets, i))
            && (!Targeted(w.resets, i) ==>
                  forall more: seq<Action> ::
                    Perform(w, more).adm.closedAt.Some? ==> Perform(w, more).adm.Reopen().Err?)
  {
    var w := Reached(actions);
    ReachedInv(actions);
    if Targeted(w.resets, i) {
      var more := DeliveredIsFreed(w, i);
      assert !LivesOn(w, more, i);
    } else {
      forall more: seq<Action>
        ensures LivesOn(w, more, i)
        ensures Perform(w, more).adm.closedAt.Some? ==> Perform(w, more).adm.Reopen().Err?
      {
        StrandedForever(w, more, i);
      }
    }
  }

  // ----- force_release on an open target

  /** force_release, from finding the record to its return. */
  function ForceRelease(i: nat): seq<Action> {
    [StartEnd(i, true, true), EndStep(i, true), EndStep(i, true)] + [EndStep(i, true), EndStep(i, true), EndStep(i, true)]
  }

  /** The session is open, its owner has called nothing yet, its record is on disk and its target is open. */
  ghost predicate AtWork(w: World, i: nat) {
    && i < |w.sessions| && w.sessions[i].phase.Opened? && w.sessions[i].owner == Untouched
    && var l := View(w, i); l.record.Some? && l.live && !l.closed
  }

  /** From w to v the session's own force_release has come to step n and changed neither gate nor resets. */
  ghost predicate Releasing(w: World, v: World, i: nat, n: nat) {
    && i < |w.sessions| && i < |v.sessions| && v.adm == w.adm && v.resets == w.resets
    && v.sessions[i] == w.sessions[i].(owner := v.sessions[i].owner)
    && v.sessions[i].owner.call == (if n == 6 then None else Some(Ending(true, n))) && v.sessions[i].owner.given > n
  }

  lemma ReleaseStarts(w: World, i: nat)
    requires AtWork(w, i)
    ensures Releasing(w, Next(w, StartEnd(i, true, true)), i, 0)
  {
    RecordSeen(w, i);
    hide View;
  }

  lemma ReleaseLines(w: World, v: World, i: nat, n: nat)
    requires Releasing(w, v, i, n) && n <= 1 && w.sessions[i].phase.Opened? && w.sessions[i].handle.Some?
    ensures Releasing(w, Next(v, EndStep(i, true)), i, n + 1)
  {
    hide EndComplete, EndConfirm, EndAbandon, EndDelete, EndUnsubscribe;
    assert Next(v, EndStep(i, true)) == if n == 0 then EndLease(v, i) else EndGuard(v, i);
  }

  lemma ReleaseLetsGo(w: World, v: World, i: nat)
    requires Releasing(w, v, i, 2) && w.sessions[i].phase.Opened? && w.sessions[i].handle.Some?
    requires w.adm.closedAt.None?
    ensures Releasing(w, Next(v, EndStep(i, true)), i, 4)
  {
    assert !Reaps(v, i);
    hide Reaps, EndLease, EndGuard, EndComplete, EndAbandon, EndDelete, EndUnsubscribe;
    assert Next(v, EndStep(i, true)) == EndConfirm(v, i);
  }

  lemma ReleaseTail(w: World, v: World, i: nat, n: nat)
    requires Releasing(w, v, i, n) && 4 <= n <= 5 && w.sessions[i].phase.Opened? && w.sessions[i].handle.Some?
    ensures Releasing(w, Next(v, EndStep(i, true)), i, n + 1)
  {
    hide EndLease, EndGuard, EndComplete, EndConfirm, EndAbandon;
    assert Next(v, EndStep(i, true)) == if n == 4 then EndDelete(v, i, true) else EndUnsubscribe(v, i);
  }

  lemma ReleaseCompletes(w: World, i: nat)
    requires AtWork(w, i) && w.sessions[i].handle.Some? && w.adm.closedAt.None?
    ensures Releasing(w, Perform(w, ForceRelease(i)), i, 6)
  {
    hide Releasing, Next;
    var e := EndStep(i, true);
    var u := Next(Next(Next(w, StartEnd(i, true, true)), e), e);
    PerformSplits(w, [StartEnd(i, true, true), e, e], [e, e, e]);
    PerformThree(w, StartEnd(i, true, true), e, e);
    PerformThree(u, e, e, e);
    ReleaseStarts(w, i);
    ReleaseLines(w, Next(w, StartEnd(i, true, true)), i, 0);
    ReleaseLines(w, Next(Next(w, StartEnd(i, true, true)), e), i, 1);
    ReleaseLetsGo(w, u, i);
    ReleaseTail(w, Next(u, e), i, 4);
    ReleaseTail(w, Next(Next(u, e), e), i, 5);
  }

  /**
    force_release of a session on an open target leaves its binding behind for good: confirm_reaped is
    refused, the entry is gone, and no later reset will find the session subscribed.
   */
  lemma ForceReleaseStrands(actions: seq<Action>, i: nat)
    requires AtWork(Reached(actions), i)
    ensures Stranded(Perform(Reached(actions), ForceRelease(i)), i)
    ensures forall more: seq<Action> :: LivesOn(Perform(Reached(actions), ForceRelease(i)), more, i)
  {
    var w := Reached(actions);
    ReachedInv(actions);
    assert LocalInv(View(w, i)) && w.sessions[i].handle.Some?;
    ReleaseCompletes(w, i);
    var v := Perform(w, ForceRelease(i));
    PerformKeepsInv(w, ForceRelease(i));
    hide Perform, ForceRelease;
    assert Stranded(v, i);
    forall more: seq<Action>
      ensures LivesOn(v, more, i)
    {
      StrandedLivesOn(v, more, i);
    }
  }

  lemma StrandedLivesOn(w: World, more: seq<Action>, i: nat)
    requires WorldInv(w) && Stranded(w, i)
    ensures LivesOn(w, more, i)
  {
    StrandedForever(w, more, i);
  }
}
