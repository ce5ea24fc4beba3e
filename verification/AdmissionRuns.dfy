/** Whole-run properties of the admission gate: generation and epoch fencing, draining, accounting. */
module AdmissionRuns {
  import opened Common
  import opened Admission

  /** What a run from g to t may have done to a handle that g had already issued. */
  ghost predicate HandleEvolves(g: Gate, t: Gate, h: nat)
    requires h < |g.issued| <= |t.issued|
  {
    var a, b := g.issued[h], t.issued[h];
    && a.generation == b.generation && a.admitEpoch == b.admitEpoch && a.op == b.op && a.recovery == b.recovery
    && (a.state.Terminal() ==> b == a)
    && (a.cancelled ==> b.cancelled && (b.state.Promoted? ==> a.state.Promoted?))
    && (a.cancelled && b.state.Completed? ==> a.state.Completed?)
    && (a.reaped ==> b.reaped)
    && (a.op.SshTier? && a.admitEpoch < g.epoch && b.state.Completed? ==> a.state.Completed?)
    && (g.closedAt.Some? && a.state.Promoted? ==> b.state.Promoted? || (b.state.Terminal() && b.reaped))
    && (g.closedAt.Some? && !b.state.Terminal() ==> t.closedAt == g.closedAt)
  }

  /** What a run from g may have issued. */
  ghost predicate IssuedAfter(g: Gate, b: Binding) {
    && g.epoch <= b.admitEpoch
    && (g.snapshot.Some? ==> g.snapshot.value.generation <= b.generation)
    && (g.closedAt.Some? ==> g.closedAt.value < b.generation)
  }

  ghost predicate Evolves(g: Gate, t: Gate) {
    && |g.issued| <= |t.issued|
    && g.epoch <= t.epoch
    && (g.snapshot.Some? ==> t.snapshot.Some? && g.snapshot.value.generation <= t.snapshot.value.generation)
    && (forall h | 0 <= h < |g.issued| :: HandleEvolves(g, t, h))
    && (forall h | |g.issued| <= h < |t.issued| :: IssuedAfter(g, t.issued[h]))
    && (g.closedAt.Some? ==>
          || (t.closedAt == g.closedAt && |t.issued| == |g.issued|)
          || (t.snapshot.Some? && g.closedAt.value < t.snapshot.value.generation))
  }

  /** What one critical section does to the handles already issued. */
  lemma StepEvolvesHandles(t: Gate, e: Event, h: nat)
    requires Inv(t) && h < |t.issued|
    ensures |t.issued| <= |Step(t, e).issued| && HandleEvolves(t, Step(t, e), h)
  {
    assert Bounded(t, t.issued[h]) && Fenced(t, t.issued[h]);
  }

  lemma OneStepEvolves(t: Gate, e: Event)
    requires Inv(t)
    ensures Evolves(t, Step(t, e))
  {
    forall h | 0 <= h < |t.issued|
      ensures |t.issued| <= |Step(t, e).issued| && HandleEvolves(t, Step(t, e), h)
    {
      StepEvolvesHandles(t, e, h);
    }
    hide Inv, HandleEvolves;
  }

  lemma EvolvesOn(g: Gate, t: Gate, u: Gate)
    requires Evolves(g, t) && Evolves(t, u)
    ensures Evolves(g, u)
  {
    forall h | 0 <= h < |g.issued|
      ensures HandleEvolves(g, u, h)
    {
      assert HandleEvolves(g, t, h) && HandleEvolves(t, u, h);
    }
    forall h | |g.issued| <= h < |u.issued|
      ensures IssuedAfter(g, u.issued[h])
    {
      if h < |t.issued| {
        assert IssuedAfter(g, t.issued[h]) && HandleEvolves(t, u, h);
      } else {
        assert IssuedAfter(t, u.issued[h]);
      }
    }
  }

  lemma StepEvolves(g: Gate, t: Gate, e: Event)
    requires Inv(t) && Evolves(g, t)
    ensures Evolves(g, Step(t, e))
  {
    hide Inv, Evolves, Step;
    OneStepEvolves(t, e);
    EvolvesOn(g, t, Step(t, e));
  }

  lemma {:induction false} RunEvolves(g: Gate, t: Gate, events: seq<Event>)
    requires Inv(g) && Inv(t) && Evolves(g, t)
    ensures Inv(Run(t, events)) && Evolves(g, Run(t, events))
    decreases |events|
  {
    if events != [] {
      StepKeepsInv(t, events[0]);
      StepEvolves(g, t, events[0]);
      RunEvolves(g, Step(t, events[0]), events[1..]);
    }
  }

  /** The gate after a run from the moment the service starts. */
  function Reached(events: seq<Event>): Gate {
    Run(Unpublished, events)
  }

  lemma ReachedInv(events: seq<Event>)
    ensures Inv(Reached(events))
  {
    RunKeepsInv(Unpublished, events);
  }

  lemma RunFrom(g: Gate, events: seq<Event>)
    requires Inv(g)
    ensures Inv(Run(g, events)) && Evolves(g, Run(g, events))
  {
    RunEvolves(g, g, events);
  }

  /** While a target is closed its live handles are all cancelled and of a generation no later than the close. */
  lemma ClosedHandlesAreFenced(before: seq<Event>)
    ensures var g := Reached(before);
            g.closedAt.Some? ==>
              forall h | h in g.live ::
                && g.Known(h) && g.issued[h].cancelled
                && g.issued[h].generation <= g.closedAt.value
                && g.Promote(h).Err?
                && g.Complete(h) == Err(AdmissionCancelled)
                && (g.issued[h].state.Promoted? && !g.issued[h].reaped ==> g.Rollback(h) == Err(ReaperConfirmationRequired))
  {
    ReachedInv(before);
    var g := Reached(before);
    forall h | h in g.live && g.closedAt.Some?
      ensures g.Known(h) && g.issued[h].cancelled && g.issued[h].generation <= g.closedAt.value
    {
      assert Fenced(g, g.issued[h]);
    }
  }

  /**
    A close separates generations for good: whatever runs afterwards, a handle issued before
    it never becomes promoted or completed, a promoted one ends only with its reaped flag set,
    and every handle issued after it has a strictly later generation than all issued before it.
   */
  lemma GenerationSeparation(before: seq<Event>, after: seq<Event>, prior: nat)
    requires Reached(before).closedAt.Some?
    requires prior < |Reached(before).issued|
    ensures var g, t := Reached(before), Run(Reached(before), after);
            && |g.issued| <= |t.issued|
            && (forall h | |g.issued| <= h < |t.issued| ::
                  g.issued[prior].generation <= g.closedAt.value < t.issued[h].generation)
            && (t.issued[prior].state.Promoted? ==> g.issued[prior].state.Promoted?)
            && (t.issued[prior].state.Completed? ==> g.issued[prior].state.Completed?)
            && (g.issued[prior].state.Promoted? && t.issued[prior].state.Terminal() ==> t.issued[prior].reaped)
            && (prior in t.live ==> t.closedAt == g.closedAt && |t.issued| == |g.issued|)
  {
    ReachedInv(before);
    var g := Reached(before);
    RunFrom(g, after);
    assert Fenced(g, g.issued[prior]) && Bounded(g, g.issued[prior]);
    var t := Run(g, after);
    assert HandleEvolves(g, t, prior);
    if prior in t.live {
      ClosedAdmitsNothing(g, after);
    }
  }

  /** As long as the target is still closed at the generation it was closed at, nothing was admitted. */
  lemma {:induction false} ClosedAdmitsNothing(g: Gate, events: seq<Event>)
    requires Inv(g) && g.closedAt.Some? && g.live != {}
    ensures var t := Run(g, events);
            (exists h :: h in g.live && h in t.live) ==> |t.issued| == |g.issued|
    decreases |events|
  {
    if events != [] {
      StepKeepsInv(g, events[0]);
      StepEvolves(g, g, events[0]);
      var s, t := Step(g, events[0]), Run(Step(g, events[0]), events[1..]);
      if h :| h in g.live && h in t.live {
        assert HandleEvolves(g, s, h);
        RunFrom(s, events[1..]);
        assert HandleEvolves(s, t, h);
        ClosedAdmitsNothing(s, events[1..]);
      }
    }
  }

  // ----- draining a closed target

  lemma {:induction false} RunSplits(g: Gate, first: seq<Event>, second: seq<Event>)
    ensures Run(g, first + second) == Run(Run(g, first), second)
    decreases |first|
  {
    if first == [] {
      assert first + second == second;
    } else {
      assert (first + second)[1..] == first[1..] + second;
      RunSplits(Step(g, first[0]), first[1..], second);
    }
  }

  /** Every live handle of a closed target accepts confirm_reaped and then abandon, which takes exactly it out. */
  lemma DrainOne(before: seq<Event>, h: nat)
    requires Reached(before).closedAt.Some? && h in Reached(before).live
    ensures var g := Reached(before);
            && g.Known(h) && g.ConfirmReaped(h).Ok?
            && g.ConfirmReaped(h).value.Abandon(h).Ok?
            && var t := g.ConfirmReaped(h).value.Abandon(h).value;
            && t.live == g.live - {h} && |t.live| == |g.live| - 1
            && t.closedAt == g.closedAt && t.snapshot == g.snapshot
            && t.issued[h].state.Abandoned?
            && forall k | 0 <= k < |g.issued| && k != h :: t.issued[k] == g.issued[k]
  {
    ReachedInv(before);
    assert Fenced(Reached(before), Reached(before).issued[h]);
  }

  lemma {:induction false} DrainAll(before: seq<Event>) returns (events: seq<Event>)
    requires Reached(before).closedAt.Some?
    ensures |events| == 2 * |Reached(before).live|
    ensures var t := Run(Reached(before), events);
            t.live == {} && t.closedAt == Reached(before).closedAt && t.snapshot == Reached(before).snapshot
    decreases |Reached(before).live|
  {
    ReachedInv(before);
    var g := Reached(before);
    events := [];
    if h :| h in g.live {
      DrainOne(before, h);
      var pair := [ConfirmReaped(h), Abandon(h)];
      var mid := Step(g, pair[0]);
      assert Run(g, pair) == Run(mid, pair[1..]) == Step(mid, pair[1]);
      RunSplits(Unpublished, before, pair);
      var rest := DrainAll(before + pair);
      RunSplits(g, pair, rest);
      events := pair + rest;
    }
  }

  /**
    A closed target can always be reopened: reap and abandon each live handle, publish a later
    snapshot, reopen. Before the last handle is gone, reopening is refused.
   */
  lemma ClosedTargetCanReopen(before: seq<Event>, s: TargetSnapshot)
    requires Reached(before).closedAt.Some? && s.generation > Reached(before).closedAt.value
    requires Reached(before).snapshot.Some? ==> s.generation >= Reached(before).snapshot.value.generation
    ensures Reached(before).live != {} ==> Reached(before).Reopen().Err?
    ensures exists events: seq<Event> ::
              && |events| == 2 * |Reached(before).live| + 2
              && var t := Run(Reached(before), events);
                 t.closedAt.None? && t.live == {} && t.snapshot == Some(s)
  {
    ReachedInv(before);
    var g := Reached(before);
    var drain := DrainAll(before);
    var tail := [Publish(s), Reopen];
    var mid := Run(g, drain);
    assert Run(mid, tail) == Run(Step(mid, tail[0]), tail[1..]) == Step(Step(mid, tail[0]), tail[1]);
    RunSplits(g, drain, tail);
    assert |drain + tail| == 2 * |g.live| + 2;
  }

  // ----- accounting

  ghost function InState(g: Gate, state: AdmissionState): set<nat> {
    set h | 0 <= h < |g.issued| && g.issued[h].state == state
  }

  ghost function Numbers(n: nat): (s: set<nat>)
    ensures |s| == n && forall h: nat :: h in s <==> h < n
  {
    if n == 0 then {} else Numbers(n - 1) + {n - 1}
  }

  lemma FourPartition(n: nat, a: set<nat>, b: set<nat>, c: set<nat>, d: set<nat>)
    requires a !! b !! c !! d
    requires forall h: nat :: h < n <==> h in a || h in b || h in c || h in d
    ensures n == |a| + |b| + |c| + |d|
  {
    assert Numbers(n) == ((a + b) + c) + d;
  }

  /** Handles issued = live + rolled back + completed + abandoned, and live means pending or promoted. */
  lemma Accounting(before: seq<Event>)
    ensures var g := Reached(before);
            && g.live == InState(g, Pending) + InState(g, Promoted)
            && |g.issued| == |g.live| + |InState(g, RolledBack)| + |InState(g, Completed)| + |InState(g, Abandoned)|
  {
    ReachedInv(before);
    hide Run, Step;
    AccountingOf(Reached(before));
  }

  /** Every handle is in exactly one of the four places. */
  lemma LiveOrEnded(g: Gate)
    requires LiveExact(g)
    ensures g.live == InState(g, Pending) + InState(g, Promoted)
    ensures forall h: nat :: h < |g.issued| <==>
              h in g.live || h in InState(g, RolledBack) || h in InState(g, Completed) || h in InState(g, Abandoned)
    ensures g.live !! InState(g, RolledBack) !! InState(g, Completed) !! InState(g, Abandoned)
  {
    forall h: nat | h < |g.issued|
      ensures h in g.live || h in InState(g, RolledBack) || h in InState(g, Completed) || h in InState(g, Abandoned)
    {
    }
  }

  lemma AccountingOf(g: Gate)
    requires LiveExact(g)
    ensures g.live == InState(g, Pending) + InState(g, Promoted)
    ensures |g.issued| == |g.live| + |InState(g, RolledBack)| + |InState(g, Completed)| + |InState(g, Abandoned)|
  {
    LiveOrEnded(g);
    hide InState, LiveExact;
    FourPartition(|g.issued|, g.live, InState(g, RolledBack), InState(g, Completed), InState(g, Abandoned));
  }

  /** A disposed handle is never touched again. */
  lemma TerminalIsAbsorbing(before: seq<Event>, after: seq<Event>, h: nat)
    requires h < |Reached(before).issued| && Reached(before).issued[h].state.Terminal()
    ensures var t := Run(Reached(before), after);
            h < |t.issued| && t.issued[h] == Reached(before).issued[h] && h !in t.live
  {
    ReachedInv(before);
    RunFrom(Reached(before), after);
    assert HandleEvolves(Reached(before), Run(Reached(before), after), h);
  }

  // ----- the execution-epoch fence

  /** An ssh-tier operation that was live across a recorded execution transition never completes. */
  lemma SpanningSshNeverCompletes(before: seq<Event>, generation: int, after: seq<Event>, h: nat)
    requires h in Reached(before).live && Reached(before).Known(h) && Reached(before).issued[h].op.SshTier?
    requires Reached(before).GenerationCurrent(generation)
    ensures var t := Run(Reached(before).NoteTransition(generation), after);
            h < |t.issued| && !t.issued[h].state.Completed?
  {
    ReachedInv(before);
    var g := Reached(before);
    var s := g.NoteTransition(generation);
    StepKeepsInv(g, NoteTransition(generation));
    assert Bounded(g, g.issued[h]);
    RunFrom(s, after);
    assert HandleEvolves(s, Run(s, after), h);
  }

  /**
    The cancel a halt raised, however late it runs: at an unchanged generation it sets the fence of
    every still-live ssh-tier handle of that generation admitted before the halt, and of no transport.open handle.
   */
  lemma DelayedCancelReaches(before: seq<Event>, generation: int, after: seq<Event>)
    requires Reached(before).GenerationCurrent(generation)
    requires Run(Reached(before).NoteTransition(generation), after).GenerationCurrent(generation)
    ensures var g := Reached(before);
            var halted := g.NoteTransition(generation);
            var t := Run(halted, after);
            var u := t.CancelSsh(generation, halted.epoch);
            && |g.issued| <= |t.issued| == |u.issued|
            && (forall h | 0 <= h < |g.issued| && h in t.live && t.issued[h].op.SshTier?
                           && t.issued[h].generation == generation :: u.issued[h].cancelled)
            && (forall h | 0 <= h < |t.issued| && t.issued[h].op.TransportOpen? :: u.issued[h] == t.issued[h])
  {
    ReachedInv(before);
    var g := Reached(before);
    var halted := g.NoteTransition(generation);
    StepKeepsInv(g, NoteTransition(generation));
    RunFrom(halted, after);
    var t := Run(halted, after);
    forall h | 0 <= h < |g.issued|
      ensures h < |t.issued| && t.issued[h].admitEpoch <= halted.epoch
    {
      assert Bounded(g, g.issued[h]) && HandleEvolves(halted, t, h);
    }
  }

  /** The same cancel leaves alone everything admitted after a later transition (a resume). */
  lemma DelayedCancelSpares(before: seq<Event>, generation: int, between: seq<Event>, after: seq<Event>)
    requires Reached(before).GenerationCurrent(generation)
    requires Run(Reached(before).NoteTransition(generation), between).GenerationCurrent(generation)
    ensures var halted := Reached(before).NoteTransition(generation);
            var resumed := Run(halted, between).NoteTransition(generation);
            var t := Run(resumed, after);
            var u := t.CancelSsh(generation, halted.epoch);
            && |resumed.issued| <= |t.issued| == |u.issued|
            && forall h | |resumed.issued| <= h < |t.issued| :: u.issued[h] == t.issued[h]
  {
    ReachedInv(before);
    var g := Reached(before);
    var halted := g.NoteTransition(generation);
    StepKeepsInv(g, NoteTransition(generation));
    RunFrom(halted, between);
    var later := Run(halted, between);
    StepKeepsInv(later, NoteTransition(generation));
    RunFrom(later.NoteTransition(generation), after);
  }
}
