/** What holds after every run of the coordination protocol, whatever its interleaving. */
module CoordinationRuns {
  import opened Common
  import opened Admission
  import opened Coordination
  import opened CoordinationSteps

  lemma {:induction false} PerformKeepsInv(w: World, actions: seq<Action>)
    requires WorldInv(w)
    ensures WorldInv(Perform(w, actions))
    decreases |actions|
  {
    hide WorldInv, Next;
    if actions != [] {
      NextKeepsInv(w, actions[0]);
      PerformKeepsInv(Next(w, actions[0]), actions[1..]);
    }
  }

  /** The world after a run from process start. */
  function Reached(actions: seq<Action>): World {
    Perform(Idle, actions)
  }

  lemma ReachedInv(actions: seq<Action>)
    ensures WorldInv(Reached(actions))
  {
    PerformKeepsInv(Idle, actions);
  }

  /** The session has taken the guard, and neither its unwind, its owner nor a teardown has begun to give it back. */
  ghost predicate OwnsTarget(w: World, i: nat) {
    && i < |w.sessions| && w.sessions[i].guard.Some? && !Unwound(w.sessions[i], 5)
    && w.sessions[i].owner.given < 3 && i !in w.touched
  }

  /** At most one stop-capable session owns the target, and its token is the one the guard holds. */
  lemma AtMostOneOwner(actions: seq<Action>, i: nat, j: nat)
    requires OwnsTarget(Reached(actions), i) && OwnsTarget(Reached(actions), j)
    ensures i == j
    ensures Reached(actions).holder == Reached(actions).sessions[i].guard
  {
    ReachedInv(actions);
    var w := Reached(actions);
    assert LocalInv(View(w, i)) && LocalInv(View(w, j));
  }

  /** The open has returned or failed, and no call of close or force_release is running. */
  ghost predicate Settled(s: Session) {
    s.phase.Failed? || (s.phase.Opened? && s.owner.call.None?)
  }

  /**
    One closing reset against any number of opens, closes and force_releases, in every interleaving:
    when whatever was delivered to a session has torn it down, a settled session admitted before the
    reset holds no guard and no lease, has no handle entry and no subscriber, and has no token entry unless
    it failed without a stored record. Nor has it a live admission binding, unless it is a recovery open that
    failed after it had been promoted or force_release let go of its handle.
   */
  lemma ResetLeavesNothing(actions: seq<Action>, r: nat, i: nat)
    requires var w := Reached(actions);
             && r < |w.resets| && i in w.resets[r].admitted
             && i < |w.sessions| && Settled(w.sessions[i])
             && (Targeted(w.resets, i) ==> i in w.torn)
    ensures var l := View(Reached(actions), i);
            && !l.guardHeld && !l.leaseHeld
            && (l.live ==> (l.s.phase.Failed? && l.s.recovery && l.s.promoted) || l.s.owner.stranded)
            && l.entry.None? && !l.subscribed && (l.token.Some? ==> l.s.phase.Failed? && !l.s.recorded)
  {
    ReachedInv(actions);
    var w := Reached(actions);
    assert LocalInv(View(w, i)) && ResetInv(w.resets[r], i, View(w, i));
  }

  // ----- stale teardown

  ghost predicate TeardownElsewhere(w: World, actions: seq<Action>, j: nat)
    decreases |actions|
  {
    actions != [] ==>
      && (actions[0].Spawn? || actions[0].Work? || actions[0].Unwind? || actions[0].StartEnd? || actions[0].EndStep?)
      && Owner(w, actions[0]) != Some(j)
      && TeardownElsewhere(Next(w, actions[0]), actions[1..], j)
  }

  lemma {:induction false} TeardownLeaves(w: World, actions: seq<Action>, j: nat)
    requires WorldInv(w) && j < |w.sessions| && TeardownElsewhere(w, actions, j)
    ensures j < |Perform(w, actions).sessions| && View(Perform(w, actions), j) == View(w, j)
    decreases |actions|
  {
    hide WorldInv, Next, View, Owner;
    if actions != [] {
      NextKeepsInv(w, actions[0]);
      TeardownStepLeaves(w, actions[0], j);
      TeardownLeaves(Next(w, actions[0]), actions[1..], j);
    }
  }

  lemma TeardownStepLeaves(w: World, a: Action, j: nat)
    requires WorldInv(w) && j < |w.sessions| && Owner(w, a) != Some(j)
    requires a.Spawn? || a.Work? || a.Unwind? || a.StartEnd? || a.EndStep?
    ensures j < |Next(w, a).sessions| && View(Next(w, a), j) == View(w, j)
  {
    hide Act, View, WorldInv;
    if Enabled(w, a) {
      BothNamed(w, Owner(w, a).value, j);
      Bystander(w, a, j);
    }
  }

  /**
    However often and however late other sessions' invalidate, force_drop, close and force_release runs
    and their unwinds take their steps, a session's guard, lease, token, handle, record and subscription stay as they were.
   */
  lemma StaleTeardownIsHarmless(before: seq<Action>, teardown: seq<Action>, j: nat)
    requires j < |Reached(before).sessions| && TeardownElsewhere(Reached(before), teardown, j)
    ensures var w, v := Reached(before), Perform(Reached(before), teardown);
            j < |v.sessions| && View(v, j) == View(w, j)
  {
    ReachedInv(before);
    TeardownLeaves(Reached(before), teardown, j);
  }

  // ----- runs put together

  const Fine := OpenRequest(1, RequestFacts(true, true, true, true, true, true))

  lemma {:induction false} PerformSplits(w: World, first: seq<Action>, second: seq<Action>)
    ensures Perform(w, first + second) == Perform(Perform(w, first), second)
    decreases |first|
  {
    hide Next;
    if first == [] {
      assert first + second == second;
    } else {
      assert (first + second)[1..] == first[1..] + second;
      PerformSplits(Next(w, first[0]), first[1..], second);
    }
  }

  lemma PerformThree(w: World, a: Action, b: Action, c: Action)
    ensures Perform(w, [a, b, c]) == Next(Next(Next(w, a), b), c)
  {
    hide Next;
    var r := [a, b, c];
    assert r[1..] == [b, c] && r[1..][1..] == [c] && r[1..][1..][1..] == [];
    assert Perform(Next(Next(w, a), b), [c]) == Next(Next(Next(w, a), b), c);
  }
}
