/**
  What each critical section of the gate grants and leaves, and which refusal comes first, told without
  the gate's own functions: every operation against an ordered list of checks.
 */
module AdmissionLaws {
  import opened Common
  import opened Admission
  import opened AdmissionRuns

  datatype Check = Check(passes: bool, refusal: Refusal)

  /** The gate is `granted` if every check passes, and the refusal is that of the first that does not. */
  ghost predicate DecidedBy(checks: seq<Check>, r: Result<Gate, Refusal>, granted: Gate) {
    && (r.Ok? <==> forall i | 0 <= i < |checks| :: checks[i].passes)
    && (r.Ok? ==> r.value == granted)
    && (forall i | 0 <= i < |checks| && !checks[i].passes && forall j | 0 <= j < i :: checks[j].passes ::
          r == Err(checks[i].refusal))
  }

  /** The first failing check, or their number; the later lines spell the first one out for lists of up to eleven. */
  lemma FirstFailing(checks: seq<Check>) returns (i: nat)
    ensures i <= |checks| && (forall j | 0 <= j < i :: checks[j].passes) && (i < |checks| ==> !checks[i].passes)
    ensures i > 0 ==> checks[0].passes && (i > 1 ==> checks[1].passes && (i > 2 ==> checks[2].passes))
    ensures i > 3 ==> checks[3].passes && (i > 4 ==> checks[4].passes && (i > 5 ==> checks[5].passes))
    ensures i > 6 ==> checks[6].passes && (i > 7 ==> checks[7].passes && (i > 8 ==> checks[8].passes))
    ensures i > 9 ==> checks[9].passes && (i > 10 ==> checks[10].passes)
  {
    i := 0;
    while i < |checks| && checks[i].passes
      invariant i <= |checks| && forall j | 0 <= j < i :: checks[j].passes
    {
      i := i + 1;
    }
  }

  lemma Decides(checks: seq<Check>, i: nat, r: Result<Gate, Refusal>, granted: Gate)
    requires i <= |checks| && (forall j | 0 <= j < i :: checks[j].passes) && (i < |checks| ==> !checks[i].passes)
    requires r == if i < |checks| then Err(checks[i].refusal) else Ok(granted)
    ensures DecidedBy(checks, r, granted)
  {
  }

  /** One more pending handle, bound to this incarnation and to the present epoch. */
  function Issuing(g: Gate, generation: int, op: AdmissionOp, recovery: bool): Gate {
    g.(issued := g.issued + [Binding(generation, g.epoch, op, recovery, Pending, false, false)], live := g.live + {|g.issued|})
  }

  predicate InStates(g: Gate, states: set<TargetState>) {
    g.snapshot.Some? && g.snapshot.value.state in states
  }

  /** The recovery mark is of an earlier incarnation than the published one, if there is one. */
  predicate Ungated(g: Gate) {
    g.recovery.Some? ==> g.snapshot.Some? && g.recovery.value < g.snapshot.value.generation
  }

  predicate Fresh(g: Gate, generation: int) {
    g.snapshot.Some? && g.snapshot.value.generation == generation
  }

  /** The events that can be refused. */
  predicate Refusable(e: Event) {
    e.Publish? || e.Admit? || e.AdmitRecovery? || e.AdmitSsh? || e.Promote? || e.Complete? || e.Rollback? || e.ConfirmReaped?
    || e.Abandon? || e.Reopen?
  }

  predicate Named(g: Gate, e: Event) {
    OfHandle(e) ==> g.Known(e.h)
  }

  /** What the source checks before it grants, in its order. */
  function Checks(g: Gate, e: Event): seq<Check>
    requires Refusable(e) && Named(g, e)
  {
    match e
    case Publish(s) => [Check(g.snapshot.Some? ==> g.snapshot.value.generation <= s.generation, SnapshotGenerationRegression)]
    case Admit(request) => OpenChecks(g, request)
    case AdmitRecovery(request) => RecoveryChecks(g, request)
    case AdmitSsh(request) => SshChecks(g, request)
    case Promote(h) =>
      [Check(h in g.live && g.issued[h].state == Pending, HandleNotPending), Check(!g.issued[h].cancelled, AdmissionCancelled)]
    case Complete(h) =>
      var b := g.issued[h];
      [Check(!b.cancelled, AdmissionCancelled),
       Check(b.op == SshTier ==> b.admitEpoch == g.epoch, ExecutionStateChanged),
       Check(b.op == TransportOpen ==> b.state != Pending, InvalidTerminalTransition),
       Disposable(g, h)]
    case Rollback(h) =>
      var b := g.issued[h];
      [Check(b.state == Promoted && g.closedAt.Some? ==> b.reaped, ReaperConfirmationRequired), Disposable(g, h)]
    case ConfirmReaped(h) =>
      [Check(g.closedAt.Some? && g.issued[h].cancelled, ReapNotPermitted), Check(h in g.live, HandleAlreadyDisposed)]
    case Abandon(h) =>
      [Check(g.closedAt.Some? && g.issued[h].cancelled, AbandonNotPermitted),
       Check(g.issued[h].reaped, ReaperConfirmationRequired), Disposable(g, h)]
    case Reopen =>
      [Check(g.closedAt.Some? ==> g.snapshot.Some? && g.closedAt.value < g.snapshot.value.generation, GenerationNotAdvanced),
       Check(g.closedAt.Some? ==> g.live == {}, BindingsOutstanding)]
  }

  function Disposable(g: Gate, h: nat): Check
    requires g.Known(h)
  {
    Check(h in g.live && g.issued[h].state in {Pending, Promoted}, HandleAlreadyDisposed)
  }

  /** An ordinary open needs a READY target. */
  function OpenChecks(g: Gate, request: OpenRequest): seq<Check> {
    var f := request.facts;
    [Check(f.keyMatches, TargetMismatch), Check(g.closedAt.None?, AdmissionClosed), Check(Ungated(g), RecoveryRequired),
     Check(Fresh(g, request.generation), StaleHandle), Check(f.refMatches, ForeignRef), Check(f.capsSuffice, InsufficientCaps),
     Check(f.platformMatches, StalePlatform), Check(f.leaseMatches, StaleLease), Check(f.leaseFresh, LeaseNearExpiry),
     Check(InStates(g, {Ready}), TargetNotReady)]
  }

  /** A recovery open takes a DEBUGGING one too, but needs the mark to be there, of this very incarnation. */
  function RecoveryChecks(g: Gate, request: OpenRequest): seq<Check> {
    var f := request.facts;
    [Check(f.keyMatches, TargetMismatch), Check(g.closedAt.None?, AdmissionClosed), Check(Fresh(g, request.generation), StaleHandle),
     Check(f.refMatches, ForeignRef), Check(f.capsSuffice, InsufficientCaps), Check(f.platformMatches, StalePlatform),
     Check(f.leaseMatches, StaleLease), Check(f.leaseFresh, LeaseNearExpiry),
     Check(InStates(g, {Ready, Debugging}), TargetNotReady),
     Check(g.recovery == Some(request.generation), NotRecoveryRequired)]
  }

  /** ssh-tier work needs no proof of a READY target, and of a DEBUGGING one a fresh one of this epoch that says EXECUTING. */
  function SshChecks(g: Gate, request: SshRequest): seq<Check> {
    var f, p, ready := request.facts, request.proof, InStates(g, {Ready});
    [Check(g.closedAt.None?, AdmissionClosed), Check(Ungated(g), RecoveryRequired),
     Check(Fresh(g, request.generation), StaleHandle), Check(f.platformMatches, StalePlatform),
     Check(f.leaseMatches, StaleLease), Check(f.leaseFresh, LeaseNearExpiry),
     Check(InStates(g, {Ready, Debugging}), TargetNotReady),
     Check(ready || (p.Some? && p.value.state in {Some(Executing), Some(Halted)}), ExecutionStateUnknown),
     Check(ready || (p.Some? && p.value.generation == request.generation), StaleHandle),
     Check(ready || (p.Some? && p.value.epoch == g.epoch), ExecutionStateUnknown),
     Check(ready || (p.Some? && p.value.state != Some(Halted)), TargetHalted)]
  }

  /** Handle h with another value, and off the list if that is a terminal one. */
  function With(g: Gate, h: nat, b: Binding): Gate
    requires g.Known(h)
  {
    g.(issued := g.issued[h := b], live := if b.state in {Pending, Promoted} then g.live else g.live - {h})
  }

  /** What a granted event leaves. */
  function Effect(g: Gate, e: Event): Gate
    requires Refusable(e) && Named(g, e)
  {
    match e
    case Publish(s) => g.(snapshot := Some(s))
    case Admit(request) => Issuing(g, request.generation, TransportOpen, false)
    case AdmitRecovery(request) => Issuing(g, request.generation, TransportOpen, true)
    case AdmitSsh(request) => Issuing(g, request.generation, SshTier, false)
    case Promote(h) => With(g, h, g.issued[h].(state := Promoted))
    case Complete(h) => With(g, h, g.issued[h].(state := Completed))
    case Rollback(h) => With(g, h, g.issued[h].(state := RolledBack))
    case ConfirmReaped(h) => g.(issued := g.issued[h := g.issued[h].(reaped := true)])
    case Abandon(h) => With(g, h, g.issued[h].(state := Abandoned))
    case Reopen => g.(closedAt := None)
  }

  /** What the gate says to it. */
  function Answer(g: Gate, e: Event): Result<Gate, Refusal>
    requires Refusable(e) && Named(g, e)
  {
    match e
    case Publish(s) => g.Publish(s)
    case Admit(request) => g.Admit(request)
    case AdmitRecovery(request) => g.AdmitRecovery(request)
    case AdmitSsh(request) => g.AdmitSsh(request)
    case Promote(h) => g.Promote(h)
    case Complete(h) => g.Complete(h)
    case Rollback(h) => g.Rollback(h)
    case ConfirmReaped(h) => g.ConfirmReaped(h)
    case Abandon(h) => g.Abandon(h)
    case Reopen => g.Reopen()
  }

  lemma AdmitDecided(g: Gate, request: OpenRequest)
    ensures DecidedBy(OpenChecks(g, request), g.Admit(request), Issuing(g, request.generation, TransportOpen, false))
  {
    var i := FirstFailing(OpenChecks(g, request));
    Decides(OpenChecks(g, request), i, g.Admit(request), Issuing(g, request.generation, TransportOpen, false));
  }

  lemma AdmitRecoveryDecided(g: Gate, request: OpenRequest)
    ensures DecidedBy(RecoveryChecks(g, request), g.AdmitRecovery(request), Issuing(g, request.generation, TransportOpen, true))
  {
    var i := FirstFailing(RecoveryChecks(g, request));
    Decides(RecoveryChecks(g, request), i, g.AdmitRecovery(request), Issuing(g, request.generation, TransportOpen, true));
  }

  lemma AdmitSshDecided(g: Gate, request: SshRequest)
    ensures DecidedBy(SshChecks(g, request), g.AdmitSsh(request), Issuing(g, request.generation, SshTier, false))
  {
    var i := FirstFailing(SshChecks(g, request));
    Decides(SshChecks(g, request), i, g.AdmitSsh(request), Issuing(g, request.generation, SshTier, false));
  }

  /**
    Every event that can be refused is decided by its list: granted, with the stated effect and no other,
    if and only if every check passes, and otherwise refused for the first that fails, changing nothing.
   */
  lemma EveryEventDecided(g: Gate, e: Event)
    requires Refusable(e) && Named(g, e)
    ensures DecidedBy(Checks(g, e), Answer(g, e), Effect(g, e))
    ensures Step(g, e) == if Answer(g, e).Ok? then Effect(g, e) else g
  {
    if e.Admit? {
      AdmitDecided(g, e.open);
    } else if e.AdmitRecovery? {
      AdmitRecoveryDecided(g, e.open);
    } else if e.AdmitSsh? {
      AdmitSshDecided(g, e.ssh);
    } else {
      var i := FirstFailing(Checks(g, e));
      Decides(Checks(g, e), i, Answer(g, e), Effect(g, e));
    }
  }

  // ----- the tables of a key

  /** t is g with the cancel fence set on the handles of `ids`, and perhaps another closure. */
  ghost predicate FencedAlone(g: Gate, t: Gate, ids: iset<nat>) {
    && t == g.(issued := t.issued, closedAt := t.closedAt) && |t.issued| == |g.issued|
    && forall h | 0 <= h < |g.issued| ::
         && t.issued[h] == g.issued[h].(cancelled := t.issued[h].cancelled)
         && (t.issued[h].cancelled <==> g.issued[h].cancelled || h in ids)
  }

  /** A close at an older incarnation than the one published does nothing; any other fences every live handle. */
  lemma CloseFences(g: Gate, generation: int)
    ensures var t := g.Close(generation);
            if g.closedAt.None? && g.snapshot.Some? && generation < g.snapshot.value.generation then t == g
            else FencedAlone(g, t, iset h | h in g.live)
                 && t.closedAt == Some(if g.closedAt.Some? then g.closedAt.value else generation)
  {
  }

  /** A halt's cancel fences the live ssh-tier handles of its incarnation admitted no later than the halt. */
  lemma CancelSshFences(g: Gate, generation: int, haltEpoch: nat)
    ensures var t := g.CancelSsh(generation, haltEpoch);
            && t.closedAt == g.closedAt
            && FencedAlone(g, t, iset h | Fresh(g, generation) && h in g.live && h < |g.issued| && g.issued[h].op == SshTier
                                          && g.issued[h].generation == generation && g.issued[h].admitEpoch <= haltEpoch)
  {
  }

  lemma RecoveryMarks(g: Gate, generation: int)
    ensures g.MarkRecovery(generation)
            == g.(recovery := Some(if g.recovery.Some? && g.recovery.value > generation then g.recovery.value else generation))
    ensures g.ClearRecovery(generation) == g.(recovery := if g.recovery == Some(generation) then None else g.recovery)
    ensures g.NoteTransition(generation) == g.(epoch := if Fresh(g, generation) then g.epoch + 1 else g.epoch)
  {
  }

  // ----- the fence of an ssh-tier grant

  lemma RunOneMore(g: Gate, events: seq<Event>, e: Event)
    ensures Run(g, events + [e]) == Step(Run(g, events), e)
  {
    RunSplits(g, events, [e]);
    hide Step;
    assert [e][1..] == [];
  }

  /**
    Whatever ssh-tier request the gate grants, a halt that comes next fences: once the transition is noted
    its handle never completes, and the halt's cancel reaches it.
   */
  lemma HaltReachesEveryGrant(before: seq<Event>, request: SshRequest, after: seq<Event>)
    requires Reached(before).AdmitSsh(request).Ok?
    ensures var h := |Reached(before).issued|;
            var halted := Step(Reached(before), AdmitSsh(request)).NoteTransition(request.generation);
            && h in halted.live && halted.Known(h)
            && halted.CancelSsh(request.generation, halted.epoch).issued[h].cancelled
            && var t := Run(halted, after); h < |t.issued| && !t.issued[h].state.Completed?
  {
    var g := Reached(before);
    EveryEventDecided(g, AdmitSsh(request));
    RunOneMore(Unpublished, before, AdmitSsh(request));
    var h := |g.issued|;
    var granted := Step(g, AdmitSsh(request));
    assert granted == Issuing(g, request.generation, SshTier, false);
    assert granted.GenerationCurrent(request.generation);
    SpanningSshNeverCompletes(before + [AdmitSsh(request)], request.generation, after, h);
    CancelSshFences(granted.NoteTransition(request.generation), request.generation, granted.NoteTransition(request.generation).epoch);
  }
}
