/**
  The admission gate of one target key: snapshot, lifecycle closure, recovery
  tombstone, execution epoch and every handle ever issued. Each member function
  of Gate is one critical section of the per-key lock; a refusal leaves the gate
  as it was.
 */
module Admission {
  import opened Common

  datatype AdmissionOp = TransportOpen | SshTier

  datatype AdmissionState = Pending | Promoted | RolledBack | Completed | Abandoned {
    predicate Terminal() {
      RolledBack? || Completed? || Abandoned?
    }
  }

  datatype TargetState = Acquiring | Preparing | Booting | Ready | Debugging | Resetting | Crashed | Releasing {
    predicate Live() {
      Ready? || Debugging?
    }
  }

  datatype TargetSnapshot = TargetSnapshot(generation: int, state: TargetState)

  datatype Refusal =
    | TargetMismatch | AdmissionClosed | RecoveryRequired | StaleHandle | ForeignRef | InsufficientCaps
    | StalePlatform | StaleLease | LeaseNearExpiry | TargetNotReady | NotRecoveryRequired
    | ExecutionStateUnknown | TargetHalted | HandleNotPending | AdmissionCancelled | ExecutionStateChanged
    | InvalidTerminalTransition | HandleAlreadyDisposed | ReaperConfirmationRequired | ReapNotPermitted
    | AbandonNotPermitted | GenerationNotAdvanced | BindingsOutstanding | SnapshotGenerationRegression

  /** Outcomes of comparing a request with the authoritative snapshot. */
  datatype RequestFacts = RequestFacts(
    keyMatches: bool,
    refMatches: bool,
    capsSuffice: bool,
    platformMatches: bool,
    leaseMatches: bool,
    leaseFresh: bool)

  datatype OpenRequest = OpenRequest(generation: int, facts: RequestFacts)

  /** A proof's state is raw data: it may name no execution state at all. */
  datatype ExecutionProof = ExecutionProof(generation: int, epoch: nat, state: Option<ExecutionState>)

  datatype SshRequest = SshRequest(generation: int, facts: RequestFacts, proof: Option<ExecutionProof>)

  /** The value of one admission handle. */
  datatype Binding = Binding(
    generation: int,
    admitEpoch: nat,
    op: AdmissionOp,
    recovery: bool,
    state: AdmissionState,
    cancelled: bool,
    reaped: bool)

  /** Handles are named by their position in `issued`; `live` is the binding list. */
  datatype Gate = Gate(
    snapshot: Option<TargetSnapshot>,
    closedAt: Option<int>,
    recovery: Option<int>,
    epoch: nat,
    issued: seq<Binding>,
    live: set<nat>)
  {
    predicate GenerationCurrent(generation: int) {
      snapshot.Some? && snapshot.value.generation == generation
    }

    predicate Known(h: nat) {
      h < |issued|
    }

    function Publish(s: TargetSnapshot): Result<Gate, Refusal> {
      if snapshot.Some? && s.generation < snapshot.value.generation then Err(SnapshotGenerationRegression)
      else Ok(this.(snapshot := Some(s)))
    }

    function BindSnapshot(generation: int, recoveryMode: bool): Result<TargetSnapshot, Refusal> {
      if closedAt.Some? then Err(AdmissionClosed)
      else if !recoveryMode && recovery.Some?
              && (snapshot.None? || recovery.value >= snapshot.value.generation) then Err(RecoveryRequired)
      else if snapshot.None? || generation != snapshot.value.generation then Err(StaleHandle)
      else Ok(snapshot.value)
    }

    function ValidateOpen(request: OpenRequest, recoveryMode: bool): Result<TargetSnapshot, Refusal> {
      if !request.facts.keyMatches then Err(TargetMismatch)
      else
        var s :- BindSnapshot(request.generation, recoveryMode);
        if !request.facts.refMatches then Err(ForeignRef)
        else if !request.facts.capsSuffice then Err(InsufficientCaps)
        else CheckSharedFacts(s, request.facts)
    }

    /** Platform drift, lease identity, lease expiry and liveness, in that order. */
    static function CheckSharedFacts(s: TargetSnapshot, facts: RequestFacts): Result<TargetSnapshot, Refusal> {
      if !facts.platformMatches then Err(StalePlatform)
      else if !facts.leaseMatches then Err(StaleLease)
      else if !facts.leaseFresh then Err(LeaseNearExpiry)
      else if !s.state.Live() then Err(TargetNotReady)
      else Ok(s)
    }

    function Register(op: AdmissionOp, s: TargetSnapshot, recoveryMode: bool): Gate {
      this.(issued := issued + [Binding(s.generation, epoch, op, recoveryMode, Pending, false, false)],
            live := live + {|issued|})
    }

    /** A granted handle is number |issued| of the gate it was granted by. */
    function Admit(request: OpenRequest): Result<Gate, Refusal> {
      var s :- ValidateOpen(request, false);
      if !s.state.Ready? then Err(TargetNotReady) else Ok(Register(TransportOpen, s, false))
    }

    function AdmitRecovery(request: OpenRequest): Result<Gate, Refusal> {
      var s :- ValidateOpen(request, true);
      if recovery != Some(s.generation) then Err(NotRecoveryRequired)
      else Ok(Register(TransportOpen, s, true))
    }

    function RequireExecutingProof(s: TargetSnapshot, proof: Option<ExecutionProof>): Result<(), Refusal> {
      if proof.None? || proof.value.state.None? || proof.value.state.value.Unknown? then Err(ExecutionStateUnknown)
      else if proof.value.generation != s.generation then Err(StaleHandle)
      else if proof.value.epoch != epoch then Err(ExecutionStateUnknown)
      else if proof.value.state.value.Halted? then Err(TargetHalted)
      else Ok(())
    }

    function ValidateSsh(request: SshRequest): Result<TargetSnapshot, Refusal> {
      var bound :- BindSnapshot(request.generation, false);
      var s :- CheckSharedFacts(bound, request.facts);
      var _ :- if s.state.Ready? then Ok(()) else RequireExecutingProof(s, request.proof);
      Ok(s)
    }

    function AdmitSsh(request: SshRequest): Result<Gate, Refusal> {
      var s :- ValidateSsh(request);
      Ok(Register(SshTier, s, false))
    }

    function Promote(h: nat): Result<Gate, Refusal> {
      if h !in live || !Known(h) || !issued[h].state.Pending? then Err(HandleNotPending)
      else if issued[h].cancelled then Err(AdmissionCancelled)
      else Ok(this.(issued := issued[h := issued[h].(state := Promoted)]))
    }

    function Dispose(h: nat, terminal: AdmissionState): Result<Gate, Refusal>
      requires Known(h)
    {
      if h !in live || issued[h].state.Terminal() then Err(HandleAlreadyDisposed)
      else Ok(this.(issued := issued[h := issued[h].(state := terminal)], live := live - {h}))
    }

    function Complete(h: nat): Result<Gate, Refusal>
      requires Known(h)
    {
      if issued[h].cancelled then Err(AdmissionCancelled)
      else if issued[h].op.SshTier? && issued[h].admitEpoch != epoch then Err(ExecutionStateChanged)
      else if issued[h].state.Pending? && issued[h].op.TransportOpen? then Err(InvalidTerminalTransition)
      else Dispose(h, Completed)
    }

    function Rollback(h: nat): Result<Gate, Refusal>
      requires Known(h)
    {
      if issued[h].state.Promoted? && closedAt.Some? && !issued[h].reaped then Err(ReaperConfirmationRequired)
      else Dispose(h, RolledBack)
    }

    function ConfirmReaped(h: nat): Result<Gate, Refusal>
      requires Known(h)
    {
      if closedAt.None? || !issued[h].cancelled then Err(ReapNotPermitted)
      else if h !in live then Err(HandleAlreadyDisposed)
      else Ok(this.(issued := issued[h := issued[h].(reaped := true)]))
    }

    function Abandon(h: nat): Result<Gate, Refusal>
      requires Known(h)
    {
      if closedAt.None? || !issued[h].cancelled then Err(AbandonNotPermitted)
      else if !issued[h].reaped then Err(ReaperConfirmationRequired)
      else Dispose(h, Abandoned)
    }

    /** Sets the cancel fence on the handles of `ids`. */
    function Cancel(ids: set<nat>): Gate {
      this.(issued := seq(|issued|, h requires 0 <= h < |issued| =>
                      if h in ids then issued[h].(cancelled := true) else issued[h]))
    }

    predicate StaleClose(generation: int) {
      closedAt.None? && snapshot.Some? && snapshot.value.generation > generation
    }

    function Close(generation: int): Gate {
      if StaleClose(generation) then this
      else this.(closedAt := if closedAt.Some? then closedAt else Some(generation)).Cancel(live)
    }

    function Reopen(): Result<Gate, Refusal> {
      if closedAt.None? then Ok(this)
      else if snapshot.None? || snapshot.value.generation <= closedAt.value then Err(GenerationNotAdvanced)
      else if live != {} then Err(BindingsOutstanding)
      else Ok(this.(closedAt := None))
    }

    function MarkRecovery(generation: int): Gate {
      if recovery.Some? && generation < recovery.value then this else this.(recovery := Some(generation))
    }

    function ClearRecovery(expected: int): Gate {
      if recovery == Some(expected) then this.(recovery := None) else this
    }

    function NoteTransition(generation: int): Gate {
      if GenerationCurrent(generation) then this.(epoch := epoch + 1) else this
    }

    /** The live ssh-tier bindings a halt at `haltEpoch` cancels. */
    function SshInFlight(generation: int, haltEpoch: nat): set<nat> {
      set h | h in live && Known(h) && issued[h].op.SshTier?
              && issued[h].generation == generation && issued[h].admitEpoch <= haltEpoch
    }

    function CancelSsh(generation: int, haltEpoch: nat): Gate {
      if GenerationCurrent(generation) then Cancel(SshInFlight(generation, haltEpoch)) else this
    }
  }

  const Unpublished := Gate(None, None, None, 0, [], {})

  datatype Event =
    | Publish(snapshot: TargetSnapshot)
    | Admit(open: OpenRequest)
    | AdmitRecovery(open: OpenRequest)
    | AdmitSsh(ssh: SshRequest)
    | Promote(h: nat)
    | Complete(h: nat)
    | Rollback(h: nat)
    | ConfirmReaped(h: nat)
    | Abandon(h: nat)
    | Close(generation: int)
    | Reopen
    | MarkRecovery(generation: int)
    | ClearRecovery(generation: int)
    | NoteTransition(generation: int)
    | CancelSsh(generation: int, haltEpoch: nat)

  /** How an open asks for admission: through the recovery gate, or as ordinary work. */
  function Grant(g: Gate, recovery: bool, request: OpenRequest): Result<Gate, Refusal> {
    if recovery then g.AdmitRecovery(request) else g.Admit(request)
  }

  function AdmissionOf(recovery: bool, request: OpenRequest): Event {
    if recovery then AdmitRecovery(request) else Admit(request)
  }

  function Settle(g: Gate, r: Result<Gate, Refusal>): Gate {
    if r.Ok? then r.value else g
  }

  /** One critical section. A handle the service never issued is refused. */
  function Step(g: Gate, e: Event): Gate {
    match e
    case Publish(s) => Settle(g, g.Publish(s))
    case Admit(request) => Settle(g, g.Admit(request))
    case AdmitRecovery(request) => Settle(g, g.AdmitRecovery(request))
    case AdmitSsh(request) => Settle(g, g.AdmitSsh(request))
    case Promote(h) => Settle(g, g.Promote(h))
    case Complete(h) => if g.Known(h) then Settle(g, g.Complete(h)) else g
    case Rollback(h) => if g.Known(h) then Settle(g, g.Rollback(h)) else g
    case ConfirmReaped(h) => if g.Known(h) then Settle(g, g.ConfirmReaped(h)) else g
    case Abandon(h) => if g.Known(h) then Settle(g, g.Abandon(h)) else g
    case Close(generation) => g.Close(generation)
    case Reopen => Settle(g, g.Reopen())
    case MarkRecovery(generation) => g.MarkRecovery(generation)
    case ClearRecovery(generation) => g.ClearRecovery(generation)
    case NoteTransition(generation) => g.NoteTransition(generation)
    case CancelSsh(generation, haltEpoch) => g.CancelSsh(generation, haltEpoch)
  }

  function Run(g: Gate, events: seq<Event>): Gate
    decreases |events|
  {
    if events == [] then g else Run(Step(g, events[0]), events[1..])
  }

  // ----- what every reachable gate satisfies

  ghost predicate LiveExact(g: Gate) {
    forall h: nat :: h in g.live <==> g.Known(h) && !g.issued[h].state.Terminal()
  }

  ghost predicate Bounded(g: Gate, b: Binding) {
    b.admitEpoch <= g.epoch && g.snapshot.Some? && b.generation <= g.snapshot.value.generation
  }

  ghost predicate Fenced(g: Gate, b: Binding) {
    && (g.closedAt.Some? ==> b.generation <= g.closedAt.value && (b.state.Terminal() || b.cancelled))
    && (b.reaped ==> b.cancelled && (b.state.Terminal() || g.closedAt.Some?))
    && (b.state.Abandoned? ==> b.reaped)
  }

  ghost predicate Inv(g: Gate) {
    LiveExact(g) && forall h | 0 <= h < |g.issued| :: Bounded(g, g.issued[h]) && Fenced(g, g.issued[h])
  }

  predicate OfHandle(e: Event) {
    e.Promote? || e.Complete? || e.Rollback? || e.ConfirmReaped? || e.Abandon?
  }

  predicate OfAdmission(e: Event) {
    e.Admit? || e.AdmitRecovery? || e.AdmitSsh?
  }

  lemma HandleKeepsInv(g: Gate, e: Event)
    requires Inv(g) && OfHandle(e)
    ensures Inv(Step(g, e))
  {
  }

  lemma AdmissionKeepsInv(g: Gate, e: Event)
    requires Inv(g) && OfAdmission(e)
    ensures Inv(Step(g, e))
  {
  }

  lemma TableKeepsInv(g: Gate, e: Event)
    requires Inv(g) && !OfHandle(e) && !OfAdmission(e)
    ensures Inv(Step(g, e))
  {
  }

  lemma StepKeepsInv(g: Gate, e: Event)
    requires Inv(g)
    ensures Inv(Step(g, e))
  {
    hide Inv, Step;
    if OfHandle(e) {
      HandleKeepsInv(g, e);
    } else if OfAdmission(e) {
      AdmissionKeepsInv(g, e);
    } else {
      TableKeepsInv(g, e);
    }
  }

  lemma {:induction false} RunKeepsInv(g: Gate, events: seq<Event>)
    requires Inv(g)
    ensures Inv(Run(g, events))
    decreases |events|
  {
    if events != [] {
      StepKeepsInv(g, events[0]);
      RunKeepsInv(Step(g, events[0]), events[1..]);
    }
  }

  /** t differs from g in handle h alone. */
  ghost predicate OnlyHandle(g: Gate, t: Gate, h: nat) {
    && |t.issued| == |g.issued|
    && t.snapshot == g.snapshot && t.closedAt == g.closedAt && t.recovery == g.recovery && t.epoch == g.epoch
    && (forall k | 0 <= k < |g.issued| && k != h :: t.issued[k] == g.issued[k])
    && (forall k | k != h :: k in t.live <==> k in g.live)
  }

  lemma DisposalsAreLocal(g: Gate, h: nat)
    ensures OnlyHandle(g, Step(g, Complete(h)), h)
    ensures OnlyHandle(g, Step(g, Rollback(h)), h)
    ensures OnlyHandle(g, Step(g, Abandon(h)), h)
  {
  }

  lemma HandleStepsAreLocal(g: Gate, h: nat)
    ensures OnlyHandle(g, Step(g, Promote(h)), h)
    ensures OnlyHandle(g, Step(g, Complete(h)), h)
    ensures OnlyHandle(g, Step(g, Rollback(h)), h)
    ensures OnlyHandle(g, Step(g, ConfirmReaped(h)), h)
    ensures OnlyHandle(g, Step(g, Abandon(h)), h)
  {
    hide Gate.Complete, Gate.Rollback, Gate.Abandon;
    DisposalsAreLocal(g, h);
  }
}
